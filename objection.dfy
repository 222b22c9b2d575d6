/**
 * The objection adapter, src/objection/objection.js. Only `l2Distance` is
 * live: the other builders of the file are commented out. The module also
 * re-exports `fromSql` and `toSql` of the shared codec.
 */
module Objection {
  import opened Fragments
  import SqlCodec

  /** `l2Distance(column, value)`: `objection.raw('?? <-> ?', [column, toSql(value)])`. */
  function L2Distance(column: string, value: Value): (f: Fragment)
    ensures Template(f) == "?? <-> ?"
    ensures Expanded(f) == "?? <-> " + ParamText(BindValue(SqlCodec.ToSql(value)))
    ensures Bindings(f) == [Ident(column)] + ParamBindings(BindValue(SqlCodec.ToSql(value)))
    ensures value.Arr? ==> Bindings(f) == [Ident(column), Bound(Str(SqlCodec.Encode(value.items)))]
  {
    RawInfix("<->", column, SqlCodec.ToSql(value))
  }
}
