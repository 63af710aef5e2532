/** The `str.format` templates of the SQL model modules: literal text and
    named slots, read left to right. Each template module names its slots
    with a datatype of its own, so that `format(**kwargs)` becomes a function
    from slot names to the text put there. */
module Templates {

  datatype Template<K> =
    | End
    | Lit(text: string, rest: Template<K>)
    | Slot(key: K, rest: Template<K>)

  /** `template.format(**args)`. */
  function Format<K>(t: Template<K>, args: K -> string): string {
    match t
    case End => ""
    case Lit(x, r) => x + Format(r, args)
    case Slot(k, r) => args(k) + Format(r, args)
  }

  /** How many times slot `k` occurs in `t`. */
  function Count<K(==)>(t: Template<K>, k: K): nat {
    match t
    case End => 0
    case Lit(_, r) => Count(r, k)
    case Slot(k', r) => (if k' == k then 1 else 0) + Count(r, k)
  }

  /** The arguments `k1=v, k2=v, ...`: every slot receives the same text, as
      in `merge_condition.format(source_column=col, target_column=col)`. */
  function Same<K>(v: string): K -> string {
    _ => v
  }

  /** `[template.format(k1=v, k2=v) for v in values]`: one rendering per
      value, in order. */
  function FormatEach<K>(t: Template<K>, values: seq<string>): (r: seq<string>)
    ensures |r| == |values|
    ensures forall i :: 0 <= i < |values| ==> r[i] == Format(t, Same(values[i]))
  {
    if values == [] then []
    else [Format(t, Same(values[0]))] + FormatEach(t, values[1..])
  }
}
