/**
 * Flat parameter arrays with string keys and string values, and PHP's two
 * ways of combining them. The `+` operator of PHP keeps the LEFT operand's
 * value on a shared key; `array_merge` keeps the RIGHT one, as Dafny's map `+`
 * does.
 */
module PhpArray {

  type Params = map<string, string>

  /** PHP `a + b`: every key of either side; on a shared key the value of `a` wins. */
  function Union(a: Params, b: Params): (r: Params)
    ensures r.Keys == a.Keys + b.Keys
    ensures forall k :: k in a ==> r[k] == a[k]
    ensures forall k :: k in b && k !in a ==> r[k] == b[k]
  {
    b + a
  }

  /** PHP `array_merge(a, b)` on string keys: on a shared key the value of `b` wins. */
  function Merge(a: Params, b: Params): (r: Params)
    ensures r.Keys == a.Keys + b.Keys
    ensures forall k :: k in b ==> r[k] == b[k]
    ensures forall k :: k in a && k !in b ==> r[k] == a[k]
  {
    a + b
  }

  /** Reading an entry as PHP does: an unset key reads as null, which prints as the empty string. */
  function Field(m: Params, k: string): string
  {
    if k in m then m[k] else ""
  }

  /** `r` is `p` with the entries of `fixed` written over it, and nothing else. */
  ghost predicate Extends(r: Params, p: Params, fixed: Params)
  {
    && r.Keys == p.Keys + fixed.Keys
    && (forall k :: k in fixed ==> r[k] == fixed[k])
    && (forall k :: k in p && k !in fixed ==> r[k] == p[k])
  }
}
