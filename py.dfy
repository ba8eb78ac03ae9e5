/** Python-level vocabulary shared by every module of the model: optional values,
    raised exceptions and the `str.startswith` test. */
module Py {

  datatype Option<+T> = None | Some(value: T)

  /** The exceptions the modelled code can raise and does not catch. */
  datatype PyError =
    | KeyError(key: string)        // `d[key]` on a dict without that key
    | TypeError                    // subscripting or adding `None`
    | AttributeError(name: string) // calling a method the object does not define

  /** The value of a Python expression: either it evaluates or it raises. */
  datatype Result<+T> = Ok(value: T) | Raises(error: PyError)

  /** `s.startswith(p)`: case-sensitive, exact prefix match. */
  predicate StartsWith(s: string, p: string) {
    |p| <= |s| && s[..|p|] == p
  }

  /** `s.endswith(p)`. */
  predicate EndsWith(s: string, p: string) {
    |p| <= |s| && s[|s| - |p|..] == p
  }

  /** Python truthiness of an optional string: `None` and `""` are false. */
  predicate Truthy(s: Option<string>) {
    s.Some? && s.value != ""
  }

  /** Two strings that disagree at some index below both lengths cannot both
      be prefixes of the same string. */
  lemma PrefixesDisagree(s: string, p: string, q: string, k: nat)
    requires k < |p| && k < |q| && p[k] != q[k]
    ensures !(StartsWith(s, p) && StartsWith(s, q))
  {
  }

  /** `for x in xs: out.append(f(x))` when `f` may raise: the results in
      order, or the exception of the first element for which `f` raises. */
  function MapOrRaise<A, B>(f: A -> Result<B>, xs: seq<A>): (r: Result<seq<B>>)
    ensures r.Ok? <==> forall k :: 0 <= k < |xs| ==> f(xs[k]).Ok?
    ensures r.Ok? ==> |r.value| == |xs| && forall k :: 0 <= k < |xs| ==> f(xs[k]) == Ok(r.value[k])
    ensures r.Raises? ==>
      exists k :: 0 <= k < |xs| && f(xs[k]) == Raises(r.error) &&
        forall j :: 0 <= j < k ==> f(xs[j]).Ok?
  {
    if xs == [] then Ok([])
    else
      var n := |xs| - 1;
      var init := xs[..n];
      var done := MapOrRaise(f, init);
      assert forall k :: 0 <= k < n ==> init[k] == xs[k];
      if done.Raises? then done
      else match f(xs[n])
        case Raises(e) => Raises(e)
        case Ok(y) => Ok(done.value + [y])
  }
}
