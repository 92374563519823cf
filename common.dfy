/** Values shared by the screens and modals of the wallet front-end. */
module Common {

  datatype Option<T> = None | Some(value: T)

  /** The result of JavaScript's `parseFloat`: a number, or NaN for text
      that does not start with a number. Every ordering comparison with NaN
      is false, which is why the predicates below test `Num?` first. */
  datatype Parsed = Num(value: real) | NaN

  predicate AtMost(p: Parsed, bound: real) { p.Num? && p.value <= bound }
  predicate Below(p: Parsed, bound: real) { p.Num? && p.value < bound }
  predicate Above(p: Parsed, bound: real) { p.Num? && p.value > bound }

  /** The `Token` shape of the mock catalogue (display-only fields dropped). */
  datatype Token = Token(symbol: string, name: string, balance: real, price: real)

  /** The screens `router.replace` is called with. */
  datatype Route = AuthRoute | OnboardingRoute | KycRoute | TabsRoute

  /** `Array.prototype.find` on a predicate: the index of the first element
      satisfying `p`, or None when there is none. */
  function FirstWhere<T>(s: seq<T>, p: T -> bool): (r: Option<nat>)
    ensures r.Some? ==> r.value < |s| && p(s[r.value])
    ensures r.Some? ==> forall j :: 0 <= j < r.value ==> !p(s[j])
    ensures r.None? ==> forall j :: 0 <= j < |s| ==> !p(s[j])
  {
    if |s| == 0 then None
    else if p(s[0]) then Some(0)
    else
      match FirstWhere(s[1..], p)
      case None => None
      case Some(k) => Some(k + 1)
  }

  /** `list.find(p) || list[0]`: the first element satisfying `p`, falling
      back to the head of the list. */
  function FindOrFirst<T>(s: seq<T>, p: T -> bool): (r: T)
    requires |s| > 0
    ensures r in s
    ensures FirstWhere(s, p).Some? ==> r == s[FirstWhere(s, p).value] && p(r)
    ensures FirstWhere(s, p).None? ==> r == s[0] && forall j :: 0 <= j < |s| ==> !p(s[j])
  {
    match FirstWhere(s, p)
    case Some(k) => s[k]
    case None => s[0]
  }
}
