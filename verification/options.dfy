/** Optional values and the "first one present" selection that both request-time
    functions of the authorization layer are built from. */
module Options {

  /** A value that may be absent; stands for JavaScript's truthy / falsy
      distinction on the fields the authorization layer inspects. */
  datatype Option<+T> = None | Some(value: T)

  /** Position `i` holds the first present value of `s`. */
  ghost predicate FirstPresentAt<T>(s: seq<Option<T>>, i: int)
  {
    && 0 <= i < |s|
    && s[i].Some?
    && forall j :: 0 <= j < i ==> s[j].None?
  }

  /** The first present value of `s`, scanning from the front; `None` when every
      entry is absent. This is the reference reading of a chain of
      `if … else if … else` tests tried in a fixed order. */
  function FirstSome<T>(s: seq<Option<T>>): (r: Option<T>)
    ensures r.None? <==> forall i :: 0 <= i < |s| ==> s[i].None?
    ensures forall i {:trigger FirstPresentAt(s, i)} :: FirstPresentAt(s, i) ==> r == s[i]
    decreases |s|
  {
    if |s| == 0 then None
    else if s[0].Some? then s[0]
    else
      assert forall i :: FirstPresentAt(s, i) ==> FirstPresentAt(s[1..], i - 1);
      FirstSome(s[1..])
  }
}
