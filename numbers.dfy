/** Scalar helpers standing for the C++ standard library calls the engine
    makes (std::min, std::max, std::clamp, std::fabs), the Option type used
    for "found / not found" results, and minimum/maximum over a sequence. */
module Numbers {

  datatype Option<T> = None | Some(value: T)

  /** A fraction of a platform's width. */
  type Fraction = u: real | 0.0 <= u <= 1.0

  /** std::min(a, b): returns b only when b < a. */
  function Min(a: real, b: real): (r: real)
    ensures r <= a && r <= b
    ensures r == a || r == b
  {
    if b < a then b else a
  }

  /** std::max(a, b): returns b only when a < b. */
  function Max(a: real, b: real): (r: real)
    ensures r >= a && r >= b
    ensures r == a || r == b
  {
    if a < b then b else a
  }

  /** std::fabs */
  function Abs(a: real): (r: real)
    ensures r >= 0.0
    ensures r == a || r == -a
  {
    if a < 0.0 then -a else a
  }

  /** std::clamp(v, lo, hi); the C++ call is undefined unless lo <= hi. */
  function Clamp(v: real, lo: real, hi: real): (r: real)
    requires lo <= hi
    ensures lo <= r <= hi
    ensures lo <= v <= hi ==> r == v
    ensures v < lo ==> r == lo
    ensures hi < v ==> r == hi
  {
    if v < lo then lo else if hi < v then hi else v
  }

  /** The running minimum a loop `m = std::min(m, s[i])` ends with. */
  function SeqMin(s: seq<real>): (r: real)
    requires |s| > 0
    ensures forall i :: 0 <= i < |s| ==> r <= s[i]
    ensures exists i :: 0 <= i < |s| && s[i] == r
  {
    if |s| == 1 then s[0]
    else
      var m := SeqMin(s[..|s| - 1]);
      assert forall i :: 0 <= i < |s| - 1 ==> s[..|s| - 1][i] == s[i];
      Min(m, s[|s| - 1])
  }

  /** The running maximum a loop `m = std::max(m, s[i])` ends with. */
  function SeqMax(s: seq<real>): (r: real)
    requires |s| > 0
    ensures forall i :: 0 <= i < |s| ==> s[i] <= r
    ensures exists i :: 0 <= i < |s| && s[i] == r
  {
    if |s| == 1 then s[0]
    else
      var m := SeqMax(s[..|s| - 1]);
      assert forall i :: 0 <= i < |s| - 1 ==> s[..|s| - 1][i] == s[i];
      Max(m, s[|s| - 1])
  }

  /** One more step of the running minimum and maximum. */
  lemma SeqMinMaxStep(s: seq<real>, i: nat)
    requires 0 < i < |s|
    ensures SeqMin(s[..i + 1]) == Min(SeqMin(s[..i]), s[i])
    ensures SeqMax(s[..i + 1]) == Max(SeqMax(s[..i]), s[i])
  {
    assert s[..i + 1][..i] == s[..i];
  }
}
