/** Small value wrappers and sequence helpers shared by the whole model. */
module Wrappers {

  /** A value that may be absent: the model of a TypeScript `T | null` or an optional field. */
  datatype Option<+T> = None | Some(value: T) {
    function GetOr(default: T): T {
      match this
      case Some(v) => v
      case None => default
    }
  }

  /** Keys (or any values) that occur at most once in a sequence. */
  ghost predicate Distinct<T>(s: seq<T>) {
    forall i, j | 0 <= i < j < |s| :: s[i] != s[j]
  }

  /** `Array.prototype.filter` with a predicate that reads no mutable state. */
  function Filter<T>(s: seq<T>, keep: T -> bool): (r: seq<T>)
    ensures |r| <= |s|
    ensures forall x | x in r :: x in s && keep(x)
    ensures forall x | x in s && keep(x) :: x in r
    ensures Distinct(s) ==> Distinct(r)
    ensures (forall x | x in s :: keep(x)) ==> r == s
  {
    if s == [] then []
    else
      var rest := Filter(s[1..], keep);
      if keep(s[0]) then
        assert Distinct(s) ==> s[0] !in s[1..];
        [s[0]] + rest
      else rest
  }

  /** Filtering distributes over concatenation: the kept elements stay in their original order. */
  lemma {:induction false} FilterAppend<T>(s: seq<T>, t: seq<T>, keep: T -> bool)
    ensures Filter(s + t, keep) == Filter(s, keep) + Filter(t, keep)
  {
    if s == [] {
      assert s + t == t;
    } else {
      assert (s + t)[1..] == s[1..] + t;
      FilterAppend(s[1..], t, keep);
    }
  }

  /** `Array.prototype.findIndex`: the position of the first element satisfying `p`, if any. */
  function FirstIndex<T>(s: seq<T>, p: T -> bool): (r: Option<nat>)
    ensures r.Some? ==> r.value < |s| && p(s[r.value])
    ensures r.Some? ==> forall j | 0 <= j < r.value :: !p(s[j])
    ensures r.None? ==> forall j | 0 <= j < |s| :: !p(s[j])
  {
    if s == [] then None
    else if p(s[0]) then Some(0)
    else match FirstIndex(s[1..], p)
      case None => None
      case Some(k) => Some(k + 1)
  }

  /** The first position satisfying `p` is the one `FirstIndex` finds. */
  lemma {:induction false} FirstIndexAt<T>(s: seq<T>, p: T -> bool, k: nat)
    requires k < |s| && p(s[k])
    requires forall j | 0 <= j < k :: !p(s[j])
    ensures FirstIndex(s, p) == Some(k)
  {
  }

  /** The decimal digit `d`. */
  function DigitChar(d: nat): (c: char)
    requires d < 10
    ensures '0' <= c <= '9' && c as int - '0' as int == d
  {
    ('0' as int + d) as char
  }

  /** A natural number in decimal, as a JavaScript template literal prints it. */
  function NatToString(n: nat): (s: string)
    ensures |s| >= 1
    ensures n < 10 <==> |s| == 1
    decreases n
  {
    if n < 10 then [DigitChar(n)] else NatToString(n / 10) + [DigitChar(n % 10)]
  }

  /** A printed number consists of decimal digits only. */
  lemma {:induction false} NatToStringDigits(n: nat)
    ensures forall i | 0 <= i < |NatToString(n)| :: '0' <= NatToString(n)[i] <= '9'
    decreases n
  {
    if n >= 10 {
      NatToStringDigits(n / 10);
    }
  }

  /** Different numbers print differently. */
  lemma {:induction false} NatToStringInjective(n: nat, m: nat)
    requires NatToString(n) == NatToString(m)
    ensures n == m
    decreases n
  {
    var s := NatToString(n);
    if n >= 10 && m >= 10 {
      assert s[|s| - 1] == DigitChar(n % 10) && s[|s| - 1] == DigitChar(m % 10);
      assert s[..|s| - 1] == NatToString(n / 10) && s[..|s| - 1] == NatToString(m / 10);
      NatToStringInjective(n / 10, m / 10);
    } else {
      assert s[0] == DigitChar(n) && s[0] == DigitChar(m);
    }
  }
}
