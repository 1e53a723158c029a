/** Strings as the source's languages build them: decimal rendering of integers
    (Python's `"{0}".format(n)`, JavaScript's `n.toString()` for an integer) and
    `String.prototype.split` with a non-empty separator. */
module Text {
  import opened Wrappers

  predicate IsDigit(c: char) { '0' <= c <= '9' }

  predicate AllDigits(s: string) { forall i | 0 <= i < |s| :: IsDigit(s[i]) }

  function DigitChar(d: nat): (c: char)
    requires d < 10
    ensures IsDigit(c) && (c as int) - ('0' as int) == d
  {
    ('0' as int + d) as char
  }

  /** Decimal digits of n, most significant first, without leading zeros. */
  function NatToString(n: nat): (s: string)
    ensures |s| >= 1 && AllDigits(s)
    ensures s[0] == '0' ==> n == 0 && s == "0"
    decreases n
  {
    if n < 10 then [DigitChar(n)] else NatToString(n / 10) + [DigitChar(n % 10)]
  }

  /** The value of a string of decimal digits. */
  function DigitsValue(s: string): nat
    requires AllDigits(s)
  {
    if s == [] then 0
    else DigitsValue(s[..|s| - 1]) * 10 + ((s[|s| - 1] as int) - ('0' as int))
  }

  /** Reading the digits back gives the number: the rendering loses nothing. */
  lemma {:induction false} NatToStringRoundTrip(n: nat)
    ensures DigitsValue(NatToString(n)) == n
    decreases n
  {
    if n >= 10 {
      var s := NatToString(n);
      assert s[..|s| - 1] == NatToString(n / 10);
      NatToStringRoundTrip(n / 10);
    }
  }

  /** Number of decimal digits of n. */
  function DigitCount(n: nat): (k: nat)
    ensures k >= 1
    decreases n
  {
    if n < 10 then 1 else DigitCount(n / 10) + 1
  }

  lemma {:induction false} NatToStringLength(n: nat)
    ensures |NatToString(n)| == DigitCount(n)
    decreases n
  {
    if n >= 10 { NatToStringLength(n / 10); }
  }

  /** A number below 10^k has at most k digits. */
  lemma {:induction false} DigitCountBound(n: nat, k: nat)
    requires n < Pow10(k)
    ensures DigitCount(n) <= k || (n == 0 && k == 0)
    decreases k
  {
    if k > 0 && n >= 10 {
      DigitCountBound(n / 10, k - 1);
    }
  }

  function Pow10(k: nat): (p: nat)
    ensures p >= 1
  {
    if k == 0 then 1 else 10 * Pow10(k - 1)
  }

  /** Signed decimal rendering: a leading '-' for negative numbers. */
  function IntToString(i: int): (s: string)
    ensures |s| >= 1
    ensures i < 0 <==> s[0] == '-'
  {
    if i < 0 then "-" + NatToString(-i) else NatToString(i)
  }

  // ---------------------------------------------------------------------------
  // split / join

  predicate OccursAt(s: string, sep: string, k: nat)
  {
    k + |sep| <= |s| && s[k..k + |sep|] == sep
  }

  /** The first occurrence of sep in s at or after position `from`. */
  function IndexOf(s: string, sep: string, from: nat): (r: Option<nat>)
    requires |sep| > 0
    ensures r.Some? ==> from <= r.value && OccursAt(s, sep, r.value)
    ensures forall k | from <= k && (r.None? || k < r.value) :: !OccursAt(s, sep, k)
    decreases |s| - from
  {
    if from + |sep| > |s| then None
    else if s[from..from + |sep|] == sep then Some(from)
    else IndexOf(s, sep, from + 1)
  }

  /** `s.split(sep)` for a non-empty separator: the pieces between the leftmost
      non-overlapping occurrences of sep; always at least one piece. */
  function Split(s: string, sep: string): (parts: seq<string>)
    requires |sep| > 0
    ensures |parts| >= 1
    decreases |s|
  {
    match IndexOf(s, sep, 0)
    case None => [s]
    case Some(k) => [s[..k]] + Split(s[k + |sep|..], sep)
  }

  /** `parts.join(sep)`. */
  function Join(parts: seq<string>, sep: string): string
  {
    if |parts| == 0 then ""
    else if |parts| == 1 then parts[0]
    else parts[0] + sep + Join(parts[1..], sep)
  }

  /** Joining the pieces with the separator gives back the original string. */
  lemma {:induction false} JoinSplit(s: string, sep: string)
    requires |sep| > 0
    ensures Join(Split(s, sep), sep) == s
    decreases |s|
  {
    match IndexOf(s, sep, 0)
    case None =>
    case Some(k) =>
      var rest := s[k + |sep|..];
      var tail := Split(rest, sep);
      assert Split(s, sep) == [s[..k]] + tail;
      JoinSplit(rest, sep);
      JoinCons(s[..k], tail, sep);
      assert s == s[..k] + sep + rest by {
        assert s[k..k + |sep|] == sep;
      }
  }

  lemma JoinCons(p: string, tail: seq<string>, sep: string)
    requires |tail| >= 1
    ensures Join([p] + tail, sep) == p + sep + Join(tail, sep)
  {
    assert ([p] + tail)[1..] == tail;
  }

  /** No piece of a split contains the separator. */
  lemma {:induction false} SplitPiecesFree(s: string, sep: string, i: nat, k: nat)
    requires |sep| > 0
    requires i < |Split(s, sep)|
    ensures !OccursAt(Split(s, sep)[i], sep, k)
    decreases |s|
  {
    match IndexOf(s, sep, 0)
    case None =>
    case Some(j) =>
      if i == 0 {
        assert Split(s, sep)[0] == s[..j];
        assert OccursAt(s[..j], sep, k) ==> OccursAt(s, sep, k) && k < j;
      } else {
        SplitPiecesFree(s[j + |sep|..], sep, i - 1, k);
      }
  }

  predicate Excludes(s: string, c: char) { forall i | 0 <= i < |s| :: s[i] != c }

  /** With a one-character separator, splitting undoes joining pieces that do not
      contain it. */
  lemma {:induction false} SplitJoin(parts: seq<string>, c: char)
    requires |parts| >= 1
    requires forall i | 0 <= i < |parts| :: Excludes(parts[i], c)
    ensures Split(Join(parts, [c]), [c]) == parts
    decreases |parts|
  {
    var s := Join(parts, [c]);
    var p := parts[0];
    if |parts| == 1 {
      assert s == p;
      FirstChar(s, c, 0, |s|);
    } else {
      var rest := Join(parts[1..], [c]);
      assert s == p + [c] + rest;
      FirstChar(s, c, 0, |p|);
      assert s[..|p|] == p;
      assert s[|p| + 1..] == rest;
      SplitJoin(parts[1..], c);
    }
  }

  /** Scanning from `from`, the first c at `m` (or none before the end, m == |s|)
      is what IndexOf finds. */
  lemma {:induction false} FirstChar(s: string, c: char, from: nat, m: nat)
    requires from <= m <= |s|
    requires forall j | from <= j < m :: s[j] != c
    requires m < |s| ==> s[m] == c
    ensures IndexOf(s, [c], from) == if m < |s| then Some(m) else None
    decreases m - from
  {
    if from < m {
      assert s[from..from + 1] == [s[from]];
      FirstChar(s, c, from + 1, m);
    } else if m < |s| {
      assert s[m..m + 1] == [c];
    }
  }
}
