/** The mutation logger plugin (store/logToFile.js): zero padding, the
    `HH:MM:SS.mmm` time string, and the record written per mutation. The clock,
    `JSON.stringify` and the file are inputs. */
module LogToFile {
  import opened Wrappers
  import opened Text
  import opened JsonValue

  /** `new Array(n)` for a negative length. */
  datatype RangeError = RangeError

  /** n copies of str, end to end. */
  function Copies(str: string, n: nat): (r: string)
    ensures |r| == n * |str|
    ensures |str| == 1 ==> forall k | 0 <= k < |r| :: r[k] == str[0]
  {
    if n == 0 then "" else str + Copies(str, n - 1)
  }

  /** `repeat(str, times)`: `new Array(times + 1).join(str)`. */
  function Repeat(str: string, times: int): (r: Result<string, RangeError>)
    ensures times >= 0 ==> r == Ok(Copies(str, times))
    ensures times == -1 ==> r == Ok("")
    ensures times < -1 <==> r.Err?
  {
    if times < -1 then Err(RangeError)
    else if times == -1 then Ok("")
    else Ok(Copies(str, times))
  }

  predicate AllZeros(s: string) { forall k | 0 <= k < |s| :: s[k] == '0' }

  /** `pad(num, maxLength)`: zeros in front of the digits up to the length. */
  function Pad(num: nat, maxLength: int): (r: Result<string, RangeError>)
    ensures var d := NatToString(num);
      && (r.Err? <==> |d| > maxLength + 1)
      && (r.Ok? ==> |r.value| >= |d| && r.value[|r.value| - |d|..] == d && AllZeros(r.value[..|r.value| - |d|]))
      && (|d| <= maxLength ==> r.Ok? && |r.value| == maxLength)
      && (|d| == maxLength + 1 ==> r == Ok(d))
  {
    var d := NatToString(num);
    match Repeat("0", maxLength - |d|)
    case Err(e) => Err(e)
    case Ok(zeros) =>
      assert (zeros + d)[|zeros|..] == d && (zeros + d)[..|zeros|] == zeros;
      Ok(zeros + d)
  }

  lemma ConcatDigits(a: string, s: string)
    requires AllDigits(a) && AllDigits(s)
    ensures AllDigits(a + s)
  {
    forall k | 0 <= k < |a + s| ensures IsDigit((a + s)[k]) {
      if k >= |a| { assert (a + s)[k] == s[k - |a|]; }
    }
  }

  /** Leading zeros do not change the value of a digit string. */
  lemma {:induction false} ZerosPrefixValue(z: string, s: string)
    requires AllZeros(z) && AllDigits(s)
    ensures AllDigits(z + s) && DigitsValue(z + s) == DigitsValue(s)
    decreases |s|
  {
    ZerosValue(z);
    ConcatDigits(z, s);
    if s == [] {
      assert z + s == z;
    } else {
      var s' := s[..|s| - 1];
      assert (z + s)[..|z + s| - 1] == z + s';
      assert (z + s)[|z + s| - 1] == s[|s| - 1];
      ZerosPrefixValue(z, s');
    }
  }

  lemma {:induction false} ZerosValue(z: string)
    requires AllZeros(z)
    ensures AllDigits(z) && DigitsValue(z) == 0
    decreases |z|
  {
    if z != [] {
      ZerosValue(z[..|z| - 1]);
    }
  }

  /** Padding does not change the number the digits spell. */
  lemma PadValue(num: nat, maxLength: int)
    requires Pad(num, maxLength).Ok?
    ensures AllDigits(Pad(num, maxLength).value) && DigitsValue(Pad(num, maxLength).value) == num
  {
    var r := Pad(num, maxLength).value;
    var d := NatToString(num);
    var z := r[..|r| - |d|];
    assert r == z + d;
    ZerosPrefixValue(z, d);
    NatToStringRoundTrip(num);
  }

  /** A clock reading: `getHours()`, `getMinutes()`, `getSeconds()`,
      `getMilliseconds()`. */
  datatype Clock = Clock(hours: nat, minutes: nat, seconds: nat, millis: nat)

  predicate ValidClock(c: Clock)
  {
    c.hours < 24 && c.minutes < 60 && c.seconds < 60 && c.millis < 1000
  }

  /** `formattedTime`. */
  function FormattedTime(c: Clock): (r: Result<string, RangeError>)
    ensures r.Ok? ==> |r.value| >= 8
  {
    match (Pad(c.hours, 2), Pad(c.minutes, 2), Pad(c.seconds, 2), Pad(c.millis, 3))
    case (Ok(h), Ok(m), Ok(s), Ok(ms)) => Ok(h + ":" + m + ":" + s + "." + ms)
    case _ => Err(RangeError)
  }

  lemma DigitCountBelow(n: nat, k: nat)
    requires n < Pow10(k) && k >= 1
    ensures |NatToString(n)| <= k
  {
    NatToStringLength(n);
    DigitCountBound(n, k);
  }

  /** A number below 10^L pads to exactly L digits that read back as it. */
  lemma PadField(n: nat, L: nat)
    requires L >= 1 && n < Pow10(L)
    ensures Pad(n, L).Ok? && |Pad(n, L).value| == L
    ensures AllDigits(Pad(n, L).value) && DigitsValue(Pad(n, L).value) == n
  {
    DigitCountBelow(n, L);
    PadValue(n, L);
  }

  /** A valid clock gives `HH:MM:SS.mmm`: twelve characters, separators in
      place, and each field reading back as its value. */
  lemma FormattedTimeLayout(c: Clock)
    requires ValidClock(c)
    ensures FormattedTime(c).Ok?
    ensures var t := FormattedTime(c).value;
      && |t| == 12 && t[2] == ':' && t[5] == ':' && t[8] == '.'
      && AllDigits(t[0..2]) && DigitsValue(t[0..2]) == c.hours
      && AllDigits(t[3..5]) && DigitsValue(t[3..5]) == c.minutes
      && AllDigits(t[6..8]) && DigitsValue(t[6..8]) == c.seconds
      && AllDigits(t[9..12]) && DigitsValue(t[9..12]) == c.millis
  {
    assert Pow10(2) == 100 && Pow10(3) == 1000;
    PadField(c.hours, 2);
    PadField(c.minutes, 2);
    PadField(c.seconds, 2);
    PadField(c.millis, 3);
    var h, m, s, ms := Pad(c.hours, 2).value, Pad(c.minutes, 2).value, Pad(c.seconds, 2).value, Pad(c.millis, 3).value;
    Fields4(h, m, s, ms);
  }

  lemma Fields4(h: string, m: string, s: string, ms: string)
    requires |h| == 2 && |m| == 2 && |s| == 2 && |ms| == 3
    ensures var t := h + ":" + m + ":" + s + "." + ms;
      && |t| == 12 && t[2] == ':' && t[5] == ':' && t[8] == '.'
      && t[0..2] == h && t[3..5] == m && t[6..8] == s && t[9..12] == ms
  {
  }

  /** The object logged per mutation (its `time` is the clock reading). */
  datatype LogRecord = LogRecord(time: Clock, formattedTime: string, kind: string, payload: Json, textLog: string)

  function Record(kind: string, payload: Json, c: Clock): (r: Result<LogRecord, RangeError>)
    ensures r.Ok? <==> FormattedTime(c).Ok?
    ensures r.Ok? ==>
      && r.value.kind == kind && r.value.payload == payload && r.value.time == c
      && r.value.formattedTime == FormattedTime(c).value
      && r.value.textLog == "mutation " + kind + " @ " + FormattedTime(c).value
  {
    match FormattedTime(c)
    case Err(e) => Err(e)
    case Ok(t) => Ok(LogRecord(c, t, kind, payload, "mutation " + kind + " @ " + t))
  }

  /** The plugin with its file: `fileOpen` is false when opening it failed, in
      which case writes go nowhere. */
  class Logger {
    const fileOpen: bool
    var written: seq<string>

    constructor (fileOpen: bool)
      ensures this.fileOpen == fileOpen && written == []
    {
      this.fileOpen := fileOpen;
      written := [];
    }

    /** The `subscribe` callback: one serialised record plus a newline per
      mutation. A clock the padding cannot format throws before anything is
      written. */
    method OnMutation(kind: string, payload: Json, c: Clock, stringify: LogRecord -> string)
      returns (r: Result<LogRecord, RangeError>)
      modifies this`written
      ensures r == Record(kind, payload, c)
      ensures written == old(written) + (if fileOpen && r.Ok? then [stringify(r.value) + "\n"] else [])
    {
      r := Record(kind, payload, c);
      if r.Ok? && fileOpen {
        written := written + [stringify(r.value) + "\n"];
      }
    }
  }
}
