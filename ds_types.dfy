/** The backend's record types (core/dsTypes.py): an annotated parameter, a
    training point and the status every registry call returns, with its
    `"Status {code}: {message}"` rendering. */
module DsTypes {
  import opened Wrappers
  import Text

  datatype AnnotatedParam = AnnotatedParam(name: string, value: real, dataType: string)

  /** A training point: a parameter vector and its score. */
  datatype Training = Training(data: seq<real>, score: real)

  datatype DSStatus = DSStatus(code: int, message: string)

  /** `str(status)`. */
  function StatusString(s: DSStatus): string
  {
    "Status " + Text.IntToString(s.code) + ": " + s.message
  }

  /** `str(training)`, given Python's renderings of the vector and the score
      (float formatting is not part of this model). */
  function TrainingString(dataText: string, scoreText: string): string
  {
    "X: " + dataText + ", y: " + scoreText
  }

  lemma {:induction false} NatToStringInjective(a: nat, b: nat)
    requires Text.NatToString(a) == Text.NatToString(b)
    ensures a == b
  {
    Text.NatToStringRoundTrip(a);
    Text.NatToStringRoundTrip(b);
  }

  lemma IntToStringInjective(a: int, b: int)
    requires Text.IntToString(a) == Text.IntToString(b)
    ensures a == b
  {
    var sa, sb := Text.IntToString(a), Text.IntToString(b);
    if a < 0 {
      assert sa[1..] == Text.NatToString(-a);
      assert sb[1..] == Text.NatToString(-b);
      NatToStringInjective(-a, -b);
    } else {
      NatToStringInjective(a, b);
    }
  }

  /** The rendered number holds no ':'. */
  lemma IntToStringNoColon(i: int)
    ensures forall k | 0 <= k < |Text.IntToString(i)| :: Text.IntToString(i)[k] != ':'
  {
    var s := Text.IntToString(i);
    if i < 0 {
      forall k | 1 <= k < |s|
        ensures s[k] != ':'
      {
        assert s[k] == Text.NatToString(-i)[k - 1];
      }
    }
  }

  /** The first ':' of a rendered status ends its code. */
  lemma FirstColonEndsCode(s: DSStatus)
    ensures Text.IndexOf(StatusString(s), [':'], 0) == Some(7 + |Text.IntToString(s.code)|)
  {
    var a := Text.IntToString(s.code);
    var r := StatusString(s);
    IntToStringNoColon(s.code);
    assert r == "Status " + a + ": " + s.message;
    assert forall j | 7 <= j < 7 + |a| :: r[j] == a[j - 7];
    Text.FirstChar(r, ':', 0, 7 + |a|);
  }

  /** The rendering loses nothing: the code and the message can be read back, so
      distinct statuses render differently. */
  lemma StatusStringInjective(s1: DSStatus, s2: DSStatus)
    requires StatusString(s1) == StatusString(s2)
    ensures s1 == s2
  {
    var a, b := Text.IntToString(s1.code), Text.IntToString(s2.code);
    var r := StatusString(s1);
    assert r == "Status " + a + ": " + s1.message;
    assert r == "Status " + b + ": " + s2.message;
    FirstColonEndsCode(s1);
    FirstColonEndsCode(s2);
    assert a == r[7..7 + |a|] == b;
    IntToStringInjective(s1.code, s2.code);
    assert s1.message == r[9 + |a|..] == s2.message;
  }
}
