/**
 * The four conditions under which the tool reports `Error: <message>` and
 * stops (ccctrl.py:114-117). Stopping becomes a `Failure` carrying one of
 * these values.
 */
module Errors {

  datatype Error =
    | NoDevicesDetected            // discovery returned nothing
    | NoNameMatch(names: seq<string>) // the name allow-list matched nothing
    | NoCriteriaMatch              // the cast-type filter left nothing
    | VolumeOutOfRange             // the set-volume value is not in [0.0, 1.0]

  /** Python's `repr` of one name: the name between single quotes. */
  function QuoteName(name: string): string
  {
    "'" + name + "'"
  }

  /** The names of a list, each quoted, joined by ", ". */
  function JoinNames(names: seq<string>): (r: string)
    ensures names == [] <==> r == ""
    ensures names != [] ==> |r| >= 2 + |names[0]| && r[..2 + |names[0]|] == QuoteName(names[0])
  {
    if names == [] then ""
    else if |names| == 1 then QuoteName(names[0])
    else QuoteName(names[0]) + ", " + JoinNames(names[1..])
  }

  /** Python's `repr` of a list of names, as the `%r` at ccctrl.py:129 formats it. */
  function ReprNames(names: seq<string>): (r: string)
    ensures |r| >= 2 && r[0] == '[' && r[|r| - 1] == ']'
  {
    "[" + JoinNames(names) + "]"
  }

  /** No name holds a single quote, so quoting it leaves no ambiguity. */
  predicate QuoteFree(names: seq<string>)
  {
    forall i :: 0 <= i < |names| ==> '\'' !in names[i]
  }

  /**
   * In a text that starts with a quoted name free of quotes, the first quote
   * after the opening one closes that name.
   */
  lemma ClosingQuote(name: string, s: string)
    requires '\'' !in name
    requires |s| >= 2 + |name| && s[..2 + |name|] == QuoteName(name)
    ensures s[1 + |name|] == '\''
    ensures forall k :: 1 <= k < 1 + |name| ==> s[k] != '\''
  {
    assert s[1 + |name|] == s[..2 + |name|][1 + |name|];
    forall k | 1 <= k < 1 + |name| ensures s[k] != '\'' {
      assert s[k] == s[..2 + |name|][k] == name[k - 1];
    }
  }

  /** For names without quotes, the joined text determines the list. */
  lemma {:induction false} JoinNamesInjective(a: seq<string>, b: seq<string>)
    requires QuoteFree(a) && QuoteFree(b)
    requires JoinNames(a) == JoinNames(b)
    ensures a == b
    decreases |a|
  {
    if a != [] && b != [] {
      var s := JoinNames(a);
      var a0, b0 := a[0], b[0];
      assert '\'' !in a0 && '\'' !in b0;
      assert |a0| == |b0| by {
        ClosingQuote(a0, s);
        ClosingQuote(b0, s);
      }
      assert a0 == b0 by {
        assert a0 == s[..2 + |a0|][1..1 + |a0|];
        assert b0 == s[..2 + |b0|][1..1 + |b0|];
      }
      var n := 2 + |a0|;
      var ta := if |a| == 1 then "" else ", " + JoinNames(a[1..]);
      var tb := if |b| == 1 then "" else ", " + JoinNames(b[1..]);
      assert ta == tb by {
        assert s == QuoteName(a0) + ta && s == QuoteName(b0) + tb;
        assert ta == s[n..] && tb == s[n..];
      }
      if |a| > 1 || |b| > 1 {
        assert |a| > 1 && |b| > 1;
        assert JoinNames(a[1..]) == JoinNames(b[1..]) by {
          assert JoinNames(a[1..]) == ta[2..];
          assert JoinNames(b[1..]) == tb[2..];
        }
        assert QuoteFree(a[1..]) && QuoteFree(b[1..]) by {
          forall i | 0 <= i < |a[1..]| ensures '\'' !in a[1..][i] {
            assert a[1..][i] == a[i + 1];
          }
          forall i | 0 <= i < |b[1..]| ensures '\'' !in b[1..][i] {
            assert b[1..][i] == b[i + 1];
          }
        }
        JoinNamesInjective(a[1..], b[1..]);
        assert a == [a0] + a[1..] && b == [b0] + b[1..];
      }
    }
  }

  /** The message text passed to the error reporter (ccctrl.py:125, 129, 136, 139). */
  function Message(e: Error): (m: string)
    ensures |m| > 0 && m[|m| - 1] == '.'
  {
    match e
    case NoDevicesDetected => "No Chromecast devices detected."
    case NoNameMatch(names) => "No devices found matching " + ReprNames(names) + "."
    case NoCriteriaMatch => "No devices found matching the specified criteria."
    case VolumeOutOfRange => "Volume must be between 0.0 and 1.0."
  }

  /** The whole line printed before the process stops. */
  function ErrorLine(e: Error): (line: string)
  {
    "Error: " + Message(e)
  }

  /**
   * The four conditions are distinguishable from their messages: two errors
   * of different kinds never print the same text, and the name-filter message
   * names the list it failed on, which it determines when no name holds a
   * single quote.
   */
  lemma MessagesDistinct(e1: Error, e2: Error)
    requires Message(e1) == Message(e2)
    ensures e1.NoNameMatch? <==> e2.NoNameMatch?
    ensures !e1.NoNameMatch? ==> e1 == e2
    ensures e1.NoNameMatch? ==> ReprNames(e1.names) == ReprNames(e2.names)
    ensures e1.NoNameMatch? && QuoteFree(e1.names) && QuoteFree(e2.names) ==> e1 == e2
  {
    var prefix := "No devices found matching ";
    assert |prefix| == 26;
    if e1.NoNameMatch? {
      assert Message(e1)[..26] == prefix && Message(e1)[26] == '[';
      var m := Message(e1);
      assert m == prefix + ReprNames(e1.names) + ".";
      assert m[26..|m| - 1] == ReprNames(e1.names);
    }
    if e2.NoNameMatch? {
      assert Message(e2)[..26] == prefix && Message(e2)[26] == '[';
      var m := Message(e2);
      assert m[26..|m| - 1] == ReprNames(e2.names);
    }
    if e1.NoNameMatch? && e2.NoNameMatch? && QuoteFree(e1.names) && QuoteFree(e2.names) {
      var r1, r2 := ReprNames(e1.names), ReprNames(e2.names);
      assert r1 == r2;
      assert JoinNames(e1.names) == r1[1..|r1| - 1];
      assert JoinNames(e2.names) == r2[1..|r2| - 1];
      JoinNamesInjective(e1.names, e2.names);
    }
  }

  /**
   * The printed line determines the failure: equal lines come from equal
   * messages, so from the same kind of error, and from the same error
   * whenever the message pins it down (see MessagesDistinct).
   */
  lemma ErrorLineDetermines(e1: Error, e2: Error)
    requires ErrorLine(e1) == ErrorLine(e2)
    ensures Message(e1) == Message(e2)
    ensures e1.NoNameMatch? <==> e2.NoNameMatch?
    ensures !e1.NoNameMatch? ==> e1 == e2
    ensures e1.NoNameMatch? && QuoteFree(e1.names) && QuoteFree(e2.names) ==> e1 == e2
  {
    assert Message(e1) == ErrorLine(e1)[7..] == ErrorLine(e2)[7..] == Message(e2);
    MessagesDistinct(e1, e2);
  }
}
