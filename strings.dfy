/** Separator-joined lists of strings, as the provider emits its SSH host
    principals: one string whose comma-separated fields are the principals. */
module Strings {

  /** The parts written one after the other with `sep` between neighbours. */
  function Join(sep: char, parts: seq<string>): string
  {
    if |parts| == 0 then ""
    else if |parts| == 1 then parts[0]
    else parts[0] + [sep] + Join(sep, parts[1..])
  }

  /** Cuts `s` at every occurrence of `sep`; the inverse a consumer of the
      joined string applies. The contract determines the pieces: none holds
      the separator, and joining them back gives `s`. */
  function Split(sep: char, s: string): (parts: seq<string>)
    ensures |parts| >= 1
    ensures forall i :: 0 <= i < |parts| ==> sep !in parts[i]
    ensures Join(sep, parts) == s
  {
    if |s| == 0 then [""]
    else
      var rest := Split(sep, s[1..]);
      if s[0] == sep then
        assert s == [sep] + s[1..];
        [""] + rest
      else
        var parts := [[s[0]] + rest[0]] + rest[1..];
        assert parts[1..] == rest[1..];
        assert Join(sep, parts) == s by {
          if |rest| == 1 {
            assert Join(sep, parts) == [s[0]] + rest[0];
          } else {
            assert rest == [rest[0]] + rest[1..];
            assert Join(sep, rest) == rest[0] + [sep] + Join(sep, rest[1..]);
            assert Join(sep, parts) == [s[0]] + rest[0] + [sep] + Join(sep, rest[1..]);
          }
        }
        parts
  }

  /** A string without the separator is one piece. */
  lemma {:induction false} SplitWithoutSeparator(sep: char, a: string)
    requires sep !in a
    ensures Split(sep, a) == [a]
  {
    if |a| > 0 {
      assert sep !in a[1..] by {
        forall i | 0 <= i < |a[1..]| ensures a[1..][i] != sep {
          assert a[1..][i] == a[i + 1];
        }
      }
      SplitWithoutSeparator(sep, a[1..]);
      assert [a[0]] + a[1..] == a;
    }
  }

  /** A separator-free field followed by the separator is cut off as the
      first piece, and the rest is split on its own. */
  lemma {:induction false} SplitFirstField(sep: char, a: string, b: string)
    requires sep !in a
    ensures Split(sep, a + [sep] + b) == [a] + Split(sep, b)
  {
    var s := a + [sep] + b;
    if |a| == 0 {
      assert s == [sep] + b;
      assert s[1..] == b;
    } else {
      assert sep !in a[1..] by {
        forall i | 0 <= i < |a[1..]| ensures a[1..][i] != sep {
          assert a[1..][i] == a[i + 1];
        }
      }
      assert s[1..] == a[1..] + [sep] + b;
      SplitFirstField(sep, a[1..], b);
      assert s[0] == a[0];
      assert [a[0]] + a[1..] == a;
    }
  }

  /** Splitting undoes joining when no part contains the separator: the
      joined string determines the list it was made from. */
  lemma {:induction false} SplitJoin(sep: char, parts: seq<string>)
    requires |parts| >= 1
    requires forall i :: 0 <= i < |parts| ==> sep !in parts[i]
    ensures Split(sep, Join(sep, parts)) == parts
  {
    if |parts| == 1 {
      SplitWithoutSeparator(sep, parts[0]);
    } else {
      SplitJoin(sep, parts[1..]);
      SplitFirstField(sep, parts[0], Join(sep, parts[1..]));
      assert [parts[0]] + parts[1..] == parts;
    }
  }
}
