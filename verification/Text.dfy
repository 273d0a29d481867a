/** String splitting and joining as the Go standard library does it for a one-character
    separator, with the laws the diff, the range parser and the stream readers need. */
module Text {

  /** All pieces between separators; the empty string has one empty piece. */
  function Split(s: string, sep: char): (parts: seq<string>)
    ensures |parts| > 0
    ensures forall k :: 0 <= k < |parts| ==> sep !in parts[k]
  {
    if s == "" then [""]
    else
      var rest := Split(s[1..], sep);
      if s[0] == sep then [""] + rest else [[s[0]] + rest[0]] + rest[1..]
  }

  function Join(parts: seq<string>, sep: string): string {
    if parts == [] then ""
    else if |parts| == 1 then parts[0]
    else parts[0] + sep + Join(parts[1..], sep)
  }

  /** A separator-free piece followed by the separator comes off the front whole. */
  lemma {:induction false} SplitHead(piece: string, rest: string, sep: char)
    requires sep !in piece
    ensures Split(piece + [sep] + rest, sep) == [piece] + Split(rest, sep)
  {
    var s := piece + [sep] + rest;
    if piece == "" {
      assert s[1..] == rest;
    } else {
      assert s[1..] == piece[1..] + [sep] + rest;
      SplitHead(piece[1..], rest, sep);
      assert [piece[0]] + piece[1..] == piece;
    }
  }

  lemma {:induction false} SplitWhole(piece: string, sep: char)
    requires sep !in piece
    ensures Split(piece, sep) == [piece]
  {
    if piece != "" {
      SplitWhole(piece[1..], sep);
      assert [piece[0]] + piece[1..] == piece;
    }
  }

  /** A separator between two strings parts their pieces. */
  lemma {:induction false} SplitConcat(a: string, b: string, sep: char)
    ensures Split(a + [sep] + b, sep) == Split(a, sep) + Split(b, sep)
  {
    var s := a + [sep] + b;
    if a == "" {
      assert s[1..] == b;
    } else {
      assert s[1..] == a[1..] + [sep] + b;
      SplitConcat(a[1..], b, sep);
    }
  }

  /** Joining undoes splitting. */
  lemma {:induction false} JoinSplit(s: string, sep: char)
    ensures Join(Split(s, sep), [sep]) == s
  {
    if s != "" {
      var rest := Split(s[1..], sep);
      JoinSplit(s[1..], sep);
      if s[0] == sep {
        assert ([""] + rest)[1..] == rest;
      } else {
        var parts := [[s[0]] + rest[0]] + rest[1..];
        assert parts[1..] == rest[1..];
        if |rest| > 1 {
          assert Join(parts, [sep]) == [s[0]] + (rest[0] + [sep] + Join(rest[1..], [sep]));
        }
      }
      assert [s[0]] + s[1..] == s;
    }
  }

  /** Splitting undoes joining, when no piece holds the separator. */
  lemma {:induction false} SplitJoin(parts: seq<string>, sep: char)
    requires parts != []
    requires forall k :: 0 <= k < |parts| ==> sep !in parts[k]
    ensures Split(Join(parts, [sep]), sep) == parts
  {
    if |parts| == 1 {
      SplitWhole(parts[0], sep);
    } else {
      var rest := parts[1..];
      SplitJoin(rest, sep);
      SplitHead(parts[0], Join(rest, [sep]), sep);
      assert Join(parts, [sep]) == parts[0] + [sep] + Join(rest, [sep]);
      assert parts == [parts[0]] + rest;
    }
  }

  /** A non-negative number in decimal, as fmt's %d prints it. */
  function Decimal(n: nat): (text: string)
    ensures text != ""
  {
    var digit := [('0' as int + n % 10) as char];
    if n < 10 then digit else Decimal(n / 10) + digit
  }

  lemma {:induction false} DecimalInjective(a: nat, b: nat)
    requires Decimal(a) == Decimal(b)
    ensures a == b
  {
    var s, t := Decimal(a), Decimal(b);
    assert s[|s| - 1] == t[|t| - 1];
    assert a % 10 == b % 10;
    if a >= 10 && b >= 10 {
      assert s[..|s| - 1] == Decimal(a / 10) && t[..|t| - 1] == Decimal(b / 10);
      DecimalInjective(a / 10, b / 10);
    }
  }

  ghost predicate Increasing(at: seq<nat>) {
    forall i, j :: 0 <= i < j < |at| ==> at[i] < at[j]
  }

  lemma NoneIncreasing()
    ensures Increasing([])
  {
  }

  lemma IncreasingMore(at: seq<nat>, n: nat)
    requires Increasing(at) && forall m :: m in at ==> m < n
    ensures Increasing(at + [n]) && forall m :: m in at + [n] <==> m in at || m == n
  {
    assert forall k :: 0 <= k < |at| ==> at[k] in at;
  }

  lemma IncreasingFirst(at: seq<nat>, n: nat)
    requires Increasing(at) && forall m :: m in at ==> n < m
    ensures Increasing([n] + at) && forall m :: m in [n] + at <==> m in at || m == n
  {
    assert forall k :: 0 <= k < |at| ==> at[k] in at;
  }

  ghost predicate OccursAt(text: string, part: string, at: nat) {
    at + |part| <= |text| && text[at..at + |part|] == part
  }

  ghost predicate Mentions(text: string, part: string) {
    exists at :: OccursAt(text, part, at)
  }

  lemma MentionsWithin(before: string, text: string, after: string, part: string)
    requires Mentions(text, part)
    ensures Mentions(before + text + after, part)
  {
    var at :| OccursAt(text, part, at);
    assert OccursAt(before + text + after, part, |before| + at);
  }

  lemma MentionsThrough(text: string, middle: string, part: string)
    requires Mentions(text, middle) && Mentions(middle, part)
    ensures Mentions(text, part)
  {
    var at: nat :| OccursAt(text, middle, at);
    assert text == text[..at] + middle + text[at + |middle|..];
    MentionsWithin(text[..at], middle, text[at + |middle|..], part);
  }

  lemma MentionsItself(before: string, part: string, after: string)
    ensures Mentions(before + part + after, part)
    ensures after == "" ==> Mentions(before + part, part)
  {
    assert OccursAt(before + part + after, part, |before|);
    assert before + part + "" == before + part;
  }
}
