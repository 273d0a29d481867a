/** The range expressions that say which phases a role fires in: "0-3,7,9-11". */
module PhaseIndex {
  import opened Options
  import opened Text

  datatype Answer = Yes | No | Invalid

  // ---- The library functions it leans on ----

  /** The Unicode white space characters. */
  predicate IsSpace(c: char) {
    || c in "\t\n\r " || c in {11 as char, 12 as char, 0x85 as char, 0xA0 as char, 0x1680 as char}
    || 0x2000 as char <= c <= 0x200A as char
    || c in {0x2028 as char, 0x2029 as char, 0x202F as char, 0x205F as char, 0x3000 as char}
  }

  function TrimLeft(s: string): string {
    if s != "" && IsSpace(s[0]) then TrimLeft(s[1..]) else s
  }

  function TrimRight(s: string): string {
    if s != "" && IsSpace(s[|s| - 1]) then TrimRight(s[..|s| - 1]) else s
  }

  function TrimSpace(s: string): string {
    TrimRight(TrimLeft(s))
  }

  /** The first position of the character, or -1. */
  function Index(s: string, c: char): (at: int)
    ensures -1 <= at < |s|
    ensures at >= 0 ==> s[at] == c && c !in s[..at]
    ensures at == -1 <==> c !in s
  {
    if s == "" then -1
    else if s[0] == c then 0
    else
      var at := Index(s[1..], c);
      if at < 0 then -1 else
        assert s[..at + 1] == [s[0]] + s[1..][..at];
        at + 1
  }

  predicate IsDigit(c: char) { '0' <= c <= '9' }

  predicate AllDigits(s: string) {
    s != "" && forall k :: 0 <= k < |s| ==> IsDigit(s[k])
  }

  function Value(s: string): (v: nat)
    requires forall k :: 0 <= k < |s| ==> IsDigit(s[k])
  {
    if s == "" then 0
    else
      assert IsDigit(s[|s| - 1]);
      10 * Value(s[..|s| - 1]) + (s[|s| - 1] as int - '0' as int)
  }

  const MAX_INT := 0x7FFF_FFFF_FFFF_FFFF

  /** An optional sign and decimal digits, within 64 bits. */
  function Atoi(s: string): Option<int> {
    var signed := s != "" && (s[0] == '-' || s[0] == '+');
    var digits := if signed then s[1..] else s;
    if !AllDigits(digits) then None
    else
      var v := if signed && s[0] == '-' then 0 - Value(digits) else Value(digits);
      if -MAX_INT - 1 <= v <= MAX_INT then Some(v) else None
  }

  // ---- One part ----

  datatype Part = Nothing | Span(lo: int, hi: int) | Wrong

  function PartOf(raw: string): Part {
    var p := TrimSpace(raw);
    var dash := Index(p, '-');
    if p == "" then Nothing
    else if dash > 0 then
      var lo := Atoi(TrimSpace(p[..dash]));
      var hi := Atoi(TrimSpace(p[dash + 1..]));
      if lo.None? || hi.None? || lo.value > hi.value then Wrong else Span(lo.value, hi.value)
    else
      var k := Atoi(p);
      if k.None? then Wrong else Span(k.value, k.value)
  }

  predicate Holds(part: Part, n: int) {
    part.Span? && part.lo <= n <= part.hi
  }

  /** The first part that is wrong or holds n decides; without one the answer is no. */
  ghost predicate Decides(parts: seq<string>, n: int, answer: Answer) {
    match answer
    case No => forall k :: 0 <= k < |parts| ==> !PartOf(parts[k]).Wrong? && !Holds(PartOf(parts[k]), n)
    case Yes => exists k :: 0 <= k < |parts| && Holds(PartOf(parts[k]), n) && Undecided(parts, n, k)
    case Invalid => exists k :: 0 <= k < |parts| && PartOf(parts[k]).Wrong? && Undecided(parts, n, k)
  }

  ghost predicate Undecided(parts: seq<string>, n: int, before: nat) {
    before <= |parts| && forall k :: 0 <= k < before ==> !PartOf(parts[k]).Wrong? && !Holds(PartOf(parts[k]), n)
  }

  method PhaseIndexIn(n: int, expr: string) returns (answer: Answer)
    ensures expr == "" ==> answer == Invalid
    ensures expr != "" ==> Decides(Split(expr, ','), n, answer)
  {
    if expr == "" {
      return Invalid;
    }
    hide *;
    var parts := Split(expr, ',');
    NothingDecided(parts, n);
    for k := 0 to |parts|
      invariant Undecided(parts, n, k)
    {
      var found := Consider(n, parts[k]);
      Decided(parts, n, k, found);
      if found.Some? {
        return found.value;
      }
    }
    NoneDecides(parts, n);
    return No;
  }

  lemma NothingDecided(parts: seq<string>, n: int)
    ensures Undecided(parts, n, 0)
  {
  }

  lemma Decided(parts: seq<string>, n: int, k: nat, found: Option<Answer>)
    requires k < |parts| && Undecided(parts, n, k)
    requires found == Some(Invalid) <==> PartOf(parts[k]).Wrong?
    requires found == Some(Yes) <==> Holds(PartOf(parts[k]), n)
    requires found != Some(No)
    ensures if found.Some? then Decides(parts, n, found.value) else Undecided(parts, n, k + 1)
  {
    hide PartOf, Holds;
  }

  lemma NoneDecides(parts: seq<string>, n: int)
    requires Undecided(parts, n, |parts|)
    ensures Decides(parts, n, No)
  {
    hide PartOf, Holds;
  }

  lemma PartIs(raw: string, p: string, dash: int)
    requires p == TrimSpace(raw) && dash == Index(p, '-')
    ensures p == "" ==> PartOf(raw) == Nothing
    ensures p != "" && dash <= 0 ==> PartOf(raw) == if Atoi(p).None? then Wrong else Span(Atoi(p).value, Atoi(p).value)
    ensures dash > 0 ==>
      var lo, hi := Atoi(TrimSpace(p[..dash])), Atoi(TrimSpace(p[dash + 1..]));
      PartOf(raw) == if lo.None? || hi.None? || lo.value > hi.value then Wrong else Span(lo.value, hi.value)
  {
    hide Atoi, TrimSpace;
  }

  /** One round of the loop: an answer, or nothing yet. */
  method Consider(n: int, raw: string) returns (found: Option<Answer>)
    ensures found == Some(Invalid) <==> PartOf(raw).Wrong?
    ensures found == Some(Yes) <==> Holds(PartOf(raw), n)
    ensures found != Some(No)
  {
    hide Atoi, TrimSpace, Index, PartOf;
    var p := TrimSpace(raw);
    var dash := Index(p, '-');
    PartIs(raw, p, dash);
    if p == "" {
      return None;
    }
    if dash > 0 {
      var lo := Atoi(TrimSpace(p[..dash]));
      if lo.None? {
        return Some(Invalid);
      }
      var hi := Atoi(TrimSpace(p[dash + 1..]));
      if hi.None? {
        return Some(Invalid);
      }
      if lo.value > hi.value {
        return Some(Invalid);
      }
      return if n >= lo.value && n <= hi.value then Some(Yes) else None;
    }
    var k := Atoi(p);
    if k.None? {
      return Some(Invalid);
    }
    return if n == k.value then Some(Yes) else None;
  }

  // ---- Printed lists ----

  /** A number or a closed range, with white space around each piece. */
  datatype Item =
    | One(k: nat, before: string, after: string)
    | Range(lo: nat, hi: nat, before: string, beforeDash: string, afterDash: string, after: string)

  predicate Spaces(s: string) {
    forall k :: 0 <= k < |s| ==> IsSpace(s[k])
  }

  predicate Printable(item: Item) {
    match item
    case One(k, before, after) => k <= MAX_INT && Spaces(before) && Spaces(after)
    case Range(lo, hi, before, beforeDash, afterDash, after) =>
      lo <= hi <= MAX_INT && Spaces(before) && Spaces(beforeDash) && Spaces(afterDash) && Spaces(after)
  }

  function Print(item: Item): string {
    match item
    case One(k, before, after) => before + Decimal(k) + after
    case Range(lo, hi, before, beforeDash, afterDash, after) =>
      before + (Decimal(lo) + beforeDash + "-" + afterDash + Decimal(hi)) + after
  }

  function PrintAll(items: seq<Item>): seq<string> {
    if items == [] then [] else [Print(items[0])] + PrintAll(items[1..])
  }

  predicate Covers(item: Item, n: int) {
    match item
    case One(k, _, _) => n == k
    case Range(lo, hi, _, _, _, _) => lo <= n <= hi
  }

  lemma {:induction false} DecimalReads(n: nat)
    ensures AllDigits(Decimal(n)) && Value(Decimal(n)) == n
  {
    var s := Decimal(n);
    if n >= 10 {
      DecimalReads(n / 10);
      assert s[..|s| - 1] == Decimal(n / 10);
    } else {
      assert s[..0] == "";
    }
  }

  lemma {:induction false} TrimLeftPads(pad: string, s: string)
    requires Spaces(pad) && (s == "" || !IsSpace(s[0]))
    ensures TrimLeft(pad + s) == s
  {
    if pad == "" {
      assert pad + s == s;
    } else {
      assert (pad + s)[1..] == pad[1..] + s;
      TrimLeftPads(pad[1..], s);
    }
  }

  lemma {:induction false} TrimRightPads(s: string, pad: string)
    requires Spaces(pad) && (s == "" || !IsSpace(s[|s| - 1]))
    ensures TrimRight(s + pad) == s
  {
    if pad == "" {
      assert s + pad == s;
    } else {
      assert (s + pad)[..|s + pad| - 1] == s + pad[..|pad| - 1];
      TrimRightPads(s, pad[..|pad| - 1]);
    }
  }

  /** White space around something that neither starts nor ends with it comes off. */
  lemma TrimPads(before: string, s: string, after: string)
    requires Spaces(before) && Spaces(after) && s != "" && !IsSpace(s[0]) && !IsSpace(s[|s| - 1])
    ensures TrimSpace(before + s + after) == s
  {
    assert before + s + after == before + (s + after);
    TrimLeftPads(before, s + after);
    TrimRightPads(s, after);
  }

  lemma DigitsAreNot(s: string, k: nat)
    requires AllDigits(s) && k < |s|
    ensures !IsSpace(s[k]) && s[k] != '-' && s[k] != '+' && s[k] != ','
  {
  }

  lemma NumberReads(n: nat)
    requires n <= MAX_INT
    ensures Atoi(Decimal(n)) == Some(n) && '-' !in Decimal(n) && ',' !in Decimal(n)
    ensures !IsSpace(Decimal(n)[0]) && !IsSpace(Decimal(n)[|Decimal(n)| - 1])
  {
    DecimalReads(n);
    forall k | 0 <= k < |Decimal(n)|
      ensures !IsSpace(Decimal(n)[k]) && Decimal(n)[k] != '-' && Decimal(n)[k] != '+' && Decimal(n)[k] != ','
    {
      DigitsAreNot(Decimal(n), k);
    }
  }

  lemma NoDash(pad: string)
    requires Spaces(pad)
    ensures '-' !in pad && ',' !in pad
  {
  }

  /** A printed item reads back as the numbers it stands for. */
  lemma ItemReads(item: Item)
    requires Printable(item)
    ensures PartOf(Print(item)).Span? && ',' !in Print(item)
    ensures forall n :: Holds(PartOf(Print(item)), n) <==> Covers(item, n)
  {
    hide IsSpace, Atoi, Decimal, TrimSpace;
    match item {
      case One(k, before, after) =>
        NumberReads(k);
        NoDash(before);
        NoDash(after);
        TrimPads(before, Decimal(k), after);
      case Range(lo, hi, before, beforeDash, afterDash, after) =>
        NumberReads(lo);
        NumberReads(hi);
        NoDash(before);
        NoDash(after);
        NoDash(beforeDash);
        NoDash(afterDash);
        RangeReads(lo, hi, before, beforeDash, afterDash, after);
    }
  }

  lemma RangeReads(lo: nat, hi: nat, before: string, beforeDash: string, afterDash: string, after: string)
    requires Printable(Range(lo, hi, before, beforeDash, afterDash, after))
    ensures PartOf(Print(Range(lo, hi, before, beforeDash, afterDash, after))) == Span(lo, hi)
  {
    hide IsSpace, Atoi, Decimal, TrimSpace, Index;
    NumberReads(lo);
    NumberReads(hi);
    NoDash(beforeDash);
    var left := Decimal(lo) + beforeDash;
    var right := afterDash + Decimal(hi);
    var body := Decimal(lo) + beforeDash + "-" + afterDash + Decimal(hi);
    assert body == left + "-" + right;
    assert body[0] == Decimal(lo)[0] && body[|body| - 1] == Decimal(hi)[|Decimal(hi)| - 1];
    TrimPads(before, body, after);
    FirstDash(left, right);
    assert body[..|left|] == left && body[|left| + 1..] == right;
    TrimPads("", Decimal(lo), beforeDash);
    TrimPads(afterDash, Decimal(hi), "");
    assert "" + Decimal(lo) + beforeDash == left && afterDash + Decimal(hi) + "" == right;
  }

  lemma FirstDash(left: string, right: string)
    requires '-' !in left
    ensures Index(left + "-" + right, '-') == |left|
  {
    var s := left + "-" + right;
    assert s[|left|] == '-';
    forall k | |left| < k <= |s|
      ensures '-' in s[..k]
    {
      assert s[..k][|left|] == '-';
    }
    forall k | 0 <= k < |left|
      ensures s[k] != '-'
    {
      assert left[k] in left;
    }
  }

  // ---- What any part of a list stands for ----

  ghost predicate Numeral(s: string, sign: string, digits: string, v: int) {
    && (sign == "" || sign == "+" || sign == "-") && AllDigits(digits) && s == sign + digits
    && v == if sign == "-" then 0 - Value(digits) else Value(digits)
  }

  /** A number as it may be written: an optional sign and digits, leading zeros allowed, within 64 bits. */
  ghost predicate Reads(s: string, v: int) {
    -MAX_INT - 1 <= v <= MAX_INT && exists sign, digits :: Numeral(s, sign, digits, v)
  }

  lemma AtoiReads(s: string, v: int)
    ensures Atoi(s) == Some(v) <==> Reads(s, v)
  {
    var signed := s != "" && (s[0] == '-' || s[0] == '+');
    var sign, digits := if signed then s[..1] else "", if signed then s[1..] else s;
    if Atoi(s) == Some(v) {
      assert sign == "" || sign == "+" || sign == "-";
      assert Numeral(s, sign, digits, v);
    }
    if Reads(s, v) {
      var other, number :| Numeral(s, other, number, v);
      NumeralIs(s, other, number, v);
    }
  }

  lemma NumeralIs(s: string, sign: string, digits: string, v: int)
    requires Numeral(s, sign, digits, v)
    ensures s != "" && (s[0] == '-' || s[0] == '+' <==> sign != "")
    ensures sign == "-" <==> s[0] == '-'
    ensures digits == if sign == "" then s else s[1..]
  {
    DigitsAreNot(digits, 0);
  }

  /** Such a number with white space around it. */
  ghost predicate ReadsPadded(s: string, v: int) {
    exists before, number, after :: Spaces(before) && Spaces(after) && s == before + number + after && Reads(number, v)
  }

  lemma {:induction false} TrimLeftLeaves(s: string) returns (pad: string)
    ensures s == pad + TrimLeft(s) && Spaces(pad) && (TrimLeft(s) == "" || !IsSpace(TrimLeft(s)[0]))
  {
    pad := "";
    if s != "" && IsSpace(s[0]) {
      pad := TrimLeftLeaves(s[1..]);
      pad := [s[0]] + pad;
    }
  }

  lemma {:induction false} TrimRightLeaves(s: string) returns (pad: string)
    ensures s == TrimRight(s) + pad && Spaces(pad)
    ensures TrimRight(s) == "" || (!IsSpace(TrimRight(s)[|TrimRight(s)| - 1]) && TrimRight(s)[0] == s[0])
  {
    pad := "";
    if s != "" && IsSpace(s[|s| - 1]) {
      pad := TrimRightLeaves(s[..|s| - 1]);
      pad := pad + [s[|s| - 1]];
    }
  }

  lemma TrimLeaves(s: string) returns (before: string, after: string)
    ensures s == before + TrimSpace(s) + after && Spaces(before) && Spaces(after)
    ensures TrimSpace(s) == "" || (!IsSpace(TrimSpace(s)[0]) && !IsSpace(TrimSpace(s)[|TrimSpace(s)| - 1]))
  {
    before := TrimLeftLeaves(s);
    after := TrimRightLeaves(TrimLeft(s));
  }

  lemma NumberHasNoSpace(number: string, v: int)
    requires Reads(number, v)
    ensures number != "" && !IsSpace(number[0]) && !IsSpace(number[|number| - 1])
  {
    var sign, digits :| Numeral(number, sign, digits, v);
    DigitsAreNot(digits, 0);
    DigitsAreNot(digits, |digits| - 1);
    assert number[|number| - 1] == digits[|digits| - 1];
  }

  lemma AtoiReadsPadded(s: string, v: int)
    ensures Atoi(TrimSpace(s)) == Some(v) <==> ReadsPadded(s, v)
  {
    hide IsSpace, Reads, Atoi, TrimSpace;
    AtoiReads(TrimSpace(s), v);
    if Reads(TrimSpace(s), v) {
      var before, after := TrimLeaves(s);
      assert ReadsPadded(s, v);
    }
    if ReadsPadded(s, v) {
      var before, number, after :|
        Spaces(before) && Spaces(after) && s == before + number + after && Reads(number, v);
      NumberHasNoSpace(number, v);
      TrimPads(before, number, after);
    }
  }

  /** Every part: blank stands for nothing; without a dash behind its first character it must be a number; otherwise
      both sides of its first dash must be numbers, in order. Anything else is wrong. */
  lemma PartMeaning(raw: string) returns (before: string, p: string, after: string)
    ensures raw == before + p + after && Spaces(before) && Spaces(after)
    ensures p == "" || (!IsSpace(p[0]) && !IsSpace(p[|p| - 1]))
    ensures PartOf(raw).Nothing? <==> p == ""
    ensures p != "" && (p[0] == '-' || '-' !in p) ==>
      forall lo, hi :: PartOf(raw) == Span(lo, hi) <==> lo == hi && Reads(p, lo)
    ensures forall left, right :: p == left + "-" + right && left != "" && '-' !in left ==>
      forall lo, hi :: PartOf(raw) == Span(lo, hi) <==> lo <= hi && ReadsPadded(left, lo) && ReadsPadded(right, hi)
  {
    hide IsSpace, Atoi, TrimSpace, Reads, ReadsPadded;
    before, after := TrimLeaves(raw);
    p := TrimSpace(raw);
    forall v ensures Atoi(p) == Some(v) <==> Reads(p, v) { AtoiReads(p, v); }
    forall left, right | p == left + "-" + right && left != "" && '-' !in left
      ensures forall lo, hi ::
        PartOf(raw) == Span(lo, hi) <==> lo <= hi && ReadsPadded(left, lo) && ReadsPadded(right, hi)
    {
      FirstDash(left, right);
      assert p[..|left|] == left && p[|left| + 1..] == right;
      forall v
        ensures Atoi(TrimSpace(left)) == Some(v) <==> ReadsPadded(left, v)
        ensures Atoi(TrimSpace(right)) == Some(v) <==> ReadsPadded(right, v)
      {
        AtoiReadsPadded(left, v);
        AtoiReadsPadded(right, v);
      }
    }
  }

  lemma {:induction false} PrintedParts(items: seq<Item>)
    requires forall k :: 0 <= k < |items| ==> Printable(items[k])
    ensures |PrintAll(items)| == |items|
    ensures forall k :: 0 <= k < |items| ==> PrintAll(items)[k] == Print(items[k]) && ',' !in PrintAll(items)[k]
  {
    hide Print, Printable;
    if items != [] {
      ItemReads(items[0]);
      PrintedParts(items[1..]);
    }
  }

  /** Every printed list is accepted, and holds n exactly when one of its items does. */
  lemma PrintedListsRead(n: int, items: seq<Item>, answer: Answer)
    requires items != [] && forall k :: 0 <= k < |items| ==> Printable(items[k])
    requires Decides(Split(Join(PrintAll(items), ","), ','), n, answer)
    ensures Join(PrintAll(items), ",") != ""
    ensures answer == if exists k :: 0 <= k < |items| && Covers(items[k], n) then Yes else No
  {
    hide Print, Printable, PartOf, Holds, Covers, Join, Split;
    PrintedParts(items);
    SplitJoin(PrintAll(items), ',');
    var parts := PrintAll(items);
    forall k | 0 <= k < |items|
      ensures PartOf(parts[k]).Span? && (Holds(PartOf(parts[k]), n) <==> Covers(items[k], n))
    {
      ItemReads(items[k]);
    }
    PrintedNotEmpty(items);
  }

  lemma PrintedNotEmpty(items: seq<Item>)
    requires items != []
    ensures Join(PrintAll(items), ",") != ""
  {
    var s := Print(items[0]);
    assert s != "";
  }
}
