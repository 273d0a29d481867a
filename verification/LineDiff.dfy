/** The golden-file diff: a longest-common-subsequence table filled from the end,
    then a walk from the front that keeps, drops and adds lines. */
module LineDiff {
  import opened Text

  const NEWLINE: char := '\n'
  const WANT_HEADER := "--- want"
  const GOT_HEADER := "+++ got"
  const HEADER := WANT_HEADER + [NEWLINE] + GOT_HEADER + [NEWLINE]

  datatype Edit = Keep(line: string) | Drop(line: string) | Add(line: string)

  function EditText(e: Edit): string {
    match e
    case Keep(line) => " " + line + "\n"
    case Drop(line) => "-" + line + "\n"
    case Add(line) => "+" + line + "\n"
  }

  function ScriptText(script: seq<Edit>): string {
    if script == [] then "" else EditText(script[0]) + ScriptText(script[1..])
  }

  // ---- What a script says ----

  /** The script with its + lines erased. */
  function WantSide(script: seq<Edit>): seq<string> {
    if script == [] then []
    else (if script[0].Add? then [] else [script[0].line]) + WantSide(script[1..])
  }

  /** The script with its - lines erased. */
  function GotSide(script: seq<Edit>): seq<string> {
    if script == [] then []
    else (if script[0].Drop? then [] else [script[0].line]) + GotSide(script[1..])
  }

  function Kept(script: seq<Edit>): seq<string> {
    if script == [] then []
    else (if script[0].Keep? then [script[0].line] else []) + Kept(script[1..])
  }

  /** How many + and - lines the reader has to look at. */
  function Changes(script: seq<Edit>): nat {
    if script == [] then 0
    else (if script[0].Keep? then 0 else 1) + Changes(script[1..])
  }

  predicate Turns(script: seq<Edit>, want: seq<string>, got: seq<string>) {
    WantSide(script) == want && GotSide(script) == got
  }

  predicate Subsequence(c: seq<string>, s: seq<string>) {
    c == [] ||
    (s != [] && ((c[0] == s[0] && Subsequence(c[1..], s[1..])) || Subsequence(c, s[1..])))
  }

  // ---- What the code computes ----

  function Cell(want: seq<string>, got: seq<string>, i: nat, j: nat): nat
    requires i <= |want| && j <= |got|
    decreases |want| - i + |got| - j
  {
    if i == |want| || j == |got| then 0
    else if want[i] == got[j] then Cell(want, got, i + 1, j + 1) + 1
    else if Cell(want, got, i + 1, j) >= Cell(want, got, i, j + 1) then Cell(want, got, i + 1, j)
    else Cell(want, got, i, j + 1)
  }

  function Walk(want: seq<string>, got: seq<string>, i: nat, j: nat): seq<Edit>
    requires i <= |want| && j <= |got|
    decreases |want| - i + |got| - j
  {
    if i == |want| && j == |got| then []
    else if i == |want| then [Add(got[j])] + Walk(want, got, i, j + 1)
    else if j == |got| then [Drop(want[i])] + Walk(want, got, i + 1, j)
    else if want[i] == got[j] then [Keep(want[i])] + Walk(want, got, i + 1, j + 1)
    else if Cell(want, got, i + 1, j) >= Cell(want, got, i, j + 1) then [Drop(want[i])] + Walk(want, got, i + 1, j)
    else [Add(got[j])] + Walk(want, got, i, j + 1)
  }

  /** The entries after (i, j) in row order, counted from the end, are filled in. */
  ghost predicate Filled(table: array2<nat>, want: seq<string>, got: seq<string>, i: int, j: int)
    reads table
  {
    && table.Length0 == |want| + 1 && table.Length1 == |got| + 1
    && forall r: nat, c: nat {:trigger table[r, c]} ::
        r <= |want| && c <= |got| && (i < r || (i == r && j <= c) || c == |got|) ==>
          table[r, c] == Cell(want, got, r, c)
  }

  method FillTable(want: seq<string>, got: seq<string>) returns (table: array2<nat>)
    ensures fresh(table)
    ensures Filled(table, want, got, 0, 0)
  {
    table := new nat[|want| + 1, |got| + 1]((i, j) => 0);
    var i := |want|;
    while i > 0
      invariant 0 <= i <= |want|
      invariant Filled(table, want, got, i, 0)
    {
      i := i - 1;
      var j := |got|;
      while j > 0
        invariant 0 <= j <= |got|
        invariant Filled(table, want, got, i, j)
      {
        j := j - 1;
        var entry := if want[i] == got[j] then table[i + 1, j + 1] + 1
                     else if table[i + 1, j] >= table[i, j + 1] then table[i + 1, j]
                     else table[i, j + 1];
        assert entry == Cell(want, got, i, j);
        table[i, j] := entry;
      }
    }
  }

  /** The walk one edit at a time. */
  lemma WalkStep(want: seq<string>, got: seq<string>, i: nat, j: nat)
    requires i < |want| && j < |got|
    ensures var walk := Walk(want, got, i, j);
      && walk != []
      && if want[i] == got[j] then walk[0] == Keep(want[i]) && walk[1..] == Walk(want, got, i + 1, j + 1)
         else if Cell(want, got, i + 1, j) >= Cell(want, got, i, j + 1)
         then walk[0] == Drop(want[i]) && walk[1..] == Walk(want, got, i + 1, j)
         else walk[0] == Add(got[j]) && walk[1..] == Walk(want, got, i, j + 1)
  {
  }

  /** The text written so far and the walk from (i, j) make up the whole. */
  ghost predicate Writes(out: string, want: seq<string>, got: seq<string>, i: nat, j: nat, whole: string)
    requires i <= |want| && j <= |got|
  {
    out + ScriptText(Walk(want, got, i, j)) == whole
  }

  lemma MoveFirst(out: string, script: seq<Edit>)
    requires script != []
    ensures out + ScriptText(script) == out + EditText(script[0]) + ScriptText(script[1..])
  {
  }

  lemma WriteKeep(out: string, want: seq<string>, got: seq<string>, i: nat, j: nat, whole: string)
    requires i < |want| && j < |got| && want[i] == got[j] && Writes(out, want, got, i, j, whole)
    ensures Writes(out + EditText(Keep(want[i])), want, got, i + 1, j + 1, whole)
  {
    WalkStep(want, got, i, j);
    MoveFirst(out, Walk(want, got, i, j));
  }

  lemma WriteDrop(out: string, want: seq<string>, got: seq<string>, i: nat, j: nat, whole: string)
    requires i < |want| && j <= |got| && Writes(out, want, got, i, j, whole)
    requires j < |got| ==> want[i] != got[j] && Cell(want, got, i + 1, j) >= Cell(want, got, i, j + 1)
    ensures Writes(out + EditText(Drop(want[i])), want, got, i + 1, j, whole)
  {
    if j < |got| { WalkStep(want, got, i, j); }
    MoveFirst(out, Walk(want, got, i, j));
  }

  lemma WriteAdd(out: string, want: seq<string>, got: seq<string>, i: nat, j: nat, whole: string)
    requires i <= |want| && j < |got| && Writes(out, want, got, i, j, whole)
    requires i < |want| ==> want[i] != got[j] && Cell(want, got, i + 1, j) < Cell(want, got, i, j + 1)
    ensures Writes(out + EditText(Add(got[j])), want, got, i, j + 1, whole)
  {
    if i < |want| { WalkStep(want, got, i, j); }
    MoveFirst(out, Walk(want, got, i, j));
  }

  lemma WriteStarts(head: string, want: seq<string>, got: seq<string>)
    ensures Writes(head, want, got, 0, 0, head + ScriptText(Walk(want, got, 0, 0)))
  {
  }

  lemma WriteDone(out: string, want: seq<string>, got: seq<string>, whole: string)
    requires Writes(out, want, got, |want|, |got|, whole)
    ensures out == whole
  {
  }

  /** The diff text. DiffIsExact and DiffIsMinimal say what it is worth. */
  method DiffLines(want: string, got: string) returns (out: string)
    ensures out == HEADER + ScriptText(Walk(Split(want, NEWLINE), Split(got, NEWLINE), 0, 0))
  {
    out := WriteScript(HEADER, Split(want, NEWLINE), Split(got, NEWLINE));
  }

  method WriteScript(head: string, want: seq<string>, got: seq<string>) returns (out: string)
    ensures out == head + ScriptText(Walk(want, got, 0, 0))
  {
    hide Writes, Walk, ScriptText, EditText, Cell;
    var table := FillTable(want, got);
    out := head;
    var i, j := 0, 0;
    ghost var whole := head + ScriptText(Walk(want, got, 0, 0));
    WriteStarts(head, want, got);
    while i < |want| && j < |got|
      invariant 0 <= i <= |want| && 0 <= j <= |got|
      invariant Writes(out, want, got, i, j, whole)
      decreases |want| - i + |got| - j
      modifies {}
    {
      if want[i] == got[j] {
        WriteKeep(out, want, got, i, j, whole);
        out := out + EditText(Keep(want[i]));
        i, j := i + 1, j + 1;
      } else if table[i + 1, j] >= table[i, j + 1] {
        WriteDrop(out, want, got, i, j, whole);
        out := out + EditText(Drop(want[i]));
        i := i + 1;
      } else {
        WriteAdd(out, want, got, i, j, whole);
        out := out + EditText(Add(got[j]));
        j := j + 1;
      }
    }
    while i < |want|
      invariant 0 <= i <= |want| && 0 <= j <= |got|
      invariant i < |want| ==> j == |got|
      invariant Writes(out, want, got, i, j, whole)
    {
      WriteDrop(out, want, got, i, j, whole);
      out := out + EditText(Drop(want[i]));
      i := i + 1;
    }
    while j < |got|
      invariant i == |want| && 0 <= j <= |got|
      invariant Writes(out, want, got, i, j, whole)
    {
      WriteAdd(out, want, got, i, j, whole);
      out := out + EditText(Add(got[j]));
      j := j + 1;
    }
    WriteDone(out, want, got, whole);
  }

  // ---- Reading the diff back ----

  function ReadLine(text: string): Edit {
    if text == "" then Keep("")
    else if text[0] == '-' then Drop(text[1..])
    else if text[0] == '+' then Add(text[1..])
    else Keep(text[1..])
  }

  function ReadLines(lines: seq<string>): seq<Edit> {
    if lines == [] then [] else [ReadLine(lines[0])] + ReadLines(lines[1..])
  }

  /** What a reader recovers from the text alone: two header lines, one edit a line, a final newline. */
  function ReadBack(out: string): seq<Edit> {
    var lines := Split(out, NEWLINE);
    if |lines| < 3 then [] else ReadLines(lines[2..|lines| - 1])
  }

  ghost predicate OneLineEach(script: seq<Edit>) {
    forall k :: 0 <= k < |script| ==> NEWLINE !in script[k].line
  }

  lemma TagLine(e: Edit)
    ensures EditText(e) != "" && ReadLine(EditText(e)[..|EditText(e)| - 1]) == e
    ensures EditText(e) == EditText(e)[..|EditText(e)| - 1] + [NEWLINE]
    ensures NEWLINE !in e.line ==> NEWLINE !in EditText(e)[..|EditText(e)| - 1]
  {
    var tag := match e case Keep(_) => ' ' case Drop(_) => '-' case Add(_) => '+';
    assert EditText(e) == ([tag] + e.line) + [NEWLINE];
    assert EditText(e)[..|EditText(e)| - 1] == [tag] + e.line;
    assert ([tag] + e.line)[1..] == e.line;
  }

  lemma {:induction false} ScriptLines(script: seq<Edit>)
    requires OneLineEach(script)
    ensures var lines := Split(ScriptText(script), NEWLINE);
      |lines| == |script| + 1 && ReadLines(lines[..|script|]) == script
  {
    hide Split, EditText, ReadLine;
    if script == [] {
      SplitWhole("", NEWLINE);
    } else {
      var e, rest := script[0], script[1..];
      TagLine(e);
      var line := EditText(e)[..|EditText(e)| - 1];
      var lines := Split(ScriptText(rest), NEWLINE);
      ScriptLines(rest);
      assert EditText(e) + ScriptText(rest) == line + [NEWLINE] + ScriptText(rest);
      SplitHead(line, ScriptText(rest), NEWLINE);
      assert ([line] + lines)[..|script|] == [line] + lines[..|rest|];
      assert ([line] + lines[..|rest|])[1..] == lines[..|rest|];
      assert [e] + rest == script;
    }
  }

  lemma OneLineMore(script: seq<Edit>)
    requires script != [] && NEWLINE !in script[0].line && OneLineEach(script[1..])
    ensures OneLineEach(script)
  {
    assert script == [script[0]] + script[1..];
  }

  lemma WalkEdge(want: seq<string>, got: seq<string>, i: nat, j: nat)
    requires i <= |want| && j <= |got| && (i == |want| || j == |got|)
    ensures var walk := Walk(want, got, i, j);
      && (i < |want| ==> walk != [] && walk[0] == Drop(want[i]) && walk[1..] == Walk(want, got, i + 1, j))
      && (j < |got| ==> walk != [] && walk[0] == Add(got[j]) && walk[1..] == Walk(want, got, i, j + 1))
      && (i == |want| && j == |got| ==> walk == [])
  {
  }

  lemma {:induction false} WalkLines(want: seq<string>, got: seq<string>, i: nat, j: nat)
    requires i <= |want| && j <= |got|
    requires forall k :: 0 <= k < |want| ==> NEWLINE !in want[k]
    requires forall k :: 0 <= k < |got| ==> NEWLINE !in got[k]
    ensures OneLineEach(Walk(want, got, i, j))
    decreases |want| - i + |got| - j
  {
    hide Walk, Cell;
    if i < |want| && j < |got| {
      WalkStep(want, got, i, j);
      if want[i] == got[j] {
        WalkLines(want, got, i + 1, j + 1);
      } else if Cell(want, got, i + 1, j) >= Cell(want, got, i, j + 1) {
        WalkLines(want, got, i + 1, j);
      } else {
        WalkLines(want, got, i, j + 1);
      }
      OneLineMore(Walk(want, got, i, j));
    } else {
      WalkEdge(want, got, i, j);
      if i < |want| {
        WalkLines(want, got, i + 1, j);
        OneLineMore(Walk(want, got, i, j));
      } else if j < |got| {
        WalkLines(want, got, i, j + 1);
        OneLineMore(Walk(want, got, i, j));
      }
    }
  }

  /** Each edit is one line of text, behind its mark. */
  lemma {:induction false} MarkedLines(script: seq<Edit>)
    requires OneLineEach(script)
    ensures var lines := Split(ScriptText(script), NEWLINE);
      && |lines| == |script| + 1 && lines[|script|] == ""
      && forall k :: 0 <= k < |script| ==>
           lines[k] == (if script[k].Keep? then " " else if script[k].Drop? then "-" else "+") + script[k].line
  {
    hide Split, EditText;
    if script == [] {
      SplitWhole("", NEWLINE);
    } else {
      var e, rest := script[0], script[1..];
      TagLine(e);
      MarkOf(e);
      var line := EditText(e)[..|EditText(e)| - 1];
      MarkedLines(rest);
      assert EditText(e) + ScriptText(rest) == line + [NEWLINE] + ScriptText(rest);
      SplitHead(line, ScriptText(rest), NEWLINE);
    }
  }

  lemma MarkOf(e: Edit)
    ensures EditText(e)[..|EditText(e)| - 1] == (if e.Keep? then " " else if e.Drop? then "-" else "+") + e.line
  {
  }

  /** The lines of a diff: two headers, one marked line per edit, and nothing after the last newline. */
  lemma DiffLooks(want: string, got: string, out: string)
    requires out == HEADER + ScriptText(Walk(Split(want, NEWLINE), Split(got, NEWLINE), 0, 0))
    ensures var script, lines := Walk(Split(want, NEWLINE), Split(got, NEWLINE), 0, 0), Split(out, NEWLINE);
      && |lines| == |script| + 3 && lines[0] == "--- want" && lines[1] == "+++ got" && lines[|lines| - 1] == ""
      && forall k :: 0 <= k < |script| ==>
           lines[k + 2] == (if script[k].Keep? then " " else if script[k].Drop? then "-" else "+") + script[k].line
  {
    hide Split, ScriptText, Walk;
    var script := Walk(Split(want, NEWLINE), Split(got, NEWLINE), 0, 0);
    WalkLines(Split(want, NEWLINE), Split(got, NEWLINE), 0, 0);
    MarkedLines(script);
    var body := ScriptText(script);
    assert out == WANT_HEADER + [NEWLINE] + (GOT_HEADER + [NEWLINE] + body);
    SplitHead(WANT_HEADER, GOT_HEADER + [NEWLINE] + body, NEWLINE);
    SplitHead(GOT_HEADER, body, NEWLINE);
  }

  /** The text determines the script. */
  lemma ReadBackDiff(script: seq<Edit>)
    requires OneLineEach(script)
    ensures ReadBack(HEADER + ScriptText(script)) == script
  {
    hide Split, ScriptText, ReadLines;
    var body := ScriptText(script);
    var h1, h2 := WANT_HEADER, GOT_HEADER;
    assert NEWLINE !in h1 && NEWLINE !in h2;
    assert HEADER + body == h1 + [NEWLINE] + (h2 + [NEWLINE] + body);
    SplitHead(h1, h2 + [NEWLINE] + body, NEWLINE);
    SplitHead(h2, body, NEWLINE);
    ScriptLines(script);
    var lines := Split(body, NEWLINE);
    assert ([h1] + ([h2] + lines))[2..|lines| + 1] == lines[..|script|];
  }

  // ---- The walk is a script, and the best one ----

  lemma {:induction false} WalkSides(want: seq<string>, got: seq<string>, i: nat, j: nat)
    requires i <= |want| && j <= |got|
    ensures Turns(Walk(want, got, i, j), want[i..], got[j..])
    ensures |Kept(Walk(want, got, i, j))| == Cell(want, got, i, j)
    decreases |want| - i + |got| - j
  {
    if i < |want| && j < |got| {
      WalkStep(want, got, i, j);
      assert want[i..] == [want[i]] + want[i + 1..] && got[j..] == [got[j]] + got[j + 1..];
      if want[i] == got[j] {
        WalkSides(want, got, i + 1, j + 1);
      } else if Cell(want, got, i + 1, j) >= Cell(want, got, i, j + 1) {
        WalkSides(want, got, i + 1, j);
      } else {
        WalkSides(want, got, i, j + 1);
      }
    } else if i < |want| {
      WalkSides(want, got, i + 1, j);
      assert want[i..] == [want[i]] + want[i + 1..];
    } else if j < |got| {
      WalkSides(want, got, i, j + 1);
      assert got[j..] == [got[j]] + got[j + 1..];
    }
  }

  lemma {:induction false} SubsequenceTail(c: seq<string>, s: seq<string>)
    requires c != [] && Subsequence(c, s)
    ensures s != [] && Subsequence(c[1..], s[1..])
  {
    if !(c[0] == s[0] && Subsequence(c[1..], s[1..])) {
      SubsequenceTail(c, s[1..]);
      SubsequenceSkip(c[1..], s[1..]);
    }
  }

  lemma SubsequenceSkip(c: seq<string>, s: seq<string>)
    requires s != [] && Subsequence(c, s[1..])
    ensures Subsequence(c, s)
  {
  }

  /** No common subsequence is longer than the table entry. */
  lemma {:induction false} CellBounds(want: seq<string>, got: seq<string>, i: nat, j: nat, c: seq<string>)
    requires i <= |want| && j <= |got|
    requires Subsequence(c, want[i..]) && Subsequence(c, got[j..])
    ensures |c| <= Cell(want, got, i, j)
    decreases |want| - i + |got| - j
  {
    if c != [] {
      assert want[i..] != [] && got[j..] != [];
      assert want[i..][1..] == want[i + 1..] && got[j..][1..] == got[j + 1..];
      if want[i] == got[j] {
        SubsequenceTail(c, want[i..]);
        SubsequenceTail(c, got[j..]);
        CellBounds(want, got, i + 1, j + 1, c[1..]);
      } else if c[0] == want[i] {
        CellBounds(want, got, i, j + 1, c);
      } else {
        CellBounds(want, got, i + 1, j, c);
      }
    }
  }

  lemma {:induction false} KeptIsCommon(script: seq<Edit>)
    ensures Subsequence(Kept(script), WantSide(script)) && Subsequence(Kept(script), GotSide(script))
    ensures |WantSide(script)| + |GotSide(script)| == 2 * |Kept(script)| + Changes(script)
  {
    if script != [] {
      var rest := script[1..];
      KeptIsCommon(rest);
      match script[0]
      case Keep(line) =>
        assert Kept(script)[1..] == Kept(rest);
        assert WantSide(script)[1..] == WantSide(rest) && GotSide(script)[1..] == GotSide(rest);
      case Drop(line) =>
        assert Kept(script) == Kept(rest) && GotSide(script) == GotSide(rest);
        assert WantSide(script)[1..] == WantSide(rest);
        SubsequenceSkip(Kept(script), WantSide(script));
      case Add(line) =>
        assert Kept(script) == Kept(rest) && WantSide(script) == WantSide(rest);
        assert GotSide(script)[1..] == GotSide(rest);
        SubsequenceSkip(Kept(script), GotSide(script));
    }
  }

  ghost predicate Common(c: seq<string>, want: seq<string>, got: seq<string>) {
    Subsequence(c, want) && Subsequence(c, got)
  }

  /** Where the lines differ, want's is dropped first exactly when that leaves as long a common subsequence as adding
      got's would. */
  lemma DropsFirst(want: seq<string>, got: seq<string>, i: nat, j: nat)
    requires i < |want| && j < |got| && want[i] != got[j]
    ensures var walk := Walk(want, got, i, j);
      && walk != [] && (walk[0] == Drop(want[i]) || walk[0] == Add(got[j]))
      && (walk[0].Drop? <==> forall c :: Common(c, want[i..], got[j + 1..]) ==>
            exists d :: Common(d, want[i + 1..], got[j..]) && |c| <= |d|)
  {
    hide Walk, Cell, Subsequence;
    WalkStep(want, got, i, j);
    WalkSides(want, got, i + 1, j);
    WalkSides(want, got, i, j + 1);
    var d0, c0 := Kept(Walk(want, got, i + 1, j)), Kept(Walk(want, got, i, j + 1));
    KeptIsCommon(Walk(want, got, i + 1, j));
    KeptIsCommon(Walk(want, got, i, j + 1));
    assert Common(d0, want[i + 1..], got[j..]) && Common(c0, want[i..], got[j + 1..]);
    forall c | Common(c, want[i..], got[j + 1..])
      ensures |c| <= |c0|
    {
      CellBounds(want, got, i, j + 1, c);
    }
    forall d | Common(d, want[i + 1..], got[j..])
      ensures |d| <= |d0|
    {
      CellBounds(want, got, i + 1, j, d);
    }
  }

  /** Reading the text back and erasing the + lines gives want, erasing the - lines gives got. */
  lemma DiffIsExact(want: string, got: string, out: string)
    requires out == HEADER + ScriptText(Walk(Split(want, NEWLINE), Split(got, NEWLINE), 0, 0))
    ensures Join(WantSide(ReadBack(out)), "\n") == want
    ensures Join(GotSide(ReadBack(out)), "\n") == got
  {
    var a, b := Split(want, NEWLINE), Split(got, NEWLINE);
    WalkLines(a, b, 0, 0);
    ReadBackDiff(Walk(a, b, 0, 0));
    WalkSides(a, b, 0, 0);
    assert a[0..] == a && b[0..] == b;
    JoinSplit(want, NEWLINE);
    JoinSplit(got, NEWLINE);
  }

  /** The diff keeps a longest common subsequence, and no script has fewer + and - lines. */
  lemma DiffIsMinimal(want: seq<string>, got: seq<string>)
    ensures var walk := Walk(want, got, 0, 0);
      && Subsequence(Kept(walk), want) && Subsequence(Kept(walk), got)
      && (forall c :: Subsequence(c, want) && Subsequence(c, got) ==> |c| <= |Kept(walk)|)
      && (forall other :: Turns(other, want, got) ==> Changes(walk) <= Changes(other))
  {
    var walk := Walk(want, got, 0, 0);
    assert want[0..] == want && got[0..] == got;
    WalkSides(want, got, 0, 0);
    KeptIsCommon(walk);
    forall c | Subsequence(c, want) && Subsequence(c, got)
      ensures |c| <= |Kept(walk)|
    {
      CellBounds(want, got, 0, 0, c);
    }
    forall other | Turns(other, want, got)
      ensures Changes(walk) <= Changes(other)
    {
      KeptIsCommon(other);
    }
  }
}
