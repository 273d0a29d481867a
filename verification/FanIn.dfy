/** Merging what a phase's jobs report: aggregation, de-duplication by fingerprint, and the
    feedback text for the next developer run. */
module FanIn {
  import opened Text

  datatype Finding = Finding(jobId: string, path: string, line: int, severity: string, body: string,
                             fingerprint: string, sourceJobIds: seq<string>)

  datatype DispatchResult = DispatchResult(findings: seq<Finding>, artifacts: seq<string>, exitCode: int)

  datatype Aggregate = Aggregate(findings: seq<Finding>, artifacts: seq<string>, testsPassed: bool)

  /** A collision-resistant digest of path, line, severity and body; only its value as a key matters here. */
  type Digest = (string, int, string, string) -> string

  // ---- Aggregation ----

  function Aggregated(results: seq<DispatchResult>): Aggregate {
    if results == [] then Aggregate([], [], true)
    else
      var front := Aggregated(results[..|results| - 1]);
      var last := results[|results| - 1];
      Aggregate(front.findings + last.findings, front.artifacts + last.artifacts,
                front.testsPassed && last.exitCode == 0)
  }

  method AggregateResults(results: seq<DispatchResult>) returns (out: Aggregate)
    ensures out == Aggregated(results)
  {
    out := Aggregate([], [], true);
    for k := 0 to |results|
      invariant out == Aggregated(results[..k])
    {
      var r := results[k];
      assert results[..k + 1][..k] == results[..k];
      out := out.(findings := out.findings + r.findings, artifacts := out.artifacts + r.artifacts);
      if r.exitCode != 0 {
        out := out.(testsPassed := false);
      }
    }
    assert results[..|results|] == results;
  }

  /** Tests pass exactly when every job exited with 0, and no finding is lost or invented. */
  lemma {:induction false} AggregateMeaning(results: seq<DispatchResult>)
    ensures Aggregated(results).testsPassed <==> forall r :: r in results ==> r.exitCode == 0
    ensures forall f :: f in Aggregated(results).findings <==>
      exists k :: 0 <= k < |results| && f in results[k].findings
  {
    if results != [] {
      var front, last := results[..|results| - 1], results[|results| - 1];
      AggregateMeaning(front);
      assert forall r :: r in results <==> r in front || r == last;
      forall f
        ensures f in Aggregated(results).findings <==> exists k :: 0 <= k < |results| && f in results[k].findings
      {
        if k :| 0 <= k < |front| && f in front[k].findings { assert f in results[k].findings; }
      }
    }
  }

  /** Findings and artifacts are joined in the order of the results. */
  lemma {:induction false} AggregateJoins(a: seq<DispatchResult>, b: seq<DispatchResult>)
    ensures var x, y := Aggregated(a), Aggregated(b);
      Aggregated(a + b) == Aggregate(x.findings + y.findings, x.artifacts + y.artifacts, x.testsPassed && y.testsPassed)
  {
    if b == [] {
      assert a + b == a;
    } else {
      var front, last := b[..|b| - 1], b[|b| - 1];
      AggregateJoins(a, front);
      var whole := a + b;
      assert whole[..|whole| - 1] == a + front && whole[|whole| - 1] == last;
    }
  }

  lemma AggregateOne(r: DispatchResult)
    ensures Aggregated([r]) == Aggregate(r.findings, r.artifacts, r.exitCode == 0)
    ensures Aggregated([]) == Aggregate([], [], true)
  {
    assert [r][..0] == [];
  }

  // ---- De-duplication ----

  function Key(f: Finding, digest: Digest): string {
    if f.fingerprint == "" then digest(f.path, f.line, f.severity, f.body) else f.fingerprint
  }

  /** The finding's job id, when it has one. */
  function Credit(f: Finding): seq<string> {
    if f.jobId != "" then [f.jobId] else []
  }

  /** The non-empty job ids of all findings with the key, in input order. */
  function Reporters(findings: seq<Finding>, key: string, digest: Digest): seq<string> {
    if findings == [] then []
    else
      var last := findings[|findings| - 1];
      Reporters(findings[..|findings| - 1], key, digest)
        + if Key(last, digest) == key then Credit(last) else []
  }

  ghost predicate Known(findings: seq<Finding>, key: string, digest: Digest) {
    exists k :: 0 <= k < |findings| && Key(findings[k], digest) == key
  }

  /** Positions of the findings whose key no earlier finding has. */
  ghost function Firsts(findings: seq<Finding>, digest: Digest): (at: seq<nat>)
    ensures forall k :: 0 <= k < |at| ==> at[k] < |findings|
  {
    if findings == [] then []
    else
      var n := |findings| - 1;
      var front := findings[..n];
      Firsts(front, digest) + if Known(front, Key(findings[n], digest), digest) then [] else [n]
  }

  ghost function Canonical(findings: seq<Finding>, at: nat, digest: Digest): Finding
    requires at < |findings|
  {
    var key := Key(findings[at], digest);
    findings[at].(fingerprint := key, sourceJobIds := Reporters(findings, key, digest))
  }

  ghost function Deduped(findings: seq<Finding>, digest: Digest): seq<Finding> {
    var at := Firsts(findings, digest);
    seq(|at|, k requires 0 <= k < |at| => Canonical(findings, at[k], digest))
  }

  /** Firsts is exactly the increasing list of first occurrences. */
  lemma {:induction false} FirstsMeaning(findings: seq<Finding>, digest: Digest)
    ensures var at := Firsts(findings, digest);
      && (forall i, j :: 0 <= i < j < |at| ==> at[i] < at[j])
      && (forall n: nat :: n in at <==> n < |findings| && !Known(findings[..n], Key(findings[n], digest), digest))
  {
    hide Known, Key;
    if findings != [] {
      var last := |findings| - 1;
      var front := findings[..last];
      FirstsMeaning(front, digest);
      forall n: nat | n < last
        ensures front[..n] == findings[..n] && front[n] == findings[n]
      {
      }
    }
  }

  ghost predicate Kept(out: seq<Finding>, key: string) {
    exists i :: 0 <= i < |out| && out[i].fingerprint == key
  }

  /** One canonical finding per key, crediting every job that reported it. */
  lemma OnePerKey(findings: seq<Finding>, digest: Digest)
    ensures var out := Deduped(findings, digest);
      && (forall i, j :: 0 <= i < j < |out| ==> out[i].fingerprint != out[j].fingerprint)
      && (forall k :: 0 <= k < |findings| ==> Kept(out, Key(findings[k], digest)))
      && (forall i :: 0 <= i < |out| ==> out[i].sourceJobIds == Reporters(findings, out[i].fingerprint, digest))
      && (out == [] <==> findings == [])
  {
    var out, at := Deduped(findings, digest), Firsts(findings, digest);
    FirstsMeaning(findings, digest);
    forall i, j | 0 <= i < j < |out|
      ensures out[i].fingerprint != out[j].fingerprint
    {
      assert at[j] in at;
      assert findings[..at[j]][at[i]] == findings[at[i]];
    }
    forall k | 0 <= k < |findings|
      ensures Kept(out, Key(findings[k], digest))
    {
      var first := FirstWith(findings, k, digest);
      var i :| 0 <= i < |at| && at[i] == first;
      assert out[i].fingerprint == Key(findings[k], digest);
    }
    if findings != [] { assert Key(findings[0], digest) == Key(findings[0], digest); }
  }

  lemma {:induction false} FirstWith(findings: seq<Finding>, k: nat, digest: Digest) returns (first: nat)
    requires k < |findings|
    ensures first in Firsts(findings, digest) && Key(findings[first], digest) == Key(findings[k], digest)
    decreases k
  {
    FirstsMeaning(findings, digest);
    if Known(findings[..k], Key(findings[k], digest), digest) {
      var earlier :| 0 <= earlier < k && Key(findings[..k][earlier], digest) == Key(findings[k], digest);
      first := FirstWith(findings, earlier, digest);
    } else {
      first := k;
    }
  }

  /** What findings are grouped by. */
  lemma KeyIs(f: Finding, digest: Digest)
    ensures f.fingerprint != "" ==> Key(f, digest) == f.fingerprint
    ensures f.fingerprint == "" ==> Key(f, digest) == digest(f.path, f.line, f.severity, f.body)
  {
  }

  /** Whose job ids a group is credited with: those of its findings that have one, in input order. */
  lemma {:induction false} ReportersInOrder(findings: seq<Finding>, key: string, digest: Digest) returns (at: seq<nat>)
    ensures var jobs := Reporters(findings, key, digest);
      && Increasing(at) && |at| == |jobs|
      && (forall k :: 0 <= k < |at| ==> at[k] < |findings| && jobs[k] == findings[at[k]].jobId)
    ensures forall n: nat :: n in at <==>
      n < |findings| && findings[n].jobId != "" && Key(findings[n], digest) == key
  {
    hide Increasing, Key;
    at := [];
    NoneIncreasing();
    if findings != [] {
      var n := |findings| - 1;
      at := ReportersInOrder(findings[..n], key, digest);
      IncreasingMore(at, n);
      if Key(findings[n], digest) == key && findings[n].jobId != "" { at := at + [n]; }
    }
  }

  /** The finding is the one at that position, which is the first with its key, but for its key and credits. */
  ghost predicate IsFirst(findings: seq<Finding>, digest: Digest, at: int, f: Finding) {
    && 0 <= at < |findings| && f.fingerprint == Key(findings[at], digest)
    && !Known(findings[..at], f.fingerprint, digest)
    && f == findings[at].(fingerprint := f.fingerprint, sourceJobIds := f.sourceJobIds)
  }

  /** De-duplication keeps, for each key once and in input order, the first finding with that key, crediting every job
      that reported it. */
  lemma DedupeMeaning(findings: seq<Finding>, digest: Digest)
    ensures var out, at := Deduped(findings, digest), Firsts(findings, digest);
      && |out| == |at| && (forall i, j :: 0 <= i < j < |at| ==> at[i] < at[j])
      && (forall i :: 0 <= i < |out| ==> IsFirst(findings, digest, at[i], out[i]))
      && (forall i :: 0 <= i < |out| ==> out[i].sourceJobIds == Reporters(findings, out[i].fingerprint, digest))
      && (forall i, j :: 0 <= i < j < |out| ==> out[i].fingerprint != out[j].fingerprint)
      && (forall k :: 0 <= k < |findings| ==> Kept(out, Key(findings[k], digest)))
      && (out == [] <==> findings == [])
  {
    hide Known, Key, Reporters, Firsts, Deduped, IsFirst;
    OnePerKey(findings, digest);
    FirstsMeaning(findings, digest);
    KeptAreFirst(findings, digest);
  }

  lemma KeptAreFirst(findings: seq<Finding>, digest: Digest)
    ensures var out, at := Deduped(findings, digest), Firsts(findings, digest);
      |out| == |at| && forall i :: 0 <= i < |out| ==> IsFirst(findings, digest, at[i], out[i])
  {
    hide Known, Key, Reporters, Firsts;
    FirstsMeaning(findings, digest);
    var out, at := Deduped(findings, digest), Firsts(findings, digest);
    forall i | 0 <= i < |out|
      ensures IsFirst(findings, digest, at[i], out[i])
    {
      assert at[i] in at;
      assert out[i] == Canonical(findings, at[i], digest);
    }
  }

  datatype Group = Group(idx: nat, sourceJobs: seq<string>)

  /** The loop state after the given findings: the output so far and, per key, where it sits and who reported it. */
  ghost predicate Grouped(findings: seq<Finding>, digest: Digest, out: seq<Finding>, seen: map<string, Group>) {
    && out == Deduped(findings, digest)
    && (forall key :: key in seen <==> Known(findings, key, digest))
    && (forall key :: key in seen ==>
          && seen[key].idx < |out| && out[seen[key].idx].fingerprint == key
          && seen[key].sourceJobs == Reporters(findings, key, digest))
  }

  lemma GroupedOut(findings: seq<Finding>, digest: Digest, out: seq<Finding>, seen: map<string, Group>)
    requires Grouped(findings, digest, out, seen)
    ensures out == Deduped(findings, digest)
    ensures forall key :: key in seen ==> seen[key].idx < |out|
  {
  }

  lemma GroupedNothing(digest: Digest)
    ensures Grouped([], digest, [], map[])
  {
  }

  method DedupeFindings(findings: seq<Finding>, digest: Digest) returns (out: seq<Finding>)
    ensures out == Deduped(findings, digest)
  {
    hide Known, Reporters, Deduped, Key, Grouped;
    out := [];
    var seen: map<string, Group> := map[];
    GroupedNothing(digest);
    assert findings[..0] == [];
    for k := 0 to |findings|
      invariant Grouped(findings[..k], digest, out, seen)
    {
      out, seen := AddFinding(findings[..k], findings[k], digest, out, seen);
      assert findings[..k + 1] == findings[..k] + [findings[k]];
    }
    assert findings[..|findings|] == findings;
    GroupedOut(findings, digest, out, seen);
  }

  /** One round of the loop: a known key adds to its group, a new key starts one. */
  method AddFinding(ghost before: seq<Finding>, raw: Finding, digest: Digest, out0: seq<Finding>,
                    seen0: map<string, Group>)
    returns (out: seq<Finding>, seen: map<string, Group>)
    requires Grouped(before, digest, out0, seen0)
    ensures Grouped(before + [raw], digest, out, seen)
  {
    hide Known, Reporters, Deduped, Grouped;
    GroupedOut(before, digest, out0, seen0);
    out, seen := out0, seen0;
    var key := Key(raw, digest);
    var f := raw.(fingerprint := key);
    if key in seen {
      var g := seen[key];
      GroupRepeat(before, raw, digest, out, seen);
      if f.jobId != "" {
        g := g.(sourceJobs := g.sourceJobs + [f.jobId]);
        seen := seen[key := g];
        out := out[g.idx := out[g.idx].(sourceJobIds := g.sourceJobs)];
      }
    } else {
      GroupFirst(before, raw, digest, out, seen);
      var sourceJobs := if f.jobId != "" then [f.jobId] else [];
      seen := seen[key := Group(|out|, sourceJobs)];
      out := out + [f.(sourceJobIds := sourceJobs)];
    }
  }

  lemma KnownMore(findings: seq<Finding>, f: Finding, key: string, digest: Digest)
    ensures Known(findings + [f], key, digest) <==> Known(findings, key, digest) || Key(f, digest) == key
    ensures Reporters(findings + [f], key, digest)
         == Reporters(findings, key, digest) + if Key(f, digest) == key then Credit(f) else []
  {
    var all := findings + [f];
    assert all[..|all| - 1] == findings;
    if Known(findings, key, digest) {
      var k :| 0 <= k < |findings| && Key(findings[k], digest) == key;
      assert all[k] == findings[k];
    }
    if Key(f, digest) == key { assert all[|findings|] == f; }
  }

  lemma {:induction false} UnknownNotReported(findings: seq<Finding>, key: string, digest: Digest)
    requires !Known(findings, key, digest)
    ensures Reporters(findings, key, digest) == []
  {
    if findings != [] {
      var front := findings[..|findings| - 1];
      assert forall k :: 0 <= k < |front| ==> front[k] == findings[k];
      UnknownNotReported(front, key, digest);
    }
  }

  /** One more finding: every canonical finding keeps its place, and a new key adds one at the end. */
  lemma DedupedMore(findings: seq<Finding>, f: Finding, digest: Digest)
    ensures var key := Key(f, digest);
      var out, more := Deduped(findings, digest), Deduped(findings + [f], digest);
      && |more| == |out| + (if Known(findings, key, digest) then 0 else 1)
      && (forall k :: 0 <= k < |out| ==>
            more[k] == out[k].(sourceJobIds := Reporters(findings + [f], out[k].fingerprint, digest)))
      && (!Known(findings, key, digest) ==>
            more[|out|] == f.(fingerprint := key, sourceJobIds := Reporters(findings + [f], key, digest)))
  {
    hide Reporters, Known;
    var all := findings + [f];
    assert all[..|all| - 1] == findings && all[|findings|] == f;
    var at := Firsts(findings, digest);
    assert Firsts(all, digest) == at + if Known(findings, Key(f, digest), digest) then [] else [|findings|];
    assert forall k :: 0 <= k < |at| ==> all[at[k]] == findings[at[k]];
  }

  lemma GroupRepeat(findings: seq<Finding>, f: Finding, digest: Digest, out: seq<Finding>, seen: map<string, Group>)
    requires Grouped(findings, digest, out, seen) && Key(f, digest) in seen
    ensures f.jobId == "" ==> Grouped(findings + [f], digest, out, seen)
    ensures f.jobId != "" ==>
      var key := Key(f, digest);
      var g := seen[key].(sourceJobs := seen[key].sourceJobs + [f.jobId]);
      Grouped(findings + [f], digest, out[g.idx := out[g.idx].(sourceJobIds := g.sourceJobs)], seen[key := g])
  {
    forall other { KnownMore(findings, f, other, digest); }
    DedupedMore(findings, f, digest);
    OnePerKey(findings, digest);
    hide Reporters, Known, Deduped, Key;
    if f.jobId == "" {
      forall k | 0 <= k < |out|
        ensures Deduped(findings + [f], digest)[k] == out[k]
      {
        assert out[k].sourceJobIds == Reporters(findings + [f], out[k].fingerprint, digest);
      }
      assert Deduped(findings + [f], digest) == out;
    } else {
      var key := Key(f, digest);
      var g := seen[key].(sourceJobs := seen[key].sourceJobs + [f.jobId]);
      var more := out[g.idx := out[g.idx].(sourceJobIds := g.sourceJobs)];
      forall k | 0 <= k < |out|
        ensures Deduped(findings + [f], digest)[k] == more[k]
      {
        assert k != g.idx ==> out[k].fingerprint != key;
      }
      assert Deduped(findings + [f], digest) == more;
    }
  }

  lemma OutIsKnown(findings: seq<Finding>, digest: Digest, k: nat)
    requires k < |Deduped(findings, digest)|
    ensures Known(findings, Deduped(findings, digest)[k].fingerprint, digest)
  {
    assert Key(findings[Firsts(findings, digest)[k]], digest) == Deduped(findings, digest)[k].fingerprint;
  }

  lemma GroupFirst(findings: seq<Finding>, f: Finding, digest: Digest, out: seq<Finding>, seen: map<string, Group>)
    requires Grouped(findings, digest, out, seen) && Key(f, digest) !in seen
    ensures var key := Key(f, digest);
      var sourceJobs := Credit(f);
      Grouped(findings + [f], digest, out + [f.(fingerprint := key, sourceJobIds := sourceJobs)],
              seen[key := Group(|out|, sourceJobs)])
  {
    hide Reporters, Known, Deduped, Key, Credit;
    var key := Key(f, digest);
    forall k | 0 <= k < |out|
      ensures out[k].fingerprint != key
    {
      OutIsKnown(findings, digest, k);
    }
    FirstStep(findings, f, digest, out, key);
    UnknownNotReported(findings, key, digest);
    assert [] + Credit(f) == Credit(f);
    var more := seen[key := Group(|out|, Credit(f))];
    forall other
      ensures other in more <==> Known(findings + [f], other, digest)
      ensures other in more ==> more[other].sourceJobs == Reporters(findings + [f], other, digest)
    {
      KnownMore(findings, f, other, digest);
    }
  }

  lemma FirstStep(findings: seq<Finding>, f: Finding, digest: Digest, out: seq<Finding>, key: string)
    requires out == Deduped(findings, digest) && key == Key(f, digest)
    requires !Known(findings, key, digest)
    requires forall k :: 0 <= k < |out| ==> out[k].fingerprint != key
    ensures Deduped(findings + [f], digest) == out + [f.(fingerprint := key, sourceJobIds := Credit(f))]
  {
    hide Credit;
    KnownMore(findings, f, key, digest);
    DedupedMore(findings, f, digest);
    OnePerKey(findings, digest);
    UnknownNotReported(findings, key, digest);
    hide Reporters, Known, Deduped, Key;
    forall k | 0 <= k < |out|
      ensures Deduped(findings + [f], digest)[k] == out[k]
    {
      KnownMore(findings, f, out[k].fingerprint, digest);
      assert out[k].sourceJobIds == Reporters(findings + [f], out[k].fingerprint, digest);
    }
    assert [] + Credit(f) == Credit(f);
    Snoc(Deduped(findings + [f], digest), out, f.(fingerprint := key, sourceJobIds := Credit(f)));
  }

  lemma Snoc<T>(more: seq<T>, front: seq<T>, last: T)
    requires |more| == |front| + 1 && more[|front|] == last
    requires forall k :: 0 <= k < |front| ==> more[k] == front[k]
    ensures more == front + [last]
  {
  }

  // ---- Feedback ----

  const FEEDBACK_HEAD := "REVIEW FEEDBACK: The following issues were found and must be fixed:\n"
  const FEEDBACK_TAIL := "\nPlease address all findings above before completing the phase."

  function FeedbackLine(number: nat, f: Finding): string {
    var severity := if f.severity == "" then "unspecified" else f.severity;
    var location := if f.line > 0 then f.path + ":" + Decimal(f.line) else f.path;
    "  " + Decimal(number) + ". [" + severity + "] " + f.body
      + (if f.path != "" then " (at " + location + ")" else "")
      + (if |f.sourceJobIds| > 1 then " [reported by " + Decimal(|f.sourceJobIds|) + " reviewers]" else "")
      + "\n"
  }

  function FeedbackLines(findings: seq<Finding>): string {
    if findings == [] then ""
    else FeedbackLines(findings[..|findings| - 1]) + FeedbackLine(|findings|, findings[|findings| - 1])
  }

  function Feedback(findings: seq<Finding>): string {
    if findings == [] then "" else FEEDBACK_HEAD + FeedbackLines(findings) + FEEDBACK_TAIL
  }

  method BuildFindingFeedback(findings: seq<Finding>) returns (text: string)
    ensures text == Feedback(findings)
  {
    if |findings| == 0 {
      return "";
    }
    var lines := "";
    for k := 0 to |findings|
      invariant lines == FeedbackLines(findings[..k])
    {
      assert findings[..k + 1][..k] == findings[..k];
      lines := lines + FeedbackLine(k + 1, findings[k]);
    }
    assert findings[..|findings|] == findings;
    text := FEEDBACK_HEAD + lines + FEEDBACK_TAIL;
  }

  lemma {:induction false} LinesMention(findings: seq<Finding>, k: nat)
    requires k < |findings|
    ensures Mentions(FeedbackLines(findings), FeedbackLine(k + 1, findings[k]))
  {
    hide FeedbackLine, Mentions;
    var front := findings[..|findings| - 1];
    var last := FeedbackLine(|findings|, findings[|findings| - 1]);
    if k < |front| {
      LinesMention(front, k);
      MentionsWithin("", FeedbackLines(front), last, FeedbackLine(k + 1, findings[k]));
      assert "" + FeedbackLines(front) + last == FeedbackLines(findings);
    } else {
      MentionsItself(FeedbackLines(front), last, "");
    }
  }

  /** What a numbered line tells about its finding. */
  ghost predicate Tells(text: string, number: nat, f: Finding) {
    var severity := if f.severity == "" then "unspecified" else f.severity;
    && Mentions(text, "  " + Decimal(number) + ". [" + severity + "] " + f.body)
    && (f.path != "" ==>
          Mentions(text, f.body + " (at " + (if f.line > 0 then f.path + ":" + Decimal(f.line) else f.path) + ")"))
    && (|f.sourceJobIds| > 1 ==> Mentions(text, " [reported by " + Decimal(|f.sourceJobIds|) + " reviewers]\n"))
  }

  lemma Neighbours(a: string, b: string, c: string, d: string)
    ensures Mentions(a + b + c + d, a + b) && Mentions(a + b + c + d, b + c) && Mentions(a + b + c + d, d)
  {
    hide Mentions;
    var text := a + b + c + d;
    assert text == "" + (a + b) + (c + d) && text == a + (b + c) + d && text == (a + b + c) + d + "";
    MentionsItself("", a + b, c + d);
    MentionsItself(a, b + c, d);
    MentionsItself(a + b + c, d, "");
  }

  lemma LineTells(number: nat, f: Finding)
    ensures Tells(FeedbackLine(number, f), number, f)
  {
    hide Mentions;
    var severity := if f.severity == "" then "unspecified" else f.severity;
    var location := if f.line > 0 then f.path + ":" + Decimal(f.line) else f.path;
    var head := "  " + Decimal(number) + ". [" + severity + "] ";
    var place := if f.path != "" then " (at " + location + ")" else "";
    var tail := if |f.sourceJobIds| > 1 then " [reported by " + Decimal(|f.sourceJobIds|) + " reviewers]" else "";
    Neighbours(head, f.body, place, tail + "\n");
    assert head + f.body + place + tail + "\n" == head + f.body + place + (tail + "\n");
    if f.path != "" { assert f.body + place == f.body + " (at " + location + ")"; }
    if |f.sourceJobIds| > 1 {
      assert tail + "\n" == " [reported by " + Decimal(|f.sourceJobIds|) + " reviewers]\n";
    }
  }

  lemma TellsThrough(text: string, line: string, number: nat, f: Finding)
    requires Mentions(text, line) && Tells(line, number, f)
    ensures Tells(text, number, f)
  {
    hide Mentions;
    forall part: string | Mentions(line, part)
      ensures Mentions(text, part)
    {
      MentionsThrough(text, line, part);
    }
  }

  /** The developer is told something exactly when there is a finding, and then about each one under its number;
      failing tests alone say nothing. */
  lemma FeedbackMeaning(findings: seq<Finding>)
    ensures Feedback(findings) == "" <==> findings == []
    ensures findings != [] ==>
      "REVIEW FEEDBACK: The following issues were found and must be fixed:\n" <= Feedback(findings)
    ensures forall k :: 0 <= k < |findings| ==> Tells(Feedback(findings), k + 1, findings[k])
  {
    hide FeedbackLine, FeedbackLines, Mentions, Tells;
    forall k | 0 <= k < |findings|
      ensures Tells(Feedback(findings), k + 1, findings[k])
    {
      LinesMention(findings, k);
      MentionsWithin(FEEDBACK_HEAD, FeedbackLines(findings), FEEDBACK_TAIL, FeedbackLine(k + 1, findings[k]));
      LineTells(k + 1, findings[k]);
      TellsThrough(Feedback(findings), FeedbackLine(k + 1, findings[k]), k + 1, findings[k]);
    }
    assert findings != [] ==> Feedback(findings) == FEEDBACK_HEAD + (FeedbackLines(findings) + FEEDBACK_TAIL);
  }
}
