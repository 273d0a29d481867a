/** The contract rule engine: which rules apply, how one job's verdict is put together, and what the verdict says. */
module Supervisor {
  import opened Options
  import opened Text

  datatype Attempt<+T> = Ok(value: T) | Error(text: string)

  datatype Rule = Rule(name: string, appliesTo: seq<string>, clause: Option<seq<string>>, check: string,
                       message: string)
  datatype Call = Call(func: string, args: seq<string>)

  datatype RuleResult = RuleResult(name: string, passed: bool, skipped: bool, message: string)
  datatype Verdict = Verdict(pass: bool, results: seq<RuleResult>)

  /** What the engine looks up while it judges one job: whether a role glob matches, whether a clause holds, how a
      check parses, which predicates exist and what they say, and how a string is quoted. */
  datatype Evidence = Evidence(
    globs: (string, string) -> bool,
    applies: seq<string> -> Attempt<bool>,
    parse: string -> Attempt<Call>,
    known: string -> bool,
    holds: Call -> Attempt<bool>,
    quote: string -> string)

  /** What loading a rule file demands of each rule. */
  predicate Valid(rule: Rule) {
    rule.appliesTo != [] && rule.check != "" && rule.message != ""
  }

  predicate Concerns(rule: Rule, role: string, ev: Evidence) {
    exists k :: 0 <= k < |rule.appliesTo| && ev.globs(rule.appliesTo[k], role)
  }

  function Applicable(rules: seq<Rule>, role: string, ev: Evidence): (out: seq<Rule>)
    ensures forall rule :: rule in out <==> rule in rules && Concerns(rule, role, ev)
  {
    if rules == [] then []
    else
      var last := rules[|rules| - 1];
      Applicable(rules[..|rules| - 1], role, ev) + if Concerns(last, role, ev) then [last] else []
  }

  /** The rules one of whose patterns matches the role, each in its place. */
  lemma {:induction false} ApplicableInOrder(rules: seq<Rule>, role: string, ev: Evidence) returns (at: seq<nat>)
    ensures Increasing(at) && |at| == |Applicable(rules, role, ev)|
    ensures forall k :: 0 <= k < |at| ==> at[k] < |rules| && Applicable(rules, role, ev)[k] == rules[at[k]]
    ensures forall n: nat :: n in at <==>
      n < |rules| && exists k :: 0 <= k < |rules[n].appliesTo| && ev.globs(rules[n].appliesTo[k], role)
  {
    hide Increasing;
    at := [];
    assert Increasing(at) by { NoneIncreasing(); }
    if rules != [] {
      var n := |rules| - 1;
      at := ApplicableInOrder(rules[..n], role, ev);
      IncreasingMore(at, n);
      if Concerns(rules[n], role, ev) { at := at + [n]; }
    }
  }

  method RulesForRole(rules: seq<Rule>, role: string, ev: Evidence) returns (matched: seq<Rule>)
    ensures matched == Applicable(rules, role, ev)
  {
    matched := [];
    for k := 0 to |rules|
      invariant matched == Applicable(rules[..k], role, ev)
    {
      assert rules[..k + 1][..k] == rules[..k];
      var matches := GlobMatches(rules[k].appliesTo, role, ev);
      if matches {
        matched := matched + [rules[k]];
      }
    }
    assert rules[..|rules|] == rules;
  }

  method GlobMatches(patterns: seq<string>, role: string, ev: Evidence) returns (matches: bool)
    ensures matches <==> exists k :: 0 <= k < |patterns| && ev.globs(patterns[k], role)
  {
    for k := 0 to |patterns|
      invariant forall j :: 0 <= j < k ==> !ev.globs(patterns[j], role)
    {
      if ev.globs(patterns[k], role) {
        return true;
      }
    }
    return false;
  }

  /** The clause is there, can be evaluated, and says no. */
  predicate SkippedBy(rule: Rule, ev: Evidence) {
    rule.clause.Some? && ev.applies(rule.clause.value) == Ok(false)
  }

  /** Everything about the rule could be evaluated and said yes. */
  predicate SatisfiedBy(rule: Rule, ev: Evidence) {
    && (rule.clause.Some? ==> ev.applies(rule.clause.value) == Ok(true))
    && var call := ev.parse(rule.check);
       call.Ok? && ev.known(call.value.func) && ev.holds(call.value) == Ok(true)
  }

  /** A verdict judges each rule by its own evidence: skipped, satisfied, or neither, which fails the job. */
  ghost predicate Judges(result: RuleResult, rule: Rule, ev: Evidence) {
    && result.name == rule.name
    && (result.skipped <==> SkippedBy(rule, ev))
    && (result.passed <==> SkippedBy(rule, ev) || SatisfiedBy(rule, ev))
    && (rule.message != "" ==> result.message != "")
  }

  method Evaluate(rules: seq<Rule>, role: Option<string>, ev: Evidence) returns (judged: Attempt<Verdict>)
    ensures judged.Error? <==> role.None?
    ensures judged.Ok? ==>
      var applicable := Applicable(rules, role.value, ev);
      && |judged.value.results| == |applicable|
      && (forall k :: 0 <= k < |applicable| ==> Judges(judged.value.results[k], applicable[k], ev))
      && (judged.value.pass <==> forall k :: 0 <= k < |applicable| ==> judged.value.results[k].passed)
  {
    if role.None? {
      return Error("EvalContext.Role must not be nil");
    }
    var applicable := RulesForRole(rules, role.value, ev);
    if |applicable| == 0 {
      return Ok(Verdict(true, []));
    }
    var pass := true;
    var results := [];
    for k := 0 to |applicable|
      invariant |results| == k
      invariant forall j :: 0 <= j < k ==> Judges(results[j], applicable[j], ev)
      invariant pass <==> forall j :: 0 <= j < k ==> results[j].passed
    {
      var result := Judge(applicable[k], ev);
      if !result.passed {
        pass := false;
      }
      results := results + [result];
    }
    return Ok(Verdict(pass, results));
  }

  /** One round of the evaluation loop. */
  method Judge(rule: Rule, ev: Evidence) returns (result: RuleResult)
    ensures Judges(result, rule, ev)
    ensures result.skipped <==> rule.clause.Some? && ev.applies(rule.clause.value) == Ok(false)
    ensures result.passed && !result.skipped <==> (
      && (rule.clause.Some? ==> ev.applies(rule.clause.value) == Ok(true))
      && ev.parse(rule.check).Ok? && ev.known(ev.parse(rule.check).value.func)
      && ev.holds(ev.parse(rule.check).value) == Ok(true))
    ensures (
      && (rule.clause.Some? ==> ev.applies(rule.clause.value) == Ok(true)) && ev.parse(rule.check).Ok?
      && ev.known(ev.parse(rule.check).value.func) && ev.holds(ev.parse(rule.check).value).Ok?) ==>
      result.message == rule.message
  {
    if rule.clause.Some? {
      match ev.applies(rule.clause.value) {
        case Error(text) => return RuleResult(rule.name, false, false, "applies_when eval error: " + text);
        case Ok(applies) =>
          if !applies {
            return RuleResult(rule.name, true, true, rule.message);
          }
      }
    }
    var call := ev.parse(rule.check);
    if call.Error? {
      return RuleResult(rule.name, false, false, "failed to parse check " + ev.quote(rule.check) + ": " + call.text);
    }
    var func := call.value.func;
    if !ev.known(func) {
      return RuleResult(rule.name, false, false,
                        "unknown predicate " + ev.quote(func) + " in rule " + ev.quote(rule.name));
    }
    match ev.holds(call.value) {
      case Error(text) =>
        return RuleResult(rule.name, false, false, "predicate " + ev.quote(func) + " error: " + text);
      case Ok(passed) =>
        return RuleResult(rule.name, passed, false, rule.message);
    }
  }

  // ---- What a verdict says ----

  function FailedOf(results: seq<RuleResult>): seq<string> {
    if results == [] then []
    else
      var last := results[|results| - 1];
      FailedOf(results[..|results| - 1]) + if !last.passed && !last.skipped then [last.message] else []
  }

  function SkippedOf(results: seq<RuleResult>): seq<string> {
    if results == [] then []
    else
      var last := results[|results| - 1];
      SkippedOf(results[..|results| - 1]) + if last.skipped then [last.name] else []
  }

  /** The messages of the results that neither passed nor were skipped, in the order of the results. */
  lemma {:induction false} FailedInOrder(results: seq<RuleResult>) returns (at: seq<nat>)
    ensures Increasing(at) && |at| == |FailedOf(results)|
    ensures forall k :: 0 <= k < |at| ==> at[k] < |results| && FailedOf(results)[k] == results[at[k]].message
    ensures forall n: nat :: n in at <==> n < |results| && !results[n].passed && !results[n].skipped
  {
    hide Increasing;
    at := [];
    assert Increasing(at) by { NoneIncreasing(); }
    if results != [] {
      var n := |results| - 1;
      at := FailedInOrder(results[..n]);
      IncreasingMore(at, n);
      if !results[n].passed && !results[n].skipped { at := at + [n]; }
    }
  }

  /** The names of the skipped results, in the order of the results. */
  lemma {:induction false} SkippedInOrder(results: seq<RuleResult>) returns (at: seq<nat>)
    ensures Increasing(at) && |at| == |SkippedOf(results)|
    ensures forall k :: 0 <= k < |at| ==> at[k] < |results| && SkippedOf(results)[k] == results[at[k]].name
    ensures forall n: nat :: n in at <==> n < |results| && results[n].skipped
  {
    hide Increasing;
    at := [];
    assert Increasing(at) by { NoneIncreasing(); }
    if results != [] {
      var n := |results| - 1;
      at := SkippedInOrder(results[..n]);
      IncreasingMore(at, n);
      if results[n].skipped { at := at + [n]; }
    }
  }

  method FailedMessages(v: Verdict) returns (messages: seq<string>)
    ensures messages == FailedOf(v.results)
  {
    messages := [];
    for k := 0 to |v.results|
      invariant messages == FailedOf(v.results[..k])
    {
      assert v.results[..k + 1][..k] == v.results[..k];
      if !v.results[k].passed && !v.results[k].skipped {
        messages := messages + [v.results[k].message];
      }
    }
    assert v.results[..|v.results|] == v.results;
  }

  method SkippedRuleNames(v: Verdict) returns (names: seq<string>)
    ensures names == SkippedOf(v.results)
  {
    names := [];
    for k := 0 to |v.results|
      invariant names == SkippedOf(v.results[..k])
    {
      assert v.results[..k + 1][..k] == v.results[..k];
      if v.results[k].skipped {
        names := names + [v.results[k].name];
      }
    }
    assert v.results[..|v.results|] == v.results;
  }

  /** What every verdict of the engine satisfies: it passes unless some result fails, and skipping is no failure. */
  ghost predicate Coherent(v: Verdict) {
    && (v.pass <==> forall k :: 0 <= k < |v.results| ==> v.results[k].passed)
    && forall k :: 0 <= k < |v.results| && v.results[k].skipped ==> v.results[k].passed
  }

  ghost predicate SaidBy(results: seq<RuleResult>, message: string) {
    exists k :: 0 <= k < |results| && Fails(results[k]) && results[k].message == message
  }

  lemma SaidByMore(results: seq<RuleResult>, message: string)
    requires results != []
    ensures var last := results[|results| - 1];
      SaidBy(results, message) <==>
        SaidBy(results[..|results| - 1], message) || (Fails(last) && last.message == message)
  {
    var front := results[..|results| - 1];
    if SaidBy(front, message) {
      var k :| 0 <= k < |front| && Fails(front[k]) && front[k].message == message;
      assert results[k] == front[k];
    }
    if SaidBy(results, message) {
      var k :| 0 <= k < |results| && Fails(results[k]) && results[k].message == message;
      assert k < |front| ==> front[k] == results[k];
    }
  }

  lemma {:induction false} FailedAre(results: seq<RuleResult>)
    ensures forall message :: message in FailedOf(results) <==> SaidBy(results, message)
  {
    if results != [] {
      FailedAre(results[..|results| - 1]);
      forall message
        ensures message in FailedOf(results) <==> SaidBy(results, message)
      {
        SaidByMore(results, message);
      }
    }
  }

  predicate Fails(result: RuleResult) {
    !result.passed && !result.skipped
  }

  /** A verdict fails exactly when it has something to say. */
  lemma FailsIffSaysSo(v: Verdict)
    requires Coherent(v)
    ensures v.pass <==> FailedOf(v.results) == []
  {
    FailedAre(v.results);
    assert FailedOf(v.results) != [] ==> FailedOf(v.results)[0] in FailedOf(v.results);
    if !v.pass {
      var k :| 0 <= k < |v.results| && !v.results[k].passed;
      assert Fails(v.results[k]);
      assert v.results[k].message in FailedOf(v.results);
    }
  }

  /** The engine's verdicts are coherent, and with validated rules every failure comes with words. */
  lemma EngineSpeaks(rules: seq<Rule>, role: string, ev: Evidence, v: Verdict)
    requires forall k :: 0 <= k < |rules| ==> Valid(rules[k])
    requires var applicable := Applicable(rules, role, ev);
      && |v.results| == |applicable|
      && (forall k :: 0 <= k < |applicable| ==> Judges(v.results[k], applicable[k], ev))
      && (v.pass <==> forall k :: 0 <= k < |applicable| ==> v.results[k].passed)
    ensures Coherent(v)
    ensures v.pass <==> FailedOf(v.results) == []
    ensures "" !in FailedOf(v.results)
    ensures v.pass <==> forall rule :: rule in rules && Concerns(rule, role, ev) ==>
      SkippedBy(rule, ev) || SatisfiedBy(rule, ev)
  {
    hide SkippedBy, SatisfiedBy, Concerns, Applicable;
    var applicable := Applicable(rules, role, ev);
    FailsIffSaysSo(v);
    FailedAre(v.results);
    forall k | 0 <= k < |v.results|
      ensures v.results[k].message != ""
    {
      assert applicable[k] in applicable;
    }
    if v.pass {
      forall rule | rule in rules && Concerns(rule, role, ev)
        ensures SkippedBy(rule, ev) || SatisfiedBy(rule, ev)
      {
        assert rule in applicable;
        var k :| 0 <= k < |applicable| && applicable[k] == rule;
        assert Judges(v.results[k], rule, ev);
      }
    } else {
      var k :| 0 <= k < |applicable| && !v.results[k].passed;
      assert applicable[k] in applicable;
      assert Judges(v.results[k], applicable[k], ev);
    }
  }

  // ---- Feedback for a retry ----

  const RETRY_HEAD := "SUPERVISOR FEEDBACK: The following contract rules were violated:\n"
  const RETRY_TAIL := "Please fix these issues and try again."

  function RetryLine(number: nat, message: string): string {
    "  " + Decimal(number) + ". " + message + "\n"
  }

  function RetryLines(messages: seq<string>): string {
    if messages == [] then ""
    else RetryLines(messages[..|messages| - 1]) + RetryLine(|messages|, messages[|messages| - 1])
  }

  function RetryFeedback(v: Verdict): string {
    RETRY_HEAD + RetryLines(FailedOf(v.results)) + RETRY_TAIL
  }

  method BuildRetryFeedback(v: Verdict) returns (text: string)
    ensures text == RetryFeedback(v)
  {
    hide RetryLine;
    var messages := FailedMessages(v);
    var lines := "";
    for k := 0 to |messages|
      invariant lines == RetryLines(messages[..k])
    {
      assert messages[..k + 1][..k] == messages[..k];
      lines := lines + RetryLine(k + 1, messages[k]);
    }
    assert messages[..|messages|] == messages;
    text := RETRY_HEAD + lines + RETRY_TAIL;
  }

  lemma {:induction false} LinesMention(messages: seq<string>, k: nat)
    requires k < |messages|
    ensures Mentions(RetryLines(messages), RetryLine(k + 1, messages[k]))
  {
    hide RetryLine, Mentions;
    var front := messages[..|messages| - 1];
    var last := RetryLine(|messages|, messages[|messages| - 1]);
    if k < |front| {
      LinesMention(front, k);
      MentionsWithin("", RetryLines(front), last, RetryLine(k + 1, messages[k]));
      assert "" + RetryLines(front) + last == RetryLines(messages);
    } else {
      MentionsItself(RetryLines(front), last, "");
    }
  }

  lemma RetryLineSays(number: nat, message: string)
    ensures Mentions(RetryLine(number, message), "  " + Decimal(number) + ". " + message + "\n")
  {
    MentionsItself("", "  " + Decimal(number) + ". " + message + "\n", "");
  }

  /** A retry prompt opens with the standing head, gives each complaint a numbered line, and ends with the original
      prompt after a blank line. */
  ghost predicate Answers(prompt: string, complaints: seq<string>, original: string) {
    var n := |prompt| - |original|;
    && "SUPERVISOR FEEDBACK: The following contract rules were violated:\n" <= prompt
    && (forall k :: 0 <= k < |complaints| ==>
          Mentions(prompt, "  " + Decimal(k + 1) + ". " + complaints[k] + "\n"))
    && n >= 2 && prompt[n - 2..n] == "\n\n" && prompt[n..] == original
  }

  lemma RetryPromptSays(v: Verdict, original: string)
    ensures Answers(RetryFeedback(v) + "\n\n" + original, FailedOf(v.results), original)
  {
    hide RetryLine, Mentions, RetryLines;
    var prompt := RetryFeedback(v) + "\n\n" + original;
    var messages := FailedOf(v.results);
    forall k | 0 <= k < |messages|
      ensures Mentions(prompt, "  " + Decimal(k + 1) + ". " + messages[k] + "\n")
    {
      var line := RetryLine(k + 1, messages[k]);
      LinesMention(messages, k);
      MentionsWithin(RETRY_HEAD, RetryLines(messages), RETRY_TAIL, line);
      MentionsWithin("", RetryFeedback(v), "\n\n" + original, line);
      assert "" + RetryFeedback(v) + ("\n\n" + original) == prompt;
      RetryLineSays(k + 1, messages[k]);
      MentionsThrough(prompt, line, "  " + Decimal(k + 1) + ". " + messages[k] + "\n");
    }
    assert prompt == RETRY_HEAD + (RetryLines(messages) + RETRY_TAIL + "\n\n" + original);
  }
}
