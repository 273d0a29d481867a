/** Server-sent events as this program writes and reads them: one printer, two readers, and the loop that reconnects. */
module Sse {
  import opened Options
  import opened Text

  // ---- The printer ----

  function Frame(payload: string): string {
    "data: " + payload + "\n" + "\n"
  }

  function Stream(payloads: seq<string>): string {
    if payloads == [] then "" else Frame(payloads[0]) + Stream(payloads[1..])
  }

  /** A bus event: its run, its kind, and its JSON unless it cannot be marshalled. */
  datatype BusEvent = BusEvent(runId: string, kind: string, json: Option<string>)

  /** Empty filters let everything through. */
  predicate Selected(e: Option<BusEvent>, runId: string, kind: string) {
    && e.Some? && e.value.json.Some?
    && (runId == "" || e.value.runId == runId) && (kind == "" || e.value.kind == kind)
  }

  function Sent(events: seq<Option<BusEvent>>, runId: string, kind: string): seq<string> {
    if events == [] then []
    else
      (if Selected(events[0], runId, kind) then [events[0].value.json.value] else []) + Sent(events[1..], runId, kind)
  }

  lemma {:induction false} SentFrom(events: seq<Option<BusEvent>>, from: nat, runId: string, kind: string)
    returns (at: seq<nat>)
    requires from <= |events|
    ensures Increasing(at) && |at| == |Sent(events[from..], runId, kind)|
    ensures forall k :: 0 <= k < |at| ==>
      at[k] < |events| && Selected(events[at[k]], runId, kind)
      && Sent(events[from..], runId, kind)[k] == events[at[k]].value.json.value
    ensures forall n: nat :: n in at <==> from <= n < |events| && Selected(events[n], runId, kind)
    decreases |events| - from
  {
    hide Increasing;
    at := [];
    NoneIncreasing();
    if from < |events| {
      assert events[from..][1..] == events[from + 1..];
      at := SentFrom(events, from + 1, runId, kind);
      if Selected(events[from], runId, kind) {
        IncreasingFirst(at, from);
        at := [from] + at;
      }
    }
  }

  /** What is sent: the events of the wanted run and kind that can be marshalled, each once and in order. */
  lemma SentInOrder(events: seq<Option<BusEvent>>, runId: string, kind: string) returns (at: seq<nat>)
    ensures var sent := Sent(events, runId, kind);
      && Increasing(at) && |at| == |sent|
      && forall k :: 0 <= k < |at| ==>
           at[k] < |events| && events[at[k]].Some? && events[at[k]].value.json == Some(sent[k])
    ensures forall n: nat :: n in at <==> (
      && n < |events| && events[n].Some? && events[n].value.json.Some?
      && (runId == "" || runId == events[n].value.runId) && (kind == "" || kind == events[n].value.kind))
  {
    hide Increasing, Sent;
    assert events[0..] == events;
    at := SentFrom(events, 0, runId, kind);
  }

  method Serve(events: seq<Option<BusEvent>>, runId: string, kind: string) returns (out: string)
    ensures out == Stream(Sent(events, runId, kind))
  {
    out := "";
    ghost var rest := Stream(Sent(events, runId, kind));
    assert events[0..] == events;
    var k := 0;
    while k < |events|
      invariant 0 <= k <= |events|
      invariant rest == out + Stream(Sent(events[k..], runId, kind))
    {
      hide Frame;
      assert events[k..][1..] == events[k + 1..];
      var e := events[k];
      k := k + 1;
      if e.None? || (runId != "" && e.value.runId != runId) || (kind != "" && e.value.kind != kind)
        || e.value.json.None? {
        assert [] + Sent(events[k..], runId, kind) == Sent(events[k..], runId, kind);
        continue;
      }
      var data := e.value.json.value;
      assert ([data] + Sent(events[k..], runId, kind))[1..] == Sent(events[k..], runId, kind);
      assert out + (Frame(data) + Stream(Sent(events[k..], runId, kind)))
          == out + Frame(data) + Stream(Sent(events[k..], runId, kind));
      out := out + Frame(data);
    }
  }

  // ---- Lines ----

  /** The complete lines of a body; what follows the last newline is never looked at. */
  function Lines(body: string): seq<string> {
    var pieces := Split(body, '\n');
    pieces[..|pieces| - 1]
  }

  function TrimCr(line: string): (trimmed: string)
    ensures trimmed <= line && (trimmed == "" || trimmed[|trimmed| - 1] != '\r')
    ensures line == "" || line[|line| - 1] != '\r' ==> trimmed == line
  {
    if line != "" && line[|line| - 1] == '\r' then TrimCr(line[..|line| - 1]) else line
  }

  datatype Line = Blank | Data(value: string) | Ignored

  predicate HasPrefix(s: string, prefix: string) {
    prefix <= s
  }

  function TrimPrefix(s: string, prefix: string): string {
    if prefix <= s then s[|prefix|..] else s
  }

  function Classify(raw: string): Line {
    Field(TrimCr(raw))
  }

  function Field(line: string): Line {
    if line == "" then Blank
    else if HasPrefix(line, ":") || !HasPrefix(line, "data:") then Ignored
    else Data(TrimPrefix(TrimPrefix(line, "data:"), " "))
  }

  ghost predicate Returns(s: string) {
    forall k :: 0 <= k < |s| ==> s[k] == '\r'
  }

  lemma {:induction false} TrimCrMeaning(line: string) returns (tail: string)
    ensures line == TrimCr(line) + tail && Returns(tail)
  {
    tail := "";
    if line != "" && line[|line| - 1] == '\r' {
      tail := TrimCrMeaning(line[..|line| - 1]);
      tail := tail + "\r";
      assert line == line[..|line| - 1] + "\r";
    }
  }

  /** A line, less its trailing carriage returns: nothing, data after a "data:" and at most one space, or of no
      interest. */
  lemma LineMeaning(raw: string) returns (line: string, tail: string)
    ensures raw == line + tail && Returns(tail) && (line == "" || line[|line| - 1] != '\r')
    ensures Classify(raw).Blank? <==> line == ""
    ensures Classify(raw).Data? <==> |line| >= 5 && line[..5] == "data:"
    ensures Classify(raw).Data? ==>
      Classify(raw).value == if |line| > 5 && line[5] == ' ' then line[6..] else line[5..]
  {
    line := TrimCr(raw);
    tail := TrimCrMeaning(raw);
    assert |line| >= 5 && line[..5] == "data:" ==> line[0] == 'd';
  }

  /** Every line that is looked at ended in a newline; only what follows the last newline is not. */
  lemma LinesMeaning(body: string) returns (tail: string)
    ensures '\n' !in tail && Join(Lines(body) + [tail], "\n") == body
    ensures forall k :: 0 <= k < |Lines(body)| ==> '\n' !in Lines(body)[k]
  {
    var pieces := Split(body, '\n');
    tail := pieces[|pieces| - 1];
    assert Lines(body) + [tail] == pieces;
    JoinSplit(body, '\n');
  }

  function Held(pending: seq<string>): seq<string> {
    if pending == [] then [] else [Join(pending, "\n")]
  }

  /** What a reader delivers from here on, given the data lines it is holding: an event at each blank line, and at the
      end of the stream whatever is left. */
  function Payloads(pending: seq<string>, lines: seq<string>): seq<string>
    decreases |lines|
  {
    if lines == [] then Held(pending)
    else match Classify(lines[0])
         case Blank => Held(pending) + Payloads([], lines[1..])
         case Ignored => Payloads(pending, lines[1..])
         case Data(value) => Payloads(pending + [value], lines[1..])
  }

  function Delivered(body: string): seq<string> {
    Payloads([], Lines(body))
  }

  // ---- The readers ----

  /** A buffered reader over what the connection will yield. */
  class LineReader {
    var rest: string

    constructor (body: string)
      ensures rest == body
    {
      rest := body;
    }

    /** The next line without its newline, unless the stream ends first. */
    method ReadString() returns (line: string, ok: bool)
      modifies this
      ensures ok <==> Lines(old(rest)) != []
      ensures ok ==> Lines(old(rest)) == [line] + Lines(rest) && |rest| < |old(rest)|
      ensures !ok ==> rest == old(rest)
    {
      var k := 0;
      while k < |rest| && rest[k] != '\n'
        invariant 0 <= k <= |rest|
        invariant '\n' !in rest[..k]
      {
        k := k + 1;
      }
      line := rest[..k];
      if k == |rest| {
        assert rest[..k] == rest;
        SplitWhole(rest, '\n');
        return line, false;
      }
      assert rest == rest[..k] + ['\n'] + rest[k + 1..];
      SplitHead(rest[..k], rest[k + 1..], '\n');
      rest := rest[k + 1..];
      ok := true;
    }
  }

  /** The events of a stream up to the first that cannot be decoded. */
  function Decodable(events: seq<string>, decodes: string -> bool): seq<string> {
    if events == [] || !decodes(events[0]) then [] else [events[0]] + Decodable(events[1..], decodes)
  }

  lemma PayloadsAt(pending: seq<string>, line: string, rest: seq<string>)
    ensures Payloads(pending, [line] + rest) ==
      match Classify(line)
      case Blank => (if pending == [] then [] else [Join(pending, "\n")]) + Payloads([], rest)
      case Ignored => Payloads(pending, rest)
      case Data(value) => Payloads(pending + [value], rest)
  {
    assert ([line] + rest)[1..] == rest;
  }

  lemma PayloadsEnd(pending: seq<string>)
    ensures Payloads(pending, []) == if pending == [] then [] else [Join(pending, "\n")]
  {
  }

  /** Everything up to the first event that cannot be decoded. */
  lemma {:induction false} DecodableMeaning(events: seq<string>, decodes: string -> bool)
    ensures var n := |Decodable(events, decodes)|;
      && n <= |events| && Decodable(events, decodes) == events[..n]
      && (forall k :: 0 <= k < n ==> decodes(events[k])) && (n < |events| ==> !decodes(events[n]))
  {
    if events != [] && decodes(events[0]) {
      DecodableMeaning(events[1..], decodes);
      assert events == [events[0]] + events[1..];
    }
  }

  lemma DecodableFirst(printed: seq<string>, event: string, later: seq<string>, decodes: string -> bool)
    ensures printed + Decodable([event] + later, decodes) ==
      if decodes(event) then printed + [event] + Decodable(later, decodes) else printed
    ensures printed + ([event] + later) == printed + [event] + later
    ensures Decodable([], decodes) == []
  {
    assert ([event] + later)[1..] == later;
  }

  /** The command-line watcher: prints each event, and stops with an error at the first it cannot decode. */
  method WatchStream(body: string, decodes: string -> bool) returns (printed: seq<string>, ok: bool)
    ensures printed == Decodable(Delivered(body), decodes)
    ensures ok <==> printed == Delivered(body)
  {
    hide Decodable, Classify, Payloads, Lines;
    printed := [];
    var reader := new LineReader(body);
    var dataLines: seq<string> := [];
    ghost var all := Delivered(body);
    while true
      invariant all == printed + Payloads(dataLines, Lines(reader.rest))
      invariant Decodable(all, decodes) == printed + Decodable(Payloads(dataLines, Lines(reader.rest)), decodes)
      decreases |reader.rest|
    {
      var line, more := reader.ReadString();
      var event := Join(dataLines, "\n");
      if !more {
        PayloadsEnd(dataLines);
        DecodableFirst(printed, event, [], decodes);
        assert [event] + [] == [event];
        if |dataLines| > 0 {
          if !decodes(event) {
            return printed, false;
          }
          printed := printed + [event];
        }
        return printed, true;
      }
      PayloadsAt(dataLines, line, Lines(reader.rest));
      match Classify(line) {
        case Blank =>
          ghost var later := Payloads([], Lines(reader.rest));
          DecodableFirst(printed, event, later, decodes);
          if |dataLines| == 0 {
            assert [] + later == later;
            continue;
          }
          if !decodes(event) {
            return printed, false;
          }
          printed := printed + [event];
          dataLines := [];
        case Ignored =>
        case Data(value) =>
          dataLines := dataLines + [value];
      }
    }
  }

  // ---- The agent's session ----

  /** What a payload says, once decoded. */
  datatype Message =
    | Idle(session: string)
    | Updated(session: string, role: string, id: string)
    | Part(session: string, kind: string, text: string, messageId: string)
    | Failure(session: string, name: string, detail: string)
    | Unknown

  type Decoder = string -> Message

  /** What the agent has gathered: text parts, the last error, the assistant's message ids, and whether it is done. */
  datatype Session = Session(parts: seq<string>, error: string, ids: set<string>, done: bool)

  function Absorb(s: Session, raw: string, session: string, decode: Decoder): Session {
    if s.done then s
    else match decode(raw)
         case Idle(id) => if id == session then s.(done := true) else s
         case Updated(id, role, message) =>
           if id == session && role == "assistant" && message != "" then s.(ids := s.ids + {message}) else s
         case Part(id, kind, text, message) =>
           if id == session && kind == "text" && text != "" && message in s.ids
           then s.(parts := s.parts + [text]) else s
         case Failure(id, name, detail) =>
           var text := if detail != "" then name + ": " + detail else name;
           if id == session && text != "" then s.(error := text) else s
         case Unknown => s
  }

  function AbsorbAll(s: Session, events: seq<string>, session: string, decode: Decoder): Session
    decreases |events|
  {
    if events == [] then s else AbsorbAll(Absorb(s, events[0], session, decode), events[1..], session, decode)
  }

  /** One payload: done, a text part, an error text; assistant ids are recorded on the way. */
  method ProcessSseEvent(raw: string, session: string, decode: Decoder, ids0: set<string>)
    returns (done: bool, part: string, error: string, ids: set<string>)
    ensures forall s: Session :: s.ids == ids0 && !s.done ==>
      Absorb(s, raw, session, decode) == Session(
        if part != "" then s.parts + [part] else s.parts, if error != "" then error else s.error, ids, done)
  {
    done, part, error, ids := false, "", "", ids0;
    match decode(raw) {
      case Idle(id) =>
        if id == session {
          done := true;
        }
      case Updated(id, role, message) =>
        if id == session && role == "assistant" && message != "" {
          ids := ids + {message};
        }
      case Part(id, kind, text, message) =>
        if id == session && kind == "text" && text != "" && message in ids {
          part := text;
        }
      case Failure(id, name, detail) =>
        if id == session {
          error := name;
          if detail != "" {
            error := error + ": " + detail;
          }
        }
      case Unknown =>
    }
  }

  /** What a reader does with one event. */
  method Gather(s: Session, raw: string, session: string, decode: Decoder) returns (next: Session)
    requires !s.done
    ensures next == Absorb(s, raw, session, decode)
  {
    var done, part, error, ids := ProcessSseEvent(raw, session, decode, s.ids);
    next := Session(if part != "" then s.parts + [part] else s.parts,
                    if error != "" then error else s.error, ids, done);
  }

  lemma AbsorbFirst(s: Session, raw: string, later: seq<string>, session: string, decode: Decoder)
    ensures AbsorbAll(s, [raw] + later, session, decode) ==
      AbsorbAll(Absorb(s, raw, session, decode), later, session, decode)
    ensures AbsorbAll(s, [], session, decode) == s && [] + later == later
  {
    assert ([raw] + later)[1..] == later;
  }

  /** One connection, starting from the given ids, with what it gathers on top of them. */
  method SseStream(body: string, session: string, decode: Decoder, ids0: set<string>) returns (got: Session)
    ensures got == AbsorbAll(Session([], "", ids0, false), Delivered(body), session, decode)
  {
    hide Absorb, AbsorbAll, Classify, Payloads, Lines;
    got := Session([], "", ids0, false);
    var reader := new LineReader(body);
    var dataLines: seq<string> := [];
    ghost var all := AbsorbAll(got, Delivered(body), session, decode);
    while true
      invariant !got.done
      invariant all == AbsorbAll(got, Payloads(dataLines, Lines(reader.rest)), session, decode)
      decreases |reader.rest|
    {
      var line, more := reader.ReadString();
      if !more {
        PayloadsEnd(dataLines);
        AbsorbFirst(got, Join(dataLines, "\n"), [], session, decode);
        if |dataLines| > 0 {
          assert [Join(dataLines, "\n")] + [] == [Join(dataLines, "\n")];
          got := Gather(got, Join(dataLines, "\n"), session, decode);
          AbsorbFirst(got, "", [], session, decode);
        }
        return;
      }
      PayloadsAt(dataLines, line, Lines(reader.rest));
      match Classify(line) {
        case Blank =>
          ghost var later := Payloads([], Lines(reader.rest));
          AbsorbFirst(got, Join(dataLines, "\n"), later, session, decode);
          if |dataLines| > 0 {
            got := Gather(got, Join(dataLines, "\n"), session, decode);
            dataLines := [];
            if got.done {
              DoneStays(got, later, session, decode);
              return;
            }
          }
        case Ignored =>
        case Data(value) =>
          dataLines := dataLines + [value];
      }
    }
  }

  lemma {:induction false} DoneStays(s: Session, events: seq<string>, session: string, decode: Decoder)
    requires s.done
    ensures AbsorbAll(s, events, session, decode) == s
    decreases |events|
  {
    if events != [] {
      DoneStays(s, events[1..], session, decode);
    }
  }

  /** What is gathered does not depend on what was gathered before, except through the ids. */
  lemma {:induction false} Rebase(s: Session, parts: seq<string>, error: string, events: seq<string>, session: string,
                                  decode: Decoder)
    ensures var on := AbsorbAll(s, events, session, decode);
      AbsorbAll(Session(parts + s.parts, if s.error != "" then s.error else error, s.ids, s.done),
                events, session, decode)
        == Session(parts + on.parts, if on.error != "" then on.error else error, on.ids, on.done)
    decreases |events|
  {
    if events != [] {
      var next := Absorb(s, events[0], session, decode);
      Rebase(next, parts, error, events[1..], session, decode);
      assert forall text :: parts + (s.parts + [text]) == parts + s.parts + [text];
    }
  }

  lemma {:induction false} AbsorbJoin(s: Session, a: seq<string>, b: seq<string>, session: string, decode: Decoder)
    ensures AbsorbAll(s, a + b, session, decode) == AbsorbAll(AbsorbAll(s, a, session, decode), b, session, decode)
    decreases |a|
  {
    if a == [] {
      assert a + b == b;
    } else {
      assert (a + b)[1..] == a[1..] + b;
      AbsorbJoin(Absorb(s, a[0], session, decode), a[1..], b, session, decode);
    }
  }

  // ---- What a session has gathered, read off the events ----

  /** Before the k-th event the id was named as an assistant message of the session. */
  ghost predicate Announced(events: seq<string>, k: nat, session: string, decode: Decoder, id: string) {
    id != "" && exists j :: 0 <= j < k <= |events| && decode(events[j]) == Updated(session, "assistant", id)
  }

  /** The session's text in the k-th event, if its id was known from the start or has been announced since. */
  ghost function SaidAt(events: seq<string>, k: nat, session: string, decode: Decoder, ids: set<string>): Option<string>
    requires k < |events|
  {
    var m := decode(events[k]);
    if m.Part? && m.session == session && m.kind == "text" && m.text != "" &&
      (m.messageId in ids || Announced(events, k, session, decode, m.messageId)) then Some(m.text) else None
  }

  /** The words of the session's error in the k-th event, if there are any. */
  ghost function ErrorAt(events: seq<string>, k: nat, session: string, decode: Decoder): Option<string>
    requires k < |events|
  {
    var m := decode(events[k]);
    if m.Failure? && m.session == session && (m.name != "" || m.detail != "")
    then Some(if m.detail == "" then m.name else m.name + ": " + m.detail) else None
  }

  /** What the first n events leave: the texts at these positions and no others, every id announced, and the last
      error. */
  ghost predicate Gathered(got: Session, at: seq<nat>, s: Session, events: seq<string>, n: nat, session: string,
                           decode: Decoder)
    requires n <= |events|
  {
    && Increasing(at) && (forall k: nat :: k in at <==> k < n && SaidAt(events, k, session, decode, s.ids).Some?)
    && |got.parts| == |s.parts| + |at| && s.parts <= got.parts
    && (forall i :: 0 <= i < |at| ==> (
          at[i] < n && SaidAt(events, at[i], session, decode, s.ids) == Some(got.parts[|s.parts| + i])))
    && (forall id :: id in got.ids <==> id in s.ids || Announced(events, n, session, decode, id))
    && LastError(got.error, s.error, events, n, session, decode)
  }

  ghost predicate LastError(error: string, before: string, events: seq<string>, n: nat, session: string,
                            decode: Decoder)
    requires n <= |events|
  {
    if forall k :: 0 <= k < n ==> ErrorAt(events, k, session, decode).None? then error == before
    else exists k :: 0 <= k < n && ErrorAt(events, k, session, decode) == Some(error)
                  && forall later :: k < later < n ==> ErrorAt(events, later, session, decode).None?
  }

  lemma AbsorbNext(s: Session, events: seq<string>, n: nat, session: string, decode: Decoder)
    requires n < |events|
    ensures AbsorbAll(s, events[..n + 1], session, decode) ==
      Absorb(AbsorbAll(s, events[..n], session, decode), events[n], session, decode)
  {
    AbsorbJoin(s, events[..n], [events[n]], session, decode);
    AbsorbFirst(AbsorbAll(s, events[..n], session, decode), events[n], [], session, decode);
    assert events[..n] + [events[n]] == events[..n + 1] && [events[n]] + [] == [events[n]];
  }

  lemma ErrorNext(error: string, before: string, events: seq<string>, n: nat, session: string, decode: Decoder)
    requires n < |events| && LastError(error, before, events, n, session, decode)
    ensures var said := ErrorAt(events, n, session, decode);
      LastError(if said.Some? then said.value else error, before, events, n + 1, session, decode)
  {
    hide ErrorAt;
  }

  /** One event, of a session not yet idle. */
  lemma AbsorbSays(s: Session, got: Session, events: seq<string>, n: nat, session: string, decode: Decoder)
    requires n < |events| && !got.done && decode(events[n]) != Idle(session)
    requires forall id :: id in got.ids <==> id in s.ids || Announced(events, n, session, decode, id)
    ensures var next := Absorb(got, events[n], session, decode);
      var said, error := SaidAt(events, n, session, decode, s.ids), ErrorAt(events, n, session, decode);
      && !next.done && next.parts == got.parts + (if said.Some? then [said.value] else [])
      && next.error == (if error.Some? then error.value else got.error)
      && forall id :: id in next.ids <==> id in s.ids || Announced(events, n + 1, session, decode, id)
  {
  }

  /** While the session is not idle. */
  lemma {:induction false} OpenMeaning(s: Session, events: seq<string>, n: nat, session: string, decode: Decoder)
    returns (at: seq<nat>)
    requires n <= |events| && !s.done && forall k :: 0 <= k < n ==> decode(events[k]) != Idle(session)
    ensures !AbsorbAll(s, events[..n], session, decode).done
    ensures Gathered(AbsorbAll(s, events[..n], session, decode), at, s, events, n, session, decode)
  {
    hide Absorb, AbsorbAll, Increasing, LastError, Announced, SaidAt, ErrorAt;
    at := [];
    if n == 0 {
      AbsorbNothing(s, session, decode);
      NothingGathered(s, events, session, decode);
    } else {
      at := OpenMeaning(s, events, n - 1, session, decode);
      var got := AbsorbAll(s, events[..n - 1], session, decode);
      AbsorbNext(s, events, n - 1, session, decode);
      AbsorbSays(s, got, events, n - 1, session, decode);
      IncreasingMore(at, n - 1);
      ErrorNext(got.error, s.error, events, n - 1, session, decode);
      if SaidAt(events, n - 1, session, decode, s.ids).Some? { at := at + [n - 1]; }
    }
  }

  lemma NothingGathered(s: Session, events: seq<string>, session: string, decode: Decoder)
    ensures Gathered(s, [], s, events, 0, session, decode)
  {
  }

  /** The session up to the first idle event for it, which alone makes it done. */
  lemma SessionMeaning(s: Session, events: seq<string>, session: string, decode: Decoder)
    returns (n: nat, at: seq<nat>)
    requires !s.done
    ensures n <= |events| && (forall k :: 0 <= k < n ==> decode(events[k]) != Idle(session))
    ensures n < |events| ==> decode(events[n]) == Idle(session)
    ensures var got := AbsorbAll(s, events, session, decode);
      Gathered(got, at, s, events, n, session, decode) && (got.done <==> n < |events|)
  {
    hide Gathered, AbsorbAll;
    n := 0;
    while n < |events| && decode(events[n]) != Idle(session)
      invariant n <= |events| && forall k :: 0 <= k < n ==> decode(events[k]) != Idle(session)
    {
      n := n + 1;
    }
    at := OpenMeaning(s, events, n, session, decode);
    var open := AbsorbAll(s, events[..n], session, decode);
    if n < |events| {
      AbsorbNext(s, events, n, session, decode);
      AbsorbJoin(s, events[..n + 1], events[n + 1..], session, decode);
      assert events[..n + 1] + events[n + 1..] == events;
      DoneStays(open.(done := true), events[n + 1..], session, decode);
      GatheredDone(open, at, s, events, n, session, decode);
    } else {
      assert events[..n] == events;
    }
  }

  lemma GatheredDone(got: Session, at: seq<nat>, s: Session, events: seq<string>, n: nat, session: string,
                     decode: Decoder)
    requires n <= |events| && Gathered(got, at, s, events, n, session, decode)
    ensures Gathered(got.(done := true), at, s, events, n, session, decode)
  {
    hide SaidAt, LastError, Announced;
  }

  function AllDelivered(bodies: seq<string>): seq<string> {
    if bodies == [] then [] else AllDelivered(bodies[..|bodies| - 1]) + Delivered(bodies[|bodies| - 1])
  }

  const FRESH := Session([], "", {}, false)

  /** The reconnecting loop over what successive connections yield before they break; a connection that cannot be made
      yields nothing. It ends when the session is done or its caller gives up. */
  method SseLoop(bodies: seq<string>, session: string, decode: Decoder) returns (result: Session)
    ensures result == AbsorbAll(FRESH, AllDelivered(bodies), session, decode)
  {
    hide AbsorbAll, Delivered;
    result := FRESH;
    AbsorbNothing(FRESH, session, decode);
    for k := 0 to |bodies|
      invariant !result.done
      invariant result == AbsorbAll(FRESH, AllDelivered(bodies[..k]), session, decode)
    {
      assert bodies[..k + 1][..k] == bodies[..k];
      var got := SseStream(bodies[k], session, decode, result.ids);
      Rebase(Session([], "", result.ids, false), result.parts, result.error, Delivered(bodies[k]), session, decode);
      AbsorbJoin(FRESH, AllDelivered(bodies[..k]), Delivered(bodies[k]), session, decode);
      assert result.parts + [] == result.parts;
      result := Session(result.parts + got.parts, if got.error != "" then got.error else result.error,
                        got.ids, got.done);
      if result.done {
        Prefix(bodies, k + 1);
        AbsorbJoin(FRESH, AllDelivered(bodies[..k + 1]), AllDelivered(bodies[k + 1..]), session, decode);
        DoneStays(result, AllDelivered(bodies[k + 1..]), session, decode);
        return;
      }
    }
    assert bodies[..|bodies|] == bodies;
  }

  lemma AbsorbNothing(s: Session, session: string, decode: Decoder)
    ensures AbsorbAll(s, [], session, decode) == s
  {
  }

  lemma {:induction false} Prefix(bodies: seq<string>, k: nat)
    requires k <= |bodies|
    ensures AllDelivered(bodies) == AllDelivered(bodies[..k]) + AllDelivered(bodies[k..])
    decreases |bodies|
  {
    hide Delivered;
    if k == |bodies| {
      assert bodies[..k] == bodies && AllDelivered(bodies) + [] == AllDelivered(bodies);
    } else {
      var n := |bodies| - 1;
      Prefix(bodies[..n], k);
      assert bodies[..n][..k] == bodies[..k];
      assert bodies[..n][k..] == bodies[k..n] == bodies[k..][..n - k];
      var tail := bodies[k..];
      assert tail[|tail| - 1] == bodies[n];
      assert AllDelivered(tail) == AllDelivered(bodies[k..n]) + Delivered(bodies[n]);
    }
  }

  // ---- Printing and reading undo each other ----

  /** What the frame format can carry. */
  predicate Carries(payload: string) {
    '\n' !in payload && (payload == "" || payload[|payload| - 1] != '\r')
  }

  lemma LinesConcat(a: string, b: string)
    requires a == "" || a[|a| - 1] == '\n'
    ensures Lines(a + b) == Lines(a) + Lines(b)
  {
    if a == "" {
      assert a + b == b;
    } else {
      var front := a[..|a| - 1];
      assert a == front + ['\n'] + "" && a + b == front + ['\n'] + b;
      SplitConcat(front, "", '\n');
      SplitConcat(front, b, '\n');
    }
  }

  lemma FrameLines(payload: string)
    ensures Lines(Frame(payload)) == Split("data: " + payload, '\n') + [""]
  {
    assert Frame(payload) == ("data: " + payload) + ['\n'] + "\n";
    SplitConcat("data: " + payload, "\n", '\n');
    SplitConcat("", "", '\n');
    assert "" + ['\n'] + "" == "\n";
  }

  lemma DataField(value: string)
    ensures Field("data: " + value) == Data(value)
  {
    var line := "data: " + value;
    assert line[0] == 'd';
    assert line[..5] == "data:" && line[5..] == " " + value;
    assert (" " + value)[1..] == value;
  }

  lemma DataLine(payload: string)
    requires Carries(payload)
    ensures Lines(Frame(payload)) == ["data: " + payload, ""]
    ensures Classify("data: " + payload) == Data(payload) && Classify("") == Blank
  {
    hide Field;
    FrameLines(payload);
    SplitWhole("data: " + payload, '\n');
    DataField(payload);
    var line := "data: " + payload;
    assert payload == "" ==> line[|line| - 1] == ' ';
    assert TrimCr(line) == line;
    assert Field("") == Blank by { BlankField(); }
  }

  lemma BlankField()
    ensures Field("") == Blank
  {
  }

  /** A stream of such payloads is read back as it was written, whatever line ends the stream is cut at. */
  lemma {:induction false} RoundTrip(payloads: seq<string>)
    requires forall k :: 0 <= k < |payloads| ==> Carries(payloads[k])
    ensures Delivered(Stream(payloads)) == payloads
    ensures NoTwoData(Lines(Stream(payloads)))
  {
    hide Classify, Frame, Carries;
    if payloads == [] {
    } else {
      var rest := payloads[1..];
      RoundTrip(rest);
      DataLine(payloads[0]);
      FrameEnds(payloads[0]);
      LinesConcat(Frame(payloads[0]), Stream(rest));
      var lines := Lines(Stream(rest));
      assert ["data: " + payloads[0], ""] + lines == ["data: " + payloads[0]] + ([""] + lines);
      PayloadsAt([], "data: " + payloads[0], [""] + lines);
      PayloadsAt([] + [payloads[0]], "", lines);
      assert Join([payloads[0]], "\n") == payloads[0];
    }
  }

  lemma FrameEnds(payload: string)
    ensures Frame(payload) != "" && Frame(payload)[|Frame(payload)| - 1] == '\n'
  {
  }

  /** No data line is followed by anything but a blank line. */
  ghost predicate NoTwoData(lines: seq<string>) {
    forall k :: 0 <= k < |lines| - 1 && Classify(lines[k]).Data? ==> Classify(lines[k + 1]).Blank?
  }

  lemma {:induction false} CutLines(pending: seq<string>, a: seq<string>, b: seq<string>)
    requires NoTwoData(a + b)
    requires pending != [] && a + b != [] ==> Classify((a + b)[0]).Blank?
    ensures Payloads(pending, a + b) == Payloads(pending, a) + Payloads([], b)
    decreases |a|
  {
    hide Classify;
    if a == [] {
      assert a + b == b;
      if b != [] {
        assert [b[0]] + b[1..] == b;
        PayloadsAt(pending, b[0], b[1..]);
        PayloadsAt([], b[0], b[1..]);
      }
    } else {
      var rest := a[1..];
      assert a == [a[0]] + rest && a + b == [a[0]] + (rest + b) && (a + b)[1..] == rest + b;
      PayloadsAt(pending, a[0], rest + b);
      PayloadsAt(pending, a[0], rest);
      assert forall k :: 0 <= k < |rest + b| ==> (rest + b)[k] == (a + b)[k + 1];
      match Classify(a[0]) {
        case Blank => CutLines([], rest, b);
        case Ignored => CutLines(pending, rest, b);
        case Data(value) =>
          assert rest + b != [] ==> (rest + b)[0] == (a + b)[1];
          CutLines(pending + [value], rest, b);
      }
    }
  }

  function Concat(bodies: seq<string>): string {
    if bodies == [] then "" else Concat(bodies[..|bodies| - 1]) + bodies[|bodies| - 1]
  }

  /** Every connection but the last broke at a line end. */
  ghost predicate CutAtLines(bodies: seq<string>) {
    forall k :: 0 <= k < |bodies| - 1 ==> bodies[k] == "" || bodies[k][|bodies[k]| - 1] == '\n'
  }

  lemma {:induction false} CutBodies(bodies: seq<string>)
    requires CutAtLines(bodies) && NoTwoData(Lines(Concat(bodies)))
    ensures AllDelivered(bodies) == Delivered(Concat(bodies))
  {
    hide Classify, Lines, Payloads;
    if bodies == [] {
      NothingDelivered();
    } else {
      var n := |bodies| - 1;
      var front := bodies[..n];
      ConcatEnds(front);
      LinesConcat(Concat(front), bodies[n]);
      var a, b := Lines(Concat(front)), Lines(bodies[n]);
      assert forall k :: 0 <= k < |a| ==> a[k] == (a + b)[k];
      CutBodies(front);
      CutLines([], a, b);
    }
  }

  lemma NothingDelivered()
    ensures Delivered("") == []
  {
  }

  lemma {:induction false} ConcatEnds(bodies: seq<string>)
    requires forall k :: 0 <= k < |bodies| ==> bodies[k] == "" || bodies[k][|bodies[k]| - 1] == '\n'
    ensures Concat(bodies) == "" || Concat(bodies)[|Concat(bodies)| - 1] == '\n'
  {
    if bodies != [] {
      ConcatEnds(bodies[..|bodies| - 1]);
    }
  }

  /** Breaking the stream at any line ends, any number of times, does not change what the session gathers. */
  lemma ReconnectInvisible(payloads: seq<string>, bodies: seq<string>, session: string, decode: Decoder)
    requires forall k :: 0 <= k < |payloads| ==> Carries(payloads[k])
    requires CutAtLines(bodies) && Concat(bodies) == Stream(payloads)
    ensures AbsorbAll(FRESH, AllDelivered(bodies), session, decode) == AbsorbAll(FRESH, payloads, session, decode)
  {
    RoundTrip(payloads);
    CutBodies(bodies);
  }

  // ---- Nothing else survives the trip ----

  function Weight(events: seq<string>): nat {
    if events == [] then 0 else |events[0]| + Weight(events[1..])
  }

  lemma {:induction false} WeightJoin(a: seq<string>, b: seq<string>)
    ensures Weight(a + b) == Weight(a) + Weight(b)
  {
    if a == [] {
      assert a + b == b;
    } else {
      assert (a + b)[1..] == a[1..] + b;
      WeightJoin(a[1..], b);
    }
  }

  /** A value is at least five characters shorter than its line. */
  lemma ValueShorter(line: string)
    ensures Classify(line).Data? ==> |Classify(line).value| + 5 <= |line|
  {
  }

  lemma {:induction false} JoinLonger(pending: seq<string>, value: string)
    ensures |Join(pending + [value], "\n")| == if pending == [] then |value| else |Join(pending, "\n")| + 1 + |value|
  {
    if pending == [] {
      assert pending + [value] == [value];
    } else {
      JoinLonger(pending[1..], value);
      assert (pending + [value])[1..] == pending[1..] + [value];
    }
  }

  /** A reader never delivers more than the lines weigh. */
  lemma {:induction false} NoHeavier(pending: seq<string>, lines: seq<string>)
    ensures Weight(Payloads(pending, lines)) <= |Join(pending, "\n")| + Weight(lines)
    decreases |lines|
  {
    hide Classify, Join;
    assert Join([], "\n") == "" by { NothingJoined(); }
    if lines != [] {
      var rest := lines[1..];
      assert [lines[0]] + rest == lines;
      PayloadsAt(pending, lines[0], rest);
      ValueShorter(lines[0]);
      match Classify(lines[0]) {
        case Blank =>
          NoHeavier([], rest);
          WeightJoin(Held(pending), Payloads([], rest));
        case Ignored => NoHeavier(pending, rest);
        case Data(value) =>
          NoHeavier(pending + [value], rest);
          JoinLonger(pending, value);
      }
    }
  }

  lemma NothingJoined()
    ensures Join([], "\n") == ""
  {
  }

  lemma {:induction false} SplitLength(s: string)
    ensures |s| == Weight(Split(s, '\n')) + |Split(s, '\n')| - 1
  {
    if s != "" {
      var rest := Split(s[1..], '\n');
      SplitLength(s[1..]);
      if s[0] == '\n' {
        assert ([""] + rest)[1..] == rest;
      } else {
        assert ([[s[0]] + rest[0]] + rest[1..])[1..] == rest[1..];
      }
    }
  }

  lemma {:induction false} SplitPrefix(a: string, s: string)
    requires '\n' !in a
    ensures Split(a + s, '\n') == [a + Split(s, '\n')[0]] + Split(s, '\n')[1..]
  {
    if a == "" {
      var pieces := Split(s, '\n');
      assert a + s == s && a + pieces[0] == pieces[0] && [pieces[0]] + pieces[1..] == pieces;
    } else {
      assert (a + s)[1..] == a[1..] + s;
      SplitPrefix(a[1..], s);
      assert [a[0]] + (a[1..] + Split(s, '\n')[0]) == a + Split(s, '\n')[0];
    }
  }

  lemma {:induction false} TrimKeeps(front: string, s: string)
    requires front != "" && front[|front| - 1] != '\r'
    ensures TrimCr(front + s) == front + TrimCr(s)
  {
    var line := front + s;
    if s != "" && s[|s| - 1] == '\r' {
      assert line[..|line| - 1] == front + s[..|s| - 1];
      TrimKeeps(front, s[..|s| - 1]);
    } else if s == "" {
      assert line == front;
    }
  }

  lemma FirstValue(piece: string)
    ensures Classify("data: " + piece) == Data(TrimCr(piece))
  {
    hide TrimCr, Field;
    TrimKeeps("data: ", piece);
    DataField(TrimCr(piece));
  }

  /** What one frame delivers weighs as much as its payload exactly when the format can carry the payload. */
  lemma FrameWeight(payload: string)
    ensures var got := Weight(Payloads([], Lines(Frame(payload))));
      got <= |payload| && (got == |payload| ==> Carries(payload))
  {
    hide Classify, Join, Payloads, Lines, Frame, TrimCr, Split;
    var pieces := Split(payload, '\n');
    FrameLines(payload);
    SplitPrefix("data: ", payload);
    SplitLength(payload);
    var rest := pieces[1..] + [""];
    assert Lines(Frame(payload)) == ["data: " + pieces[0]] + rest;
    FirstValue(pieces[0]);
    PayloadsAt([], "data: " + pieces[0], rest);
    var value := TrimCr(pieces[0]);
    assert [] + [value] == [value];
    NoHeavier([value], rest);
    WeightJoin(pieces[1..], [""]);
    JustOne(value);
    if |pieces| == 1 {
      JoinSplit(payload, '\n');
      JustOne(pieces[0]);
      assert pieces == [pieces[0]];
    }
  }

  lemma JustOne(value: string)
    ensures Join([value], "\n") == value && Weight([""]) == 0
    ensures |TrimCr(value)| == |value| ==> TrimCr(value) == value
  {
  }

  /** A blank line leaves a reader empty-handed. */
  lemma {:induction false} BlankParts(pending: seq<string>, a: seq<string>, b: seq<string>)
    ensures Payloads(pending, a + [""] + b) == Payloads(pending, a + [""]) + Payloads([], b)
    decreases |a|
  {
    hide Classify;
    BlankIsBlank();
    if a == [] {
      assert a + [""] + b == [""] + b && a + [""] == [""] + [];
      PayloadsAt(pending, "", b);
      PayloadsAt(pending, "", []);
      PayloadsEnd([]);
    } else {
      var rest := a[1..];
      assert a + [""] + b == [a[0]] + (rest + [""] + b) && a + [""] == [a[0]] + (rest + [""]);
      PayloadsAt(pending, a[0], rest + [""] + b);
      PayloadsAt(pending, a[0], rest + [""]);
      match Classify(a[0]) {
        case Blank => BlankParts([], rest, b);
        case Ignored => BlankParts(pending, rest, b);
        case Data(value) => BlankParts(pending + [value], rest, b);
      }
    }
  }

  lemma BlankIsBlank()
    ensures Classify("") == Blank
  {
  }

  lemma {:induction false} StreamWeight(payloads: seq<string>)
    ensures Weight(Delivered(Stream(payloads))) <= Weight(payloads)
    ensures Weight(Delivered(Stream(payloads))) == Weight(payloads) ==>
      forall k :: 0 <= k < |payloads| ==> Carries(payloads[k])
  {
    hide Classify, Frame, Carries, Payloads, Lines, Split;
    if payloads == [] {
      NothingDelivered();
    } else {
      var rest := payloads[1..];
      StreamWeight(rest);
      FrameWeight(payloads[0]);
      FrameEnds(payloads[0]);
      FrameLines(payloads[0]);
      LinesConcat(Frame(payloads[0]), Stream(rest));
      BlankParts([], Split("data: " + payloads[0], '\n'), Lines(Stream(rest)));
      WeightJoin(Payloads([], Lines(Frame(payloads[0]))), Delivered(Stream(rest)));
      assert forall k :: 0 < k < |payloads| ==> payloads[k] == rest[k - 1];
    }
  }

  /** A stream is read back as it was written exactly when the format can carry every payload. */
  lemma RoundTripIff(payloads: seq<string>)
    ensures Delivered(Stream(payloads)) == payloads <==> forall k :: 0 <= k < |payloads| ==> Carries(payloads[k])
  {
    hide Carries, Lines, Payloads, Stream;
    if forall k :: 0 <= k < |payloads| ==> Carries(payloads[k]) {
      RoundTrip(payloads);
    }
    StreamWeight(payloads);
  }

  /** What passes the server's filters is what the watcher prints, in order. */
  lemma ServedIsWatched(events: seq<Option<BusEvent>>, runId: string, kind: string, decodes: string -> bool)
    requires forall k :: 0 <= k < |Sent(events, runId, kind)| ==>
      Carries(Sent(events, runId, kind)[k]) && decodes(Sent(events, runId, kind)[k])
    ensures Decodable(Delivered(Stream(Sent(events, runId, kind))), decodes) == Sent(events, runId, kind)
  {
    hide Sent, Carries;
    RoundTrip(Sent(events, runId, kind));
    AllDecodable(Sent(events, runId, kind), decodes);
  }

  lemma {:induction false} AllDecodable(events: seq<string>, decodes: string -> bool)
    requires forall k :: 0 <= k < |events| ==> decodes(events[k])
    ensures Decodable(events, decodes) == events
  {
    if events != [] {
      AllDecodable(events[1..], decodes);
      assert [events[0]] + events[1..] == events;
    }
  }
}
