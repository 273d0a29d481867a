/** Replacing raw identifiers by stable tokens: five mappers, one per kind of identifier,
    number identifiers in the order a trace first shows them. */
module IdTokens {
  import opened Options
  import opened Text

  /** The mappers in the order a lookup tries them: runs, jobs, findings, artifacts, everything else. */
  const PREFIXES: seq<string> := ["run", "job", "finding", "artifact", "id"]

  /** Which mapper a field's fresh identifiers go to. */
  function Slot(field: string): (slot: nat)
    ensures slot < |PREFIXES|
  {
    if field == "run_id" then 0
    else if field == "job_id" || field == "resolved_by_job_id" then 1
    else if field == "finding_id" then 2
    else if field == "artifact_id" then 3
    else 4
  }

  function Token(prefix: string, number: nat): (token: string)
    ensures token != ""
  {
    prefix + "_" + Decimal(number)
  }

  /** Which word a field's fresh identifiers are given, with a number behind it. */
  lemma TokenWords(field: string, number: nat)
    ensures PREFIXES[Slot(field)] == "run" <==> field == "run_id"
    ensures PREFIXES[Slot(field)] == "job" <==> field in ["job_id", "resolved_by_job_id"]
    ensures PREFIXES[Slot(field)] == "finding" <==> field == "finding_id"
    ensures PREFIXES[Slot(field)] == "artifact" <==> field == "artifact_id"
    ensures PREFIXES[Slot(field)] == "id" <==>
      field !in ["run_id", "job_id", "resolved_by_job_id", "finding_id", "artifact_id"]
    ensures var token, n := Token(PREFIXES[Slot(field)], number), |PREFIXES[Slot(field)]|;
      |token| > n && token[..n] == PREFIXES[Slot(field)] && token[n] == '_' && token[n + 1..] == Decimal(number)
  {
    var prefix := PREFIXES[Slot(field)];
    assert Token(prefix, number) == prefix + ("_" + Decimal(number));
  }

  /** No two mappers, and no two numbers of one mapper, share a token. */
  lemma TokenInjective(i: nat, m: nat, j: nat, n: nat)
    requires i < |PREFIXES| && j < |PREFIXES|
    requires Token(PREFIXES[i], m) == Token(PREFIXES[j], n)
    ensures i == j && m == n
  {
    var s, t := Token(PREFIXES[i], m), Token(PREFIXES[j], n);
    assert s[0] == PREFIXES[i][0] && t[0] == PREFIXES[j][0];
    assert i == j;
    var at := |PREFIXES[i]| + 1;
    assert s[at..] == Decimal(m) && t[at..] == Decimal(n);
    DecimalInjective(m, n);
  }

  // ---- One mapper, and all of them ----

  datatype Mapper = Mapper(next: nat, seen: map<string, string>)

  type Mappers = ms: seq<Mapper> | |ms| == |PREFIXES|
    witness [EMPTY, EMPTY, EMPTY, EMPTY, EMPTY]

  const EMPTY := Mapper(0, map[])

  const NO_MAPPERS: Mappers := [EMPTY, EMPTY, EMPTY, EMPTY, EMPTY]

  function Normalize(prefix: string, m: Mapper, raw: string): (Mapper, string) {
    if raw == "" then (m, "")
    else if raw in m.seen then (m, m.seen[raw])
    else
      var token := Token(prefix, m.next + 1);
      (Mapper(m.next + 1, m.seen[raw := token]), token)
  }

  /** The first mapper that knows the identifier answers. */
  function Lookup(ms: seq<Mapper>, raw: string): Option<string> {
    if ms == [] then None
    else if raw in ms[0].seen then Some(ms[0].seen[raw])
    else Lookup(ms[1..], raw)
  }

  function NormalizeId(ms: Mappers, field: string, raw: string): (Mappers, string) {
    if raw == "" then (ms, "")
    else
      match Lookup(ms, raw)
      case Some(token) => (ms, token)
      case None =>
        var (m, token) := Normalize(PREFIXES[Slot(field)], ms[Slot(field)], raw);
        (ms[Slot(field) := m], token)
  }

  /** One identifier as the snapshot meets it: the field it stands in and its raw value. */
  datatype Visit = Visit(field: string, raw: string)

  function After(ms: Mappers, trace: seq<Visit>): Mappers
    decreases |trace|
  {
    if trace == [] then ms else After(NormalizeId(ms, trace[0].field, trace[0].raw).0, trace[1..])
  }

  function Tokens(ms: Mappers, trace: seq<Visit>): (tokens: seq<string>)
    ensures |tokens| == |trace|
    decreases |trace|
  {
    if trace == [] then []
    else
      var (next, token) := NormalizeId(ms, trace[0].field, trace[0].raw);
      [token] + Tokens(next, trace[1..])
  }

  // ---- Invariant ----

  ghost predicate Holds(ms: seq<Mapper>, i: int, raw: string) {
    0 <= i < |ms| && raw in ms[i].seen
  }

  ghost predicate Numbered(ms: Mappers, i: int, raw: string, n: int) {
    Holds(ms, i, raw) && 1 <= n <= ms[i].next && ms[i].seen[raw] == Token(PREFIXES[i], n)
  }

  /** Each identifier sits in at most one mapper; within a mapper tokens are numbered and never shared. */
  ghost predicate WellKept(ms: Mappers) {
    && (forall i, raw :: Holds(ms, i, raw) ==> raw != "" && exists n :: Numbered(ms, i, raw, n))
    && (forall i, j, raw :: Holds(ms, i, raw) && Holds(ms, j, raw) ==> i == j)
    && (forall i, a, b :: Holds(ms, i, a) && Holds(ms, i, b) && a != b ==> ms[i].seen[a] != ms[i].seen[b])
  }

  lemma {:induction false} LookupFinds(ms: seq<Mapper>, raw: string)
    ensures match Lookup(ms, raw)
      case None => forall i :: !Holds(ms, i, raw)
      case Some(token) => exists i :: Holds(ms, i, raw) && ms[i].seen[raw] == token
  {
    if ms != [] && raw !in ms[0].seen {
      LookupFinds(ms[1..], raw);
      forall i | Holds(ms, i, raw)
        ensures Holds(ms[1..], i - 1, raw)
      {
      }
      if Lookup(ms, raw).Some? {
        var i :| Holds(ms[1..], i, raw) && ms[1..][i].seen[raw] == Lookup(ms, raw).value;
        assert Holds(ms, i + 1, raw) && ms[i + 1].seen[raw] == Lookup(ms, raw).value;
      }
    } else if ms != [] {
      assert Holds(ms, 0, raw);
    }
  }

  lemma LookupIs(ms: Mappers, i: int, raw: string)
    requires WellKept(ms) && Holds(ms, i, raw)
    ensures Lookup(ms, raw) == Some(ms[i].seen[raw])
  {
    LookupFinds(ms, raw);
  }

  /** Tokens are globally injective: two raw identifiers never share one, and none is empty. */
  lemma LookupInjective(ms: Mappers, a: string, b: string)
    requires WellKept(ms) && Lookup(ms, a).Some? && Lookup(ms, b).Some?
    ensures Lookup(ms, a) == Lookup(ms, b) <==> a == b
    ensures Lookup(ms, a).value != "" && a != ""
  {
    hide Token, PREFIXES, Slot;
    LookupFinds(ms, a);
    LookupFinds(ms, b);
    var i :| Holds(ms, i, a) && ms[i].seen[a] == Lookup(ms, a).value;
    var j :| Holds(ms, j, b) && ms[j].seen[b] == Lookup(ms, b).value;
    var m :| Numbered(ms, i, a, m);
    var n :| Numbered(ms, j, b, n);
    if Lookup(ms, a) == Lookup(ms, b) {
      TokenInjective(i, m, j, n);
    }
  }

  /** Giving a new identifier the next number of one mapper keeps all tables in order. */
  lemma AddKeeps(ms: Mappers, i: nat, raw: string)
    requires WellKept(ms) && i < |ms| && raw != "" && Lookup(ms, raw).None?
    ensures var n := ms[i].next + 1;
      WellKept(ms[i := Mapper(n, ms[i].seen[raw := Token(PREFIXES[i], n)])])
  {
    hide Token, PREFIXES, Slot;
    var n := ms[i].next + 1;
    var next: Mappers := ms[i := Mapper(n, ms[i].seen[raw := Token(PREFIXES[i], n)])];
    LookupFinds(ms, raw);
    assert forall k, r :: Holds(next, k, r) <==> Holds(ms, k, r) || (k == i && r == raw);
    forall k, r | Holds(next, k, r)
      ensures r != "" && exists m :: Numbered(next, k, r, m)
    {
      if k == i && r == raw {
        assert Numbered(next, k, r, n);
      } else {
        var m :| Numbered(ms, k, r, m);
        assert Numbered(next, k, r, m);
      }
    }
    forall r | Holds(ms, i, r)
      ensures ms[i].seen[r] != Token(PREFIXES[i], n)
    {
      var m :| Numbered(ms, i, r, m);
      if ms[i].seen[r] == Token(PREFIXES[i], n) { TokenInjective(i, m, i, n); }
    }
  }

  /** The answers after adding: the new identifier has the new token, all others are as before. */
  lemma AddLookups(ms: Mappers, i: nat, raw: string, token: string, next: Mappers)
    requires i < |ms| && Lookup(ms, raw).None? && WellKept(ms) && WellKept(next)
    requires next == ms[i := Mapper(ms[i].next + 1, ms[i].seen[raw := token])]
    ensures Lookup(next, raw) == Some(token)
    ensures forall other :: other != raw ==> Lookup(next, other) == Lookup(ms, other)
  {
    hide Token, PREFIXES, Slot, Lookup;
    assert Holds(next, i, raw);
    LookupIs(next, i, raw);
    forall other | other != raw
      ensures Lookup(next, other) == Lookup(ms, other)
    {
      LookupFinds(ms, other);
      LookupFinds(next, other);
      assert forall k :: Holds(next, k, other) <==> Holds(ms, k, other);
      if Lookup(ms, other).Some? {
        var k :| Holds(ms, k, other) && ms[k].seen[other] == Lookup(ms, other).value;
        assert Holds(next, k, other);
        LookupIs(next, k, other);
      }
    }
  }

  /** One step keeps the tables in order, forgets nothing, and answers what the new tables say. */
  lemma StepKeeps(ms: Mappers, field: string, raw: string)
    requires WellKept(ms)
    ensures var (next, token) := NormalizeId(ms, field, raw);
      && WellKept(next)
      && (raw == "" ==> next == ms && token == "")
      && (raw != "" ==> Lookup(next, raw) == Some(token))
      && (forall other :: other != raw ==> Lookup(next, other) == Lookup(ms, other))
      && (if raw != "" && Lookup(ms, raw).None?
          then token == Token(PREFIXES[Slot(field)], ms[Slot(field)].next + 1)
            && forall i :: 0 <= i < |ms| ==> next[i].next == ms[i].next + if i == Slot(field) then 1 else 0
          else next == ms)
  {
    if raw != "" && Lookup(ms, raw).None? {
      var i := Slot(field);
      LookupFinds(ms, raw);
      assert !Holds(ms, i, raw);
      AddKeeps(ms, i, raw);
      AddLookups(ms, i, raw, Token(PREFIXES[i], ms[i].next + 1), NormalizeId(ms, field, raw).0);
    }
  }

  /** Every token a trace was given is the one the final tables hold for its identifier. */
  lemma {:induction false} TokensAreFinal(ms: Mappers, trace: seq<Visit>)
    requires WellKept(ms)
    ensures WellKept(After(ms, trace))
    ensures forall raw :: Lookup(ms, raw).Some? ==> Lookup(After(ms, trace), raw) == Lookup(ms, raw)
    ensures forall k :: 0 <= k < |trace| ==>
      if trace[k].raw == "" then Tokens(ms, trace)[k] == ""
      else Lookup(After(ms, trace), trace[k].raw) == Some(Tokens(ms, trace)[k])
    decreases |trace|
  {
    if trace != [] {
      var (next, token) := NormalizeId(ms, trace[0].field, trace[0].raw);
      StepKeeps(ms, trace[0].field, trace[0].raw);
      TokensAreFinal(next, trace[1..]);
      forall raw | Lookup(ms, raw).Some?
        ensures Lookup(After(ms, trace), raw) == Lookup(ms, raw)
      {
        assert Lookup(next, raw) == Lookup(ms, raw);
      }
      forall k | 0 <= k < |trace|
        ensures if trace[k].raw == "" then Tokens(ms, trace)[k] == ""
                else Lookup(After(ms, trace), trace[k].raw) == Some(Tokens(ms, trace)[k])
      {
        if k > 0 { assert trace[k] == trace[1..][k - 1]; }
      }
    }
  }

  lemma NoMappersKept()
    ensures WellKept(NO_MAPPERS)
    ensures forall raw :: Lookup(NO_MAPPERS, raw).None?
  {
    forall raw ensures Lookup(NO_MAPPERS, raw).None? { LookupFinds(NO_MAPPERS, raw); }
  }

  /** Equal tokens exactly for equal identifiers; the empty token exactly for the empty identifier. */
  lemma TokensTellApart(trace: seq<Visit>, i: nat, j: nat)
    requires i < |trace| && j < |trace|
    ensures var tokens := Tokens(NO_MAPPERS, trace);
      && (tokens[i] == tokens[j] <==> trace[i].raw == trace[j].raw)
      && (tokens[i] == "" <==> trace[i].raw == "")
  {
    NoMappersKept();
    TokensAreFinal(NO_MAPPERS, trace);
    var final := After(NO_MAPPERS, trace);
    if trace[i].raw != "" { LookupInjective(final, trace[i].raw, trace[i].raw); }
    if trace[j].raw != "" { LookupInjective(final, trace[j].raw, trace[j].raw); }
    if trace[i].raw != "" && trace[j].raw != "" { LookupInjective(final, trace[i].raw, trace[j].raw); }
  }

  // ---- Renaming ----

  predicate SameFields(a: seq<Visit>, b: seq<Visit>) {
    |a| == |b| && forall k :: 0 <= k < |a| ==> a[k].field == b[k].field
  }

  /** An injective renaming that takes one trace to the other and leaves "no identifier" alone. */
  ghost predicate Renames(names: map<string, string>, a: seq<Visit>, b: seq<Visit>) {
    && |a| == |b|
    && (forall x, y :: x in names && y in names && names[x] == names[y] ==> x == y)
    && (forall x :: x in names ==> (names[x] == "" <==> x == ""))
    && (forall k :: 0 <= k < |a| ==> a[k].raw in names && names[a[k].raw] == b[k].raw)
  }

  /** The two sets of tables agree up to the renaming. */
  ghost predicate Matched(names: map<string, string>, ma: Mappers, mb: Mappers) {
    && (forall i :: 0 <= i < |ma| ==> ma[i].next == mb[i].next)
    && (forall x :: x in names ==> Lookup(ma, x) == Lookup(mb, names[x]))
  }

  lemma MatchedStep(names: map<string, string>, ma: Mappers, mb: Mappers, field: string, x: string)
    requires WellKept(ma) && WellKept(mb) && Matched(names, ma, mb)
    requires x in names && (names[x] == "" <==> x == "")
    requires forall y :: y in names && names[x] == names[y] ==> x == y
    ensures var (na, ta) := NormalizeId(ma, field, x);
      var (nb, tb) := NormalizeId(mb, field, names[x]);
      WellKept(na) && WellKept(nb) && Matched(names, na, nb) && ta == tb
  {
    hide Token, PREFIXES, Slot, Lookup, NormalizeId, WellKept;
    StepKeeps(ma, field, x);
    StepKeeps(mb, field, names[x]);
    var na, nb := NormalizeId(ma, field, x).0, NormalizeId(mb, field, names[x]).0;
    forall y | y in names
      ensures Lookup(na, y) == Lookup(nb, names[y])
    {
    }
  }

  lemma {:induction false} RenamedTokens(names: map<string, string>, ma: Mappers, mb: Mappers, a: seq<Visit>,
                                         b: seq<Visit>)
    requires WellKept(ma) && WellKept(mb) && Matched(names, ma, mb)
    requires SameFields(a, b) && Renames(names, a, b)
    ensures Tokens(ma, a) == Tokens(mb, b)
    decreases |a|
  {
    if a != [] {
      MatchedStep(names, ma, mb, a[0].field, a[0].raw);
      var na, nb := NormalizeId(ma, a[0].field, a[0].raw).0, NormalizeId(mb, b[0].field, b[0].raw).0;
      RenamedTokens(names, na, nb, a[1..], b[1..]);
    }
  }

  lemma RenamingFromPattern(a: seq<Visit>, b: seq<Visit>) returns (names: map<string, string>)
    requires |a| == |b|
    requires forall i, j :: 0 <= i < |a| && 0 <= j < |a| ==> (a[i].raw == a[j].raw <==> b[i].raw == b[j].raw)
    requires forall i :: 0 <= i < |a| ==> (a[i].raw == "" <==> b[i].raw == "")
    ensures Renames(names, a, b)
  {
    names := map k | 0 <= k < |a| :: a[k].raw := b[k].raw;
  }

  /** Two traces over the same fields normalise alike exactly when one is an injective renaming of the other. */
  lemma SameTokensIffRenamed(a: seq<Visit>, b: seq<Visit>)
    requires SameFields(a, b)
    ensures Tokens(NO_MAPPERS, a) == Tokens(NO_MAPPERS, b) <==> exists names :: Renames(names, a, b)
  {
    hide Tokens, Lookup;
    NoMappersKept();
    if names :| Renames(names, a, b) {
      RenamedTokens(names, NO_MAPPERS, NO_MAPPERS, a, b);
    }
    if Tokens(NO_MAPPERS, a) == Tokens(NO_MAPPERS, b) {
      forall i, j | 0 <= i < |a| && 0 <= j < |a|
        ensures a[i].raw == a[j].raw <==> b[i].raw == b[j].raw
        ensures a[i].raw == "" <==> b[i].raw == ""
      {
        TokensTellApart(a, i, j);
        TokensTellApart(b, i, j);
      }
      var names := RenamingFromPattern(a, b);
    }
  }

  /** Swapping two neighbouring visits changes somebody's token exactly when both identifiers are new
      and either differ but share a mapper, or are one identifier that two mappers compete for. */
  lemma OrderMatters(ms: Mappers, a: Visit, b: Visit)
    requires WellKept(ms)
    ensures var ab, ba := Tokens(ms, [a, b]), Tokens(ms, [b, a]);
      (ab[0] == ba[1] && ab[1] == ba[0]) <==>
        (Lookup(ms, a.raw).Some? || Lookup(ms, b.raw).Some? || a.raw == "" || b.raw == "" ||
         ((a.raw == b.raw) <==> (Slot(a.field) == Slot(b.field))))
  {
    hide Token, PREFIXES, Slot, NormalizeId, Lookup, WellKept, Tokens;
    var (ma, ta) := NormalizeId(ms, a.field, a.raw);
    var (mb, tb) := NormalizeId(ms, b.field, b.raw);
    StepKeeps(ms, a.field, a.raw);
    StepKeeps(ms, b.field, b.raw);
    StepKeeps(ma, b.field, b.raw);
    StepKeeps(mb, a.field, a.raw);
    TwoTokens(ms, a, b);
    TwoTokens(ms, b, a);
    var i, j := Slot(a.field), Slot(b.field);
    if a.raw == b.raw {
      if ta == tb && Lookup(ms, a.raw).None? && a.raw != "" { TokenInjective(i, ms[i].next + 1, j, ms[j].next + 1); }
    } else if i == j && Token(PREFIXES[i], ms[i].next + 1) == Token(PREFIXES[i], ms[i].next + 2) {
      TokenInjective(i, ms[i].next + 1, i, ms[i].next + 2);
    }
  }

  lemma TwoTokens(ms: Mappers, a: Visit, b: Visit)
    ensures var (ma, ta) := NormalizeId(ms, a.field, a.raw);
      Tokens(ms, [a, b]) == [ta, NormalizeId(ma, b.field, b.raw).1]
  {
    var (ma, ta) := NormalizeId(ms, a.field, a.raw);
    assert [a, b][1..] == [b];
    assert Tokens(ma, [b]) == [NormalizeId(ma, b.field, b.raw).1] + Tokens(NormalizeId(ma, b.field, b.raw).0, [b][1..]);
  }
}
