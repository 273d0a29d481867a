/** What a token says about its identifier: where, and after how many others of its kind, a trace first shows it. From
    that, exactly when the order of a walk can be seen in a snapshot. */
module IdOrder {
  import opened Options
  import opened IdTokens
  import IdSnapshot

  ghost predicate Seen(trace: seq<Visit>, raw: string) {
    exists k :: 0 <= k < |trace| && trace[k].raw == raw
  }

  /** The identifiers first shown in a field of this mapper's kind, in the order they are first shown. */
  ghost function Ranks(trace: seq<Visit>, slot: int): seq<string> {
    if trace == [] then []
    else
      Ranks(trace[..|trace| - 1], slot) + First(trace[..|trace| - 1], trace[|trace| - 1], slot)
  }

  /** What one more visit adds to them. */
  ghost function First(trace: seq<Visit>, v: Visit, slot: int): seq<string> {
    if v.raw != "" && !Seen(trace, v.raw) && Slot(v.field) == slot then [v.raw] else []
  }

  lemma SeenMore(trace: seq<Visit>, v: Visit, raw: string)
    ensures Seen(trace + [v], raw) <==> Seen(trace, raw) || v.raw == raw
  {
    var more := trace + [v];
    if Seen(trace, raw) {
      var k :| 0 <= k < |trace| && trace[k].raw == raw;
      assert more[k].raw == raw;
    }
    assert more[|trace|] == v;
  }

  lemma RanksMore(trace: seq<Visit>, v: Visit, slot: int)
    ensures Ranks(trace + [v], slot) == Ranks(trace, slot) + First(trace, v, slot)
  {
    assert (trace + [v])[..|trace|] == trace;
  }

  /** An identifier is ranked exactly when it has been shown, in one place. */
  ghost predicate Ranked(trace: seq<Visit>, raw: string, slot: int) {
    0 <= slot < |PREFIXES| && raw in Ranks(trace, slot)
  }

  lemma {:induction false} SeenIsRanked(trace: seq<Visit>, raw: string)
    ensures raw != "" && Seen(trace, raw) <==> exists slot :: Ranked(trace, raw, slot)
  {
    hide Slot;
    if trace != [] {
      var front, last := trace[..|trace| - 1], trace[|trace| - 1];
      SeenIsRanked(front, raw);
      SeenMore(front, last, raw);
      assert front + [last] == trace;
      forall slot
        ensures Ranked(trace, raw, slot) <==> (
          Ranked(front, raw, slot) || (last.raw == raw && raw != "" && !Seen(front, raw) && Slot(last.field) == slot))
      {
        RanksMore(front, last, slot);
      }
      if last.raw == raw && raw != "" && !Seen(front, raw) {
        assert Ranked(trace, raw, Slot(last.field));
      }
    }
  }

  /** A mapper that has numbered these identifiers in this order. */
  ghost predicate Numbers(m: Mapper, prefix: string, ranks: seq<string>) {
    && m.next == |ranks|
    && (forall raw :: raw in m.seen <==> raw in ranks)
    && (forall k :: 0 <= k < |ranks| ==> ranks[k] in m.seen && m.seen[ranks[k]] == Token(prefix, k + 1))
  }

  ghost predicate Filled(ms: Mappers, trace: seq<Visit>) {
    forall i :: 0 <= i < |PREFIXES| ==> Numbers(ms[i], PREFIXES[i], Ranks(trace, i))
  }

  lemma NumbersMore(m: Mapper, prefix: string, ranks: seq<string>, raw: string)
    requires Numbers(m, prefix, ranks) && raw !in ranks
    ensures Numbers(Mapper(m.next + 1, m.seen[raw := Token(prefix, m.next + 1)]), prefix, ranks + [raw])
  {
    hide Token;
  }

  /** The tables after a trace: each identifier's token is its mapper's prefix and its rank. */
  lemma {:induction false} ClosedForm(trace: seq<Visit>)
    ensures Filled(After(NO_MAPPERS, trace), trace)
  {
    hide Slot, NormalizeId, Numbers, Token, PREFIXES, Lookup;
    if trace == [] {
      NothingNumbered();
    } else {
      var front, last := trace[..|trace| - 1], trace[|trace| - 1];
      ClosedForm(front);
      IdSnapshot.AfterSplit(NO_MAPPERS, front, [last]);
      assert front + [last] == trace;
      FilledStep(After(NO_MAPPERS, front), front, last);
      OneVisit(After(NO_MAPPERS, front), last);
    }
  }

  lemma NothingNumbered()
    ensures Filled(After(NO_MAPPERS, []), [])
  {
  }

  lemma OneVisit(ms: Mappers, v: Visit)
    ensures After(ms, [v]) == NormalizeId(ms, v.field, v.raw).0
  {
    assert [v][1..] == [];
  }

  lemma LookupIsRanked(ms: Mappers, trace: seq<Visit>, raw: string)
    requires Filled(ms, trace)
    ensures Lookup(ms, raw).Some? <==> exists slot :: Ranked(trace, raw, slot)
  {
    hide PREFIXES, Token;
    LookupFinds(ms, raw);
    forall slot
      ensures Ranked(trace, raw, slot) <==> Holds(ms, slot, raw)
    {
      if 0 <= slot < |PREFIXES| {
        assert Numbers(ms[slot], PREFIXES[slot], Ranks(trace, slot));
      }
    }
  }

  lemma FilledStep(ms: Mappers, trace: seq<Visit>, v: Visit)
    requires Filled(ms, trace)
    ensures Filled(NormalizeId(ms, v.field, v.raw).0, trace + [v])
  {
    hide Slot, Numbers, Token, PREFIXES, Lookup, Seen;
    var next := NormalizeId(ms, v.field, v.raw).0;
    SeenIsRanked(trace, v.raw);
    LookupIsRanked(ms, trace, v.raw);
    forall i | 0 <= i < |PREFIXES|
      ensures Numbers(next[i], PREFIXES[i], Ranks(trace + [v], i))
    {
      assert Numbers(ms[i], PREFIXES[i], Ranks(trace, i));
      RanksMore(trace, v, i);
      assert Ranks(trace, i) + [] == Ranks(trace, i);
      if v.raw != "" && !Seen(trace, v.raw) && Slot(v.field) == i {
        assert !Ranked(trace, v.raw, i);
        NewNumber(ms, v.field, v.raw);
        NumbersMore(ms[i], PREFIXES[i], Ranks(trace, i), v.raw);
      }
    }
  }

  lemma NewNumber(ms: Mappers, field: string, raw: string)
    requires raw != "" && Lookup(ms, raw).None?
    ensures var i := Slot(field);
      NormalizeId(ms, field, raw).0[i] == Mapper(ms[i].next + 1, ms[i].seen[raw := Token(PREFIXES[i], ms[i].next + 1)])
  {
    LookupFinds(ms, raw);
    assert !Holds(ms, Slot(field), raw);
  }

  // ---- When the order of a walk shows ----

  /** The token a whole trace gives an identifier. */
  function TokenIn(trace: seq<Visit>, raw: string): Option<string> {
    Lookup(After(NO_MAPPERS, trace), raw)
  }

  /** It is the prefix of the identifier's kind and its rank in that kind. */
  lemma TokenIsRank(trace: seq<Visit>, slot: nat, k: nat)
    requires slot < |PREFIXES| && k < |Ranks(trace, slot)|
    ensures TokenIn(trace, Ranks(trace, slot)[k]) == Some(Token(PREFIXES[slot], k + 1))
  {
    hide PREFIXES, Token, Ranks;
    ClosedForm(trace);
    NoMappersKept();
    TokensAreFinal(NO_MAPPERS, trace);
    var ms := After(NO_MAPPERS, trace);
    assert Numbers(ms[slot], PREFIXES[slot], Ranks(trace, slot));
    LookupIs(ms, slot, Ranks(trace, slot)[k]);
  }

  /** Each position of the trace shows the token of its identifier. */
  lemma TokenShown(trace: seq<Visit>, k: nat)
    requires k < |trace| && trace[k].raw != ""
    ensures TokenIn(trace, trace[k].raw) == Some(Tokens(NO_MAPPERS, trace)[k])
  {
    NoMappersKept();
    TokensAreFinal(NO_MAPPERS, trace);
  }

  lemma RankedToken(trace: seq<Visit>, raw: string)
    ensures TokenIn(trace, raw).Some? <==> exists slot :: Ranked(trace, raw, slot)
  {
    ClosedForm(trace);
    LookupIsRanked(After(NO_MAPPERS, trace), trace, raw);
  }

  ghost predicate SameTokens(a: seq<Visit>, b: seq<Visit>) {
    forall raw :: TokenIn(a, raw) == TokenIn(b, raw)
  }

  ghost predicate SameRanks(a: seq<Visit>, b: seq<Visit>) {
    forall slot :: 0 <= slot < |PREFIXES| ==> Ranks(a, slot) == Ranks(b, slot)
  }

  lemma RankKept(a: seq<Visit>, b: seq<Visit>, slot: nat, k: nat)
    requires slot < |PREFIXES| && k < |Ranks(a, slot)| && SameTokens(a, b)
    ensures k < |Ranks(b, slot)| && Ranks(b, slot)[k] == Ranks(a, slot)[k]
  {
    hide PREFIXES, Token, Ranks, TokenIn;
    var raw := Ranks(a, slot)[k];
    TokenIsRank(a, slot, k);
    RankedToken(b, raw);
    var other :| Ranked(b, raw, other);
    var n :| 0 <= n < |Ranks(b, other)| && Ranks(b, other)[n] == raw;
    TokenIsRank(b, other, n);
    TokenInjective(slot, k + 1, other, n + 1);
  }

  /** With the same tokens, one trace's ranks begin the other's. */
  lemma RanksBegin(a: seq<Visit>, b: seq<Visit>, slot: nat)
    requires slot < |PREFIXES| && SameTokens(a, b)
    ensures Ranks(a, slot) <= Ranks(b, slot)
  {
    hide Ranks, SameTokens;
    var ra, rb := Ranks(a, slot), Ranks(b, slot);
    forall k | 0 <= k < |ra|
      ensures k < |rb| && rb[k] == ra[k]
    {
      RankKept(a, b, slot, k);
    }
    if |ra| > 0 { RankKept(a, b, slot, |ra| - 1); }
  }

  lemma SameRanksSameToken(a: seq<Visit>, b: seq<Visit>, raw: string)
    requires SameRanks(a, b)
    ensures TokenIn(a, raw) == TokenIn(b, raw)
  {
    hide Ranks, TokenIn, Token;
    RankedToken(a, raw);
    RankedToken(b, raw);
    assert forall slot :: Ranked(a, raw, slot) <==> Ranked(b, raw, slot);
    if TokenIn(a, raw).Some? {
      var slot :| Ranked(a, raw, slot);
      var k :| 0 <= k < |Ranks(a, slot)| && Ranks(a, slot)[k] == raw;
      TokenIsRank(a, slot, k);
      TokenIsRank(b, slot, k);
    }
  }

  /** Two traces give every identifier the same token exactly when, kind by kind, they first show the same identifiers
      in the same order. */
  lemma SameTokensIffSameRanks(a: seq<Visit>, b: seq<Visit>)
    ensures SameTokens(a, b) <==> SameRanks(a, b)
  {
    hide Ranks, TokenIn;
    if SameTokens(a, b) {
      forall slot | 0 <= slot < |PREFIXES|
        ensures Ranks(a, slot) == Ranks(b, slot)
      {
        RanksBegin(a, b, slot);
        RanksBegin(b, a, slot);
      }
    }
    if SameRanks(a, b) {
      forall raw
        ensures TokenIn(a, raw) == TokenIn(b, raw)
      {
        SameRanksSameToken(a, b, raw);
      }
    }
  }

  /** Each visit shows the same token in both traces. */
  ghost predicate ShowTheSame(a: seq<Visit>, b: seq<Visit>) {
    forall i, j :: 0 <= i < |a| && 0 <= j < |b| && a[i] == b[j] ==>
      Tokens(NO_MAPPERS, a)[i] == Tokens(NO_MAPPERS, b)[j]
  }

  lemma ShownIsToken(a: seq<Visit>, b: seq<Visit>, raw: string)
    requires multiset(a) == multiset(b) && ShowTheSame(a, b) && TokenIn(a, raw).Some?
    ensures TokenIn(a, raw) == TokenIn(b, raw)
  {
    hide Tokens, TokenIn, Ranks;
    RankedToken(a, raw);
    SeenIsRanked(a, raw);
    var i :| 0 <= i < |a| && a[i].raw == raw;
    assert a[i] in multiset(b);
    var j :| 0 <= j < |b| && b[j] == a[i];
    TokenShown(a, i);
    TokenShown(b, j);
  }

  /** Walking the same identifiers in another order, however far apart the two orders are, leaves every field's token
      alone exactly when, kind by kind, the identifiers are first met in the same order. */
  lemma OrderShowsIff(a: seq<Visit>, b: seq<Visit>)
    requires multiset(a) == multiset(b)
    ensures ShowTheSame(a, b) <==> SameRanks(a, b)
  {
    hide Tokens, TokenIn, Ranks, SameRanks;
    SameTokensIffSameRanks(a, b);
    if ShowTheSame(a, b) {
      forall raw
        ensures TokenIn(a, raw) == TokenIn(b, raw)
      {
        if TokenIn(a, raw).Some? { ShownIsToken(a, b, raw); }
        if TokenIn(b, raw).Some? { ShownIsToken(b, a, raw); }
      }
    }
    if SameTokens(a, b) {
      NoMappersKept();
      TokensAreFinal(NO_MAPPERS, a);
      TokensAreFinal(NO_MAPPERS, b);
      forall i, j | 0 <= i < |a| && 0 <= j < |b| && a[i] == b[j]
        ensures Tokens(NO_MAPPERS, a)[i] == Tokens(NO_MAPPERS, b)[j]
      {
        if a[i].raw != "" {
          TokenShown(a, i);
          TokenShown(b, j);
        }
      }
    }
  }
}
