/** Normalising whole event snapshots: JSON payloads are walked in a fixed order and every
    identifier met on the way goes through the token tables. */
module IdSnapshot {
  import opened Options
  import opened IdTokens

  datatype Value =
    | Object(fields: Fields)
    | Array(items: Items)
    | Text(text: string)
    | Other(literal: int)

  /** An object's fields in the order the walk meets them. */
  datatype Fields = NoField | Field(key: string, value: Value, others: Fields)

  datatype Items = NoItem | Item(value: Value, others: Items)

  predicate IsIdField(field: string) {
    field == "id" || (|field| >= 3 && field[|field| - 3..] == "_id")
  }

  lemma IdFieldIs(field: string)
    ensures IsIdField(field) <==> field == "id" || exists stem :: field == stem + "_id"
  {
    assert |field| >= 3 ==> field == field[..|field| - 3] + field[|field| - 3..];
    if stem :| field == stem + "_id" {
      assert field[|stem|..] == "_id";
    }
  }

  // ---- The normalising walk ----

  function NormalizeValue(ms: Mappers, field: string, v: Value): (Mappers, Value)
    decreases v
  {
    match v
    case Object(fields) =>
      var (next, normalized) := NormalizeFields(ms, fields);
      (next, Object(normalized))
    case Array(items) =>
      var (next, normalized) := NormalizeItems(ms, field, items);
      (next, Array(normalized))
    case Text(text) =>
      if IsIdField(field) then
        var (next, token) := NormalizeId(ms, field, text);
        (next, Text(token))
      else (ms, v)
    case Other(_) => (ms, v)
  }

  function NormalizeFields(ms: Mappers, fields: Fields): (Mappers, Fields)
    decreases fields
  {
    match fields
    case NoField => (ms, NoField)
    case Field(key, value, others) =>
      var (m1, first) := NormalizeValue(ms, key, value);
      var (m2, more) := NormalizeFields(m1, others);
      (m2, Field(key, first, more))
  }

  /** Array elements are judged by the name of the field that holds the array. */
  function NormalizeItems(ms: Mappers, field: string, items: Items): (Mappers, Items)
    decreases items
  {
    match items
    case NoItem => (ms, NoItem)
    case Item(value, others) =>
      var (m1, first) := NormalizeValue(ms, field, value);
      var (m2, more) := NormalizeItems(m1, field, others);
      (m2, Item(first, more))
  }

  // ---- A value is its identifiers in walking order plus everything else ----

  function Visits(field: string, v: Value): seq<Visit>
    decreases v
  {
    match v
    case Object(fields) => FieldVisits(fields)
    case Array(items) => ItemVisits(field, items)
    case Text(text) => if IsIdField(field) then [Visit(field, text)] else []
    case Other(_) => []
  }

  function FieldVisits(fields: Fields): seq<Visit>
    decreases fields
  {
    match fields
    case NoField => []
    case Field(key, value, others) => Visits(key, value) + FieldVisits(others)
  }

  function ItemVisits(field: string, items: Items): seq<Visit>
    decreases items
  {
    match items
    case NoItem => []
    case Item(value, others) => Visits(field, value) + ItemVisits(field, others)
  }

  /** The value with its identifiers replaced, in walking order. */
  function Refill(field: string, v: Value, ids: seq<string>): Value
    requires |ids| == |Visits(field, v)|
    decreases v
  {
    match v
    case Object(fields) => Object(RefillFields(fields, ids))
    case Array(items) => Array(RefillItems(field, items, ids))
    case Text(text) => if IsIdField(field) then Text(ids[0]) else v
    case Other(_) => v
  }

  function RefillFields(fields: Fields, ids: seq<string>): Fields
    requires |ids| == |FieldVisits(fields)|
    decreases fields
  {
    match fields
    case NoField => NoField
    case Field(key, value, others) =>
      var cut := |Visits(key, value)|;
      Field(key, Refill(key, value, ids[..cut]), RefillFields(others, ids[cut..]))
  }

  function RefillItems(field: string, items: Items, ids: seq<string>): Items
    requires |ids| == |ItemVisits(field, items)|
    decreases items
  {
    match items
    case NoItem => NoItem
    case Item(value, others) =>
      var cut := |Visits(field, value)|;
      Item(Refill(field, value, ids[..cut]), RefillItems(field, others, ids[cut..]))
  }

  lemma {:induction false} AfterSplit(ms: Mappers, a: seq<Visit>, b: seq<Visit>)
    ensures After(ms, a + b) == After(After(ms, a), b)
    ensures Tokens(ms, a + b) == Tokens(ms, a) + Tokens(After(ms, a), b)
    decreases |a|
  {
    if a == [] {
      assert a + b == b;
    } else {
      assert (a + b)[1..] == a[1..] + b;
      AfterSplit(NormalizeId(ms, a[0].field, a[0].raw).0, a[1..], b);
    }
  }

  /** The walk gives every identifier its trace token and touches nothing else. */
  lemma {:induction false} WalkIsTrace(ms: Mappers, field: string, v: Value)
    ensures NormalizeValue(ms, field, v) == (After(ms, Visits(field, v)),
      Refill(field, v, Tokens(ms, Visits(field, v))))
    decreases v
  {
    match v
    case Object(fields) => FieldWalkIsTrace(ms, fields);
    case Array(items) => ItemWalkIsTrace(ms, field, items);
    case Text(text) =>
      if IsIdField(field) {
        var visits := [Visit(field, text)];
        assert visits[1..] == [];
        assert After(NormalizeId(ms, field, text).0, []) == NormalizeId(ms, field, text).0;
      }
    case Other(_) =>
  }

  lemma {:induction false} FieldWalkIsTrace(ms: Mappers, fields: Fields)
    ensures NormalizeFields(ms, fields)
         == (After(ms, FieldVisits(fields)), RefillFields(fields, Tokens(ms, FieldVisits(fields))))
    decreases fields
  {
    match fields
    case NoField =>
    case Field(key, value, others) =>
      WalkIsTrace(ms, key, value);
      var visits := Visits(key, value);
      FieldWalkIsTrace(After(ms, visits), others);
      AfterSplit(ms, visits, FieldVisits(others));
      assert Tokens(ms, FieldVisits(fields))[..|visits|] == Tokens(ms, visits);
      assert Tokens(ms, FieldVisits(fields))[|visits|..] == Tokens(After(ms, visits), FieldVisits(others));
  }

  lemma {:induction false} ItemWalkIsTrace(ms: Mappers, field: string, items: Items)
    ensures NormalizeItems(ms, field, items)
         == (After(ms, ItemVisits(field, items)), RefillItems(field, items, Tokens(ms, ItemVisits(field, items))))
    decreases items
  {
    match items
    case NoItem =>
    case Item(value, others) =>
      WalkIsTrace(ms, field, value);
      var visits := Visits(field, value);
      ItemWalkIsTrace(After(ms, visits), field, others);
      AfterSplit(ms, visits, ItemVisits(field, others));
      assert Tokens(ms, ItemVisits(field, items))[..|visits|] == Tokens(ms, visits);
      assert Tokens(ms, ItemVisits(field, items))[|visits|..] == Tokens(After(ms, visits), ItemVisits(field, others));
  }

  // ---- What becomes of each part of a value ----

  /** The part of a value at the end of a path of positions, and the name it is judged by: an array passes its own on to
      its elements. */
  function At(field: string, v: Value, path: seq<nat>): Option<(string, Value)>
    decreases v
  {
    if path == [] then Some((field, v))
    else match v
         case Object(fields) => AtField(fields, path[0], path[1..])
         case Array(items) => AtItem(field, items, path[0], path[1..])
         case _ => None
  }

  function AtField(fields: Fields, k: nat, path: seq<nat>): Option<(string, Value)>
    decreases fields
  {
    if fields.NoField? then None
    else if k == 0 then At(fields.key, fields.value, path)
    else AtField(fields.others, k - 1, path)
  }

  function AtItem(field: string, items: Items, k: nat, path: seq<nat>): Option<(string, Value)>
    decreases items
  {
    if items.NoItem? then None
    else if k == 0 then At(field, items.value, path)
    else AtItem(field, items.others, k - 1, path)
  }

  /** What normalising makes of a part: an identifier becomes the token the tables end up with for it, an object or
      array stays one, and nothing else changes. */
  ghost predicate BecomesPart(before: Option<(string, Value)>, after: Option<(string, Value)>, final: Mappers) {
    if before.None? then after.None?
    else
      && after.Some? && after.value.0 == before.value.0
      && match before.value.1
         case Object(_) => after.value.1.Object?
         case Array(_) => after.value.1.Array?
         case Text(text) =>
           if text != "" && (before.value.0 == "id" || exists stem :: before.value.0 == stem + "_id")
           then Lookup(final, text).Some? && after.value.1 == Text(Lookup(final, text).value)
           else after.value.1 == Text(text)
         case Other(_) => after.value.1 == before.value.1
  }

  /** Later tables answer as these do. */
  ghost predicate Extends(final: Mappers, ms: Mappers) {
    forall raw :: Lookup(ms, raw).Some? ==> Lookup(final, raw) == Lookup(ms, raw)
  }

  lemma WalkKept(ms: Mappers, visits: seq<Visit>)
    requires WellKept(ms)
    ensures WellKept(After(ms, visits)) && Extends(After(ms, visits), ms)
  {
    hide WellKept;
    TokensAreFinal(ms, visits);
  }

  lemma {:induction false} PartsWalked(ms: Mappers, field: string, v: Value, path: seq<nat>, final: Mappers)
    requires WellKept(ms) && Extends(final, NormalizeValue(ms, field, v).0)
    ensures BecomesPart(At(field, v, path), At(field, NormalizeValue(ms, field, v).1, path), final)
    decreases v
  {
    hide WellKept, Lookup, NormalizeId;
    match v
    case Object(fields) => if path != [] { FieldsWalked(ms, fields, path[0], path[1..], final); }
    case Array(items) => if path != [] { ItemsWalked(ms, field, items, path[0], path[1..], final); }
    case Text(text) =>
      IdFieldIs(field);
      StepKeeps(ms, field, text);
    case Other(_) =>
  }

  lemma {:induction false} FieldsWalked(ms: Mappers, fields: Fields, k: nat, path: seq<nat>, final: Mappers)
    requires WellKept(ms) && Extends(final, NormalizeFields(ms, fields).0)
    ensures BecomesPart(AtField(fields, k, path), AtField(NormalizeFields(ms, fields).1, k, path), final)
    decreases fields
  {
    hide WellKept, Lookup, NormalizeId, BecomesPart;
    if fields.Field? {
      var m1 := NormalizeValue(ms, fields.key, fields.value).0;
      WalkIsTrace(ms, fields.key, fields.value);
      WalkKept(ms, Visits(fields.key, fields.value));
      FieldWalkIsTrace(m1, fields.others);
      WalkKept(m1, FieldVisits(fields.others));
      if k == 0 {
        PartsWalked(ms, fields.key, fields.value, path, final);
      } else {
        FieldsWalked(m1, fields.others, k - 1, path, final);
      }
    } else {
      NothingThere(final);
    }
  }

  lemma {:induction false} ItemsWalked(ms: Mappers, field: string, items: Items, k: nat, path: seq<nat>, final: Mappers)
    requires WellKept(ms) && Extends(final, NormalizeItems(ms, field, items).0)
    ensures BecomesPart(AtItem(field, items, k, path), AtItem(field, NormalizeItems(ms, field, items).1, k, path),
                        final)
    decreases items
  {
    hide WellKept, Lookup, NormalizeId, BecomesPart;
    if items.Item? {
      var m1 := NormalizeValue(ms, field, items.value).0;
      WalkIsTrace(ms, field, items.value);
      WalkKept(ms, Visits(field, items.value));
      ItemWalkIsTrace(m1, field, items.others);
      WalkKept(m1, ItemVisits(field, items.others));
      if k == 0 {
        PartsWalked(ms, field, items.value, path, final);
      } else {
        ItemsWalked(m1, field, items.others, k - 1, path, final);
      }
    } else {
      NothingThere(final);
    }
  }

  lemma NothingThere(final: Mappers)
    ensures BecomesPart(None, None, final)
  {
  }

  // ---- Refilling twice, with the value's own identifiers, and reading the identifiers back ----

  function Raws(visits: seq<Visit>): seq<string> {
    seq(|visits|, k requires 0 <= k < |visits| => visits[k].raw)
  }

  /** The same places, holding other identifiers. */
  function Revisit(visits: seq<Visit>, ids: seq<string>): seq<Visit>
    requires |ids| == |visits|
  {
    seq(|visits|, k requires 0 <= k < |visits| => Visit(visits[k].field, ids[k]))
  }

  lemma {:induction false} RefillLaws(field: string, v: Value, ids: seq<string>, others: seq<string>)
    requires |ids| == |others| == |Visits(field, v)|
    ensures Visits(field, Refill(field, v, ids)) == Revisit(Visits(field, v), ids)
    ensures Refill(field, Refill(field, v, ids), others) == Refill(field, v, others)
    ensures Refill(field, v, Raws(Visits(field, v))) == v
    decreases v
  {
    match v
    case Object(fields) => RefillFieldsLaws(fields, ids, others);
    case Array(items) => RefillItemsLaws(field, items, ids, others);
    case Text(text) =>
    case Other(_) =>
  }

  lemma {:induction false} RefillFieldsLaws(fields: Fields, ids: seq<string>, others: seq<string>)
    requires |ids| == |others| == |FieldVisits(fields)|
    ensures FieldVisits(RefillFields(fields, ids)) == Revisit(FieldVisits(fields), ids)
    ensures RefillFields(RefillFields(fields, ids), others) == RefillFields(fields, others)
    ensures RefillFields(fields, Raws(FieldVisits(fields))) == fields
    decreases fields
  {
    if fields.Field? {
      var here, there := Visits(fields.key, fields.value), FieldVisits(fields.others);
      var cut := |here|;
      RefillLaws(fields.key, fields.value, ids[..cut], others[..cut]);
      RefillFieldsLaws(fields.others, ids[cut..], others[cut..]);
      assert Revisit(here + there, ids) == Revisit(here, ids[..cut]) + Revisit(there, ids[cut..]);
      assert Raws(here + there)[..cut] == Raws(here) && Raws(here + there)[cut..] == Raws(there);
    }
  }

  lemma {:induction false} RefillItemsLaws(field: string, items: Items, ids: seq<string>, others: seq<string>)
    requires |ids| == |others| == |ItemVisits(field, items)|
    ensures ItemVisits(field, RefillItems(field, items, ids)) == Revisit(ItemVisits(field, items), ids)
    ensures RefillItems(field, RefillItems(field, items, ids), others) == RefillItems(field, items, others)
    ensures RefillItems(field, items, Raws(ItemVisits(field, items))) == items
    decreases items
  {
    if items.Item? {
      var here, there := Visits(field, items.value), ItemVisits(field, items.others);
      var cut := |here|;
      RefillLaws(field, items.value, ids[..cut], others[..cut]);
      RefillItemsLaws(field, items.others, ids[cut..], others[cut..]);
      assert Revisit(here + there, ids) == Revisit(here, ids[..cut]) + Revisit(there, ids[cut..]);
      assert Raws(here + there)[..cut] == Raws(here) && Raws(here + there)[cut..] == Raws(there);
    }
  }

  // ---- What a golden comparison decides ----

  /** One value is the other with its identifiers injectively renamed and nothing else changed. */
  ghost predicate RenamedValue(field: string, names: map<string, string>, a: Value, b: Value) {
    && |Visits(field, b)| == |Visits(field, a)|
    && b == Refill(field, a, Raws(Visits(field, b)))
    && Renames(names, Visits(field, a), Visits(field, b))
  }

  /** Two values normalise to the same snapshot exactly when one is an injective renaming of the other. */
  lemma SameSnapshotIffRenamed(field: string, a: Value, b: Value)
    ensures NormalizeValue(NO_MAPPERS, field, a).1 == NormalizeValue(NO_MAPPERS, field, b).1
       <==> exists names :: RenamedValue(field, names, a, b)
  {
    var va, vb := Visits(field, a), Visits(field, b);
    var ta, tb := Tokens(NO_MAPPERS, va), Tokens(NO_MAPPERS, vb);
    WalkIsTrace(NO_MAPPERS, field, a);
    WalkIsTrace(NO_MAPPERS, field, b);
    if names :| RenamedValue(field, names, a, b) {
      RefillLaws(field, a, Raws(vb), ta);
      assert vb == Revisit(va, Raws(vb));
      SameTokensIffRenamed(va, vb);
    }
    if Refill(field, a, ta) == Refill(field, b, tb) {
      RefillLaws(field, a, ta, ta);
      RefillLaws(field, b, tb, Raws(vb));
      assert Revisit(va, ta) == Revisit(vb, tb);
      assert |va| == |Revisit(va, ta)| == |vb|;
      forall k | 0 <= k < |va|
        ensures va[k].field == vb[k].field && ta[k] == tb[k]
      {
        assert Revisit(va, ta)[k] == Revisit(vb, tb)[k];
      }
      assert ta == tb;
      SameTokensIffRenamed(va, vb);
      RefillLaws(field, a, ta, Raws(vb));
      var names :| Renames(names, va, vb);
      assert RenamedValue(field, names, a, b);
    }
  }

  // ---- Events ----

  datatype Event = Event(sequence: int, kind: string, schemaVersion: int, runId: string, idempotencyKey: string,
                         causationId: string, correlationId: string, payload: Value)

  function NormalizeEvent(ms: Mappers, e: Event): (Mappers, Event) {
    var (m1, run) := NormalizeId(ms, "run_id", e.runId);
    var (m2, payload) := NormalizeValue(m1, "payload", e.payload);
    var (m3, causation) := NormalizeId(m2, "causation_id", e.causationId);
    var (m4, correlation) := NormalizeId(m3, "correlation_id", e.correlationId);
    (m4, e.(runId := run, payload := payload, causationId := causation, correlationId := correlation))
  }

  /** An event's identifiers are met in this order: the run's, the payload's, the cause's, the correlation's. */
  lemma EventTrace(ms: Mappers, e: Event)
    ensures var payload := Visits("payload", e.payload);
      var trace := [Visit("run_id", e.runId)] + payload +
        [Visit("causation_id", e.causationId), Visit("correlation_id", e.correlationId)];
      var tokens, n := Tokens(ms, trace), |payload|;
      NormalizeEvent(ms, e) == (After(ms, trace),
        Event(e.sequence, e.kind, e.schemaVersion, tokens[0], e.idempotencyKey, tokens[n + 1], tokens[n + 2],
              Refill("payload", e.payload, tokens[1..n + 1])))
  {
    hide NormalizeId, Refill;
    var run, payload := [Visit("run_id", e.runId)], Visits("payload", e.payload);
    var causes, correlates := [Visit("causation_id", e.causationId)], [Visit("correlation_id", e.correlationId)];
    assert run + payload + [causes[0], correlates[0]] == run + payload + causes + correlates;
    AfterSplit(ms, run + payload + causes, correlates);
    AfterSplit(ms, run + payload, causes);
    AfterSplit(ms, run, payload);
    SingleVisit(ms, run[0]);
    WalkIsTrace(After(ms, run), "payload", e.payload);
    SingleVisit(After(ms, run + payload), causes[0]);
    SingleVisit(After(ms, run + payload + causes), correlates[0]);
    var tokens, n := Tokens(ms, run + payload + causes + correlates), |payload|;
    assert tokens[1..n + 1] == Tokens(After(ms, run), payload);
  }

  lemma SingleVisit(ms: Mappers, v: Visit)
    ensures After(ms, [v]) == NormalizeId(ms, v.field, v.raw).0
    ensures Tokens(ms, [v]) == [NormalizeId(ms, v.field, v.raw).1]
  {
    assert [v][1..] == [];
  }

  function Snapshot(ms: Mappers, events: seq<Event>): (Mappers, seq<Event>)
    decreases |events|
  {
    if events == [] then (ms, [])
    else
      var (next, first) := NormalizeEvent(ms, events[0]);
      var (last, more) := Snapshot(next, events[1..]);
      (last, [first] + more)
  }

  /** Events are normalised in order, each by the tables the earlier ones left. */
  lemma {:induction false} SnapshotInOrder(ms: Mappers, events: seq<Event>, k: nat)
    requires k < |events|
    ensures |Snapshot(ms, events).1| == |events|
    ensures Snapshot(ms, events).1[k] == NormalizeEvent(Snapshot(ms, events[..k]).0, events[k]).1
    decreases |events|
  {
    hide NormalizeEvent;
    var next := NormalizeEvent(ms, events[0]).0;
    if k > 0 {
      SnapshotInOrder(next, events[1..], k - 1);
      assert events[..k][1..] == events[1..][..k - 1];
    } else if |events| > 1 {
      SnapshotInOrder(next, events[1..], 0);
    }
  }

  /** An event as the JSON object the walk would meet, its identifier fields in the order the loader takes them. */
  function AsValue(e: Event): Value {
    Object(Field("sequence", Other(e.sequence),
           Field("kind", Text(e.kind), Field("schema_version", Other(e.schemaVersion),
      Field("run_id", Text(e.runId), Field("idempotency_key", Text(e.idempotencyKey), Field("payload", e.payload,
      Field("causation_id", Text(e.causationId), Field("correlation_id", Text(e.correlationId), NoField)))))))))
  }

  function AsItems(events: seq<Event>): Items {
    if events == [] then NoItem else Item(AsValue(events[0]), AsItems(events[1..]))
  }

  lemma FieldNames()
    ensures !IsIdField("kind") && !IsIdField("idempotency_key")
    ensures IsIdField("run_id") && IsIdField("causation_id") && IsIdField("correlation_id")
  {
    assert "run_id"[3..] == "_id" && "causation_id"[9..] == "_id" && "correlation_id"[11..] == "_id";
    assert "idempotency_key"[12..] == "key";
    assert "kind"[1] == 'i';
  }

  lemma {:induction false} EventIsWalked(ms: Mappers, e: Event)
    ensures var (next, normalized) := NormalizeEvent(ms, e);
      NormalizeValue(ms, "event", AsValue(e)) == (next, AsValue(normalized))
  {
    FieldNames();
    var (m1, run) := NormalizeId(ms, "run_id", e.runId);
    var (m2, payload) := NormalizeValue(m1, "payload", e.payload);
    var (m3, causation) := NormalizeId(m2, "causation_id", e.causationId);
    var (m4, correlation) := NormalizeId(m3, "correlation_id", e.correlationId);
    var f8, g8 := Field("correlation_id", Text(e.correlationId), NoField),
      Field("correlation_id", Text(correlation), NoField);
    var f7, g7 := Field("causation_id", Text(e.causationId), f8), Field("causation_id", Text(causation), g8);
    var f6, g6 := Field("payload", e.payload, f7), Field("payload", payload, g7);
    var f5, g5 := Field("idempotency_key", Text(e.idempotencyKey), f6),
      Field("idempotency_key", Text(e.idempotencyKey), g6);
    var f4, g4 := Field("run_id", Text(e.runId), f5), Field("run_id", Text(run), g5);
    assert NormalizeFields(m3, f8) == (m4, g8);
    assert NormalizeFields(m2, f7) == (m4, g7);
    assert NormalizeFields(m1, f6) == (m4, g6);
    assert NormalizeFields(m1, f5) == (m4, g5);
    assert NormalizeFields(ms, f4) == (m4, g4);
    var f3, g3 := Field("schema_version", Other(e.schemaVersion), f4),
      Field("schema_version", Other(e.schemaVersion), g4);
    var f2, g2 := Field("kind", Text(e.kind), f3), Field("kind", Text(e.kind), g3);
    assert NormalizeFields(ms, f3) == (m4, g3);
    assert NormalizeFields(ms, f2) == (m4, g2);
    var f1, g1 := Field("sequence", Other(e.sequence), f2), Field("sequence", Other(e.sequence), g2);
    assert NormalizeFields(ms, f1) == (m4, g1);
    assert AsValue(e) == Object(f1) && AsValue(NormalizeEvent(ms, e).1) == Object(g1);
  }

  lemma {:induction false} SnapshotIsWalked(ms: Mappers, events: seq<Event>)
    ensures var (last, snapshot) := Snapshot(ms, events);
      NormalizeItems(ms, "event", AsItems(events)) == (last, AsItems(snapshot))
    decreases |events|
  {
    if events != [] {
      var (next, first) := NormalizeEvent(ms, events[0]);
      EventIsWalked(ms, events[0]);
      SnapshotIsWalked(next, events[1..]);
      var (last, more) := Snapshot(next, events[1..]);
      assert ([first] + more)[1..] == more;
    }
  }

  lemma {:induction false} AsItemsInjective(a: seq<Event>, b: seq<Event>)
    requires AsItems(a) == AsItems(b)
    ensures a == b
  {
    if a != [] && b != [] {
      AsItemsInjective(a[1..], b[1..]);
      assert a == [a[0]] + a[1..] && b == [b[0]] + b[1..];
    }
  }

  /** Two event logs give the same golden snapshot exactly when one is the other with identifiers injectively
      renamed. */
  lemma GoldenEqualIffRenamed(a: seq<Event>, b: seq<Event>)
    ensures Snapshot(NO_MAPPERS, a).1 == Snapshot(NO_MAPPERS, b).1
       <==> exists names :: RenamedValue("event", names, Array(AsItems(a)), Array(AsItems(b)))
  {
    SnapshotIsWalked(NO_MAPPERS, a);
    SnapshotIsWalked(NO_MAPPERS, b);
    SameSnapshotIffRenamed("event", Array(AsItems(a)), Array(AsItems(b)));
    if AsItems(Snapshot(NO_MAPPERS, a).1) == AsItems(Snapshot(NO_MAPPERS, b).1) {
      AsItemsInjective(Snapshot(NO_MAPPERS, a).1, Snapshot(NO_MAPPERS, b).1);
    }
  }

  // ---- The objects that keep the tables ----

  class TokenMapper {
    const prefix: string
    var next: nat
    var seen: map<string, string>

    constructor (prefix: string)
      ensures this.prefix == prefix && State() == Mapper(0, map[])
    {
      this.prefix := prefix;
      next := 0;
      seen := map[];
    }

    function State(): Mapper
      reads this
    {
      Mapper(next, seen)
    }

    method Normalize(raw: string) returns (token: string)
      modifies this
      ensures (State(), token) == IdTokens.Normalize(prefix, old(State()), raw)
    {
      if raw == "" {
        return "";
      }
      if raw in seen {
        return seen[raw];
      }
      next := next + 1;
      token := Token(prefix, next);
      seen := seen[raw := token];
    }
  }

  class SnapshotNormalizers {
    const runs: TokenMapper
    const jobs: TokenMapper
    const findings: TokenMapper
    const artifacts: TokenMapper
    const generic: TokenMapper

    ghost function Parts(): set<TokenMapper> {
      {runs, jobs, findings, artifacts, generic}
    }

    ghost predicate Valid() {
      && runs != jobs && runs != findings && runs != artifacts && runs != generic
      && jobs != findings && jobs != artifacts && jobs != generic
      && findings != artifacts && findings != generic && artifacts != generic
      && runs.prefix == PREFIXES[0] && jobs.prefix == PREFIXES[1] && findings.prefix == PREFIXES[2]
      && artifacts.prefix == PREFIXES[3] && generic.prefix == PREFIXES[4]
    }

    function State(): Mappers
      reads runs, jobs, findings, artifacts, generic
    {
      [runs.State(), jobs.State(), findings.State(), artifacts.State(), generic.State()]
    }

    constructor ()
      ensures Valid() && fresh(Parts()) && State() == NO_MAPPERS
    {
      runs := new TokenMapper("run");
      jobs := new TokenMapper("job");
      findings := new TokenMapper("finding");
      artifacts := new TokenMapper("artifact");
      generic := new TokenMapper("id");
    }

    method Lookup(raw: string) returns (found: Option<string>)
      ensures found == IdTokens.Lookup(State(), raw)
    {
      var mappers := [runs, jobs, findings, artifacts, generic];
      var k := 0;
      assert State()[0..] == State();
      while k < |mappers|
        invariant 0 <= k <= |mappers|
        invariant IdTokens.Lookup(State()[k..], raw) == IdTokens.Lookup(State(), raw)
      {
        assert State()[k] == mappers[k].State();
        assert State()[k..][1..] == State()[k + 1..];
        if raw in mappers[k].seen {
          return Some(mappers[k].seen[raw]);
        }
        k := k + 1;
      }
      return None;
    }

    method NormalizeId(field: string, raw: string) returns (token: string)
      requires Valid()
      modifies Parts()
      ensures (State(), token) == IdTokens.NormalizeId(old(State()), field, raw)
    {
      if raw == "" {
        return "";
      }
      var found := Lookup(raw);
      if found.Some? {
        return found.value;
      }
      if field == "run_id" {
        token := runs.Normalize(raw);
      } else if field == "job_id" || field == "resolved_by_job_id" {
        token := jobs.Normalize(raw);
      } else if field == "finding_id" {
        token := findings.Normalize(raw);
      } else if field == "artifact_id" {
        token := artifacts.Normalize(raw);
      } else {
        token := generic.Normalize(raw);
      }
      ghost var slot := Slot(field);
      assert State() == old(State())[slot := State()[slot]];
    }

    method WalkValue(field: string, v: Value) returns (normalized: Value)
      requires Valid()
      modifies Parts()
      ensures (State(), normalized) == NormalizeValue(old(State()), field, v)
      decreases v
    {
      match v {
        case Object(fields) =>
          var result := WalkFields(fields);
          normalized := Object(result);
        case Array(items) =>
          var result := WalkItems(field, items);
          normalized := Array(result);
        case Text(text) =>
          if IsIdField(field) {
            var token := NormalizeId(field, text);
            normalized := Text(token);
          } else {
            normalized := v;
          }
        case Other(_) =>
          normalized := v;
      }
    }

    method WalkFields(fields: Fields) returns (normalized: Fields)
      requires Valid()
      modifies Parts()
      ensures (State(), normalized) == NormalizeFields(old(State()), fields)
      decreases fields
    {
      match fields {
        case NoField =>
          normalized := NoField;
        case Field(key, value, others) =>
          var first := WalkValue(key, value);
          var more := WalkFields(others);
          normalized := Field(key, first, more);
      }
    }

    method WalkItems(field: string, items: Items) returns (normalized: Items)
      requires Valid()
      modifies Parts()
      ensures (State(), normalized) == NormalizeItems(old(State()), field, items)
      decreases items
    {
      match items {
        case NoItem =>
          normalized := NoItem;
        case Item(value, others) =>
          var first := WalkValue(field, value);
          var more := WalkItems(field, others);
          normalized := Item(first, more);
      }
    }
  }

  method LoadEventSnapshot(events: seq<Event>) returns (snapshots: seq<Event>)
    ensures snapshots == Snapshot(NO_MAPPERS, events).1
  {
    var normalizers := new SnapshotNormalizers();
    snapshots := [];
    var k := 0;
    assert events[0..] == events;
    while k < |events|
      invariant 0 <= k <= |events|
      invariant normalizers.Valid() && fresh(normalizers.Parts())
      invariant snapshots + Snapshot(normalizers.State(), events[k..]).1 == Snapshot(NO_MAPPERS, events).1
    {
      var event := events[k];
      assert events[k..][1..] == events[k + 1..];
      ghost var before := normalizers.State();
      var run := normalizers.NormalizeId("run_id", event.runId);
      var payload := normalizers.WalkValue("payload", event.payload);
      var causation := normalizers.NormalizeId("causation_id", event.causationId);
      var correlation := normalizers.NormalizeId("correlation_id", event.correlationId);
      var snapshot := event.(runId := run, payload := payload, causationId := causation, correlationId := correlation);
      assert (normalizers.State(), snapshot) == NormalizeEvent(before, event);
      assert snapshots + ([snapshot] + Snapshot(normalizers.State(), events[k + 1..]).1)
          == snapshots + [snapshot] + Snapshot(normalizers.State(), events[k + 1..]).1;
      snapshots := snapshots + [snapshot];
      k := k + 1;
    }
    assert events[k..] == [];
  }
}
