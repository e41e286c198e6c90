/** Audit events: their integrity hash, the row the writer stores, and replay. */
module AuditLog {
  import opened Results
  import opened Texts
  import opened AuditValues

  type AuditState = map<string, Value>

  datatype Header = Header(
    eventId: string, eventType: string, actorId: string, actorType: string, action: string, targetType: string,
    targetId: string, policyResult: string, correlationId: string, transactionId: Option<string>,
    taskId: Option<string>)

  datatype Payload = Payload(header: Header, version: int, before: AuditState, after: AuditState, reason: string)

  /** SHA-256 of the JSON payload, taken to be free of collisions. */
  datatype Digest = Digest(payload: Payload)

  datatype Event = Event(
    header: Header, version: int, before: AuditState, after: AuditState, reason: string, hash: Option<Digest>)

  // ----- Integrity

  function SanitizeState(r: Redactor, m: AuditState): AuditState {
    Sanitize(r, Object(m)).fields
  }

  function JsonState(r: Redactor, m: AuditState): AuditState {
    Jsonify(Sanitize(r, Object(m))).fields
  }

  function SanitizeOption(r: Redactor, text: Option<string>): Option<string> {
    if text.Some? then Some(r.text(text.value)) else None
  }

  function SanitizeHeader(r: Redactor, h: Header): Header {
    Header(r.text(h.eventId), r.text(h.eventType), r.text(h.actorId), r.text(h.actorType), r.text(h.action),
           r.text(h.targetType), r.text(h.targetId), r.text(h.policyResult), r.text(h.correlationId),
           SanitizeOption(r, h.transactionId), SanitizeOption(r, h.taskId))
  }

  function Sanitized(r: Redactor, e: Event): Event {
    e.(before := SanitizeState(r, e.before), after := SanitizeState(r, e.after), reason := r.text(e.reason))
  }

  function CanonicalPayload(r: Redactor, e: Event): Payload {
    var s := Sanitized(r, e);
    Payload(s.header, s.version, s.before, s.after, s.reason)
  }

  /** The payload as it is hashed: redacted once more, every field name being harmless, and written as JSON. */
  function JsonPayload(r: Redactor, p: Payload): Payload {
    Payload(SanitizeHeader(r, p.header), p.version, JsonState(r, p.before), JsonState(r, p.after), r.text(p.reason))
  }

  function WithIntegrity(r: Redactor, e: Event): Event {
    var s := Sanitized(r, e);
    s.(hash := Some(Digest(JsonPayload(r, CanonicalPayload(r, s)))))
  }

  /** The record the writer leaves in the table, as it is read back. */
  function StoredRow(r: Redactor, e: Event): Event {
    var record := WithIntegrity(r, WithIntegrity(r, e));
    record.(before := JsonState(r, record.before), after := JsonState(r, record.after))
  }

  predicate HashPasses(r: Redactor, e: Event) {
    e.hash.Some? ==> e.hash == WithIntegrity(r, e).hash
  }

  lemma StateFacts(r: Redactor, m: AuditState)
    requires Stable(r)
    ensures SanitizeState(r, SanitizeState(r, m)) == SanitizeState(r, m)
    ensures JsonState(r, SanitizeState(r, m)) == JsonState(r, m)
    ensures JsonState(r, JsonState(r, m)) == SanitizeState(r, JsonState(r, m))
    ensures SanitizeState(r, JsonState(r, m)) == JsonState(r, m) <==> ShowsNoSecret(r, Object(m))
  {
    SanitizeIdempotent(r, Object(m));
    JsonifyAfterJson(r, Sanitize(r, Object(m)));
    JsonKeepsRedaction(r, Object(m));
    var once := Sanitize(r, Object(m));
    assert once == Object(SanitizeState(r, m));
    assert Jsonify(once) == Object(JsonState(r, m));
  }

  /** A field under a harmless name is stored as its redacted JSON value. */
  lemma StoredField(r: Redactor, m: AuditState, k: string)
    requires k in m && !r.sensitive(k)
    ensures k in JsonState(r, m) && JsonState(r, m)[k] == Jsonify(Sanitize(r, m[k]))
  {
  }

  lemma StoredStates(r: Redactor, e: Event)
    requires Stable(r)
    ensures StoredRow(r, e).header == e.header
    ensures StoredRow(r, e).before == JsonState(r, e.before) && StoredRow(r, e).after == JsonState(r, e.after)
  {
    WithIntegrityIdempotent(r, e);
    StateFacts(r, e.before);
    StateFacts(r, e.after);
  }

  /** Hashing an event that was hashed before changes nothing. */
  lemma WithIntegrityIdempotent(r: Redactor, e: Event)
    requires Stable(r)
    ensures WithIntegrity(r, WithIntegrity(r, e)) == WithIntegrity(r, e)
  {
    StateFacts(r, e.before);
    StateFacts(r, e.after);
  }

  /**
   * A row the writer stored passes the hash check of replay exactly when neither state holds an object whose JSON
   * text the redactor would still change: such text is hashed before it is redacted and checked after.
   */
  lemma StoredRowPasses(r: Redactor, e: Event)
    requires Stable(r)
    ensures HashPasses(r, StoredRow(r, e)) <==> ShowsNoSecret(r, Object(e.before)) && ShowsNoSecret(r, Object(e.after))
  {
    WithIntegrityIdempotent(r, e);
    StateFacts(r, e.before);
    StateFacts(r, e.after);
    StateFacts(r, JsonState(r, e.before));
    StateFacts(r, JsonState(r, e.after));
    var row := StoredRow(r, e);
    assert row.before == JsonState(r, e.before) && row.after == JsonState(r, e.after);
    assert row.hash.value.payload.before == JsonState(r, e.before);
    assert WithIntegrity(r, row).hash.value.payload.before == SanitizeState(r, JsonState(r, e.before));
    assert WithIntegrity(r, row).hash.value.payload.after == SanitizeState(r, JsonState(r, e.after));
    assert row.hash.value.payload.reason == WithIntegrity(r, row).hash.value.payload.reason;
  }

  // ----- Replay

  datatype Replay = Replay(states: map<string, AuditState>, correlations: seq<string>, processed: nat)

  datatype ReplayError =
    | ExternalAction(eventId: string) | HashMismatch(eventId: string) | BeforeStateMismatch(eventId: string)

  const NOTHING := Replay(map[], [], 0)

  predicate Forbidden(action: string) {
    Upper(action) in {
      "SEND_EXTERNAL_ACTION", "EXECUTE_EXTERNAL_ACTION", "SIGN_TRANSACTION", "SUBMIT_TRANSACTION",
      "EXECUTE_PAYMENT", "SEND_PAYMENT", "TRANSFER_ASSET"}
  }

  function TargetKey(h: Header): string {
    h.targetType + ":" + h.targetId
  }

  function ReplayOne(r: Redactor, s: Replay, e: Event): Result<Replay, ReplayError> {
    var key, before := TargetKey(e.header), SanitizeState(r, e.before);
    if Forbidden(e.header.action) then Failure(ExternalAction(e.header.eventId))
    else if !HashPasses(r, e) then Failure(HashMismatch(e.header.eventId))
    else if key in s.states && before != map[] && s.states[key] != before then
      Failure(BeforeStateMismatch(e.header.eventId))
    else
      Success(Replay(s.states[key := SanitizeState(r, e.after)], s.correlations + [e.header.correlationId],
                     s.processed + 1))
  }

  function ReplayFrom(r: Redactor, s: Replay, events: seq<Event>): Result<Replay, ReplayError> {
    if events == [] then Success(s)
    else
      var t :- ReplayFrom(r, s, events[..|events| - 1]);
      ReplayOne(r, t, events[|events| - 1])
  }

  /** Replay composes: a log in two parts is the second part replayed from the state of the first. */
  lemma {:induction false} ReplayAppend(r: Redactor, s: Replay, a: seq<Event>, b: seq<Event>)
    ensures ReplayFrom(r, s, a + b)
      == match ReplayFrom(r, s, a)
         case Failure(error) => Failure(error)
         case Success(t) => ReplayFrom(r, t, b)
    decreases |b|
  {
    if b == [] {
      assert a + b == a;
    } else {
      var init, last := b[..|b| - 1], b[|b| - 1];
      assert (a + b)[..|a + b| - 1] == a + init;
      assert (a + b)[|a + b| - 1] == last;
      ReplayAppend(r, s, a, init);
    }
  }

  /** A redactor that knows one secret. */
  function OneSecret(secret: string): Redactor {
    Redactor(s => if s == secret then "" else s, _ => false, _ => "")
  }

  lemma OneSecretIsStable(secret: string)
    ensures Stable(OneSecret(secret))
  {
  }

  /**
   * An object that shows a secret under a harmless name, however the rest of the event looks: its own stored row no
   * longer replays.
   */
  lemma ShownSecretDoesNotReplay(r: Redactor, e: Event, name: string, secret: string)
    requires Stable(r) && r.text(secret) != secret && !r.sensitive(name) && !Forbidden(e.header.action)
    ensures var row := StoredRow(r, e.(after := map[name := Opaque(secret)]));
      ReplayFrom(r, NOTHING, [row]) == Failure(HashMismatch(e.header.eventId))
  {
    var f := e.(after := map[name := Opaque(secret)]);
    assert !ShowsNoSecret(r, Object(f.after)) by {
      assert name in f.after && !ShowsNoSecret(r, f.after[name]);
    }
    StoredRowPasses(r, f);
    StoredStates(r, f);
    var row := StoredRow(r, f);
    assert [row][..0] == [];
    assert ReplayFrom(r, NOTHING, []) == Success(NOTHING);
  }

  // ----- The log of one target

  /** An event about the target `key` that replay refuses, if at all, only for the state it starts from. */
  predicate Plain(r: Redactor, key: string, e: Event) {
    && TargetKey(e.header) == key && !Forbidden(e.header.action) && HashPasses(r, e)
    && SanitizeState(r, e.before) == e.before && SanitizeState(r, e.after) == e.after && e.before != map[]
  }

  /** Each event starts from the state the event before it left. */
  ghost predicate Chained(events: seq<Event>) {
    forall i :: 0 < i < |events| ==> events[i].before == events[i - 1].after
  }

  function StatesAfter(key: string, events: seq<Event>): map<string, AuditState> {
    if events == [] then map[] else map[key := events[|events| - 1].after]
  }

  lemma PlainReplays(r: Redactor, key: string, s: Replay, e: Event)
    requires Plain(r, key, e)
    ensures ReplayOne(r, s, e)
      == if key in s.states && s.states[key] != e.before then Failure(BeforeStateMismatch(e.header.eventId))
         else Success(Replay(s.states[key := e.after], s.correlations + [e.header.correlationId], s.processed + 1))
  {
  }

  ghost predicate AllPlain(r: Redactor, key: string, events: seq<Event>) {
    forall i :: 0 <= i < |events| ==> Plain(r, key, events[i])
  }

  ghost predicate Reaches(s: Replay, key: string, events: seq<Event>) {
    s.states == StatesAfter(key, events) && s.processed == |events|
  }

  lemma NextPlain(r: Redactor, key: string, events: seq<Event>, s: Replay)
    requires events != [] && Plain(r, key, events[|events| - 1]) && Reaches(s, key, events[..|events| - 1])
    ensures var reply := ReplayOne(r, s, events[|events| - 1]);
      && (reply.Success? <==> (|events| > 1 ==> events[|events| - 1].before == events[|events| - 2].after))
      && (reply.Success? ==> Reaches(reply.value, key, events))
  {
    PlainReplays(r, key, s, events[|events| - 1]);
  }

  lemma ChainedLast(events: seq<Event>)
    requires events != []
    ensures Chained(events) <==>
      && Chained(events[..|events| - 1])
      && (|events| > 1 ==> events[|events| - 1].before == events[|events| - 2].after)
  {
    var before := events[..|events| - 1];
    if Chained(events) {
      forall i | 0 < i < |before|
        ensures before[i].before == before[i - 1].after
      {
        assert events[i].before == events[i - 1].after;
      }
    }
    if Chained(before) && (|events| > 1 ==> events[|events| - 1].before == events[|events| - 2].after) {
      forall i | 0 < i < |events|
        ensures events[i].before == events[i - 1].after
      {
        assert i < |before| ==> before[i].before == before[i - 1].after;
      }
    }
  }

  /**
   * The log of one target replays exactly when it is chained; the replay has then seen every event and holds the last
   * state.
   */
  lemma {:induction false} ReplaysIfChained(r: Redactor, key: string, events: seq<Event>)
    requires AllPlain(r, key, events)
    ensures ReplayFrom(r, NOTHING, events).Success? <==> Chained(events)
    ensures ReplayFrom(r, NOTHING, events).Success? ==> Reaches(ReplayFrom(r, NOTHING, events).value, key, events)
    decreases |events|
  {
    if events != [] {
      var before := events[..|events| - 1];
      ReplaysIfChained(r, key, before);
      ChainedLast(events);
      var earlier := ReplayFrom(r, NOTHING, before);
      if earlier.Success? {
        NextPlain(r, key, events, earlier.value);
      }
    }
  }

  method ReplayAuditEvents(r: Redactor, events: seq<Event>) returns (reply: Result<Replay, ReplayError>)
    ensures reply == ReplayFrom(r, NOTHING, events)
  {
    var states: map<string, AuditState> := map[];
    var correlations: seq<string> := [];
    var processed := 0;
    for i := 0 to |events|
      invariant ReplayFrom(r, NOTHING, events[..i]) == Success(Replay(states, correlations, processed))
      invariant 0 <= processed
    {
      var e := events[i];
      assert events[..i + 1][..i] == events[..i];
      ghost var before := ReplayFrom(r, NOTHING, events[..i]);
      assert ReplayFrom(r, NOTHING, events[..i + 1]) == ReplayOne(r, before.value, e);
      assert events == events[..i + 1] + events[i + 1..];
      ReplayAppend(r, NOTHING, events[..i + 1], events[i + 1..]);
      if Forbidden(e.header.action) {
        return Failure(ExternalAction(e.header.eventId));
      }
      if !HashPasses(r, e) {
        return Failure(HashMismatch(e.header.eventId));
      }
      var key := TargetKey(e.header);
      var state := SanitizeState(r, e.before);
      if key in states && state != map[] && states[key] != state {
        return Failure(BeforeStateMismatch(e.header.eventId));
      }
      states := states[key := SanitizeState(r, e.after)];
      correlations := correlations + [e.header.correlationId];
      processed := processed + 1;
    }
    assert events[..|events|] == events;
    return Success(Replay(states, correlations, processed));
  }
}
