/** What the integrity hash of an audit event protects. */
module AuditHash {
  import opened Results
  import opened Texts
  import opened AuditValues
  import opened AuditLog

  /**
   * Nothing is left to redact: every text is redacted, sensitive names hold the marker, and there are no timestamps.
   */
  predicate Clean(r: Redactor, v: Value) {
    match v
    case Object(fields) =>
      forall k :: k in fields ==> if r.sensitive(k) then fields[k] == Text("[REDACTED]") else Clean(r, fields[k])
    case List(items) => forall i :: 0 <= i < |items| ==> Clean(r, items[i])
    case Text(s) => r.text(s) == s
    case Time(_) => false
    case _ => true
  }

  /** Redaction changes a value exactly when something is left to redact. */
  lemma {:induction false} CleanExactly(r: Redactor, v: Value)
    ensures Sanitize(r, v) == v <==> Clean(r, v)
    decreases v
  {
    match v
    case Object(fields) =>
      forall k | k in fields
        ensures !r.sensitive(k) ==> (Sanitize(r, fields[k]) == fields[k] <==> Clean(r, fields[k]))
      {
        if !r.sensitive(k) {
          CleanExactly(r, fields[k]);
        }
      }
      var done := Sanitize(r, v).fields;
      assert done == fields <==> forall k :: k in fields ==> done[k] == fields[k];
    case List(items) =>
      forall i | 0 <= i < |items|
        ensures Sanitize(r, items[i]) == items[i] <==> Clean(r, items[i])
      {
        CleanExactly(r, items[i]);
      }
      var done := Sanitize(r, v).items;
      assert done == items <==> forall i :: 0 <= i < |items| ==> done[i] == items[i];
    case _ =>
  }

  /** So the redactor's own work is clean. */
  lemma RedactedIsClean(r: Redactor, v: Value)
    requires Stable(r)
    ensures Clean(r, Sanitize(r, v))
  {
    SanitizeIdempotent(r, v);
    CleanExactly(r, Sanitize(r, v));
  }

  /** The texts of two headers are the same once redacted, field by field. */
  predicate SameHeader(r: Redactor, h: Header, k: Header) {
    && r.text(h.eventId) == r.text(k.eventId) && r.text(h.eventType) == r.text(k.eventType)
    && r.text(h.actorId) == r.text(k.actorId) && r.text(h.actorType) == r.text(k.actorType)
    && r.text(h.action) == r.text(k.action)
    && r.text(h.targetType) == r.text(k.targetType) && r.text(h.targetId) == r.text(k.targetId)
    && r.text(h.policyResult) == r.text(k.policyResult) && r.text(h.correlationId) == r.text(k.correlationId)
    && SameOption(r, h.transactionId, k.transactionId) && SameOption(r, h.taskId, k.taskId)
  }

  predicate SameOption(r: Redactor, a: Option<string>, b: Option<string>) {
    (a.None? && b.None?) || (a.Some? && b.Some? && r.text(a.value) == r.text(b.value))
  }

  /** Two states are the same once redacted and written as JSON. */
  predicate SameState(r: Redactor, m: AuditState, n: AuditState) {
    Jsonify(Sanitize(r, Object(m))) == Jsonify(Sanitize(r, Object(n)))
  }

  lemma HeadersAgree(r: Redactor, h: Header, k: Header)
    ensures SanitizeHeader(r, h) == SanitizeHeader(r, k) <==> SameHeader(r, h, k)
  {
  }

  lemma StatesAgree(r: Redactor, m: AuditState, n: AuditState)
    ensures JsonState(r, m) == JsonState(r, n) <==> SameState(r, m, n)
  {
    assert Jsonify(Sanitize(r, Object(m))) == Object(JsonState(r, m));
    assert Jsonify(Sanitize(r, Object(n))) == Object(JsonState(r, n));
  }

  /** The hashed payload: every field once redacted. */
  lemma HashOf(r: Redactor, e: Event)
    requires Stable(r)
    ensures WithIntegrity(r, e).hash == Some(Digest(
      Payload(SanitizeHeader(r, e.header), e.version, JsonState(r, e.before), JsonState(r, e.after), r.text(e.reason))))
  {
    StateFacts(r, e.before);
    StateFacts(r, e.after);
  }

  /**
   * Two events carry the same hash exactly when version, both states, reason and every one of the eleven header fields
   * agree once redacted: no field is left out of it.
   */
  lemma HashesExactly(r: Redactor, e: Event, f: Event)
    requires Stable(r)
    ensures WithIntegrity(r, e).hash.Some?
    ensures WithIntegrity(r, e).hash == WithIntegrity(r, f).hash <==>
      && SameHeader(r, e.header, f.header) && e.version == f.version && r.text(e.reason) == r.text(f.reason)
      && SameState(r, e.before, f.before) && SameState(r, e.after, f.after)
  {
    HashOf(r, e);
    HashOf(r, f);
    HeadersAgree(r, e.header, f.header);
    StatesAgree(r, e.before, f.before);
    StatesAgree(r, e.after, f.after);
  }

  /** Any later change of such a field, in a row that passed the check, makes the row fail it. */
  lemma TamperingShows(r: Redactor, e: Event, f: Event)
    requires Stable(r) && e.hash.Some? && HashPasses(r, e) && f.hash == e.hash
    ensures HashPasses(r, f) <==>
      && SameHeader(r, e.header, f.header) && e.version == f.version && r.text(e.reason) == r.text(f.reason)
      && SameState(r, e.before, f.before) && SameState(r, e.after, f.after)
  {
    HashesExactly(r, e, f);
  }

  /** What hashing does to the event itself: states and reason are redacted, header and version are kept. */
  lemma HashingKeeps(r: Redactor, e: Event)
    ensures var h := WithIntegrity(r, e);
      && h.header == e.header && h.version == e.version && h.reason == r.text(e.reason)
      && Object(h.before) == Sanitize(r, Object(e.before)) && Object(h.after) == Sanitize(r, Object(e.after))
  {
  }

  // ----- What replay accepts and keeps

  /**
   * One event is replayed exactly when its action is none of the seven external ones, its hash passes and its redacted
   * before-state, unless empty, is the target's state so far; the target then has the redacted after-state.
   */
  lemma ReplaysExactly(r: Redactor, s: Replay, e: Event)
    ensures var key, next := e.header.targetType + ":" + e.header.targetId, ReplayOne(r, s, e);
      var action := Upper(e.header.action);
      var before, after := Sanitize(r, Object(e.before)).fields, Sanitize(r, Object(e.after)).fields;
      && (next.Success? <==>
            && action !in {"SIGN_TRANSACTION", "SUBMIT_TRANSACTION", "TRANSFER_ASSET", "SEND_PAYMENT",
                           "EXECUTE_PAYMENT"}
            && action !in {"SEND_EXTERNAL_ACTION", "EXECUTE_EXTERNAL_ACTION"}
            && (e.hash.Some? ==> e.hash == WithIntegrity(r, e).hash)
            && (key in s.states && before != map[] ==> s.states[key] == before))
      && (next.Success? ==>
            && next.value.states == s.states[key := after] && next.value.processed == s.processed + 1
            && next.value.correlations == s.correlations + [e.header.correlationId])
  {
  }
}
