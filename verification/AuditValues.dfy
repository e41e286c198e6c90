/** Audit states: nested values, their redaction, and what a JSON column gives back. */
module AuditValues {

  /** A Python value: `Opaque` stands for any object JSON can only write as its text. */
  datatype Value =
    | Null
    | Bool(bool)
    | Number(int)
    | Text(text: string)
    | Time(moment: int)
    | Opaque(shown: string)
    | List(items: seq<Value>)
    | Object(fields: map<string, Value>)

  /** The regular expressions of the redactor, and datetime.isoformat, as functions. */
  datatype Redactor = Redactor(text: string -> string, sensitive: string -> bool, iso: int -> string)

  const REDACTED := Text("[REDACTED]")

  /** Redacting twice changes nothing more, and a timestamp holds nothing to redact. */
  ghost predicate Stable(r: Redactor) {
    && (forall s: string :: r.text(r.text(s)) == r.text(s))
    && (forall t: int :: r.text(r.iso(t)) == r.iso(t))
  }

  function Sanitize(r: Redactor, v: Value): Value {
    match v
    case Object(fields) => Object(map k | k in fields :: if r.sensitive(k) then REDACTED else Sanitize(r, fields[k]))
    case List(items) => List(seq(|items|, i requires 0 <= i < |items| => Sanitize(r, items[i])))
    case Text(s) => Text(r.text(s))
    case Time(t) => Text(r.iso(t))
    case _ => v
  }

  /** What is read back from a JSON column: objects JSON does not know were written as their text. */
  function Jsonify(v: Value): Value {
    match v
    case Object(fields) => Object(map k | k in fields :: Jsonify(fields[k]))
    case List(items) => List(seq(|items|, i requires 0 <= i < |items| => Jsonify(items[i])))
    case Opaque(s) => Text(s)
    case _ => v
  }

  lemma {:induction false} SanitizeIdempotent(r: Redactor, v: Value)
    requires Stable(r)
    ensures Sanitize(r, Sanitize(r, v)) == Sanitize(r, v)
    decreases v
  {
    match v
    case Object(fields) =>
      forall k | k in fields
        ensures Sanitize(r, Sanitize(r, fields[k])) == Sanitize(r, fields[k])
      {
        SanitizeIdempotent(r, fields[k]);
      }
    case List(items) =>
      forall i | 0 <= i < |items|
        ensures Sanitize(r, Sanitize(r, items[i])) == Sanitize(r, items[i])
      {
        SanitizeIdempotent(r, items[i]);
      }
    case _ =>
  }

  /**
   * No object that JSON writes as text shows anything the redactor would remove; what a sensitive key hides does not
   * matter.
   */
  predicate ShowsNoSecret(r: Redactor, v: Value) {
    match v
    case Object(fields) => forall k :: k in fields && !r.sensitive(k) ==> ShowsNoSecret(r, fields[k])
    case List(items) => forall i :: 0 <= i < |items| ==> ShowsNoSecret(r, items[i])
    case Opaque(s) => r.text(s) == s
    case _ => true
  }

  /** Redacting what a JSON column gives back changes nothing exactly when no opaque object showed a secret. */
  lemma {:induction false} JsonKeepsRedaction(r: Redactor, v: Value)
    requires Stable(r)
    ensures Sanitize(r, Jsonify(Sanitize(r, v))) == Jsonify(Sanitize(r, v)) <==> ShowsNoSecret(r, v)
    decreases v
  {
    match v
    case Object(fields) =>
      forall k | k in fields
        ensures Sanitize(r, Jsonify(Sanitize(r, fields[k]))) == Jsonify(Sanitize(r, fields[k]))
          <==> ShowsNoSecret(r, fields[k])
      {
        JsonKeepsRedaction(r, fields[k]);
      }
      ObjectAgrees(r, fields);
    case List(items) =>
      forall i | 0 <= i < |items|
        ensures Sanitize(r, Jsonify(Sanitize(r, items[i]))) == Jsonify(Sanitize(r, items[i]))
          <==> ShowsNoSecret(r, items[i])
      {
        JsonKeepsRedaction(r, items[i]);
      }
      ListAgrees(r, items);
    case _ =>
  }

  function SanitizeField(r: Redactor, k: string, v: Value): Value {
    if r.sensitive(k) then REDACTED else Sanitize(r, v)
  }

  lemma SanitizedFields(r: Redactor, m: map<string, Value>) returns (fields: map<string, Value>)
    ensures Sanitize(r, Object(m)) == Object(fields) && fields.Keys == m.Keys
    ensures forall k :: k in m ==> fields[k] == SanitizeField(r, k, m[k])
  {
    fields := Sanitize(r, Object(m)).fields;
  }

  lemma JsonFields(m: map<string, Value>) returns (fields: map<string, Value>)
    ensures Jsonify(Object(m)) == Object(fields) && fields.Keys == m.Keys
    ensures forall k :: k in m ==> fields[k] == Jsonify(m[k])
  {
    fields := Jsonify(Object(m)).fields;
  }

  lemma ObjectAgrees(r: Redactor, fields: map<string, Value>)
    ensures var v := Object(fields);
      Sanitize(r, Jsonify(Sanitize(r, v))) == Jsonify(Sanitize(r, v))
      <==> forall k :: k in fields && !r.sensitive(k) ==>
        Sanitize(r, Jsonify(Sanitize(r, fields[k]))) == Jsonify(Sanitize(r, fields[k]))
  {
    var redacted := SanitizedFields(r, fields);
    var once := JsonFields(redacted);
    var twice := SanitizedFields(r, once);
    assert Jsonify(REDACTED) == REDACTED;
    forall k | k in fields
      ensures once[k] == if r.sensitive(k) then REDACTED else Jsonify(Sanitize(r, fields[k]))
      ensures twice[k] == if r.sensitive(k) then REDACTED else Sanitize(r, Jsonify(Sanitize(r, fields[k])))
    {
      assert redacted[k] == SanitizeField(r, k, fields[k]) && twice[k] == SanitizeField(r, k, once[k]);
    }
    assert once == twice <==> forall k :: k in fields ==> once[k] == twice[k];
  }

  lemma ListAgrees(r: Redactor, items: seq<Value>)
    ensures var v := List(items);
      Sanitize(r, Jsonify(Sanitize(r, v))) == Jsonify(Sanitize(r, v))
      <==> forall i :: 0 <= i < |items| ==>
        Sanitize(r, Jsonify(Sanitize(r, items[i]))) == Jsonify(Sanitize(r, items[i]))
  {
    var once := Jsonify(Sanitize(r, List(items)));
    var twice := Sanitize(r, once);
    assert |once.items| == |items| == |twice.items|;
    forall i | 0 <= i < |items|
      ensures once.items[i] == Jsonify(Sanitize(r, items[i]))
      ensures twice.items[i] == Sanitize(r, Jsonify(Sanitize(r, items[i])))
    {
    }
    if forall i :: 0 <= i < |items| ==> Sanitize(r, Jsonify(Sanitize(r, items[i]))) == Jsonify(Sanitize(r, items[i])) {
      assert once.items == twice.items;
    }
  }

  /** Written to a JSON column, redacted and written again: the second writing changes nothing. */
  ghost predicate Settled(r: Redactor, v: Value) {
    Jsonify(Sanitize(r, Jsonify(v))) == Sanitize(r, Jsonify(v))
  }

  lemma SettledObject(r: Redactor, fields: map<string, Value>)
    requires forall k :: k in fields ==> Settled(r, fields[k])
    ensures Settled(r, Object(fields))
  {
    var json := JsonFields(fields);
    var once := SanitizedFields(r, json);
    var twice := JsonFields(once);
    SettledFields(r, fields, json, once, twice);
  }

  /** Field by field: the redacted JSON of settled values is not changed by writing it again. */
  lemma SettledFields(r: Redactor, fields: map<string, Value>, json: map<string, Value>, once: map<string, Value>,
                      twice: map<string, Value>)
    requires fields.Keys == json.Keys == once.Keys == twice.Keys
    requires forall k :: k in fields ==> Settled(r, fields[k]) && json[k] == Jsonify(fields[k])
    requires forall k :: k in fields ==> once[k] == SanitizeField(r, k, json[k]) && twice[k] == Jsonify(once[k])
    ensures once == twice
  {
    forall k | k in fields
      ensures twice[k] == once[k]
    {
      SettledField(r, k, fields[k], json[k], once[k]);
    }
  }

  lemma SettledField(r: Redactor, k: string, v: Value, json: Value, once: Value)
    requires Settled(r, v) && json == Jsonify(v) && once == SanitizeField(r, k, json)
    ensures Jsonify(once) == once
  {
  }

  lemma SettledList(r: Redactor, items: seq<Value>)
    requires forall i :: 0 <= i < |items| ==> Settled(r, items[i])
    ensures Settled(r, List(items))
  {
    var once := Sanitize(r, Jsonify(List(items)));
    var twice := Jsonify(once);
    assert |once.items| == |items| == |twice.items|;
    forall i | 0 <= i < |items|
      ensures twice.items[i] == once.items[i]
    {
      assert Settled(r, items[i]);
    }
    assert once.items == twice.items;
  }

  /** Reading a JSON column back twice is reading it back once, before or after redaction. */
  lemma {:induction false} JsonifyAfterJson(r: Redactor, v: Value)
    ensures Settled(r, v)
    decreases v
  {
    match v
    case Object(fields) =>
      forall k | k in fields
        ensures Settled(r, fields[k])
      {
        JsonifyAfterJson(r, fields[k]);
      }
      SettledObject(r, fields);
    case List(items) =>
      forall i | 0 <= i < |items|
        ensures Settled(r, items[i])
      {
        JsonifyAfterJson(r, items[i]);
      }
      SettledList(r, items);
    case _ =>
  }
}
