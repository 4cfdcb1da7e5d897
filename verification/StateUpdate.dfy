/**
 * The one conditional write of processing: the update pipeline of a message, what the server makes
 * of it, and how the handler reads the outcome back.
 */
module StateUpdate {
  import opened Telemetry
  import opened Aggregation
  import Strings

  // ---------- The stored document ----------

  datatype Section = Section(payload: Payload, key: OrderKey, occurredAt: int, receivedAt: int)

  datatype LastEvent = LastEvent(key: OrderKey, eventType: EventType, receivedAt: int)

  datatype DeviceDoc = DeviceDoc(sections: map<EventType, Section>, lastEvent: Option<LastEvent>)

  const EMPTY_DOC := DeviceDoc(map[], None)

  function SectionOf(message: Message, receivedAt: int): Section {
    Section(message.payload, message.key, message.occurredAt, receivedAt)
  }

  function LastEventOf(message: Message, receivedAt: int): LastEvent {
    LastEvent(message.key, message.Type(), receivedAt)
  }

  // ---------- The rule ----------

  predicate NewerThanSection(doc: DeviceDoc, message: Message) {
    message.Type() !in doc.sections || IsNewer(message.key, doc.sections[message.Type()].key)
  }

  predicate NewerThanLastEvent(doc: DeviceDoc, message: Message) {
    doc.lastEvent.None? || IsNewer(message.key, doc.lastEvent.value.key)
  }

  /** Replace the section, and `lastEvent`, exactly when it is missing or the message is newer. */
  function Merge(doc: DeviceDoc, message: Message, receivedAt: int): DeviceDoc {
    DeviceDoc(
      if NewerThanSection(doc, message) then doc.sections[message.Type() := SectionOf(message, receivedAt)] else doc.sections,
      if NewerThanLastEvent(doc, message) then Some(LastEventOf(message, receivedAt)) else doc.lastEvent)
  }

  // ---------- The pipeline ----------

  datatype Update = Update(filterId: string, pipeline: seq<Json>)

  function Op(name: string, arg: Json): Json {
    JObj([Field(name, arg)])
  }

  function Int(n: int): Json {
    JNum(n as real)
  }

  function TypeField(t: EventType): string {
    match t
    case Status => "status"
    case Metrics => "metrics"
    case Counters => "counters"
    case Diagnostic => "diagnostic"
  }

  /** `IsNewer(key, stored)` as an expression over the watermark stored at `path`. */
  function NewerThanStoredExpr(path: string, key: OrderKey): Json {
    var field := "$" + path;
    Op("$or", JArr([
      Op("$eq", JArr([Op("$type", JStr(field)), JStr("missing")])),
      Op("$lt", JArr([JStr(field + ".sessionId"), Int(key.sessionId)])),
      Op("$and", JArr([
        Op("$eq", JArr([JStr(field + ".sessionId"), Int(key.sessionId)])),
        Op("$lt", JArr([JStr(field + ".seq"), Int(key.seqNo)]))]))]))
  }

  function PayloadFields(payload: Payload): seq<Field> {
    match payload
    case StatusPayload(state) =>
      [Field("state", JStr(match state case Online => "online" case Degraded => "degraded" case Offline => "offline"))]
    case MetricsPayload(temperatureC, cpuPercent, ramPercent) =>
      [Field("temperatureC", JNum(temperatureC)), Field("cpuPercent", JNum(cpuPercent)), Field("ramPercent", JNum(ramPercent))]
    case CountersPayload(operationsTotal, uptimeMs) =>
      [Field("operationsTotal", Int(operationsTotal)), Field("uptimeMs", Int(uptimeMs))]
    case DiagnosticPayload(severity, code, text) =>
      [Field("severity", JStr(match severity case Info => "info" case Warning => "warning" case Error => "error")),
       Field("code", JStr(code)), Field("message", JStr(text))]
  }

  /** The watermark fields come after the payload's, so they win whatever the payload contains. */
  function WithWatermark(payload: seq<Field>, key: OrderKey, occurredAt: int, receivedAt: int): Json {
    JObj(payload + [Field("sessionId", Int(key.sessionId)), Field("seq", Int(key.seqNo)),
                    Field("occurredAt", Int(occurredAt)), Field("receivedAt", Int(receivedAt))])
  }

  function SectionJson(s: Section): Json {
    WithWatermark(PayloadFields(s.payload), s.key, s.occurredAt, s.receivedAt)
  }

  function LastEventJson(e: LastEvent): Json {
    JObj([Field("sessionId", Int(e.key.sessionId)), Field("seq", Int(e.key.seqNo)),
          Field("type", JStr(TypeField(e.eventType))), Field("receivedAt", Int(e.receivedAt))])
  }

  /** Keep or replace the field at `path`. */
  function Guarded(path: string, key: OrderKey, replacement: Json): Json {
    Op("$cond", JObj([
      Field("if", NewerThanStoredExpr(path, key)),
      Field("then", Op("$literal", replacement)),
      Field("else", JStr("$" + path))]))
  }

  function SectionField(message: Message, receivedAt: int): Field {
    Field(TypeField(message.Type()),
          Guarded(TypeField(message.Type()), message.key, SectionJson(SectionOf(message, receivedAt))))
  }

  function LastEventField(message: Message, receivedAt: int): Field {
    Field("lastEvent", Guarded("lastEvent", message.key, LastEventJson(LastEventOf(message, receivedAt))))
  }

  function BuildStateUpdate(message: Message, receivedAt: int): Update {
    Update(message.deviceId,
           [Op("$set", JObj([SectionField(message, receivedAt), LastEventField(message, receivedAt)]))])
  }

  // ---------- Evaluating the operators ----------

  /** One step of evaluation: an operator other than the two special forms. */
  lemma EvalOp(name: string, args: seq<Json>, doc: Document)
    requires |name| > 1 && name[0] == '$' && name != "$literal" && name != "$cond"
    requires EvalAll(args, doc).Some?
    ensures Eval(Op(name, JArr(args)), doc) == ApplyOperator(name, EvalAll(args, doc).value)
  {
    assert IsOperator([Field(name, JArr(args))]);
    assert EvalArguments(JArr(args), doc) == EvalAll(args, doc);
    assert Eval(Op(name, JArr(args)), doc) == EvalOperator(name, JArr(args), doc);
  }

  lemma EvalPair(a: Json, b: Json, doc: Document)
    requires Eval(a, doc).Some? && Eval(b, doc).Some?
    ensures EvalAll([a, b], doc) == Some([Eval(a, doc).value, Eval(b, doc).value])
  {
    assert [a, b][1..] == [b] && [b][1..] == [];
    assert EvalAll([], doc) == Some([]);
    assert EvalAll([b], doc).Some? && EvalAll([b], doc).value == [Eval(b, doc).value];
    assert EvalAll([a, b], doc).value == [Eval(a, doc).value, Eval(b, doc).value];
  }

  lemma EvalTriple(a: Json, b: Json, c: Json, doc: Document)
    requires Eval(a, doc).Some? && Eval(b, doc).Some? && Eval(c, doc).Some?
    ensures EvalAll([a, b, c], doc) == Some([Eval(a, doc).value, Eval(b, doc).value, Eval(c, doc).value])
  {
    EvalPair(b, c, doc);
    assert [a, b, c][1..] == [b, c];
    assert EvalAll([a, b, c], doc).value == [Eval(a, doc).value, Eval(b, doc).value, Eval(c, doc).value];
  }

  /** What the operators do with the values they get. */
  lemma Operators(u: Value, v: Value, w: Value)
    ensures ApplyOperator("$type", [u]) == Some(Str(TypeName(u)))
    ensures ApplyOperator("$eq", [u, v]) == Some(Bool(u == v))
    ensures ApplyOperator("$lt", [u, v]) == LessThan(u, v)
    ensures ApplyOperator("$and", [u, v]) == Some(Bool(Truthy(u) && Truthy(v)))
    ensures ApplyOperator("$or", [u, v, w]) == Some(Bool(Truthy(u) || Truthy(v) || Truthy(w)))
  {
    var two, three := [u, v], [u, v, w];
    assert two[0] in two && two[1] in two;
    assert three[0] in three && three[1] in three && three[2] in three;
    assert "$eq"[1] != "$or"[1] && "$lt"[1] != "$or"[1] && "$eq"[1] != "$lt"[1];
  }

  lemma EvalUnary(name: string, a: Json, doc: Document)
    requires |name| > 1 && name[0] == '$' && name != "$literal" && name != "$cond"
    requires !a.JArr? && Eval(a, doc).Some?
    ensures Eval(Op(name, a), doc) == ApplyOperator(name, [Eval(a, doc).value])
  {
    assert IsOperator([Field(name, a)]);
    assert EvalArguments(a, doc) == Some([Eval(a, doc).value]);
    assert Eval(Op(name, a), doc) == EvalOperator(name, a, doc);
  }

  lemma EvalBinary(name: string, a: Json, b: Json, doc: Document)
    requires |name| > 1 && name[0] == '$' && name != "$literal" && name != "$cond"
    requires Eval(a, doc).Some? && Eval(b, doc).Some?
    ensures Eval(Op(name, JArr([a, b])), doc) == ApplyOperator(name, [Eval(a, doc).value, Eval(b, doc).value])
  {
    EvalPair(a, b, doc);
    EvalOp(name, [a, b], doc);
  }

  lemma LookupStep(value: Value, name: string, path: seq<string>)
    ensures Lookup(value, [name] + path)
         == if value.Doc? && name in value.fields then Lookup(value.fields[name], path) else Missing
  {
    assert ([name] + path)[1..] == path;
  }

  /** `$name` and `$name.field` read the field at the top level, and the field inside it. */
  lemma EvalPath(name: string, field: string, doc: Document)
    requires name != [] && name[0] != '$' && '.' !in name && '.' !in field
    ensures Eval(JStr("$" + name), doc) == Some(if name in doc then doc[name] else Missing)
    ensures Eval(JStr("$" + name + "." + field), doc)
         == Some(if name in doc && doc[name].Doc? && field in doc[name].fields then doc[name].fields[field] else Missing)
  {
    Strings.SplitWithoutSeparator(name, '.');
    Strings.SplitWithoutSeparator(field, '.');
    Strings.SplitAtFirst(name, field, '.');
    assert ("$" + name)[1..] == name;
    assert ("$" + name + "." + field)[1..] == name + ['.'] + field;
    LookupStep(Doc(doc), name, []);
    LookupStep(Doc(doc), name, [field]);
    if name in doc {
      LookupStep(doc[name], field, []);
    }
  }

  /** The document holds a watermark at `path`, or nothing. */
  ghost predicate Watermarked(doc: Document, path: string, stored: Option<OrderKey>) {
    match stored
    case None => path !in doc
    case Some(key) =>
      && path in doc && doc[path].Doc?
      && "sessionId" in doc[path].fields && doc[path].fields["sessionId"] == Num(key.sessionId as real)
      && "seq" in doc[path].fields && doc[path].fields["seq"] == Num(key.seqNo as real)
  }

  /** Comparing a stored field with a number. */
  lemma {:induction false} CompareStored(path: string, field: string, n: int, doc: Document)
    requires path != [] && path[0] != '$' && '.' !in path && '.' !in field
    ensures var stored := if path in doc && doc[path].Doc? && field in doc[path].fields then doc[path].fields[field] else Missing;
      var atPath := JStr("$" + path + "." + field);
      && Eval(Op("$eq", JArr([atPath, Int(n)])), doc) == Some(Bool(stored == Num(n as real)))
      && Eval(Op("$lt", JArr([atPath, Int(n)])), doc) == LessThan(stored, Num(n as real))
  {
    EvalPath(path, field, doc);
    var atPath := JStr("$" + path + "." + field);
    EvalBinary("$eq", atPath, Int(n), doc);
    EvalBinary("$lt", atPath, Int(n), doc);
    Operators(Eval(atPath, doc).value, Num(n as real), Missing);
  }

  lemma {:induction false} IsMissing(path: string, doc: Document)
    requires path != [] && path[0] != '$' && '.' !in path
    requires path in doc ==> doc[path].Doc?
    ensures Eval(Op("$eq", JArr([Op("$type", JStr("$" + path)), JStr("missing")])), doc) == Some(Bool(path !in doc))
  {
    EvalPath(path, "", doc);
    var atPath := if path in doc then doc[path] else Missing;
    var typeOf := Op("$type", JStr("$" + path));
    EvalUnary("$type", JStr("$" + path), doc);
    Operators(atPath, atPath, atPath);
    EvalBinary("$eq", typeOf, JStr("missing"), doc);
    Operators(Str(TypeName(atPath)), Str("missing"), Missing);
  }

  /** The server's guard is `IsNewer`: true exactly when nothing is stored or the key is newer. */
  lemma {:induction false} GuardMeansIsNewer(path: string, key: OrderKey, doc: Document, stored: Option<OrderKey>)
    requires path != [] && path[0] != '$' && '.' !in path
    requires Watermarked(doc, path, stored)
    ensures Eval(NewerThanStoredExpr(path, key), doc) == Some(Bool(stored.None? || IsNewer(key, stored.value)))
  {
    var field := "$" + path;
    assert field + ".sessionId" == field + "." + "sessionId";
    assert field + ".seq" == field + "." + "seq";
    IsMissing(path, doc);
    CompareStored(path, "sessionId", key.sessionId, doc);
    CompareStored(path, "seq", key.seqNo, doc);

    var isMissing := Op("$eq", JArr([Op("$type", JStr(field)), JStr("missing")]));
    var olderSession := Op("$lt", JArr([JStr(field + ".sessionId"), Int(key.sessionId)]));
    var sameSession := Op("$eq", JArr([JStr(field + ".sessionId"), Int(key.sessionId)]));
    var lowerSeq := Op("$lt", JArr([JStr(field + ".seq"), Int(key.seqNo)]));
    EvalBinary("$and", sameSession, lowerSeq, doc);
    Operators(Eval(sameSession, doc).value, Eval(lowerSeq, doc).value, Missing);
    var both := Op("$and", JArr([sameSession, lowerSeq]));
    EvalTriple(isMissing, olderSession, both, doc);
    EvalOp("$or", [isMissing, olderSession, both], doc);
    Operators(Eval(isMissing, doc).value, Eval(olderSession, doc).value, Eval(both, doc).value);
  }

  lemma EvalLiteral(arg: Json, doc: Document)
    ensures Eval(Op("$literal", arg), doc) == Some(Literal(arg))
  {
    assert IsOperator([Field("$literal", arg)]);
  }

  lemma EvalCondition(condition: Json, then': Json, else': Json, doc: Document)
    requires Eval(condition, doc).Some?
    ensures Eval(Op("$cond", JObj([Field("if", condition), Field("then", then'), Field("else", else')])), doc)
         == if Truthy(Eval(condition, doc).value) then Eval(then', doc) else Eval(else', doc)
  {
    var arg := JObj([Field("if", condition), Field("then", then'), Field("else", else')]);
    assert IsOperator([Field("$cond", arg)]);
    assert Eval(Op("$cond", arg), doc) == EvalOperator("$cond", arg, doc);
    assert "$cond"[1] != "$type"[1];
    assert EvalOperator("$cond", arg, doc) == EvalCond(arg, doc);
  }

  lemma GuardedMeans(path: string, key: OrderKey, replacement: Json, doc: Document, stored: Option<OrderKey>)
    requires path != [] && path[0] != '$' && '.' !in path
    requires Watermarked(doc, path, stored)
    ensures Eval(Guarded(path, key, replacement), doc)
         == Some(if stored.None? || IsNewer(key, stored.value) then Literal(replacement) else doc[path])
  {
    GuardMeansIsNewer(path, key, doc, stored);
    EvalLiteral(replacement, doc);
    EvalPath(path, "", doc);
    EvalCondition(NewerThanStoredExpr(path, key), Op("$literal", replacement), JStr("$" + path), doc);
  }

  // ---------- The stored form ----------

  const FIELD_NAMES := {"_id", "status", "metrics", "counters", "diagnostic", "lastEvent"}

  function TypeNamed(name: string): Option<EventType> {
    if name == "status" then Some(Status)
    else if name == "metrics" then Some(Metrics)
    else if name == "counters" then Some(Counters)
    else if name == "diagnostic" then Some(Diagnostic)
    else None
  }

  /** A document laid out from the stored values of its parts. */
  function Layout(deviceId: string, sections: map<EventType, Value>, lastEvent: Option<Value>): Document {
    map name <- FIELD_NAMES | name == "_id" || (name == "lastEvent" && lastEvent.Some?)
                              || (TypeNamed(name).Some? && TypeNamed(name).value in sections)
      :: if name == "_id" then Str(deviceId)
         else if name == "lastEvent" then lastEvent.value
         else sections[TypeNamed(name).value]
  }

  function SectionValues(d: DeviceDoc): map<EventType, Value> {
    map t <- d.sections :: Literal(SectionJson(d.sections[t]))
  }

  function LastEventValue(d: DeviceDoc): Option<Value> {
    if d.lastEvent.Some? then Some(Literal(LastEventJson(d.lastEvent.value))) else None
  }

  /** The document the collection holds for a device; a device without a document has only its `_id`. */
  function Encode(deviceId: string, d: DeviceDoc): Document {
    Layout(deviceId, SectionValues(d), LastEventValue(d))
  }

  lemma FieldsHaveNames(t: EventType)
    ensures TypeField(t) in FIELD_NAMES && TypeNamed(TypeField(t)) == Some(t)
    ensures TypeField(t) != "_id" && TypeField(t) != "lastEvent"
    ensures forall name :: TypeNamed(name) == Some(t) ==> name == TypeField(t)
  {
  }

  /** Whatever field names a payload brings, the stored watermark is the message's own. */
  lemma WatermarkWins(payload: seq<Field>, key: OrderKey, occurredAt: int, receivedAt: int)
    ensures var stored := Literal(WithWatermark(payload, key, occurredAt, receivedAt));
      && stored.Doc?
      && "sessionId" in stored.fields && stored.fields["sessionId"] == Num(key.sessionId as real)
      && "seq" in stored.fields && stored.fields["seq"] == Num(key.seqNo as real)
      && "occurredAt" in stored.fields && stored.fields["occurredAt"] == Num(occurredAt as real)
      && "receivedAt" in stored.fields && stored.fields["receivedAt"] == Num(receivedAt as real)
  {
    var f1, f2 := Field("sessionId", Int(key.sessionId)), Field("seq", Int(key.seqNo));
    var f3, f4 := Field("occurredAt", Int(occurredAt)), Field("receivedAt", Int(receivedAt));
    LiteralSnoc(payload, f1);
    LiteralSnoc(payload + [f1], f2);
    LiteralSnoc(payload + [f1] + [f2], f3);
    LiteralSnoc(payload + [f1] + [f2] + [f3], f4);
    assert payload + [f1, f2, f3, f4] == payload + [f1] + [f2] + [f3] + [f4];
    assert "sessionId"[0] != "occurredAt"[0] && "receivedAt"[0] != "occurredAt"[0];
  }

  lemma LiteralSnoc(fields: seq<Field>, last: Field)
    ensures LiteralFields(fields + [last]) == LiteralFields(fields)[last.name := Literal(last.value)]
  {
    assert (fields + [last])[..|fields|] == fields;
  }

  ghost predicate NamesDiffer(fields: seq<Field>) {
    forall i, j :: 0 <= i < j < |fields| ==> fields[i].name != fields[j].name
  }

  /** Every field is stored under its own name, and nothing else is. */
  ghost predicate KeepsFields(stored: Document, fields: seq<Field>) {
    && (forall name <- stored :: exists i :: 0 <= i < |fields| && fields[i].name == name)
    && (forall i :: 0 <= i < |fields| ==> fields[i].name in stored && stored[fields[i].name] == Literal(fields[i].value))
  }

  lemma OneMoreField(stored: Document, front: seq<Field>, last: Field)
    requires KeepsFields(stored, front) && forall f <- front :: f.name != last.name
    ensures KeepsFields(stored[last.name := Literal(last.value)], front + [last])
  {
    hide Literal;
    var fields, after := front + [last], stored[last.name := Literal(last.value)];
    forall name <- after ensures exists i :: 0 <= i < |fields| && fields[i].name == name {
      if name == last.name {
        assert fields[|front|].name == name;
      } else {
        var i :| 0 <= i < |front| && front[i].name == name;
        assert fields[i].name == name;
      }
    }
  }

  /** An object keeps its fields when their names differ. */
  lemma {:induction false} LiteralKeepsFields(fields: seq<Field>)
    requires NamesDiffer(fields)
    ensures KeepsFields(LiteralFields(fields), fields)
  {
    if fields != [] {
      var n := |fields| - 1;
      var front, last := fields[..n], fields[n];
      assert fields == front + [last];
      LiteralKeepsFields(front);
      LiteralSnoc(front, last);
      forall f <- front ensures f.name != last.name {
        var i :| 0 <= i < n && front[i] == f;
        assert fields[i].name != fields[n].name;
      }
      OneMoreField(LiteralFields(front), front, last);
    }
  }

  lemma FourFields(stored: Document, a: Field, b: Field, c: Field, d: Field)
    requires KeepsFields(stored, [a, b, c, d])
    requires NamesDiffer([a, b, c, d])
    ensures stored == map[a.name := Literal(a.value), b.name := Literal(b.value), c.name := Literal(c.value), d.name := Literal(d.value)]
  {
    hide Literal;
    var fields := [a, b, c, d];
    assert fields[0] == a && fields[1] == b && fields[2] == c && fields[3] == d;
  }

  lemma LastEventStored(e: LastEvent)
    ensures Literal(LastEventJson(e))
         == Doc(map["sessionId" := Num(e.key.sessionId as real), "seq" := Num(e.key.seqNo as real),
                    "type" := Str(TypeField(e.eventType)), "receivedAt" := Num(e.receivedAt as real)])
  {
    var fields := LastEventJson(e).fields;
    assert NamesDiffer(fields);
    LiteralKeepsFields(fields);
    FourFields(LiteralFields(fields), fields[0], fields[1], fields[2], fields[3]);
    hide LiteralFields, LiteralItems;
  }

  ghost function StoredKey(d: DeviceDoc, t: EventType): Option<OrderKey> {
    if t in d.sections then Some(d.sections[t].key) else None
  }

  lemma EncodedWatermarks(deviceId: string, d: DeviceDoc, t: EventType)
    ensures Watermarked(Encode(deviceId, d), TypeField(t), StoredKey(d, t))
    ensures t in d.sections ==> Encode(deviceId, d)[TypeField(t)] == Literal(SectionJson(d.sections[t]))
    ensures Watermarked(Encode(deviceId, d), "lastEvent", if d.lastEvent.Some? then Some(d.lastEvent.value.key) else None)
    ensures d.lastEvent.Some? ==> Encode(deviceId, d)["lastEvent"] == Literal(LastEventJson(d.lastEvent.value))
  {
    FieldsHaveNames(t);
    if t in d.sections {
      var s := d.sections[t];
      WatermarkWins(PayloadFields(s.payload), s.key, s.occurredAt, s.receivedAt);
    }
    if d.lastEvent.Some? {
      LastEventStored(d.lastEvent.value);
    }
  }

  /** A `$set` stage of two operator fields, neither of which evaluates to missing. */
  lemma RunSetOfTwo(f1: Field, f2: Field, before: Document)
    requires f1.value.JObj? && IsOperator(f1.value.fields) && f2.value.JObj? && IsOperator(f2.value.fields)
    requires Eval(f1.value, before).Some? && Eval(f1.value, before).value != Missing
    requires Eval(f2.value, before).Some? && Eval(f2.value, before).value != Missing
    ensures ApplyPipeline([Op("$set", JObj([f1, f2]))], before)
         == Some(before[f1.name := Eval(f1.value, before).value][f2.name := Eval(f2.value, before).value])
  {
    assert [f1, f2][..1] == [f1] && [f1][..0] == [];
    assert ApplySet([], before) == Some(before);
    assert ApplySet([f1], before) == Some(before[f1.name := Eval(f1.value, before).value]);
    var after := ApplySet([f1, f2], before);
    assert after.Some?;
    var stages := [Op("$set", JObj([f1, f2]))];
    assert stages[1..] == [];
    assert ApplyPipeline([], after.value) == after;
  }

  lemma LayoutReplaced(deviceId: string, sections: map<EventType, Value>, lastEvent: Option<Value>, t: EventType, v: Value)
    ensures Layout(deviceId, sections, lastEvent)[TypeField(t) := v] == Layout(deviceId, sections[t := v], lastEvent)
  {
    FieldsHaveNames(t);
    var before, after := Layout(deviceId, sections, lastEvent), Layout(deviceId, sections[t := v], lastEvent);
    forall name
      ensures name in before[TypeField(t) := v] <==> name in after
      ensures name in after ==> after[name] == before[TypeField(t) := v][name]
    {
    }
  }

  lemma LayoutReplacedLast(deviceId: string, sections: map<EventType, Value>, lastEvent: Option<Value>, v: Value)
    ensures Layout(deviceId, sections, lastEvent)["lastEvent" := v] == Layout(deviceId, sections, Some(v))
  {
  }

  /** Replacing fields of the stored form is replacing parts of the document. */
  lemma EncodeReplaced(deviceId: string, d: DeviceDoc, t: EventType, s: Section, e: LastEvent)
    ensures Encode(deviceId, d)[TypeField(t) := Literal(SectionJson(s))] == Encode(deviceId, d.(sections := d.sections[t := s]))
    ensures Encode(deviceId, d)["lastEvent" := Literal(LastEventJson(e))] == Encode(deviceId, d.(lastEvent := Some(e)))
  {
    LayoutReplaced(deviceId, SectionValues(d), LastEventValue(d), t, Literal(SectionJson(s)));
    assert SectionValues(d.(sections := d.sections[t := s])) == SectionValues(d)[t := Literal(SectionJson(s))];
    LayoutReplacedLast(deviceId, SectionValues(d), LastEventValue(d), Literal(LastEventJson(e)));
  }

  lemma TypeFieldIsPath(t: EventType)
    ensures TypeField(t) != [] && TypeField(t)[0] != '$' && '.' !in TypeField(t)
  {
  }

  lemma SectionStep(d: DeviceDoc, message: Message, receivedAt: int)
    ensures var before := Encode(message.deviceId, d);
      var value := Eval(SectionField(message, receivedAt).value, before);
      && value.Some? && value.value != Missing
      && before[TypeField(message.Type()) := value.value]
         == Encode(message.deviceId, d.(sections := Merge(d, message, receivedAt).sections))
  {
    var before := Encode(message.deviceId, d);
    var t := message.Type();
    var section := SectionOf(message, receivedAt);
    TypeFieldIsPath(t);
    EncodedWatermarks(message.deviceId, d, t);
    GuardedMeans(TypeField(t), message.key, SectionJson(section), before, StoredKey(d, t));
    var kept := if NewerThanSection(d, message) then section else d.sections[t];
    assert Eval(SectionField(message, receivedAt).value, before) == Some(Literal(SectionJson(kept)));
    EncodeReplaced(message.deviceId, d, t, kept, LastEventOf(message, receivedAt));
    assert d.sections[t := kept] == Merge(d, message, receivedAt).sections;
  }

  lemma LastEventStep(d: DeviceDoc, sections: map<EventType, Section>, message: Message, receivedAt: int)
    ensures var value := Eval(LastEventField(message, receivedAt).value, Encode(message.deviceId, d));
      && value.Some? && value.value != Missing
      && Encode(message.deviceId, d.(sections := sections))["lastEvent" := value.value]
         == Encode(message.deviceId, DeviceDoc(sections, Merge(d, message, receivedAt).lastEvent))
  {
    var t, last := message.Type(), LastEventOf(message, receivedAt);
    var stored := if d.lastEvent.Some? then Some(d.lastEvent.value.key) else None;
    EncodedWatermarks(message.deviceId, d, t);
    GuardedMeans("lastEvent", message.key, LastEventJson(last), Encode(message.deviceId, d), stored);
    var kept := if NewerThanLastEvent(d, message) then last else d.lastEvent.value;
    assert Eval(LastEventField(message, receivedAt).value, Encode(message.deviceId, d)) == Some(Literal(LastEventJson(kept)));
    EncodeReplaced(message.deviceId, d.(sections := sections), t, SectionOf(message, receivedAt), kept);
  }

  /**
   * The pipeline means the rule: run by the server on the stored form of any document, it stores
   * exactly what `Merge` says, whatever strings the payload carries.
   */
  lemma PipelineMeansMerge(d: DeviceDoc, message: Message, receivedAt: int)
    ensures BuildStateUpdate(message, receivedAt).filterId == message.deviceId
    ensures ApplyPipeline(BuildStateUpdate(message, receivedAt).pipeline, Encode(message.deviceId, d))
         == Some(Encode(message.deviceId, Merge(d, message, receivedAt)))
  {
    SectionStep(d, message, receivedAt);
    LastEventStep(d, Merge(d, message, receivedAt).sections, message, receivedAt);
    RunSetOfTwo(SectionField(message, receivedAt), LastEventField(message, receivedAt), Encode(message.deviceId, d));
  }

  // ---------- What a replaced section holds ----------

  /** The name of the section of a message in the stored document. */
  function SectionName(m: Message): string {
    match m.payload
    case StatusPayload(_) => "status"
    case MetricsPayload(_, _, _) => "metrics"
    case CountersPayload(_, _) => "counters"
    case DiagnosticPayload(_, _, _) => "diagnostic"
  }

  /** The stored fields of a section, by name and value: the watermark of the message and its own payload, nothing else. */
  ghost predicate HoldsMessage(stored: Document, m: Message, receivedAt: int) {
    && "sessionId" in stored && stored["sessionId"] == Num(m.key.sessionId as real)
    && "seq" in stored && stored["seq"] == Num(m.key.seqNo as real)
    && "occurredAt" in stored && stored["occurredAt"] == Num(m.occurredAt as real)
    && "receivedAt" in stored && stored["receivedAt"] == Num(receivedAt as real)
    && (match m.payload
        case StatusPayload(state) =>
          && stored.Keys == {"state", "sessionId", "seq", "occurredAt", "receivedAt"}
          && (state == Online ==> stored["state"] == Str("online"))
          && (state == Degraded ==> stored["state"] == Str("degraded"))
          && (state == Offline ==> stored["state"] == Str("offline"))
        case MetricsPayload(temperatureC, cpuPercent, ramPercent) =>
          && stored.Keys == {"temperatureC", "cpuPercent", "ramPercent", "sessionId", "seq", "occurredAt", "receivedAt"}
          && stored["temperatureC"] == Num(temperatureC)
          && stored["cpuPercent"] == Num(cpuPercent)
          && stored["ramPercent"] == Num(ramPercent)
        case CountersPayload(operationsTotal, uptimeMs) =>
          && stored.Keys == {"operationsTotal", "uptimeMs", "sessionId", "seq", "occurredAt", "receivedAt"}
          && stored["operationsTotal"] == Num(operationsTotal as real)
          && stored["uptimeMs"] == Num(uptimeMs as real)
        case DiagnosticPayload(severity, code, text) =>
          && stored.Keys == {"severity", "code", "message", "sessionId", "seq", "occurredAt", "receivedAt"}
          && (severity == Info ==> stored["severity"] == Str("info"))
          && (severity == Warning ==> stored["severity"] == Str("warning"))
          && (severity == Error ==> stored["severity"] == Str("error"))
          && stored["code"] == Str(code)
          && stored["message"] == Str(text))
  }

  /** The names a section brings together differ. */
  lemma SectionNamesDiffer(fields: seq<Field>, payload: Payload)
    requires payload.StatusPayload? ==> |fields| == 5 && fields[0].name == "state"
    requires payload.MetricsPayload? ==>
      |fields| == 7 && fields[0].name == "temperatureC" && fields[1].name == "cpuPercent" && fields[2].name == "ramPercent"
    requires payload.CountersPayload? ==> |fields| == 6 && fields[0].name == "operationsTotal" && fields[1].name == "uptimeMs"
    requires payload.DiagnosticPayload? ==>
      |fields| == 7 && fields[0].name == "severity" && fields[1].name == "code" && fields[2].name == "message"
    requires var n := |fields| - 4;
      fields[n].name == "sessionId" && fields[n + 1].name == "seq" && fields[n + 2].name == "occurredAt" && fields[n + 3].name == "receivedAt"
    ensures NamesDiffer(fields)
  {
    assert "cpuPercent"[0] == 'c' && "ramPercent"[1] == 'a' && "occurredAt"[0] == 'o' && "receivedAt"[1] == 'e' && "receivedAt"[0] == 'r';
    assert "ramPercent"[0] == 'r';
  }

  lemma SectionHoldsMessage(m: Message, receivedAt: int)
    ensures var stored := Literal(SectionJson(SectionOf(m, receivedAt)));
      stored.Doc? && HoldsMessage(stored.fields, m, receivedAt)
  {
    hide LiteralFields, KeepsFields, HoldsMessage, NamesDiffer;
    var fields := SectionJson(SectionOf(m, receivedAt)).fields;
    SectionNamesDiffer(fields, m.payload);
    LiteralKeepsFields(fields);
    match m.payload
    case StatusPayload(_) => StatusFieldsHold(fields, LiteralFields(fields), m, receivedAt);
    case MetricsPayload(_, _, _) => MetricsFieldsHold(fields, LiteralFields(fields), m, receivedAt);
    case CountersPayload(_, _) => CountersFieldsHold(fields, LiteralFields(fields), m, receivedAt);
    case DiagnosticPayload(_, _, _) => DiagnosticFieldsHold(fields, LiteralFields(fields), m, receivedAt);
  }

  // Each shape by itself: its names, at their places, make up the stored document.

  lemma SevenNames(stored: Document, fields: seq<Field>)
    requires KeepsFields(stored, fields) && |fields| == 7
    ensures stored.Keys == {fields[0].name, fields[1].name, fields[2].name, fields[3].name, fields[4].name, fields[5].name, fields[6].name}
  {
    hide Literal;
  }

  lemma StatusFieldsHold(fields: seq<Field>, stored: Document, m: Message, receivedAt: int)
    requires m.payload.StatusPayload? && fields == SectionJson(SectionOf(m, receivedAt)).fields && KeepsFields(stored, fields)
    ensures HoldsMessage(stored, m, receivedAt)
  {
    hide LiteralFields, LiteralItems;
    assert fields[0].name == "state" && fields[1].name == "sessionId" && fields[2].name == "seq";
    assert fields[3].name == "occurredAt" && fields[4].name == "receivedAt";
  }

  lemma MetricsFieldsHold(fields: seq<Field>, stored: Document, m: Message, receivedAt: int)
    requires m.payload.MetricsPayload? && fields == SectionJson(SectionOf(m, receivedAt)).fields && KeepsFields(stored, fields)
    ensures HoldsMessage(stored, m, receivedAt)
  {
    hide LiteralFields, LiteralItems;
    SevenNames(stored, fields);
    assert fields[0].name == "temperatureC" && fields[1].name == "cpuPercent" && fields[2].name == "ramPercent";
    assert fields[3].name == "sessionId" && fields[4].name == "seq" && fields[5].name == "occurredAt";
    assert fields[6].name == "receivedAt";
  }

  lemma CountersFieldsHold(fields: seq<Field>, stored: Document, m: Message, receivedAt: int)
    requires m.payload.CountersPayload? && fields == SectionJson(SectionOf(m, receivedAt)).fields && KeepsFields(stored, fields)
    ensures HoldsMessage(stored, m, receivedAt)
  {
    hide LiteralFields, LiteralItems;
    assert fields[0].name == "operationsTotal" && fields[1].name == "uptimeMs" && fields[2].name == "sessionId";
    assert fields[3].name == "seq" && fields[4].name == "occurredAt" && fields[5].name == "receivedAt";
  }

  lemma DiagnosticFieldsHold(fields: seq<Field>, stored: Document, m: Message, receivedAt: int)
    requires m.payload.DiagnosticPayload? && fields == SectionJson(SectionOf(m, receivedAt)).fields && KeepsFields(stored, fields)
    ensures HoldsMessage(stored, m, receivedAt)
  {
    hide LiteralFields, LiteralItems;
    SevenNames(stored, fields);
    assert fields[0].name == "severity" && fields[1].name == "code" && fields[2].name == "message";
    assert fields[3].name == "sessionId" && fields[4].name == "seq" && fields[5].name == "occurredAt";
    assert fields[6].name == "receivedAt";
  }

  /**
   * What the update of a message leaves in the collection, field by field. A message that is newer than
   * its section replaces it with exactly its own payload under its watermark; one that is newer than all
   * is named in `lastEvent`; nothing else of the document changes.
   */
  lemma PipelineStoresTheMessage(d: DeviceDoc, m: Message, receivedAt: int)
    ensures var before := Encode(m.deviceId, d);
      var update := ApplyPipeline(BuildStateUpdate(m, receivedAt).pipeline, before);
      && update.Some?
      && var after, name := update.value, SectionName(m);
      && "_id" in after && after["_id"] == Str(m.deviceId)
      && name in after && "lastEvent" in after
      && (if NewerThanSection(d, m) then after[name].Doc? && HoldsMessage(after[name].fields, m, receivedAt)
          else name in before && after[name] == before[name])
      && (if NewerThanLastEvent(d, m) then
            after["lastEvent"] == Doc(map["sessionId" := Num(m.key.sessionId as real), "seq" := Num(m.key.seqNo as real),
                                          "type" := Str(name), "receivedAt" := Num(receivedAt as real)])
          else "lastEvent" in before && after["lastEvent"] == before["lastEvent"])
      && (forall other :: other != name && other != "lastEvent" ==>
            (other in after <==> other in before) && (other in after ==> after[other] == before[other]))
  {
    PipelineMeansMerge(d, m, receivedAt);
    hide ApplyPipeline, BuildStateUpdate;
    SectionHoldsMessage(m, receivedAt);
    LastEventStored(LastEventOf(m, receivedAt));
    assert TypeField(m.Type()) == SectionName(m);
    EncodedParts(m.deviceId, d, Merge(d, m, receivedAt), m.Type());
    EncodedWatermarks(m.deviceId, d, m.Type());
    EncodedWatermarks(m.deviceId, Merge(d, m, receivedAt), m.Type());
    hide Encode, HoldsMessage, Literal, SectionJson, LastEventJson, TypeField, SectionName;
  }

  /** Two documents of a device that differ in one section and in `lastEvent` at most. */
  lemma EncodedParts(deviceId: string, d: DeviceDoc, d': DeviceDoc, t: EventType)
    requires forall u: EventType :: u != t ==> (u in d.sections <==> u in d'.sections) && (u in d.sections ==> d'.sections[u] == d.sections[u])
    requires t in d'.sections && d'.lastEvent.Some?
    ensures var before, after, name := Encode(deviceId, d), Encode(deviceId, d'), TypeField(t);
      && "_id" in after && after["_id"] == Str(deviceId) && name in after && "lastEvent" in after
      && (t in d.sections <==> name in before) && (d.lastEvent.Some? <==> "lastEvent" in before)
      && (forall other :: other != name && other != "lastEvent" ==>
            (other in after <==> other in before) && (other in after ==> after[other] == before[other]))
  {
    FieldsHaveNames(t);
    hide Literal, SectionJson, LastEventJson;
  }

  /**
   * Why both replacements sit under `$literal`: read as an expression, a diagnostic text that
   * starts with `$` is a field path, and the stored text would be another field of the document.
   */
  lemma UnquotedTextIsRead(deviceId: string, d: DeviceDoc, key: OrderKey, occurredAt: int, receivedAt: int)
    ensures var payload := DiagnosticPayload(Info, "E", "$_id");
      && Eval(JObj([Field("message", JStr(payload.text))]), Encode(deviceId, d)) == Some(Doc(map["message" := Str(deviceId)]))
      && Literal(JObj([Field("message", JStr(payload.text))])) == Doc(map["message" := Str("$_id")])
  {
    var fields := [Field("message", JStr("$_id"))];
    EvalPath("_id", "", Encode(deviceId, d));
    assert fields[..0] == [];
    assert EvalFields([], Encode(deviceId, d)) == Some(map[]);
    assert "$" + "_id" == "$_id";
    LiteralSnoc([], fields[0]);
    assert [] + [fields[0]] == fields;
  }

  // ---------- Reading the outcome back ----------

  datatype StateOutcome = Created | Applied | Stale

  datatype SequenceGap = SequenceGap(previousSeq: int, seqNo: int)

  /** The outcome, from the document as it was before the write; `None` is no document. */
  function ClassifyOutcome(before: Option<DeviceDoc>, message: Message): StateOutcome {
    if before.None? then Created
    else if NewerThanSection(before.value, message) then Applied
    else Stale
  }

  function DetectGap(before: Option<DeviceDoc>, message: Message): Option<SequenceGap> {
    if before.None? || before.value.lastEvent.None? then None
    else
      var last := before.value.lastEvent.value.key;
      if last.sessionId != message.key.sessionId || message.key.seqNo <= last.seqNo + 1 then None
      else Some(SequenceGap(last.seqNo, message.key.seqNo))
  }

  /** `lastEvent` is the newest section, and agrees with it; without `lastEvent` there is no section. */
  predicate Coherent(d: DeviceDoc) {
    match d.lastEvent
    case None => d.sections == map[]
    case Some(last) =>
      && last.eventType in d.sections
      && d.sections[last.eventType].key == last.key
      && d.sections[last.eventType].receivedAt == last.receivedAt
      && forall t <- d.sections :: !IsNewer(d.sections[t].key, last.key)
  }

  /** Every write keeps the document coherent, whatever message it writes. */
  lemma MergeKeepsCoherent(d: DeviceDoc, message: Message, receivedAt: int)
    requires Coherent(d)
    ensures Coherent(Merge(d, message, receivedAt))
    ensures Merge(d, message, receivedAt).lastEvent.Some?
  {
    var d' := Merge(d, message, receivedAt);
    if d.lastEvent.Some? && !NewerThanLastEvent(d, message) {
      assert d'.lastEvent == d.lastEvent;
    } else {
      assert message.Type() in d'.sections && d'.sections[message.Type()] == SectionOf(message, receivedAt);
    }
  }

  /** On a document that exists, `stale` means that nothing at all changed, and only then. */
  lemma StaleChangesNothing(d: DeviceDoc, message: Message, receivedAt: int)
    requires Coherent(d)
    ensures ClassifyOutcome(Some(d), message) == Stale <==> Merge(d, message, receivedAt) == d
  {
    if ClassifyOutcome(Some(d), message) == Applied {
      var d' := Merge(d, message, receivedAt);
      assert d'.sections[message.Type()].key == message.key;
      assert message.Type() in d.sections ==> d.sections[message.Type()].key != message.key;
    }
  }

  /** What each outcome says of the write: there was no document, its section is this message's now, or nothing changed. */
  lemma OutcomeMeans(before: Option<DeviceDoc>, m: Message, receivedAt: int)
    requires before.Some? ==> Coherent(before.value)
    ensures var outcome := ClassifyOutcome(before, m);
      && (outcome == Created <==> before.None?)
      && (outcome == Stale <==> before.Some? && Merge(before.value, m, receivedAt) == before.value)
      && (outcome == Applied <==>
            && before.Some? && m.Type() in Merge(before.value, m, receivedAt).sections
            && Merge(before.value, m, receivedAt).sections != before.value.sections
            && Merge(before.value, m, receivedAt).sections[m.Type()].key == m.key)
  {
    if before.Some? {
      StaleChangesNothing(before.value, m, receivedAt);
      var d' := Merge(before.value, m, receivedAt);
      if m.Type() in before.value.sections && NewerThanSection(before.value, m) {
        assert d'.sections[m.Type()] != before.value.sections[m.Type()];
      }
    }
  }

  /**
   * A gap is reported exactly when some key of the message's own session lies between the last key of
   * the device and the message, and it names the two numbers around what is missing.
   */
  lemma GapMeans(before: Option<DeviceDoc>, m: Message)
    ensures DetectGap(before, m).Some? <==>
      && before.Some? && before.value.lastEvent.Some?
      && var last := before.value.lastEvent.value.key;
         last.sessionId == m.key.sessionId
         && exists skipped: int :: IsNewer(OrderKey(m.key.sessionId, skipped), last) && IsNewer(m.key, OrderKey(m.key.sessionId, skipped))
    ensures DetectGap(before, m).Some? ==>
      && before.value.lastEvent.value.key == OrderKey(m.key.sessionId, DetectGap(before, m).value.previousSeq)
      && m.key == OrderKey(m.key.sessionId, DetectGap(before, m).value.seqNo)
  {
    if before.Some? && before.value.lastEvent.Some? {
      var last := before.value.lastEvent.value.key;
      if last.sessionId == m.key.sessionId && last.seqNo + 1 < m.key.seqNo {
        assert IsNewer(OrderKey(m.key.sessionId, last.seqNo + 1), last);
      }
    }
  }

  /** A reported gap skips at least one number of the current session, and its message was applied. */
  lemma GapImpliesApplied(d: DeviceDoc, message: Message, receivedAt: int)
    requires Coherent(d)
    requires DetectGap(Some(d), message).Some?
    ensures ClassifyOutcome(Some(d), message) == Applied
    ensures Merge(d, message, receivedAt).lastEvent == Some(LastEventOf(message, receivedAt))
    ensures forall t <- d.sections :: IsNewer(message.key, d.sections[t].key)
    ensures IsNewer(OrderKey(message.key.sessionId, message.key.seqNo - 1), d.lastEvent.value.key)
  {
  }
}
