/** The portable line format: one JSON object per line, tagged with what it records. */
module Portable {
  import opened EffectSink
  import opened Idempotency
  import opened Json
  import opened StepModel
  import opened Text
  import opened Wrappers

  datatype Record = MetaRecord(meta: RunMeta) | StepRecord(entry: Entry) | EffectRecord(row: EffectRow)

  // ---- Objects and their fields ----

  function Zip(keys: seq<string>, values: seq<Json>): seq<(string, Json)>
    requires |keys| == |values|
  {
    if |keys| == 0 then [] else Zip(keys[..|keys| - 1], values[..|keys| - 1]) + [(keys[|keys| - 1], values[|keys| - 1])]
  }

  /** o[key] of a parsed object: the last field of that name wins. */
  function Get(fields: seq<(string, Json)>, key: string): Option<Json>
  {
    if |fields| == 0 then None
    else if fields[|fields| - 1].0 == key then Some(fields[|fields| - 1].1)
    else Get(fields[..|fields| - 1], key)
  }

  ghost predicate Distinct(keys: seq<string>)
  {
    forall i, j | 0 <= i < j < |keys| :: keys[i] != keys[j]
  }

  lemma {:induction false} GetAt(keys: seq<string>, values: seq<Json>, i: nat)
    requires |keys| == |values| && i < |keys| && Distinct(keys)
    ensures Get(Zip(keys, values), keys[i]) == Some(values[i])
  {
    var n := |keys| - 1;
    var fields := Zip(keys, values);
    assert fields[..|fields| - 1] == Zip(keys[..n], values[..n]);
    if i < n {
      assert keys[i] != keys[n];
      GetAt(keys[..n], values[..n], i);
    }
  }

  // ---- Writing a record ----

  const META_KEYS := ["record", "schema", "runId", "parentRun", "forkedAtSeq", "trajectory", "createdAt"]
  const STEP_KEYS := ["record", "schema", "runId", "seq", "stepName", "kind", "idemKey", "output", "sideEffect",
    "seededFrom", "recordedAt"]
  const EFFECT_KEYS := ["record", "id", "runId", "trajectory", "stepName", "idemKey", "payload", "firedAt", "pid"]

  const META_TAG := "run_meta"
  const STEP_TAG := "step"
  const EFFECT_TAG := "effect"

  function OrNull(o: Option<string>): Json { if o.Some? then JStr(o.value) else JNull }

  function NumOrNull(o: Option<nat>): Json { if o.Some? then JNum(o.value) else JNull }

  function MetaValues(m: RunMeta): seq<Json>
  {
    [JStr(META_TAG), JNum(1), JStr(m.runId), OrNull(m.parentRun), NumOrNull(m.forkedAtSeq), JStr(m.trajectory),
      JStr(m.createdAt)]
  }

  function StepValues(e: Entry): seq<Json>
  {
    [JStr(STEP_TAG), JNum(1), JStr(e.runId), JNum(e.seqNo), JStr(e.stepName), JStr(e.kind), JStr(e.idemKey), e.output,
     JBool(e.sideEffect), OrNull(e.seededFrom), JStr(e.recordedAt)]
  }

  function EffectValues(row: EffectRow, payload: Json): seq<Json>
  {
    [JStr(EFFECT_TAG), JNum(row.id), JStr(row.runId), JStr(row.trajectory), JStr(row.stepName), JStr(row.idemKey),
      payload, JStr(row.firedAt), JNum(row.pid)]
  }

  /** An effect is written with its payload parsed, so its text must be JSON. */
  predicate Exportable(rec: Record) { rec.EffectRecord? ==> Parse(rec.row.payload).Some? }

  function Fields(rec: Record): seq<(string, Json)>
    requires Exportable(rec)
  {
    match rec
    case MetaRecord(m) => Zip(META_KEYS, MetaValues(m))
    case StepRecord(e) => Zip(STEP_KEYS, StepValues(e))
    case EffectRecord(row) => Zip(EFFECT_KEYS, EffectValues(row, Parse(row.payload).value))
  }

  function Line(rec: Record): string
    requires Exportable(rec)
  {
    Print(JObj(Fields(rec)))
  }

  // ---- Reading a record ----

  /** o ?? fallback */
  function OrElse(o: Option<Json>, fallback: Json): Json
  {
    if o.None? || o.value.JNull? then fallback else o.value
  }

  function OrField(o: Option<Json>, other: Option<Json>): Option<Json>
  {
    if o.None? || o.value.JNull? then other else o
  }

  /** String(x), except for arrays and objects. */
  function StringOf(o: Option<Json>): Option<string>
  {
    match o
    case None => Some("undefined")
    case Some(JStr(s)) => Some(s)
    case Some(JNull) => Some("null")
    case Some(JBool(b)) => Some(if b then "true" else "false")
    case Some(JNum(n)) => Some(PrintInt(n))
    case _ => None
  }

  /** The number a text of digits denotes in a base up to sixteen. */
  function RadixNat(s: string, base: nat): Option<nat>
  {
    if |s| == 0 then Some(0)
    else match (RadixNat(s[..|s| - 1], base), HexValue(s[|s| - 1]))
      case (Some(n), Some(d)) => if d < base then Some(base * n + d) else None
      case _ => None
  }

  /** Number(s) of a text, when that is a natural number written without fraction or exponent: white
      space around it, signs, and the prefixes of other bases are accepted, and blank text is 0. */
  function NumberText(s: string): Option<nat>
  {
    var t := Trim(s);
    if t == "" then Some(0)
    else if |t| > 2 && t[0] == '0' && t[1] in {'x', 'X'} then RadixNat(t[2..], 16)
    else if |t| > 2 && t[0] == '0' && t[1] in {'o', 'O'} then RadixNat(t[2..], 8)
    else if |t| > 2 && t[0] == '0' && t[1] in {'b', 'B'} then RadixNat(t[2..], 2)
    else if |t| > 1 && t[0] == '+' then RadixNat(t[1..], 10)
    else if |t| > 1 && t[0] == '-' then (if RadixNat(t[1..], 10) == Some(0) then Some(0) else None)
    else RadixNat(t, 10)
  }

  lemma {:induction false} RadixNumeric(s: string)
    requires forall i | 0 <= i < |s| :: IsDigit(s[i])
    ensures RadixNat(s, 10) == Some(Numeric(s))
  {
    if |s| > 0 { RadixNumeric(s[..|s| - 1]); }
  }

  /** A numeral is read as its number, with white space around it too. */
  lemma NumberOfNumeral(n: nat, text: string)
    requires Trim(text) == Decimal(n)
    ensures NumberText(text) == Some(n)
  {
    hide Decimal, Trim;
    NumericDecimal(n);
    RadixNumeric(Decimal(n));
    assert IsDigit(Decimal(n)[0]);
  }

  /** Number(x), when that is a natural number; arrays and objects are not converted. */
  function NatOf(o: Option<Json>): Option<nat>
  {
    match o
    case Some(JNum(n)) => if n >= 0 then Some(n) else None
    case Some(JNull) => Some(0)
    case Some(JBool(b)) => Some(if b then 1 else 0)
    case Some(JStr(s)) => NumberText(s)
    case _ => None
  }

  /** Boolean(x) */
  function Truthy(o: Option<Json>): bool
  {
    match o
    case None => false
    case Some(JNull) => false
    case Some(JBool(b)) => b
    case Some(JNum(n)) => n != 0
    case Some(JStr(s)) => s != ""
    case _ => true
  }

  /** The conversions of scalars: what is written as text, what counts as a number, and what counts as false. */
  lemma Conversions(o: Option<Json>)
    ensures o.None? ==> StringOf(o) == Some("undefined") && NatOf(o) == None && !Truthy(o)
    ensures StringOf(Some(JNull)) == Some("null") && NatOf(Some(JNull)) == Some(0)
    ensures StringOf(Some(JBool(true))) == Some("true") && NatOf(Some(JBool(true))) == Some(1)
    ensures StringOf(Some(JBool(false))) == Some("false") && NatOf(Some(JBool(false))) == Some(0)
    ensures o.Some? && o.value.JStr? ==> StringOf(o) == Some(o.value.s) && NatOf(o) == NumberText(o.value.s)
    ensures o.Some? && o.value.JNum? ==> StringOf(o) == Some(Print(o.value))
    ensures o.Some? && o.value.JNum? ==> NatOf(o) == if o.value.n < 0 then None else Some(o.value.n)
    ensures Truthy(o) <==> o.Some? && o.value !in {JNull, JBool(false), JNum(0), JStr("")}
  {
    hide NumberText;
  }

  /** A string or null; an absent field counts as null. */
  function NullableText(o: Option<Json>): Option<Option<string>>
  {
    match o
    case None => Some(None)
    case Some(JNull) => Some(None)
    case Some(JStr(s)) => Some(Some(s))
    case _ => None
  }

  function NullableNat(o: Option<Json>): Option<Option<nat>>
  {
    if o.None? || o.value.JNull? then Some(None)
    else match NatOf(o) case Some(n) => Some(Some(n)) case None => None
  }

  function HydrateStep(o: seq<(string, Json)>): Option<Entry>
  {
    var runId, seqNo, name := StringOf(Get(o, "runId")), NatOf(Get(o, "seq")), StringOf(Get(o, "stepName"));
    var kind, key, at := StringOf(Get(o, "kind")), StringOf(Get(o, "idemKey")), StringOf(Get(o, "recordedAt"));
    var output, from := Get(o, "output"), NullableText(Get(o, "seededFrom"));
    if runId.None? || seqNo.None? || name.None? || kind.None? || key.None? || at.None? || output.None? || from.None?
      then None
    else if !IsKeyText(key.value) then None
    else Some(Entry(runId.value, seqNo.value, name.value, kind.value, key.value, output.value,
      Truthy(Get(o, "sideEffect")), from.value, at.value))
  }

  function HydrateMeta(o: seq<(string, Json)>): Option<RunMeta>
  {
    var runId, parent, fork := StringOf(Get(o, "runId")), NullableText(Get(o, "parentRun")),
      NullableNat(Get(o, "forkedAtSeq"));
    var branch := StringOf(Some(OrElse(Get(o, "trajectory"), JStr("main"))));
    var created := StringOf(Some(OrElse(Get(o, "createdAt"), JStr(""))));
    if runId.None? || parent.None? || fork.None? || branch.None? || created.None? then None
    else Some(RunMeta(runId.value, parent.value, fork.value, branch.value, created.value))
  }

  /** typeof payload === "string" ? payload : JSON.stringify(payload ?? null) */
  function PayloadText(o: Option<Json>): string
  {
    match OrElse(o, JNull) case JStr(s) => s case j => Print(j)
  }

  function HydrateEffect(o: seq<(string, Json)>): Option<EffectRow>
  {
    var id, pid := NatOf(Some(OrElse(Get(o, "id"), JNum(0)))), NatOf(Some(OrElse(Get(o, "pid"), JNum(0))));
    var runId := StringOf(OrField(Get(o, "runId"), Get(o, "run_id")));
    var branch := StringOf(Some(OrElse(Get(o, "trajectory"), JStr("main"))));
    var name := StringOf(OrField(Get(o, "stepName"), Get(o, "step_name")));
    var key := StringOf(OrField(Get(o, "idemKey"), Get(o, "idem_key")));
    var fired := StringOf(Some(OrElse(OrField(Get(o, "firedAt"), Get(o, "fired_at")), JStr(""))));
    if id.None? || pid.None? || runId.None? || branch.None? || name.None? || key.None? || fired.None? then None
    else Some(EffectRow(id.value, runId.value, branch.value, name.value, key.value, PayloadText(Get(o, "payload")),
      fired.value, pid.value))
  }

  /** Which record an object is: tagged, a bare step when untagged, none when the tag is unknown. */
  function Dispatch(o: seq<(string, Json)>): Result<Option<Record>>
  {
    match Get(o, "record")
    case Some(JStr(tag)) =>
      if tag == META_TAG then (match HydrateMeta(o) case Some(m) =>
        Ok(Some(MetaRecord(m))) case None => Err(InvalidLine))
      else if tag == STEP_TAG then (match HydrateStep(o) case Some(e) =>
        Ok(Some(StepRecord(e))) case None => Err(InvalidLine))
      else if tag == EFFECT_TAG
        then (match HydrateEffect(o) case Some(row) => Ok(Some(EffectRecord(row))) case None => Err(InvalidLine))
      else Ok(None)
    case Some(_) => Ok(None)
    case None => (match HydrateStep(o) case Some(e) => Ok(Some(StepRecord(e))) case None => Err(InvalidLine))
  }

  function ReadLine(line: string): Result<Option<Record>>
  {
    var raw := Trim(line);
    if raw == "" then Ok(None)
    else match Parse(raw)
      case Some(JObj(o)) => Dispatch(o)
      case _ => Err(InvalidLine)
  }

  // ---- Reading what was written ----

  /** The payload text an import stores for a payload that was exported. */
  function Rewritten(payload: Json): string { PayloadText(Some(payload)) }

  /** What an import makes of an exported record. */
  function Received(rec: Record): Record
    requires Exportable(rec)
  {
    if rec.EffectRecord? then EffectRecord(rec.row.(payload := Rewritten(Parse(rec.row.payload).value))) else rec
  }

  /** Steps are read back through asIdempotencyKey, as they are from the live journal. */
  predicate Readable(rec: Record) { rec.StepRecord? ==> IsKeyText(rec.entry.idemKey) }

  lemma MetaKeysDistinct()
    ensures Distinct(META_KEYS)
  {
  }

  lemma StepKeysDistinct()
    ensures Distinct(STEP_KEYS)
  {
  }

  lemma EffectKeysDistinct()
    ensures Distinct(EFFECT_KEYS)
  {
  }

  lemma ReadField(keys: seq<string>, values: seq<Json>, i: nat, key: string)
    requires |keys| == |values| && i < |keys| && Distinct(keys) && keys[i] == key
    ensures Get(Zip(keys, values), key) == Some(values[i])
  {
    GetAt(keys, values, i);
  }

  lemma MetaRoundTrip(m: RunMeta)
    ensures var o := Fields(MetaRecord(m)); Get(o, "record") == Some(JStr(META_TAG)) && HydrateMeta(o) == Some(m)
  {
    hide Get, Zip, Distinct;
    MetaKeysDistinct();
    var values := MetaValues(m);
    ReadField(META_KEYS, values, 0, "record");
    ReadField(META_KEYS, values, 2, "runId");
    ReadField(META_KEYS, values, 3, "parentRun");
    ReadField(META_KEYS, values, 4, "forkedAtSeq");
    ReadField(META_KEYS, values, 5, "trajectory");
    ReadField(META_KEYS, values, 6, "createdAt");
  }

  lemma StepRoundTrip(e: Entry)
    requires IsKeyText(e.idemKey)
    ensures var o := Fields(StepRecord(e)); Get(o, "record") == Some(JStr(STEP_TAG)) && HydrateStep(o) == Some(e)
  {
    hide Get, Zip, Distinct, IsKeyText;
    StepKeysDistinct();
    var values := StepValues(e);
    ReadField(STEP_KEYS, values, 0, "record");
    ReadField(STEP_KEYS, values, 2, "runId");
    ReadField(STEP_KEYS, values, 3, "seq");
    ReadField(STEP_KEYS, values, 4, "stepName");
    ReadField(STEP_KEYS, values, 5, "kind");
    ReadField(STEP_KEYS, values, 6, "idemKey");
    ReadField(STEP_KEYS, values, 7, "output");
    ReadField(STEP_KEYS, values, 8, "sideEffect");
    ReadField(STEP_KEYS, values, 9, "seededFrom");
    ReadField(STEP_KEYS, values, 10, "recordedAt");
  }

  lemma EffectRoundTrip(row: EffectRow)
    requires Parse(row.payload).Some?
    ensures var o := Fields(EffectRecord(row));
      Get(o, "record") == Some(JStr(EFFECT_TAG))
        && HydrateEffect(o) == Some(row.(payload := Rewritten(Parse(row.payload).value)))
  {
    hide Get, Zip, Distinct, Parse, PayloadText;
    EffectKeysDistinct();
    var values := EffectValues(row, Parse(row.payload).value);
    ReadField(EFFECT_KEYS, values, 0, "record");
    ReadField(EFFECT_KEYS, values, 1, "id");
    ReadField(EFFECT_KEYS, values, 2, "runId");
    ReadField(EFFECT_KEYS, values, 3, "trajectory");
    ReadField(EFFECT_KEYS, values, 4, "stepName");
    ReadField(EFFECT_KEYS, values, 5, "idemKey");
    ReadField(EFFECT_KEYS, values, 6, "payload");
    ReadField(EFFECT_KEYS, values, 7, "firedAt");
    ReadField(EFFECT_KEYS, values, 8, "pid");
  }

  lemma TagsDiffer()
    ensures META_TAG != STEP_TAG && META_TAG != EFFECT_TAG && STEP_TAG != EFFECT_TAG
  {
  }

  lemma DispatchRoundTrip(rec: Record)
    requires Exportable(rec) && Readable(rec)
    ensures Dispatch(Fields(rec)) == Ok(Some(Received(rec)))
  {
    hide Get, Fields, HydrateMeta, HydrateStep, HydrateEffect, Parse, IsKeyText, Rewritten;
    TagsDiffer();
    match rec
    case MetaRecord(m) => MetaRoundTrip(m);
    case StepRecord(e) => StepRoundTrip(e);
    case EffectRecord(row) => EffectRoundTrip(row);
  }

  /** Every record that can be exported is read back from its line, effects with their payload rewritten. */
  lemma LineRoundTrip(rec: Record)
    requires Exportable(rec) && Readable(rec)
    ensures ReadLine(Line(rec)) == Ok(Some(Received(rec)))
    ensures NoNewline(Line(rec)) && Line(rec) != ""
  {
    TrimObject(Fields(rec));
    ParsePrint(JObj(Fields(rec)));
    PrintOneLine(JObj(Fields(rec)));
    hide Print, Fields, Trim, Parse, Dispatch, Received, Readable, Exportable;
    DispatchRoundTrip(rec);
  }

  /** The tags and the version are on the wire as these texts. */
  lemma WireTags(m: RunMeta, e: Entry, row: EffectRow)
    ensures Get(Fields(MetaRecord(m)), "record") == Some(JStr("run_meta"))
    ensures Get(Fields(MetaRecord(m)), "schema") == Some(JNum(1))
    ensures Get(Fields(StepRecord(e)), "record") == Some(JStr("step"))
    ensures Get(Fields(StepRecord(e)), "schema") == Some(JNum(1))
    ensures Parse(row.payload).Some? ==> Get(Fields(EffectRecord(row)), "record") == Some(JStr("effect"))
  {
    hide Get, Zip, Distinct, Parse;
    MetaKeysDistinct();
    StepKeysDistinct();
    EffectKeysDistinct();
    ReadField(META_KEYS, MetaValues(m), 0, "record");
    ReadField(META_KEYS, MetaValues(m), 1, "schema");
    ReadField(STEP_KEYS, StepValues(e), 0, "record");
    ReadField(STEP_KEYS, StepValues(e), 1, "schema");
    if Parse(row.payload).Some? { ReadField(EFFECT_KEYS, EffectValues(row, Parse(row.payload).value), 0, "record"); }
  }

  // ---- Lines that leave fields out, or name them the older way ----

  /** Metadata without lineage, branch or date is a root's, on branch "main", undated. */
  lemma ShortMeta(r: RunId)
    ensures HydrateMeta([("runId", JStr(r))]) == Some(RunMeta(r, None, None, "main", ""))
  {
    var o := [("runId", JStr(r))];
    assert o[..0] == [];
    assert Get(o, "runId") == Some(JStr(r)) && Get(o, "parentRun") == None && Get(o, "forkedAtSeq") == None;
    assert Get(o, "trajectory") == None && Get(o, "createdAt") == None;
  }

  const OLD_EFFECT_KEYS := ["run_id", "step_name", "idem_key", "fired_at"]

  /** An effect with the older field names, and without the rest, is read with the defaults: no id, no
      process, branch "main", payload null. */
  lemma OldEffect(row: EffectRow)
    ensures HydrateEffect(Zip(OLD_EFFECT_KEYS,
      [JStr(row.runId), JStr(row.stepName), JStr(row.idemKey), JStr(row.firedAt)]))
      == Some(EffectRow(0, row.runId, "main", row.stepName, row.idemKey, "null", row.firedAt, 0))
  {
    var values := [JStr(row.runId), JStr(row.stepName), JStr(row.idemKey), JStr(row.firedAt)];
    var o := Zip(OLD_EFFECT_KEYS, values);
    OldKeys();
    hide Zip, Get, Distinct, Print;
    ReadField(OLD_EFFECT_KEYS, values, 0, "run_id");
    ReadField(OLD_EFFECT_KEYS, values, 1, "step_name");
    ReadField(OLD_EFFECT_KEYS, values, 2, "idem_key");
    ReadField(OLD_EFFECT_KEYS, values, 3, "fired_at");
    NoField(OLD_EFFECT_KEYS, values, "id");
    NoField(OLD_EFFECT_KEYS, values, "pid");
    NoField(OLD_EFFECT_KEYS, values, "runId");
    NoField(OLD_EFFECT_KEYS, values, "trajectory");
    NoField(OLD_EFFECT_KEYS, values, "stepName");
    NoField(OLD_EFFECT_KEYS, values, "idemKey");
    NoField(OLD_EFFECT_KEYS, values, "firedAt");
    NoField(OLD_EFFECT_KEYS, values, "payload");
    NullText();
  }

  lemma NullText()
    ensures Print(JNull) == "null"
  {
  }

  lemma OldKeys()
    ensures Distinct(OLD_EFFECT_KEYS)
    ensures forall i | 0 <= i < |OLD_EFFECT_KEYS| ::
      OLD_EFFECT_KEYS[i] !in {"id", "pid", "runId", "trajectory", "stepName", "idemKey", "firedAt", "payload"}
  {
  }

  lemma {:induction false} NoField(keys: seq<string>, values: seq<Json>, key: string)
    requires |keys| == |values| && forall i | 0 <= i < |keys| :: keys[i] != key
    ensures Get(Zip(keys, values), key) == None
  {
    if |keys| > 0 {
      var n := |keys| - 1;
      var fields := Zip(keys, values);
      assert fields[..|fields| - 1] == Zip(keys[..n], values[..n]);
      NoField(keys[..n], values[..n], key);
    }
  }

  lemma OneDigit(c: char, base: nat)
    ensures RadixNat([c], base) == if HexValue(c).Some? && HexValue(c).value < base then HexValue(c) else None
  {
    assert [c][..0] == "";
    assert RadixNat("", base) == Some(0);
  }

  lemma TwoDigits(b: char, c: char, base: nat)
    ensures var high, low := RadixNat([b], base), RadixNat([c], base);
      RadixNat([b, c], base) == if high.Some? && low.Some? then Some(base * high.value + low.value) else None
  {
    OneDigit(c, base);
    assert [b, c][..1] == [b];
  }

  /** Texts where a number belongs: blank, signed, and ones that are no number. */
  lemma SignedTexts()
    ensures NumberText("") == Some(0) && NumberText("+7") == Some(7) && NumberText("-0") == Some(0)
    ensures NumberText("-7") == None && NumberText("7x") == None
  {
    assert "+7"[1..] == ['7'] && "-0"[1..] == ['0'] && "-7"[1..] == ['7'];
    hide RadixNat;
    OneDigit('7', 10);
    OneDigit('0', 10);
    OneDigit('x', 10);
    TwoDigits('7', 'x', 10);
  }

  /** Texts in other bases. */
  lemma HexText()
    ensures NumberText("0x1F") == Some(31)
  {
    assert "0x1F"[2..] == ['1', 'F'];
    hide RadixNat;
    OneDigit('1', 16);
    OneDigit('F', 16);
    TwoDigits('1', 'F', 16);
  }

  lemma OctalTexts()
    ensures NumberText("0o17") == Some(15) && NumberText("0o18") == None
  {
    assert "0o17"[2..] == ['1', '7'] && "0o18"[2..] == ['1', '8'];
    hide RadixNat;
    OneDigit('1', 8);
    OneDigit('7', 8);
    OneDigit('8', 8);
    TwoDigits('1', '7', 8);
    TwoDigits('1', '8', 8);
  }

  lemma BinaryTexts()
    ensures NumberText("0b10") == Some(2) && NumberText("0b12") == None
  {
    assert "0b10"[2..] == ['1', '0'] && "0b12"[2..] == ['1', '2'];
    hide RadixNat;
    OneDigit('1', 2);
    OneDigit('0', 2);
    OneDigit('2', 2);
    TwoDigits('1', '0', 2);
    TwoDigits('1', '2', 2);
  }

  // ---- Payloads ----

  /** What a reader of the stored text sees. */
  function SafeParse(raw: string): Json
  {
    match Parse(raw) case Some(j) => j case None => JStr(raw)
  }

  /** A string payload whose text is JSON itself would be read as that JSON after an import. */
  predicate Ambiguous(payload: Json) { payload.JStr? && Parse(payload.s).Some? }

  /** A payload reads the same after export and import exactly when it is not a string that is JSON text. */
  lemma PayloadSurvives(payload: Json)
    ensures SafeParse(Rewritten(payload)) == payload <==> !Ambiguous(payload)
  {
    match payload
    case JStr(s) =>
      if Parse(s).Some? { ParsedStringShorter(s); }
    case JNull => ParsePrint(JNull);
    case _ => ParsePrint(payload);
  }

  /** A JSON text that denotes a string is longer than the string. */
  lemma ParsedStringShorter(text: string)
    requires Parse(text).Some?
    ensures Parse(text).value != JStr(text)
  {
  }

  /** A JSON string that reads as a number once imported. */
  lemma AmbiguousExample()
    ensures Ambiguous(JStr("1")) && SafeParse(Rewritten(JStr("1"))) == JNum(1)
  {
    ParsePrint(JNum(1));
    assert Print(JNum(1)) == "1" by { assert Decimal(1) == [DigitChar(1)]; }
  }
}
