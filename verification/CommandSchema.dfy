/**
 The strict decoders' common ground: JSON values, descriptions of what a decoder accepts, and the decoder
 that every such description stands for. The descriptions of the two HTTP modules are values of `Schema`, so
 what is proved here for every schema holds for each of their decoders, however deeply nested.
 */
module CommandSchema {
  import opened Results

  /** The property names the decoders know, and any other. */
  datatype Key =
    | KType | KKind | KOperation | KId | KLabel | KTitle | KShortTitle | KKey | KFamily | KMetric | KScope | KValue
    | KUnit
    | KX | KY | KCenter | KWidth | KDepth | KRotationDegrees | KRadius | KStart | KEnd | KPoints | KPoint
    | KLayer | KElevationM | KCapacity | KCirculation | KRoute | KRestriction | KExit | KEmergency | KOccupancy
    | KGroupId
    | KRole | KCapacityPersonsPerMinute | KCapacityPersons | KDemandPersons | KClearWidthM | KCarCapacityPersons
    | KCycleSeconds
    | KServesZoneIds | KBlocksPath | KBlocksExitApproach
    | KDirection | KAccessible | KPurpose | KStaffOnly | KAccess | KReasonCode | KBlocksPlacement
    | KDesignatedExitObjectIds | KResponderOnly | KEquipmentClass | KCoverageRadiusM | KClearanceM | KBackupPowerMinutes
    | KPowerSourceCircuitId
    | KExpected | KMaximum | KMinimumCapacity | KMaximumCapacity | KZoneId | KExcludesUsableArea
    | KFootprint | KObjectId | KObject | KValues | KTargetObjectIds | KTargetRequirementIds | KSpatialEffects | KEffects
    | KSourceId | KSourceChecksum | KFingerprint
    | KPlanObjectId | KDeviationId | KDisposition | KLocation | KAffectedObjectIds | KAvailableConstraintIds | KChange
    | KIdempotencyKey | KExpectedRevision | KOperationId | KExpectedDeviationRevision | KProposalId | KGoal
    | KDeviationIds
    | KBetterWhen | KTolerance | KAbsolute | KRelative | KEvidenceRefs
    | KRunbookVersionId | KOccupancyMonitorId | KIncidentRegisterId | KDeviationRegisterId | KScenarioRunIds
    | KPredictions
    | KObservationId | KPredictionKey | KConfidence | KLessonId | KComparisonKey | KLessonCode | KFindingCode
    | KRecommendedActionCode | KRequirementIds | KConstraintIds | KTarget | KTemplateId | KVersion | KChanges
    | KChangeLessonLinks | KChangeId | KLessonIds | KExpectedProposalRevision | KDecision
    | KActorType | KActorId | KSource | KSessionId | KCommittedAt
    | Other(name: string)

  /** A number as JSON.parse delivers it; a literal out of range is infinite. */
  datatype Number = Finite(value: real) | NonFinite

  datatype Json = Null | Bool(flag: bool) | Num(number: Number) | Str(text: string)
                | Arr(items: seq<Json>) | Obj(fields: map<Key, Json>)

  // ---------- trimming ----------

  predicate IsSpace(c: char) {
    c == ' ' || '\U{0009}' <= c <= '\U{000D}' || c == '\U{00A0}' || c == '\U{1680}' || '\U{2000}' <= c <= '\U{200A}'
    || c == '\U{2028}' || c == '\U{2029}' || c == '\U{202F}' || c == '\U{205F}' || c == '\U{3000}' || c == '\U{FEFF}'
  }

  function TrimStart(s: string): string {
    if s != "" && IsSpace(s[0]) then TrimStart(s[1..]) else s
  }

  function TrimEnd(s: string): string {
    if s != "" && IsSpace(s[|s| - 1]) then TrimEnd(s[..|s| - 1]) else s
  }

  function Trim(s: string): string {
    TrimEnd(TrimStart(s))
  }

  predicate Trimmed(s: string) {
    s == "" || (!IsSpace(s[0]) && !IsSpace(s[|s| - 1]))
  }

  lemma {:induction false} TrimEndKeepsStart(s: string)
    requires s == "" || !IsSpace(s[0])
    ensures Trimmed(TrimEnd(s))
  {
    if s != "" && IsSpace(s[|s| - 1]) {
      TrimEndKeepsStart(s[..|s| - 1]);
    }
  }

  lemma {:induction false} TrimStartStarts(s: string)
    ensures TrimStart(s) == "" || !IsSpace(TrimStart(s)[0])
  {
    if s != "" && IsSpace(s[0]) {
      TrimStartStarts(s[1..]);
    }
  }

  /** What is left of a string without blanks at either end: only white space has gone. */
  ghost predicate IsCore(s: string, core: string, i: nat) {
    && i + |core| <= |s| && s[i..i + |core|] == core
    && (forall k :: 0 <= k < i || i + |core| <= k < |s| ==> IsSpace(s[k]))
    && Trimmed(core)
  }

  lemma {:induction false} TrimStartCuts(s: string) returns (i: nat)
    ensures i <= |s| && TrimStart(s) == s[i..] && forall k :: 0 <= k < i ==> IsSpace(s[k])
  {
    i := 0;
    if s != "" && IsSpace(s[0]) {
      i := TrimStartCuts(s[1..]);
      i := i + 1;
      assert forall k :: 0 < k < i ==> s[k] == s[1..][k - 1];
    }
  }

  lemma {:induction false} TrimEndCuts(s: string) returns (j: nat)
    ensures j <= |s| && TrimEnd(s) == s[..j] && forall k :: j <= k < |s| ==> IsSpace(s[k])
  {
    j := |s|;
    if s != "" && IsSpace(s[|s| - 1]) {
      j := TrimEndCuts(s[..|s| - 1]);
      assert s[..|s| - 1][..j] == s[..j];
      assert forall k :: j <= k < |s| - 1 ==> s[k] == s[..|s| - 1][k];
    }
  }

  lemma TrimTrims(s: string)
    ensures Trimmed(Trim(s))
    ensures Trimmed(s) ==> Trim(s) == s
    ensures exists i :: IsCore(s, Trim(s), i)
  {
    TrimStartStarts(s);
    TrimEndKeepsStart(TrimStart(s));
    var i := TrimStartCuts(s);
    var j := TrimEndCuts(s[i..]);
    assert s[i..][..j] == s[i..i + j];
    assert forall k :: i + j <= k < |s| ==> s[k] == s[i..][k - i];
    assert IsCore(s, Trim(s), i);
  }

  // ---------- descriptions ----------

  datatype Schema =
    | Text                                                // a string that is not blank, trimmed
    | RawTextOrNull                                       // any string, or null, as it is
    | FiniteNumber | FiniteOrNull | Natural | Boolean
    | OneOf(options: set<string>)
    | List(item: Schema, min: nat, max: Option<nat>)
    | DistinctTexts(most: nat)                            // a list of texts, no two alike once trimmed
    | Record(shape: Shape)
    | Tagged(tag: Key, cases: map<string, Shape>)         // the tag's text chooses the shape of the rest
    | Values(item: Schema)                                // any names, every value decoded
    | ScalarOr(shape: Shape)                              // a string, number or boolean as it is, or a record
    | IfPresent(key: Key, present: Shape, absent: Shape)  // `key`, if it is there, must be a field of `present`

  /** The properties a record may have; the `ignored` ones may be there too but are dropped. */
  datatype Shape = Shape(fields: map<Key, Field>, ignored: set<Key>)

  datatype Field = Need(schema: Schema) | May(schema: Schema)

  // ---------- the decoder ----------

  const MAX_SAFE := 9007199254740991.0

  predicate IsNatural(n: Number) {
    n.Finite? && n.value.Floor as real == n.value && 0.0 <= n.value <= MAX_SAFE
  }

  predicate NoRepeats(items: seq<Json>) {
    forall i, j :: 0 <= i < j < |items| ==> items[i] != items[j]
  }

  predicate LengthOk(n: nat, min: nat, max: Option<nat>) {
    min <= n && (max.Some? ==> n <= max.value)
  }

  function Decode(s: Schema, v: Json): Option<Json>
    decreases s
  {
    match s
    case Text => if v.Str? && Trim(v.text) != "" then Some(Str(Trim(v.text))) else None
    case RawTextOrNull => if v.Str? || v.Null? then Some(v) else None
    case FiniteNumber => if v.Num? && v.number.Finite? then Some(v) else None
    case FiniteOrNull => if v.Null? || (v.Num? && v.number.Finite?) then Some(v) else None
    case Natural => if v.Num? && IsNatural(v.number) then Some(v) else None
    case Boolean => if v.Bool? then Some(v) else None
    case OneOf(options) => if v.Str? && v.text in options then Some(v) else None
    case List(item, min, max) =>
      if !v.Arr? || !LengthOk(|v.items|, min, max) then None
      else if exists i :: 0 <= i < |v.items| && Decode(item, v.items[i]).None? then None
      else Some(Arr(seq(|v.items|, i requires 0 <= i < |v.items|
                        && Decode(item, v.items[i]).Some? => Decode(item, v.items[i]).value)))
    case DistinctTexts(most) =>
      if !v.Arr? || |v.items| > most then None
      else if exists i :: 0 <= i < |v.items| && !(v.items[i].Str? && Trim(v.items[i].text) != "") then None
      else
        var items := seq(|v.items|, i requires 0 <= i < |v.items| && v.items[i].Str? => Str(Trim(v.items[i].text)));
        if NoRepeats(items) then Some(Arr(items)) else None
    case Record(shape) => if v.Obj? then Wrap(DecodeShape(shape, v.fields)) else None
    case Tagged(tag, cases) =>
      if !v.Obj? || tag !in v.fields || !v.fields[tag].Str? || v.fields[tag].text !in cases then None
      else
        (match DecodeShape(cases[v.fields[tag].text], v.fields - {tag})
         case None => None
         case Some(m) => Some(Obj(m[tag := v.fields[tag]])))
    case Values(item) =>
      if !v.Obj? || exists k :: k in v.fields && Decode(item, v.fields[k]).None? then None
      else Some(Obj(map k | k in v.fields && Decode(item, v.fields[k]).Some? :: Decode(item, v.fields[k]).value))
    case ScalarOr(shape) =>
      if v.Str? || v.Num? || v.Bool? then Some(v) else if v.Obj? then Wrap(DecodeShape(shape, v.fields)) else None
    case IfPresent(key, present, absent) =>
      if !v.Obj? then None
      else if key !in v.fields then Wrap(DecodeShape(absent, v.fields))
      else if key in present.fields then Wrap(DecodeShape(present, v.fields))
      else None
  }

  function Wrap(fields: Option<map<Key, Json>>): Option<Json> {
    match fields case None => None case Some(m) => Some(Obj(m))
  }

  /** A property is refused, or a needed one is missing. */
  predicate FieldFails(f: Field, o: map<Key, Json>, k: Key)
    decreases f
  {
    if k in o then Decode(f.schema, o[k]).None? else f.Need?
  }

  function DecodeShape(h: Shape, o: map<Key, Json>): Option<map<Key, Json>>
    decreases h
  {
    if !(o.Keys <= h.fields.Keys + h.ignored) then None
    else if exists k :: k in h.fields && FieldFails(h.fields[k], o, k) then None
    else Some(map k | k in h.fields && k in o && Decode(h.fields[k].schema, o[k]).Some? ::
              Decode(h.fields[k].schema, o[k]).value)
  }

  // ---------- the values a decoder returns ----------

  /** The normal forms of a schema, said without decoding. */
  ghost predicate NormalForm(s: Schema, v: Json)
    decreases s
  {
    match s
    case Text => v.Str? && v.text != "" && Trimmed(v.text)
    case RawTextOrNull => v.Str? || v.Null?
    case FiniteNumber => v.Num? && v.number.Finite?
    case FiniteOrNull => v.Null? || (v.Num? && v.number.Finite?)
    case Natural => v.Num? && IsNatural(v.number)
    case Boolean => v.Bool?
    case OneOf(options) => v.Str? && v.text in options
    case List(item, min, max) =>
      v.Arr? && LengthOk(|v.items|, min, max) && forall i :: 0 <= i < |v.items| ==> NormalForm(item, v.items[i])
    case DistinctTexts(most) =>
      && v.Arr? && |v.items| <= most && NoRepeats(v.items)
      && forall i :: 0 <= i < |v.items| ==> v.items[i].Str? && v.items[i].text != "" && Trimmed(v.items[i].text)
    case Record(shape) => v.Obj? && NormalShape(shape, v.fields)
    case Tagged(tag, cases) =>
      v.Obj? && tag in v.fields && v.fields[tag].Str? && v.fields[tag].text in cases
      && NormalShape(cases[v.fields[tag].text], v.fields - {tag})
    case Values(item) => v.Obj? && forall k :: k in v.fields ==> NormalForm(item, v.fields[k])
    case ScalarOr(shape) => v.Str? || v.Num? || v.Bool? || (v.Obj? && NormalShape(shape, v.fields))
    case IfPresent(key, present, absent) =>
      v.Obj? && if key in v.fields then NormalShape(present, v.fields) else NormalShape(absent, v.fields)
  }

  /** Only known properties, each in its own normal form, and no needed one missing. */
  ghost predicate NormalShape(h: Shape, o: map<Key, Json>)
    decreases h
  {
    && o.Keys <= h.fields.Keys
    && forall k :: k in h.fields ==> if k in o then NormalForm(h.fields[k].schema, o[k]) else h.fields[k].May?
  }

  lemma {:induction false} DecodedShapeIsNormal(h: Shape, o: map<Key, Json>)
    requires DecodeShape(h, o).Some?
    ensures NormalShape(h, DecodeShape(h, o).value)
    ensures DecodeShape(h, o).value.Keys == o.Keys * h.fields.Keys
    decreases h
  {
    forall k | k in h.fields
      ensures !FieldFails(h.fields[k], o, k)
      ensures k in o ==> NormalForm(h.fields[k].schema, Decode(h.fields[k].schema, o[k]).value)
    {
      assert !FieldFails(h.fields[k], o, k);
      if k in o {
        DecodedIsNormal(h.fields[k].schema, o[k]);
      }
    }
  }

  lemma {:induction false} DecodedIsNormal(s: Schema, v: Json)
    requires Decode(s, v).Some?
    ensures NormalForm(s, Decode(s, v).value)
    decreases s
  {
    match s
    case Text => TrimTrims(v.text);
    case List(item, min, max) =>
      forall i | 0 <= i < |v.items|
          ensures Decode(item, v.items[i]).Some? && NormalForm(item, Decode(item, v.items[i]).value) {
        DecodedIsNormal(item, v.items[i]);
      }
    case DistinctTexts(most) =>
      forall i | 0 <= i < |v.items|
          ensures v.items[i].Str? && Trim(v.items[i].text) != "" && Trimmed(Trim(v.items[i].text)) {
        TrimTrims(v.items[i].text);
      }
    case Record(shape) => DecodedShapeIsNormal(shape, v.fields);
    case Tagged(tag, cases) => DecodedTagIsNormal(s, v);
    case Values(item) =>
      forall k | k in v.fields
          ensures Decode(item, v.fields[k]).Some? && NormalForm(item, Decode(item, v.fields[k]).value) {
        DecodedIsNormal(item, v.fields[k]);
      }
    case ScalarOr(shape) => if v.Obj? { DecodedShapeIsNormal(shape, v.fields); }
    case IfPresent(key, present, absent) =>
      DecodedShapeIsNormal(if key in v.fields then present else absent, v.fields);
    case _ =>
  }

  lemma {:induction false} DecodedTagIsNormal(s: Schema, v: Json)
    requires s.Tagged? && Decode(s, v).Some?
    ensures NormalForm(s, Decode(s, v).value)
    decreases s, 0
  {
    var h, o := s.cases[v.fields[s.tag].text], v.fields - {s.tag};
    DecodedShapeIsNormal(h, o);
    var m := DecodeShape(h, o).value;
    assert m[s.tag := v.fields[s.tag]] - {s.tag} == m;
  }

  lemma {:induction false} NormalShapeIsFixed(h: Shape, o: map<Key, Json>)
    requires NormalShape(h, o)
    ensures DecodeShape(h, o) == Some(o)
    decreases h
  {
    forall k | k in h.fields
      ensures !FieldFails(h.fields[k], o, k)
      ensures k in o ==> Decode(h.fields[k].schema, o[k]) == Some(o[k])
    {
      if k in o {
        NormalIsFixed(h.fields[k].schema, o[k]);
      }
    }
    assert DecodeShape(h, o).value == o;
  }

  lemma {:induction false} NormalListIsFixed(s: Schema, v: Json)
    requires (s.List? || s.DistinctTexts?) && NormalForm(s, v)
    ensures Decode(s, v) == Some(v)
    decreases s, 0
  {
    if s.List? {
      forall i | 0 <= i < |v.items| ensures Decode(s.item, v.items[i]) == Some(v.items[i]) {
        NormalIsFixed(s.item, v.items[i]);
      }
      assert Decode(s, v).Some? && Decode(s, v).value.items == v.items;
    } else {
      forall i | 0 <= i < |v.items| ensures Str(Trim(v.items[i].text)) == v.items[i] {
        TrimTrims(v.items[i].text);
      }
      assert v.items == seq(|v.items|, i requires 0 <= i < |v.items| && v.items[i].Str? => Str(Trim(v.items[i].text)));
    }
  }

  lemma {:induction false} NormalIsFixed(s: Schema, v: Json)
    requires NormalForm(s, v)
    ensures Decode(s, v) == Some(v)
    decreases s
  {
    match s
    case Text => TrimTrims(v.text);
    case List(item, min, max) => NormalListIsFixed(s, v);
    case DistinctTexts(most) => NormalListIsFixed(s, v);
    case Record(shape) => NormalShapeIsFixed(shape, v.fields);
    case Tagged(tag, cases) =>
      NormalShapeIsFixed(cases[v.fields[tag].text], v.fields - {tag});
      assert (v.fields - {tag})[tag := v.fields[tag]] == v.fields;
    case Values(item) =>
      forall k | k in v.fields ensures Decode(item, v.fields[k]) == Some(v.fields[k]) {
        NormalIsFixed(item, v.fields[k]);
      }
      assert Decode(s, v).Some? && Decode(s, v).value.fields == v.fields;
    case ScalarOr(shape) => if v.Obj? { NormalShapeIsFixed(shape, v.fields); }
    case IfPresent(key, present, absent) =>
      NormalShapeIsFixed(if key in v.fields then present else absent, v.fields);
    case _ =>
  }

  /** A tag and a normal shape beside it make a normal value. */
  lemma {:induction false} TaggedComesBack(tag: Key, cases: map<string, Shape>, kind: string, o: map<Key, Json>)
    requires kind in cases && NormalShape(cases[kind], o) && tag !in o
    ensures Decode(Tagged(tag, cases), Obj(o[tag := Str(kind)])) == Some(Obj(o[tag := Str(kind)]))
  {
    assert o[tag := Str(kind)] - {tag} == o;
    NormalIsFixed(Tagged(tag, cases), Obj(o[tag := Str(kind)]));
  }

  /** The normal forms are exactly the values that decode to themselves. */
  lemma {:induction false} FixedExactlyWhenNormal(s: Schema, v: Json)
    ensures Decode(s, v) == Some(v) <==> NormalForm(s, v)
  {
    if NormalForm(s, v) { NormalIsFixed(s, v); }
    if Decode(s, v) == Some(v) { DecodedIsNormal(s, v); }
  }

  /** Decoding what was decoded changes nothing. */
  lemma {:induction false} DecodingTwiceIsDecodingOnce(s: Schema, v: Json)
    requires Decode(s, v).Some?
    ensures Decode(s, Decode(s, v).value) == Decode(s, v)
  {
    DecodedIsNormal(s, v);
    NormalIsFixed(s, Decode(s, v).value);
  }

  // ---------- decoding only trims and drops ----------

  /** The same value up to the blanks around strings and up to properties left out, at any depth. */
  ghost predicate Resembles(v: Json, x: Json)
    decreases x
  {
    match x
    case Str(text) => v.Str? && Trim(v.text) == Trim(text)
    case Arr(items) => v.Arr? && |v.items| == |items| && forall i :: 0 <= i < |items| ==>
        Resembles(v.items[i], items[i])
    case Obj(fields) => v.Obj? && forall k :: k in fields ==> k in v.fields && Resembles(v.fields[k], fields[k])
    case _ => v == x
  }

  lemma {:induction false} Itself(v: Json)
    ensures Resembles(v, v)
    decreases v
  {
    match v
    case Arr(items) => forall i | 0 <= i < |items| ensures Resembles(items[i], items[i]) { Itself(items[i]); }
    case Obj(fields) => forall k | k in fields ensures Resembles(fields[k], fields[k]) { Itself(fields[k]); }
    case _ =>
  }

  lemma {:induction false} DecodedShapeResembles(h: Shape, o: map<Key, Json>)
    requires DecodeShape(h, o).Some?
    ensures forall k :: k in DecodeShape(h, o).value ==> k in o && Resembles(o[k], DecodeShape(h, o).value[k])
    decreases h
  {
    forall k | k in h.fields && k in o
      ensures Decode(h.fields[k].schema, o[k]).Some? && Resembles(o[k], Decode(h.fields[k].schema, o[k]).value)
    {
      assert !FieldFails(h.fields[k], o, k);
      DecodedResembles(h.fields[k].schema, o[k]);
    }
  }

  /** Whatever comes out is what came in, trimmed in places and without some properties. */
  lemma {:induction false} DecodedResembles(s: Schema, v: Json)
    requires Decode(s, v).Some?
    ensures Resembles(v, Decode(s, v).value)
    decreases s
  {
    match s
    case Text => TrimTrims(v.text);
    case List(item, min, max) =>
      forall i | 0 <= i < |v.items|
          ensures Decode(item, v.items[i]).Some? && Resembles(v.items[i], Decode(item, v.items[i]).value) {
        DecodedResembles(item, v.items[i]);
      }
    case DistinctTexts(most) =>
      forall i | 0 <= i < |v.items| ensures v.items[i].Str? && Resembles(v.items[i], Str(Trim(v.items[i].text))) {
        TrimTrims(v.items[i].text);
      }
    case Record(shape) => DecodedShapeResembles(shape, v.fields);
    case Tagged(tag, cases) => DecodedShapeResembles(cases[v.fields[tag].text], v.fields - {tag});
    case Values(item) =>
      forall k | k in v.fields
          ensures Decode(item, v.fields[k]).Some? && Resembles(v.fields[k], Decode(item, v.fields[k]).value) {
        DecodedResembles(item, v.fields[k]);
      }
    case ScalarOr(shape) => if v.Obj? { DecodedShapeResembles(shape, v.fields); } else { Itself(v); }
    case IfPresent(key, present, absent) => DecodedShapeResembles(if key in v.fields then present
                                                                  else absent, v.fields);
    case _ => Itself(v);
  }

  /** A record keeps every property it knows and drops only what it was told to ignore. */
  lemma {:induction false} RecordsDropOnlyTheIgnored(h: Shape, o: map<Key, Json>)
    requires DecodeShape(h, o).Some?
    ensures DecodeShape(h, o).value.Keys == o.Keys * h.fields.Keys
    ensures o.Keys - DecodeShape(h, o).value.Keys <= h.ignored
  {
    DecodedShapeIsNormal(h, o);
  }

  // ---------- what is accepted ----------

  predicate Blank(s: string) {
    forall i :: 0 <= i < |s| ==> IsSpace(s[i])
  }

  lemma {:induction false} TrimEndBlank(s: string)
    ensures TrimEnd(s) == "" <==> Blank(s)
  {
    if s != "" && IsSpace(s[|s| - 1]) {
      TrimEndBlank(s[..|s| - 1]);
      assert s == s[..|s| - 1] + [s[|s| - 1]];
    }
  }

  lemma {:induction false} TrimStartBlank(s: string)
    ensures Blank(TrimStart(s)) <==> Blank(s)
  {
    if s != "" && IsSpace(s[0]) {
      TrimStartBlank(s[1..]);
      assert s == [s[0]] + s[1..];
    }
  }

  lemma TrimBlank(s: string)
    ensures Trim(s) == "" <==> Blank(s)
  {
    TrimEndBlank(TrimStart(s));
    TrimStartBlank(s);
  }

  predicate NoTextTwice(items: seq<Json>) {
    forall i, j :: 0 <= i < j < |items| && items[i].Str? && items[j].Str? ==> Trim(items[i].text) != Trim(items[j].text)
  }

  /** What a decoder asks of its input, without what it makes of it. */
  ghost predicate Acceptable(s: Schema, v: Json)
    decreases s
  {
    match s
    case Text => v.Str? && !Blank(v.text)
    case List(item, min, max) =>
      v.Arr? && LengthOk(|v.items|, min, max) && forall i :: 0 <= i < |v.items| ==> Acceptable(item, v.items[i])
    case DistinctTexts(most) =>
      && v.Arr? && |v.items| <= most && NoTextTwice(v.items)
      && forall i :: 0 <= i < |v.items| ==> v.items[i].Str? && !Blank(v.items[i].text)
    case Record(shape) => v.Obj? && AcceptableShape(shape, v.fields)
    case Tagged(tag, cases) =>
      v.Obj? && tag in v.fields && v.fields[tag].Str? && v.fields[tag].text in cases
      && AcceptableShape(cases[v.fields[tag].text], v.fields - {tag})
    case Values(item) => v.Obj? && forall k :: k in v.fields ==> Acceptable(item, v.fields[k])
    case ScalarOr(shape) => v.Str? || v.Num? || v.Bool? || (v.Obj? && AcceptableShape(shape, v.fields))
    case IfPresent(key, present, absent) =>
      v.Obj? && if key in v.fields then key in present.fields && AcceptableShape(present, v.fields)
          else AcceptableShape(absent, v.fields)
    case _ => NormalForm(s, v)
  }

  ghost predicate AcceptableShape(h: Shape, o: map<Key, Json>)
    decreases h
  {
    && o.Keys <= h.fields.Keys + h.ignored
    && forall k :: k in h.fields ==> if k in o then Acceptable(h.fields[k].schema, o[k]) else h.fields[k].May?
  }

  lemma {:induction false} ShapeIsAcceptedIff(h: Shape, o: map<Key, Json>)
    ensures DecodeShape(h, o).Some? <==> AcceptableShape(h, o)
    decreases h
  {
    forall k | k in h.fields
      ensures FieldFails(h.fields[k], o, k) <==> !(if k in o then Acceptable(h.fields[k].schema, o[k])
                                                   else h.fields[k].May?)
    {
      if k in o {
        AcceptedIff(h.fields[k].schema, o[k]);
      }
    }
  }

  lemma {:induction false} DistinctTextsAreAcceptedIff(most: nat, v: Json)
    ensures Decode(DistinctTexts(most), v).Some? <==> Acceptable(DistinctTexts(most), v)
  {
    if v.Arr? && |v.items| <= most {
      forall i | 0 <= i < |v.items| && v.items[i].Str?
          ensures Trim(v.items[i].text) != "" <==> !Blank(v.items[i].text) {
        TrimBlank(v.items[i].text);
      }
      if forall i :: 0 <= i < |v.items| ==> v.items[i].Str? && Trim(v.items[i].text) != "" {
        var items := seq(|v.items|, i requires 0 <= i < |v.items| && v.items[i].Str? => Str(Trim(v.items[i].text)));
        assert forall i :: 0 <= i < |items| ==> items[i] == Str(Trim(v.items[i].text));
        assert NoRepeats(items) <==> NoTextTwice(v.items);
      }
    }
  }

  lemma {:induction false} ListIsAcceptedIff(s: Schema, v: Json)
    requires s.List?
    ensures Decode(s, v).Some? <==> Acceptable(s, v)
    decreases s, 0
  {
    if v.Arr? {
      forall i | 0 <= i < |v.items| ensures Decode(s.item, v.items[i]).Some? <==> Acceptable(s.item, v.items[i]) {
        AcceptedIff(s.item, v.items[i]);
      }
    }
  }

  lemma {:induction false} ValuesAreAcceptedIff(s: Schema, v: Json)
    requires s.Values?
    ensures Decode(s, v).Some? <==> Acceptable(s, v)
    decreases s, 0
  {
    if v.Obj? {
      forall k | k in v.fields ensures Decode(s.item, v.fields[k]).Some? <==> Acceptable(s.item, v.fields[k]) {
        AcceptedIff(s.item, v.fields[k]);
      }
    }
  }

  lemma {:induction false} TagIsAcceptedIff(s: Schema, v: Json)
    requires s.Tagged?
    ensures Decode(s, v).Some? <==> Acceptable(s, v)
    decreases s, 0
  {
    if v.Obj? && s.tag in v.fields && v.fields[s.tag].Str? && v.fields[s.tag].text in s.cases {
      ShapeIsAcceptedIff(s.cases[v.fields[s.tag].text], v.fields - {s.tag});
    }
  }

  lemma {:induction false} RecordIsAcceptedIff(s: Schema, v: Json)
    requires s.Record? || s.ScalarOr?
    ensures Decode(s, v).Some? <==> Acceptable(s, v)
    decreases s, 0
  {
    if v.Obj? {
      ShapeIsAcceptedIff(s.shape, v.fields);
    }
  }

  lemma {:induction false} EitherIsAcceptedIff(s: Schema, v: Json)
    requires s.IfPresent?
    ensures Decode(s, v).Some? <==> Acceptable(s, v)
    decreases s, 0
  {
    if v.Obj? {
      ShapeIsAcceptedIff(if s.key in v.fields then s.present else s.absent, v.fields);
    }
  }

  /** A value is accepted exactly when it meets what the schema asks for. */
  lemma {:induction false} AcceptedIff(s: Schema, v: Json)
    ensures Decode(s, v).Some? <==> Acceptable(s, v)
    decreases s
  {
    match s
    case Text => if v.Str? { TrimBlank(v.text); }
    case List(_, _, _) => ListIsAcceptedIff(s, v);
    case DistinctTexts(most) => DistinctTextsAreAcceptedIff(most, v);
    case Record(_) => RecordIsAcceptedIff(s, v);
    case Tagged(_, _) => TagIsAcceptedIff(s, v);
    case Values(_) => ValuesAreAcceptedIff(s, v);
    case ScalarOr(_) => RecordIsAcceptedIff(s, v);
    case IfPresent(_, _, _) => EitherIsAcceptedIff(s, v);
    case _ =>
  }

  // ---------- sending what was decoded ----------

  /** A value as it arrives after being written as JSON and parsed: an infinite number is written as null. */
  function Sent(v: Json): Json
    decreases v
  {
    match v
    case Num(NonFinite) => Null
    case Arr(items) => Arr(seq(|items|, i requires 0 <= i < |items| => Sent(items[i])))
    case Obj(fields) => Obj(map k | k in fields :: Sent(fields[k]))
    case _ => v
  }

  ghost predicate AllFinite(v: Json)
    decreases v
  {
    match v
    case Num(n) => n.Finite?
    case Arr(items) => forall i :: 0 <= i < |items| ==> AllFinite(items[i])
    case Obj(fields) => forall k :: k in fields ==> AllFinite(fields[k])
    case _ => true
  }

  /** A value arrives as it was exactly when all its numbers are finite. */
  lemma {:induction false} SentIsItselfIff(v: Json)
    ensures Sent(v) == v <==> AllFinite(v)
    decreases v
  {
    match v
    case Arr(items) =>
      forall i | 0 <= i < |items|
          ensures Sent(v).items[i] == items[i] <==> AllFinite(items[i]) { SentIsItselfIff(items[i]); }
      assert (forall i :: 0 <= i < |items| ==> Sent(v).items[i] == items[i]) <==> Sent(v).items == items;
    case Obj(fields) =>
      forall k | k in fields
          ensures Sent(v).fields[k] == fields[k] <==> AllFinite(fields[k]) { SentIsItselfIff(fields[k]); }
      assert (forall k :: k in fields ==> Sent(v).fields[k] == fields[k]) <==> Sent(v).fields == fields;
    case _ =>
  }

  /** Every normal form is decoded to itself after being sent, or refused because one of its numbers was infinite. */
  lemma {:induction false} SentDecodes(s: Schema, v: Json)
    requires NormalForm(s, v)
    ensures Decode(s, Sent(v)) == if AllFinite(v) then Some(v) else None
    decreases s
  {
    if AllFinite(v) {
      SentIsItselfIff(v);
      NormalIsFixed(s, v);
    } else {
      InfiniteIsRefused(s, v);
    }
  }

  lemma {:induction false} OneBadField(h: Shape, o: map<Key, Json>, k: Key)
    requires k in h.fields && k in o && Decode(h.fields[k].schema, o[k]).None?
    ensures DecodeShape(h, o).None?
  {
    assert FieldFails(h.fields[k], o, k);
  }

  lemma {:induction false} InfiniteShapeIsRefused(h: Shape, o: map<Key, Json>)
    requires NormalShape(h, o) && !AllFinite(Obj(o))
    ensures DecodeShape(h, Sent(Obj(o)).fields).None?
    decreases h
  {
    var k :| k in o && !AllFinite(o[k]);
    InfiniteIsRefused(h.fields[k].schema, o[k]);
    OneBadField(h, Sent(Obj(o)).fields, k);
  }

  lemma {:induction false} InfiniteListIsRefused(s: Schema, v: Json)
    requires s.List? && NormalForm(s, v) && !AllFinite(v)
    ensures Decode(s, Sent(v)).None?
    decreases s, 0
  {
    var i :| 0 <= i < |v.items| && !AllFinite(v.items[i]);
    InfiniteIsRefused(s.item, v.items[i]);
    assert Decode(s.item, Sent(v).items[i]).None?;
  }

  /** The tag, a text, makes no difference to what is finite. */
  lemma {:induction false} TagIsFinite(v: Json, tag: Key)
    requires v.Obj? && tag in v.fields && v.fields[tag].Str?
    ensures AllFinite(v) <==> AllFinite(Obj(v.fields - {tag}))
  {
    var o := v.fields - {tag};
    if AllFinite(Obj(o)) {
      forall k | k in v.fields ensures AllFinite(v.fields[k]) {
        assert k == tag || AllFinite(o[k]);
      }
    }
    if AllFinite(v) {
      forall k | k in o ensures AllFinite(o[k]) {
        assert AllFinite(v.fields[k]);
      }
    }
  }

  lemma {:induction false} SentWithoutTag(v: Json, tag: Key)
    requires v.Obj? && tag in v.fields && v.fields[tag].Str?
    ensures Sent(v).fields - {tag} == Sent(Obj(v.fields - {tag})).fields
    ensures tag in Sent(v).fields && Sent(v).fields[tag] == v.fields[tag]
  {
  }

  lemma {:induction false} InfiniteTagIsRefused(s: Schema, v: Json)
    requires s.Tagged? && NormalForm(s, v) && !AllFinite(v)
    ensures Decode(s, Sent(v)).None?
    decreases s, 0
  {
    TagIsFinite(v, s.tag);
    SentWithoutTag(v, s.tag);
    InfiniteShapeIsRefused(s.cases[v.fields[s.tag].text], v.fields - {s.tag});
  }

  lemma {:induction false} InfiniteValueIsRefused(s: Schema, v: Json)
    requires s.Values? && NormalForm(s, v) && !AllFinite(v)
    ensures Decode(s, Sent(v)).None?
    decreases s, 0
  {
    var k :| k in v.fields && !AllFinite(v.fields[k]);
    InfiniteIsRefused(s.item, v.fields[k]);
    assert Decode(s.item, Sent(v).fields[k]).None?;
  }

  lemma {:induction false} InfiniteScalarIsRefused(s: Schema, v: Json)
    requires s.ScalarOr? && NormalForm(s, v) && !AllFinite(v)
    ensures Decode(s, Sent(v)).None?
    decreases s, 0
  {
    if v.Obj? {
      InfiniteShapeIsRefused(s.shape, v.fields);
    } else {
      assert Sent(v) == Null;
    }
  }

  lemma {:induction false} InfiniteEitherIsRefused(s: Schema, v: Json)
    requires s.IfPresent? && NormalForm(s, v) && !AllFinite(v)
    ensures Decode(s, Sent(v)).None?
    decreases s, 0
  {
    InfiniteShapeIsRefused(if s.key in v.fields then s.present else s.absent, v.fields);
    assert s.key in Sent(v).fields <==> s.key in v.fields;
  }

  lemma {:induction false} InfiniteRecordIsRefused(s: Schema, v: Json)
    requires s.Record? && NormalForm(s, v) && !AllFinite(v)
    ensures Decode(s, Sent(v)).None?
    decreases s, 0
  {
    InfiniteShapeIsRefused(s.shape, v.fields);
  }

  /** The other kinds take no infinite number at all. */
  lemma {:induction false} PlainIsFinite(s: Schema, v: Json)
    requires NormalForm(s, v)
    requires !s.List? && !s.Record? && !s.Tagged? && !s.Values? && !s.ScalarOr? && !s.IfPresent?
    ensures AllFinite(v)
  {
  }

  lemma {:induction false} InfiniteIsRefused(s: Schema, v: Json)
    requires NormalForm(s, v) && !AllFinite(v)
    ensures Decode(s, Sent(v)).None?
    decreases s
  {
    match s
    case List(_, _, _) => InfiniteListIsRefused(s, v);
    case Record(_) => InfiniteRecordIsRefused(s, v);
    case Tagged(_, _) => InfiniteTagIsRefused(s, v);
    case Values(_) => InfiniteValueIsRefused(s, v);
    case ScalarOr(_) => InfiniteScalarIsRefused(s, v);
    case IfPresent(_, _, _) => InfiniteEitherIsRefused(s, v);
    case _ => PlainIsFinite(s, v);
  }

  // ---------- descriptions without loose scalars ----------

  /** Nothing in the schema takes a number that may be infinite. */
  predicate ScalarFree(s: Schema)
    decreases s
  {
    match s
    case ScalarOr(_) => false
    case List(item, _, _) => ScalarFree(item)
    case Record(shape) => ShapeScalarFree(shape)
    case Tagged(_, cases) => forall kind :: kind in cases ==> ShapeScalarFree(cases[kind])
    case Values(item) => ScalarFree(item)
    case IfPresent(_, present, absent) => ShapeScalarFree(present) && ShapeScalarFree(absent)
    case _ => true
  }

  predicate ShapeScalarFree(h: Shape)
    decreases h
  {
    forall k :: k in h.fields ==> ScalarFree(h.fields[k].schema)
  }

  lemma {:induction false} ScalarFreeShapeIsFinite(h: Shape, o: map<Key, Json>)
    requires ShapeScalarFree(h) && NormalShape(h, o)
    ensures AllFinite(Obj(o))
    decreases h
  {
    forall k | k in o ensures AllFinite(o[k]) {
      ScalarFreeIsFinite(h.fields[k].schema, o[k]);
    }
  }

  /** Where no loose scalar is taken, everything decoded is finite. */
  lemma {:induction false} ScalarFreeIsFinite(s: Schema, v: Json)
    requires ScalarFree(s) && NormalForm(s, v)
    ensures AllFinite(v)
    decreases s
  {
    match s
    case List(item, min, max) =>
      forall i | 0 <= i < |v.items| ensures AllFinite(v.items[i]) { ScalarFreeIsFinite(item, v.items[i]); }
    case Record(shape) => ScalarFreeShapeIsFinite(shape, v.fields);
    case Tagged(tag, cases) =>
      ScalarFreeShapeIsFinite(cases[v.fields[tag].text], v.fields - {tag});
      TagIsFinite(v, tag);
    case Values(item) =>
      forall k | k in v.fields ensures AllFinite(v.fields[k]) { ScalarFreeIsFinite(item, v.fields[k]); }
    case IfPresent(key, present, absent) =>
      ScalarFreeShapeIsFinite(if key in v.fields then present else absent, v.fields);
    case _ =>
  }

  // ---------- commands ----------

  /** Who a command comes from, as the server knows it. */
  datatype Identity = Identity(actorId: string, sessionId: string, committedAt: string)

  const IDENTITY_KEYS: set<Key> := {KActorType, KActorId, KSource, KSessionId, KCommittedAt}

  function Common(who: Identity): map<Key, Json> {
    map[KActorType := Str("human"), KActorId := Str(who.actorId), KSource := Str("studio"),
        KSessionId := Str(who.sessionId), KCommittedAt := Str(who.committedAt)]
  }

  datatype Refusal = Invalid | Unsupported(kind: string)

  /** The properties of the body come after the common ones, as in the object literals they are spread into. */
  function DecodeCommand(cases: map<string, Shape>, v: Json, who: Identity): Result<Json, Refusal> {
    if !v.Obj? || KType !in v.fields || !v.fields[KType].Str? then Err(Invalid)
    else if v.fields[KType].text !in cases then Err(Unsupported(v.fields[KType].text))
    else
      match Decode(Tagged(KType, cases), v)
      case None => Err(Invalid)
      case Some(body) => Ok(Obj(Common(who) + body.fields))
  }

  /** A command without its identity: what a client may say. */
  function Body(c: Json): Json
    requires c.Obj?
  {
    Obj(c.fields - IDENTITY_KEYS)
  }

  /** The body of a command as it arrives when a client sends it. */
  function Encode(c: Json): Json
    requires c.Obj?
  {
    Sent(Body(c))
  }

  ghost predicate ShapeKeepsIdentity(h: Shape) {
    forall k :: k in IDENTITY_KEYS ==> k !in h.fields && k !in h.ignored
  }

  /** No case has a property of the identity among its fields. */
  ghost predicate KeepsIdentity(cases: map<string, Shape>) {
    forall kind :: kind in cases ==> ShapeKeepsIdentity(cases[kind])
  }

  /** A well-formed command: the identity it was given, and a body in normal form. */
  ghost predicate IsCommandOf(cases: map<string, Shape>, who: Identity, c: Json) {
    && c.Obj? && NormalForm(Tagged(KType, cases), Body(c))
    && c.fields == Common(who) + Body(c).fields
  }

  /** The command says of itself who it comes from, and the rest of it is the body. */
  ghost predicate ComesFrom(c: Json, who: Identity, body: Json) {
    && c.Obj? && body.Obj?
    && c.fields.Keys == body.fields.Keys + {KActorType, KActorId, KSource, KSessionId, KCommittedAt}
    && c.fields[KActorType] == Str("human") && c.fields[KActorId] == Str(who.actorId)
    && c.fields[KSource] == Str("studio") && c.fields[KSessionId] == Str(who.sessionId)
    && c.fields[KCommittedAt] == Str(who.committedAt)
    && forall k :: k in body.fields ==> c.fields[k] == body.fields[k]
  }

  lemma {:induction false} BodyHasNoIdentity(cases: map<string, Shape>, body: Json)
    requires KeepsIdentity(cases) && NormalForm(Tagged(KType, cases), body)
    ensures body.fields.Keys !! IDENTITY_KEYS
  {
    assert body.fields.Keys <= cases[body.fields[KType].text].fields.Keys + {KType};
  }

  /**
   Every accepted input becomes a well-formed command under the given identity; what it says about an identity of its
   own refuses it, and the rest is what its body decodes to.
   */
  lemma {:induction false} AcceptedCommandsAreWellFormed(cases: map<string, Shape>, v: Json, who: Identity)
    requires KeepsIdentity(cases) && DecodeCommand(cases, v, who).Ok?
    ensures IsCommandOf(cases, who, DecodeCommand(cases, v, who).value)
    ensures v.fields.Keys !! {KActorType, KActorId, KSource, KSessionId, KCommittedAt}
    ensures Decode(Tagged(KType, cases), v).Some?
    ensures ComesFrom(DecodeCommand(cases, v, who).value, who, Decode(Tagged(KType, cases), v).value)
  {
    var body := AcceptedBody(cases, v, who);
    BodyOfCommand(who, body);
    CommandSaysItsOrigin(who, body);
  }

  lemma AcceptedBody(cases: map<string, Shape>, v: Json, who: Identity) returns (body: Json)
    requires KeepsIdentity(cases) && DecodeCommand(cases, v, who).Ok?
    ensures Decode(Tagged(KType, cases), v) == Some(body) && NormalForm(Tagged(KType, cases), body)
    ensures body.Obj? && body.fields.Keys !! IDENTITY_KEYS && v.fields.Keys !! IDENTITY_KEYS
    ensures DecodeCommand(cases, v, who) == Ok(Obj(Common(who) + body.fields))
  {
    body := Decode(Tagged(KType, cases), v).value;
    DecodedIsNormal(Tagged(KType, cases), v);
    BodyHasNoIdentity(cases, body);
    InputHasNoIdentity(cases, v);
  }

  lemma CommandSaysItsOrigin(who: Identity, body: Json)
    requires body.Obj? && body.fields.Keys !! IDENTITY_KEYS
    ensures ComesFrom(Obj(Common(who) + body.fields), who, body)
  {
    assert Common(who).Keys == IDENTITY_KEYS;
  }

  lemma BodyOfCommand(who: Identity, body: Json)
    requires body.Obj? && body.fields.Keys !! IDENTITY_KEYS
    ensures Body(Obj(Common(who) + body.fields)) == body
  {
    assert Common(who).Keys == IDENTITY_KEYS;
    assert (Common(who) + body.fields) - IDENTITY_KEYS == body.fields;
  }

  lemma {:induction false} InputHasNoIdentity(cases: map<string, Shape>, v: Json)
    requires KeepsIdentity(cases) && Decode(Tagged(KType, cases), v).Some?
    ensures v.fields.Keys !! IDENTITY_KEYS
  {
    var h := cases[v.fields[KType].text];
    assert v.fields.Keys <= h.fields.Keys + h.ignored + {KType};
    assert ShapeKeepsIdentity(h);
  }

  /**
   Sending a well-formed command again under its own identity gives the same command when all its numbers are
   finite, and is refused as invalid when one is not.
   */
  lemma CommandsComeBack(cases: map<string, Shape>, who: Identity, c: Json)
    requires KeepsIdentity(cases) && IsCommandOf(cases, who, c)
    ensures DecodeCommand(cases, Encode(c), who) == if AllFinite(Body(c)) then Ok(c) else Err(Invalid)
  {
    SentDecodes(Tagged(KType, cases), Body(c));
    assert Encode(c).fields[KType] == Sent(Body(c).fields[KType]);
  }

  /**
   For an accepted value, decoding, sending and decoding again is the identity exactly when all numbers are finite.
   */
  lemma AcceptedCommandsComeBackIff(cases: map<string, Shape>, v: Json, who: Identity)
    requires KeepsIdentity(cases) && DecodeCommand(cases, v, who).Ok?
    ensures var c := DecodeCommand(cases, v, who).value;
            DecodeCommand(cases, Encode(c), who) == DecodeCommand(cases, v, who) <==> AllFinite(Body(c))
  {
    AcceptedCommandsAreWellFormed(cases, v, who);
    CommandsComeBack(cases, who, DecodeCommand(cases, v, who).value);
  }
}
