/**
 What the decoders ask of their input, record by record: which properties are texts, numbers, flags and counts, which
 may be missing, and what nothing else may be there. A value is accepted exactly if it meets the rule of its record.
 */
module DecoderRules {
  import opened Results
  import opened CommandSchema
  import D = DeviationCommands
  import P = PostEventCommands

  /** The properties of a record by what they have to be; those of the `may` sets need not be there. */
  datatype Rule = Rule(texts: set<Key>, mayTexts: set<Key>, numbers: set<Key>, mayNumbers: set<Key>,
                       flags: set<Key>, mayFlags: set<Key>, counts: set<Key>, others: map<Key, Field>,
                       dropped: set<Key>)

  const NOTHING := Rule({}, {}, {}, {}, {}, {}, {}, map[], {})

  /** The code points that JavaScript trims. */
  ghost predicate IsWhite(c: char) {
    c as int in {9, 10, 11, 12, 13, 32, 160, 5760, 8232, 8233, 8239, 8287, 12288, 65279} || 8192 <= c as int <= 8202
  }

  ghost predicate IsText(v: Json) {
    v.Str? && exists i :: 0 <= i < |v.text| && !IsWhite(v.text[i])
  }

  ghost predicate IsNumber(v: Json) {
    v.Num? && v.number.Finite?
  }

  ghost predicate IsCount(v: Json) {
    IsNumber(v) && v.number.value == v.number.value.Floor as real && 0 <= v.number.value.Floor <= 9007199254740991
  }

  ghost predicate Needs(r: Rule, k: Key) {
    k in r.texts || k in r.numbers || k in r.flags || k in r.counts || (k in r.others && r.others[k].Need?)
  }

  ghost predicate Knows(r: Rule, k: Key) {
    Needs(r, k) || k in r.mayTexts || k in r.mayNumbers || k in r.mayFlags || k in r.others
  }

  /** All that is needed is there, nothing that is not allowed is, and everything is what it has to be. */
  ghost predicate Meets(o: map<Key, Json>, r: Rule) {
    && (forall k :: Needs(r, k) ==> k in o)
    && (forall k :: k in o ==> Knows(r, k) || k in r.dropped)
    && (forall k :: k in o && k in r.texts + r.mayTexts ==> IsText(o[k]))
    && (forall k :: k in o && k in r.numbers + r.mayNumbers ==> IsNumber(o[k]))
    && (forall k :: k in o && k in r.flags + r.mayFlags ==> o[k].Bool?)
    && (forall k :: k in o && k in r.counts ==> IsCount(o[k]))
    && (forall k :: k in o && k in r.others ==> Acceptable(r.others[k].schema, o[k]))
  }

  /** The description of a decoder says of each property what the rule says. */
  ghost predicate Follows(h: Shape, r: Rule) {
    && h.ignored == r.dropped
    && (forall k :: k in h.fields ==> FieldFollows(h.fields[k], r, k))
    && (forall k :: Knows(r, k) ==> k in h.fields)
  }

  ghost predicate FieldFollows(f: Field, r: Rule, k: Key) {
    || (k in r.texts && f == Need(Text)) || (k in r.mayTexts && f == May(Text))
    || (k in r.numbers && f == Need(FiniteNumber)) || (k in r.mayNumbers && f == May(FiniteNumber))
    || (k in r.flags && f == Need(Boolean)) || (k in r.mayFlags && f == May(Boolean))
    || (k in r.counts && f == Need(Natural)) || (k in r.others && f == r.others[k])
  }

  /** No property is asked for in two ways. */
  ghost predicate IsPlain(r: Rule) {
    && r.texts !! r.mayTexts && r.texts + r.mayTexts !! r.numbers + r.mayNumbers && r.numbers !! r.mayNumbers
    && r.texts + r.mayTexts + r.numbers + r.mayNumbers !! r.flags + r.mayFlags && r.flags !! r.mayFlags
    && r.texts + r.mayTexts + r.numbers + r.mayNumbers + r.flags + r.mayFlags !! r.counts
    && r.texts + r.mayTexts + r.numbers + r.mayNumbers + r.flags + r.mayFlags + r.counts !! r.others.Keys
  }

  lemma WhiteIsSpace(c: char)
    ensures IsWhite(c) <==> IsSpace(c)
  {
  }

  lemma {:induction false} TextIff(v: Json)
    ensures Acceptable(Text, v) <==> IsText(v)
  {
    forall c: char ensures IsWhite(c) <==> IsSpace(c) {
      WhiteIsSpace(c);
    }
  }

  lemma {:induction false} ScalarIff(v: Json)
    ensures Acceptable(Text, v) <==> IsText(v)
    ensures Acceptable(FiniteNumber, v) <==> IsNumber(v)
    ensures Acceptable(Natural, v) <==> IsCount(v)
    ensures Acceptable(Boolean, v) <==> v.Bool?
  {
    TextIff(v);
  }

  ghost predicate ValueMeets(r: Rule, k: Key, v: Json) {
    && (k in r.texts + r.mayTexts ==> IsText(v)) && (k in r.numbers + r.mayNumbers ==> IsNumber(v))
    && (k in r.flags + r.mayFlags ==> v.Bool?) && (k in r.counts ==> IsCount(v))
    && (k in r.others ==> Acceptable(r.others[k].schema, v))
  }

  lemma {:induction false} FieldIff(f: Field, r: Rule, k: Key, v: Json)
    requires IsPlain(r) && FieldFollows(f, r, k)
    ensures Acceptable(f.schema, v) <==> ValueMeets(r, k, v)
    ensures f.Need? <==> Needs(r, k)
  {
    ScalarIff(v);
  }

  /** What follows a rule accepts exactly the values that meet it. */
  lemma {:induction false} ShapeMeetsItsRule(h: Shape, r: Rule, o: map<Key, Json>)
    requires IsPlain(r) && Follows(h, r)
    ensures AcceptableShape(h, o) <==> Meets(o, r)
  {
    forall k, v | k in h.fields
      ensures Acceptable(h.fields[k].schema, v) <==> ValueMeets(r, k, v)
      ensures h.fields[k].Need? <==> Needs(r, k)
    {
      FieldIff(h.fields[k], r, k, v);
    }
    assert forall k :: Needs(r, k) <==> k in h.fields && h.fields[k].Need?;
    assert forall k :: Knows(r, k) <==> k in h.fields;
    MeetsByValue(o, r);
  }

  lemma MeetsByValue(o: map<Key, Json>, r: Rule)
    ensures Meets(o, r) <==>
              && (forall k :: Needs(r, k) ==> k in o) && (forall k :: k in o ==> Knows(r, k) || k in r.dropped)
              && forall k :: k in o && Knows(r, k) ==> ValueMeets(r, k, o[k])
  {
  }

  const TEXTS := List(Text, 0, None)
  const IDS := DistinctTexts(100)

  /** What any footprint may say, although its kind does not use it. */
  const OF_FOOTPRINTS: set<Key> := {KCenter, KWidth, KDepth, KRotationDegrees, KRadius, KStart, KEnd, KPoints}

  const LAYERS: set<string> :=
    {"architecture", "furniture", "access", "production", "catering", "safety", "annotations"}

  function OfFlow(circulation: Schema, route: Schema, restriction: Schema): map<Key, Field> {
    map[KCirculation := May(circulation), KRoute := May(route), KRestriction := May(restriction)]
  }

  function OfSafety(exit: Schema, emergency: Schema, occupancy: Schema): map<Key, Field> {
    map[KExit := May(exit), KEmergency := May(emergency), KOccupancy := May(occupancy)]
  }

  /** What metadata may say beside scalars. */
  function OfMetadata(flow: map<Key, Field>, safety: map<Key, Field>): map<Key, Field> {
    flow + safety + map[KLayer := May(OneOf(LAYERS)), KGroupId := May(RawTextOrNull)]
  }

  const METRICS: set<string> :=
    {"peak-persons", "utilization-ratio", "average-wait-seconds", "p95-wait-seconds", "maximum-queue-persons",
     "abandonment-ratio", "clearance-seconds", "peak-congestion-index", "backlog-persons", "incident-count",
     "resolution-seconds"}

  // ---------- the rules of the deviation decoder ----------

  const POINT_RULE := NOTHING.(numbers := {KX, KY})

  const RECTANGLE_RULE :=
    NOTHING.(numbers := { KWidth, KDepth, KRotationDegrees},
             others := map[ KCenter := Need(D.POINT)],
             dropped := OF_FOOTPRINTS)

  const CIRCLE_RULE :=
    NOTHING.(numbers := { KRadius},
             others := map[ KCenter := Need(D.POINT)],
             dropped := OF_FOOTPRINTS)

  const LINE_RULE :=
    NOTHING.(numbers := { KWidth},
             others := map[ KStart := Need(D.POINT), KEnd := Need(D.POINT)],
             dropped := OF_FOOTPRINTS)

  const POLYGON_RULE :=
    NOTHING.(numbers := { KRotationDegrees},
             others := map[ KPoints := Need(List(D.POINT, 0, None))],
             dropped := OF_FOOTPRINTS)

  const PATCH_RULE :=
    NOTHING.(mayNumbers := { KWidth, KDepth, KRotationDegrees, KRadius},
             others := map[ KKind := May(OneOf({"rectangle", "circle", "line", "polygon"})),
                           KCenter := May(D.POINT), KStart := May(D.POINT), KEnd := May(D.POINT),
                           KPoints := May(List(D.POINT, 0, None))])

  const CIRCULATION_RULE :=
    NOTHING.(mayNumbers := { KCapacityPersonsPerMinute, KCapacityPersons, KDemandPersons, KClearWidthM,
                            KCarCapacityPersons, KCycleSeconds},
             mayFlags := { KBlocksPath, KBlocksExitApproach},
             others := map[ KRole := May(OneOf({"queue", "checkpoint"})), KServesZoneIds := May(TEXTS)])

  const ROUTE_RULE :=
    NOTHING.(texts := { KPurpose},
             flags := { KAccessible},
             mayFlags := { KStaffOnly},
             others := map[ KDirection := Need(OneOf({"one-way", "bidirectional"}))])

  const RESTRICTION_RULE :=
    NOTHING.(texts := { KReasonCode},
             flags := { KBlocksPlacement},
             others := map[ KAccess := Need(OneOf({"prohibited", "staff-only", "conditional"}))])

  const EXIT_RULE := NOTHING.(numbers := {KClearWidthM, KCapacityPersons}, flags := {KEmergency})

  const EMERGENCY_RULE :=
    NOTHING.(texts := { KType},
             mayTexts := { KEquipmentClass, KPowerSourceCircuitId},
             mayNumbers := { KCapacityPersons, KCoverageRadiusM, KClearanceM, KBackupPowerMinutes},
             mayFlags := { KResponderOnly, KAccessible},
             others := map[ KDesignatedExitObjectIds := May(TEXTS)])

  const OCCUPANCY_RULE :=
    NOTHING.(mayNumbers := { KExpected, KMaximum, KMinimumCapacity, KMaximumCapacity},
             mayFlags := { KExcludesUsableArea},
             others := map[ KZoneId := May(RawTextOrNull)])

  function MetadataRule(others: map<Key, Field>): Rule {
    NOTHING.(mayTexts := {KLabel}, mayNumbers := {KElevationM, KCapacity}, others := others)
  }

  function VenueObjectRule(footprint: Schema, others: map<Key, Field>): Rule {
    NOTHING.(texts := {KId, KKind}, mayTexts := {KLabel}, mayNumbers := {KElevationM, KCapacity},
             others := others[KFootprint := Need(footprint)])
  }

  function ChangeRule(mutation: Schema): Rule {
    NOTHING.(texts := {KId}, mayTexts := {KTitle, KShortTitle, KLabel},
             others := map[KTargetObjectIds := Need(TEXTS), KSpatialEffects := Need(List(mutation, 0, None))])
  }

  function RecordRule(location: Schema, change: Schema): Rule {
    NOTHING.(texts := {KDeviationId, KReasonCode, KIdempotencyKey}, counts := {KExpectedRevision},
             others := map[KDisposition := Need(OneOf({"temporary", "revision-candidate"})),
                           KLocation := Need(location), KAffectedObjectIds := Need(TEXTS),
                           KAvailableConstraintIds := Need(TEXTS), KChange := Need(change)],
             dropped := {KOperationId})
  }

  const END_RULE :=
    NOTHING.(texts := { KDeviationId, KReasonCode, KIdempotencyKey},
             counts := { KExpectedRevision, KExpectedDeviationRevision},
             dropped := { KOperationId})

  const PROPOSAL_RULE :=
    NOTHING.(texts := { KProposalId, KGoal, KIdempotencyKey},
             counts := { KExpectedRevision},
             others := map[ KDeviationIds := Need(TEXTS)],
             dropped := { KOperationId})

  // ---------- the rules of the review decoder ----------

  const EVIDENCE_REF_RULE :=
    NOTHING.(texts := { KId, KFingerprint},
             others := map[ KKind := Need(OneOf({"accepted-plan", "runbook", "occupancy-monitor",
                           "occupancy-projection", "incident-register", "deviation-register", "scenario-run"}))])

  const SCOPE_RULE :=
    NOTHING.(texts := { KId},
             others := map[ KKind := Need(OneOf({"venue", "occupancy-zone", "queue", "route",
                           "incident-category"}))])

  const TOLERANCE_RULE := NOTHING.(numbers := {KAbsolute, KRelative})

  const PREDICTION_RULE :=
    NOTHING.(texts := { KKey},
             numbers := { KValue},
             others := map[ KFamily := Need(OneOf({"occupancy", "queue", "flow", "incidents"})),
                           KMetric := Need(OneOf(METRICS)), KScope := Need(P.SCOPE), KUnit := Need(OneOf({"persons",
                           "ratio", "seconds", "index", "incidents"})), KBetterWhen := Need(OneOf({"lower",
                           "higher", "target"})), KTolerance := Need(P.TOLERANCE),
                           KEvidenceRefs := Need(List(P.EVIDENCE_REF, 1, Some(50)))])

  const EFFECT_RULE := NOTHING.(texts := {KKind, KSourceId, KSourceChecksum})

  const PLAIN_CHANGE_RULE :=
    NOTHING.(texts := { KId},
             mayTexts := { KTitle, KShortTitle, KLabel},
             others := map[ KTargetObjectIds := May(IDS), KTargetRequirementIds := May(IDS),
                           KEffects := May(Values(P.EFFECT))])

  const LINK_RULE := NOTHING.(texts := {KChangeId}, others := map[KLessonIds := Need(IDS)])

  const TARGET_RULE :=
    NOTHING.(texts := { KTemplateId, KVersion},
             others := map[ KKind := Need(OneOf({"venue", "room"}))])

  const OBSERVATION_RULE :=
    NOTHING.(texts := { KObservationId, KPredictionKey, KIdempotencyKey},
             counts := { KExpectedRevision},
             others := map[ KValue := Need(FiniteOrNull), KConfidence := Need(OneOf({"measured", "estimated",
                           "unavailable"})), KEvidenceRefs := Need(List(P.EVIDENCE_REF, 1, Some(50)))],
             dropped := { KOperationId})

  const LESSON_RULE :=
    NOTHING.(texts := { KLessonId, KComparisonKey, KLessonCode, KFindingCode, KRecommendedActionCode,
                       KIdempotencyKey},
             counts := { KExpectedRevision},
             others := map[ KRequirementIds := Need(IDS), KConstraintIds := Need(IDS)],
             dropped := { KOperationId})

  function ImprovementRule(target: Schema, change: Schema, link: Schema): Rule {
    NOTHING.(texts := {KProposalId, KGoal, KIdempotencyKey}, counts := {KExpectedRevision},
             others := map[KTarget := Need(target), KChanges := Need(List(change, 0, None)),
                           KChangeLessonLinks := Need(List(link, 0, None))],
             dropped := {KOperationId})
  }

  const REVIEW_RULE :=
    NOTHING.(texts := { KProposalId, KReasonCode, KIdempotencyKey},
             counts := { KExpectedProposalRevision, KExpectedRevision},
             others := map[ KDecision := Need(OneOf({"approved", "rejected"}))],
             dropped := { KOperationId})

  const CREATE_BODY_RULE :=
    NOTHING.(texts := { KRunbookVersionId, KOccupancyMonitorId, KIncidentRegisterId, KDeviationRegisterId},
             others := map[ KScenarioRunIds := Need(IDS), KPredictions := Need(List(P.PREDICTION, 1, Some(100)))])

  // ---------- each description follows its rule ----------

  lemma PointFollows()
    ensures IsPlain(POINT_RULE) && Follows(D.POINT.shape, POINT_RULE)
  {
  }

  lemma RectangleFollows()
    ensures IsPlain(RECTANGLE_RULE) && Follows(D.RECTANGLE, RECTANGLE_RULE)
  {
  }

  lemma CircleFollows()
    ensures IsPlain(CIRCLE_RULE) && Follows(D.CIRCLE, CIRCLE_RULE)
  {
  }

  lemma LineFollows()
    ensures IsPlain(LINE_RULE) && Follows(D.LINE, LINE_RULE)
  {
  }

  lemma PolygonFollows()
    ensures IsPlain(POLYGON_RULE) && Follows(D.POLYGON, POLYGON_RULE)
  {
  }

  lemma PatchFollows()
    ensures IsPlain(PATCH_RULE) && Follows(D.FOOTPRINT_PATCH.shape, PATCH_RULE)
  {
  }

  lemma CirculationFollows()
    ensures IsPlain(CIRCULATION_RULE) && Follows(D.CIRCULATION.shape, CIRCULATION_RULE)
  {
  }

  lemma RouteFollows()
    ensures IsPlain(ROUTE_RULE) && Follows(D.ROUTE.shape, ROUTE_RULE)
  {
  }

  lemma RestrictionFollows()
    ensures IsPlain(RESTRICTION_RULE) && Follows(D.RESTRICTION.shape, RESTRICTION_RULE)
  {
  }

  lemma ExitFollows()
    ensures IsPlain(EXIT_RULE) && Follows(D.EXIT.shape, EXIT_RULE)
  {
  }

  lemma EmergencyFollows()
    ensures IsPlain(EMERGENCY_RULE) && Follows(D.EMERGENCY.shape, EMERGENCY_RULE)
  {
  }

  lemma OccupancyFollows()
    ensures IsPlain(OCCUPANCY_RULE) && Follows(D.OCCUPANCY.shape, OCCUPANCY_RULE)
  {
  }

  /** The three parts of following a rule, each on its own. */
  lemma PartsFollow(h: Shape, r: Rule)
    requires h.ignored == r.dropped
    requires forall k :: k in h.fields ==> FieldFollows(h.fields[k], r, k)
    requires forall k :: Knows(r, k) ==> k in h.fields
    ensures Follows(h, r)
  {
  }

  lemma MetadataIsPlain(others: map<Key, Field>)
    requires others.Keys !! {KLabel, KElevationM, KCapacity}
    ensures IsPlain(MetadataRule(others))
  {
  }

  lemma FlowIs(circulation: Schema, route: Schema, restriction: Schema)
    ensures D.FlowMetadata(circulation, route, restriction) == OfFlow(circulation, route, restriction)
    ensures OfFlow(circulation, route, restriction).Keys == {KCirculation, KRoute, KRestriction}
  {
  }

  lemma SafetyIs(exit: Schema, emergency: Schema, occupancy: Schema)
    ensures D.SafetyMetadata(exit, emergency, occupancy) == OfSafety(exit, emergency, occupancy)
    ensures OfSafety(exit, emergency, occupancy).Keys == {KExit, KEmergency, KOccupancy}
  {
  }

  /** A property of the others follows a rule of metadata as it is. */
  lemma OtherFollows(others: map<Key, Field>, k: Key)
    requires k in others
    ensures FieldFollows(others[k], MetadataRule(others), k)
  {
  }

  lemma ScalarFollows(others: map<Key, Field>, k: Key)
    requires k in D.SCALAR_METADATA
    requires k in {KLayer, KGroupId} ==> k in others && others[k] == D.SCALAR_METADATA[k]
    ensures FieldFollows(D.SCALAR_METADATA[k], MetadataRule(others), k)
  {
  }

  lemma MetadataFieldFollows(flow: map<Key, Field>, safety: map<Key, Field>, k: Key)
    requires flow.Keys == {KCirculation, KRoute, KRestriction} && safety.Keys == {KExit, KEmergency, KOccupancy}
    requires k in D.SCALAR_METADATA + flow + safety
    ensures FieldFollows((D.SCALAR_METADATA + flow + safety)[k], MetadataRule(OfMetadata(flow, safety)), k)
  {
    var others := OfMetadata(flow, safety);
    if k in flow + safety {
      assert (D.SCALAR_METADATA + flow + safety)[k] == others[k];
      OtherFollows(others, k);
    } else {
      ScalarFollows(others, k);
    }
  }

  lemma MetadataKnows(flow: map<Key, Field>, safety: map<Key, Field>)
    ensures forall k :: Knows(MetadataRule(OfMetadata(flow, safety)), k) ==> k in D.SCALAR_METADATA + flow + safety
  {
  }

  lemma MetadataFollows(flow: map<Key, Field>, safety: map<Key, Field>)
    requires flow.Keys == {KCirculation, KRoute, KRestriction} && safety.Keys == {KExit, KEmergency, KOccupancy}
    ensures IsPlain(MetadataRule(OfMetadata(flow, safety)))
    ensures Follows(Shape(D.SCALAR_METADATA + flow + safety, {}), MetadataRule(OfMetadata(flow, safety)))
  {
    MetadataIsPlain(OfMetadata(flow, safety));
    forall k | k in D.SCALAR_METADATA + flow + safety
      ensures FieldFollows((D.SCALAR_METADATA + flow + safety)[k], MetadataRule(OfMetadata(flow, safety)), k)
    {
      MetadataFieldFollows(flow, safety, k);
    }
    MetadataKnows(flow, safety);
    PartsFollow(Shape(D.SCALAR_METADATA + flow + safety, {}), MetadataRule(OfMetadata(flow, safety)));
  }

  /** Which metadata of an object are accepted. */
  lemma {:induction false} MetadataIsDecodedIff(v: Json)
    ensures Decode(D.METADATA, v).Some? <==>
              v.Obj? && Meets(v.fields, MetadataRule(OfMetadata(OfFlow(D.CIRCULATION, D.ROUTE, D.RESTRICTION),
                                                                OfSafety(D.EXIT, D.EMERGENCY, D.OCCUPANCY))))
  {
    FlowIs(D.CIRCULATION, D.ROUTE, D.RESTRICTION);
    SafetyIs(D.EXIT, D.EMERGENCY, D.OCCUPANCY);
    var flow, safety := OfFlow(D.CIRCULATION, D.ROUTE, D.RESTRICTION), OfSafety(D.EXIT, D.EMERGENCY, D.OCCUPANCY);
    MetadataFollows(flow, safety);
    RecordIsDecodedIff(Shape(D.SCALAR_METADATA + flow + safety, {}), MetadataRule(OfMetadata(flow, safety)), v);
  }

  lemma VenueObjectIsPlain(footprint: Schema, others: map<Key, Field>)
    requires IsPlain(MetadataRule(others)) && others.Keys !! {KId, KKind, KFootprint}
    ensures IsPlain(VenueObjectRule(footprint, others))
  {
  }

  lemma VenueObjectFieldFollows(footprint: Schema, fields: map<Key, Field>, others: map<Key, Field>, k: Key)
    requires Follows(Shape(fields, {}), MetadataRule(others)) && others.Keys !! {KId, KKind, KFootprint}
    requires k in D.ObjectFields(footprint) + fields
    ensures FieldFollows((D.ObjectFields(footprint) + fields)[k], VenueObjectRule(footprint, others), k)
  {
    assert k in fields ==> FieldFollows(fields[k], MetadataRule(others), k);
  }

  lemma VenueObjectFollows(footprint: Schema, fields: map<Key, Field>, others: map<Key, Field>)
    requires IsPlain(MetadataRule(others)) && Follows(Shape(fields, {}), MetadataRule(others))
    requires others.Keys !! {KId, KKind, KFootprint}
    ensures IsPlain(VenueObjectRule(footprint, others))
    ensures Follows(Shape(D.ObjectFields(footprint) + fields, {}), VenueObjectRule(footprint, others))
  {
    VenueObjectIsPlain(footprint, others);
    var all, r := D.ObjectFields(footprint) + fields, VenueObjectRule(footprint, others);
    forall k | k in all ensures FieldFollows(all[k], r, k) {
      VenueObjectFieldFollows(footprint, fields, others, k);
    }
    forall k | Knows(r, k) ensures k in all {
      assert k in {KId, KKind, KFootprint} || Knows(MetadataRule(others), k);
    }
    PartsFollow(Shape(all, {}), r);
  }

  lemma ChangeFollows(mutation: Schema)
    ensures IsPlain(ChangeRule(mutation)) && Follows(D.PlanningChangeShape(mutation), ChangeRule(mutation))
  {
  }

  lemma RecordIsPlain(location: Schema, change: Schema)
    ensures IsPlain(RecordRule(location, change))
    ensures forall k :: Knows(RecordRule(location, change), k) ==> k in D.RecordDeviation(location, change).fields
  {
  }

  lemma RecordFieldFollows(location: Schema, change: Schema, k: Key)
    requires k in D.RecordDeviation(location, change).fields
    ensures FieldFollows(D.RecordDeviation(location, change).fields[k], RecordRule(location, change), k)
  {
  }

  lemma RecordFollows(location: Schema, change: Schema)
    ensures IsPlain(RecordRule(location, change))
    ensures Follows(D.RecordDeviation(location, change), RecordRule(location, change))
  {
    var h, r := D.RecordDeviation(location, change), RecordRule(location, change);
    RecordIsPlain(location, change);
    forall k | k in h.fields ensures FieldFollows(h.fields[k], r, k) {
      RecordFieldFollows(location, change, k);
    }
    PartsFollow(h, r);
  }

  lemma EndFollows()
    ensures IsPlain(END_RULE) && Follows(D.END_DEVIATION, END_RULE)
  {
  }

  lemma ProposalFollows()
    ensures IsPlain(PROPOSAL_RULE) && Follows(D.CREATE_PROPOSAL, PROPOSAL_RULE)
  {
  }

  lemma EvidenceRefFollows()
    ensures IsPlain(EVIDENCE_REF_RULE) && Follows(P.EVIDENCE_REF.shape, EVIDENCE_REF_RULE)
  {
  }

  lemma ScopeFollows()
    ensures IsPlain(SCOPE_RULE) && Follows(P.SCOPE.shape, SCOPE_RULE)
  {
  }

  lemma ToleranceFollows()
    ensures IsPlain(TOLERANCE_RULE) && Follows(P.TOLERANCE.shape, TOLERANCE_RULE)
  {
  }

  lemma PredictionFollows()
    ensures IsPlain(PREDICTION_RULE) && Follows(P.PREDICTION.shape, PREDICTION_RULE)
  {
  }

  lemma EffectFollows()
    ensures IsPlain(EFFECT_RULE) && Follows(P.EFFECT.shape, EFFECT_RULE)
  {
  }

  lemma PlainChangeFollows()
    ensures IsPlain(PLAIN_CHANGE_RULE) && Follows(P.PLAIN_CHANGE, PLAIN_CHANGE_RULE)
  {
  }

  lemma LinkFollows()
    ensures IsPlain(LINK_RULE) && Follows(P.LESSON_LINK.shape, LINK_RULE)
  {
  }

  lemma TargetFollows()
    ensures IsPlain(TARGET_RULE) && Follows(P.TARGET.shape, TARGET_RULE)
  {
  }

  lemma ObservationFollows()
    ensures IsPlain(OBSERVATION_RULE) && Follows(P.RecordObservation(P.EVIDENCE_REFS), OBSERVATION_RULE)
  {
  }

  lemma LessonFollows()
    ensures IsPlain(LESSON_RULE) && Follows(P.RECORD_LESSON, LESSON_RULE)
  {
  }

  lemma ImprovementFollows(target: Schema, change: Schema, link: Schema)
    ensures IsPlain(ImprovementRule(target, change, link))
    ensures Follows(P.CreateImprovement(target, change, link), ImprovementRule(target, change, link))
  {
    var h, r := P.CreateImprovement(target, change, link), ImprovementRule(target, change, link);
    ImprovementIsPlain(target, change, link);
    forall k | k in h.fields ensures FieldFollows(h.fields[k], r, k) {
      ImprovementFieldFollows(target, change, link, k);
    }
    PartsFollow(h, r);
  }

  lemma ImprovementIsPlain(target: Schema, change: Schema, link: Schema)
    ensures IsPlain(ImprovementRule(target, change, link))
    ensures forall k :: Knows(ImprovementRule(target, change, link), k) ==>
              k in P.CreateImprovement(target, change, link).fields
  {
  }

  lemma ProposalFieldFollows(target: Schema, change: Schema, link: Schema, k: Key)
    requires k in P.ProposalFields(target, link)
    ensures FieldFollows(P.ProposalFields(target, link)[k], ImprovementRule(target, change, link), k)
  {
  }

  lemma ImprovementFieldFollows(target: Schema, change: Schema, link: Schema, k: Key)
    requires k in P.CreateImprovement(target, change, link).fields
    ensures FieldFollows(P.CreateImprovement(target, change, link).fields[k], ImprovementRule(target, change, link), k)
  {
    if k != KChanges {
      ProposalFieldFollows(target, change, link, k);
    }
  }

  lemma ReviewFollows()
    ensures IsPlain(REVIEW_RULE) && Follows(P.REVIEW_IMPROVEMENT, REVIEW_RULE)
  {
  }

  lemma CreateBodyFollows()
    ensures IsPlain(CREATE_BODY_RULE) && Follows(P.CREATE_BODY.shape, CREATE_BODY_RULE)
  {
  }

  // ---------- what is accepted ----------

  /** A record is decoded exactly if it meets its rule. */
  lemma {:induction false} RecordIsDecodedIff(h: Shape, r: Rule, v: Json)
    requires IsPlain(r) && Follows(h, r)
    ensures Decode(Record(h), v).Some? <==> v.Obj? && Meets(v.fields, r)
  {
    AcceptedIff(Record(h), v);
    if v.Obj? {
      ShapeMeetsItsRule(h, r, v.fields);
    }
  }

  /** The value names its kind, and the rest of it meets the rule of that kind. */
  ghost predicate Says(v: Json, tag: Key, rules: map<string, Rule>) {
    v.Obj? && tag in v.fields && v.fields[tag].Str? && v.fields[tag].text in rules
    && Meets(v.fields - {tag}, rules[v.fields[tag].text])
  }

  ghost predicate AllFollow(cases: map<string, Shape>, rules: map<string, Rule>) {
    && cases.Keys == rules.Keys
    && forall kind :: kind in cases ==> IsPlain(rules[kind]) && Follows(cases[kind], rules[kind])
  }

  lemma OneMoreFollows(cases: map<string, Shape>, rules: map<string, Rule>, kind: string, h: Shape, r: Rule)
    returns (cases': map<string, Shape>, rules': map<string, Rule>)
    requires AllFollow(cases, rules) && IsPlain(r) && Follows(h, r)
    ensures cases' == cases[kind := h] && rules' == rules[kind := r] && AllFollow(cases', rules')
  {
    cases', rules' := cases[kind := h], rules[kind := r];
  }

  /** A value of several kinds is decoded exactly if it meets the rule of its own. */
  lemma {:induction false} TaggedIsDecodedIff(tag: Key, cases: map<string, Shape>, rules: map<string, Rule>, v: Json)
    requires AllFollow(cases, rules)
    ensures Decode(Tagged(tag, cases), v).Some? <==> Says(v, tag, rules)
  {
    AcceptedIff(Tagged(tag, cases), v);
    if v.Obj? && tag in v.fields && v.fields[tag].Str? && v.fields[tag].text in cases {
      ShapeMeetsItsRule(cases[v.fields[tag].text], rules[v.fields[tag].text], v.fields - {tag});
    }
  }

  /** A command is accepted exactly if it says what its kind asks for, and unsupported if it names another kind. */
  lemma CommandIsAcceptedIff(cases: map<string, Shape>, rules: map<string, Rule>, v: Json, who: Identity)
    requires AllFollow(cases, rules)
    ensures DecodeCommand(cases, v, who).Ok? <==> Says(v, KType, rules)
    ensures forall kind :: DecodeCommand(cases, v, who) == Err(Unsupported(kind)) <==>
              v.Obj? && KType in v.fields && v.fields[KType] == Str(kind) && kind !in rules
  {
    TaggedIsDecodedIff(KType, cases, rules, v);
  }

  // ---------- the records ----------

  /** The parts of an object's metadata, and points and patches of footprints. */
  lemma {:induction false} ObjectPartsAreDecodedIff(v: Json)
    ensures Decode(D.POINT, v).Some? <==> v.Obj? && Meets(v.fields, POINT_RULE)
    ensures Decode(D.FOOTPRINT_PATCH, v).Some? <==> v.Obj? && Meets(v.fields, PATCH_RULE)
    ensures Decode(D.CIRCULATION, v).Some? <==> v.Obj? && Meets(v.fields, CIRCULATION_RULE)
    ensures Decode(D.ROUTE, v).Some? <==> v.Obj? && Meets(v.fields, ROUTE_RULE)
  {
    PointFollows();
    RecordIsDecodedIff(D.POINT.shape, POINT_RULE, v);
    PatchFollows();
    RecordIsDecodedIff(D.FOOTPRINT_PATCH.shape, PATCH_RULE, v);
    CirculationFollows();
    RecordIsDecodedIff(D.CIRCULATION.shape, CIRCULATION_RULE, v);
    RouteFollows();
    RecordIsDecodedIff(D.ROUTE.shape, ROUTE_RULE, v);
  }

  lemma {:induction false} SafetyPartsAreDecodedIff(v: Json)
    ensures Decode(D.RESTRICTION, v).Some? <==> v.Obj? && Meets(v.fields, RESTRICTION_RULE)
    ensures Decode(D.EXIT, v).Some? <==> v.Obj? && Meets(v.fields, EXIT_RULE)
    ensures Decode(D.EMERGENCY, v).Some? <==> v.Obj? && Meets(v.fields, EMERGENCY_RULE)
    ensures Decode(D.OCCUPANCY, v).Some? <==> v.Obj? && Meets(v.fields, OCCUPANCY_RULE)
  {
    RestrictionFollows();
    RecordIsDecodedIff(D.RESTRICTION.shape, RESTRICTION_RULE, v);
    ExitFollows();
    RecordIsDecodedIff(D.EXIT.shape, EXIT_RULE, v);
    EmergencyFollows();
    RecordIsDecodedIff(D.EMERGENCY.shape, EMERGENCY_RULE, v);
    OccupancyFollows();
    RecordIsDecodedIff(D.OCCUPANCY.shape, OCCUPANCY_RULE, v);
  }

  lemma MetadataIsNoObject(flow: map<Key, Field>, safety: map<Key, Field>)
    requires flow.Keys == {KCirculation, KRoute, KRestriction} && safety.Keys == {KExit, KEmergency, KOccupancy}
    ensures OfMetadata(flow, safety).Keys !! {KId, KKind, KFootprint}
  {
  }

  lemma {:induction false} ObjectIsDecodedIff(footprint: Schema, flow: map<Key, Field>, safety: map<Key, Field>,
                                              v: Json)
    requires flow.Keys == {KCirculation, KRoute, KRestriction} && safety.Keys == {KExit, KEmergency, KOccupancy}
    ensures Decode(Record(Shape(D.ObjectFields(footprint) + (D.SCALAR_METADATA + flow + safety), {})), v).Some? <==>
              v.Obj? && Meets(v.fields, VenueObjectRule(footprint, OfMetadata(flow, safety)))
  {
    MetadataFollows(flow, safety);
    MetadataIsNoObject(flow, safety);
    VenueObjectFollows(footprint, D.SCALAR_METADATA + flow + safety, OfMetadata(flow, safety));
    RecordIsDecodedIff(Shape(D.ObjectFields(footprint) + (D.SCALAR_METADATA + flow + safety), {}),
                       VenueObjectRule(footprint, OfMetadata(flow, safety)), v);
  }

  /** Which objects may be added to a plan. */
  lemma {:induction false} VenueObjectIsDecodedIff(v: Json)
    ensures Decode(D.VENUE_OBJECT, v).Some? <==>
              v.Obj? && Meets(v.fields, VenueObjectRule(D.FOOTPRINT,
                                          OfMetadata(OfFlow(D.CIRCULATION, D.ROUTE, D.RESTRICTION),
                                                     OfSafety(D.EXIT, D.EMERGENCY, D.OCCUPANCY))))
  {
    FlowIs(D.CIRCULATION, D.ROUTE, D.RESTRICTION);
    SafetyIs(D.EXIT, D.EMERGENCY, D.OCCUPANCY);
    ObjectIsDecodedIff(D.FOOTPRINT, OfFlow(D.CIRCULATION, D.ROUTE, D.RESTRICTION),
                       OfSafety(D.EXIT, D.EMERGENCY, D.OCCUPANCY), v);
  }

  /** The parts of predictions and proposals in a review. */
  lemma {:induction false} ReviewPartsAreDecodedIff(v: Json)
    ensures Decode(P.EVIDENCE_REF, v).Some? <==> v.Obj? && Meets(v.fields, EVIDENCE_REF_RULE)
    ensures Decode(P.SCOPE, v).Some? <==> v.Obj? && Meets(v.fields, SCOPE_RULE)
    ensures Decode(P.TOLERANCE, v).Some? <==> v.Obj? && Meets(v.fields, TOLERANCE_RULE)
    ensures Decode(P.LESSON_LINK, v).Some? <==> v.Obj? && Meets(v.fields, LINK_RULE)
    ensures Decode(P.TARGET, v).Some? <==> v.Obj? && Meets(v.fields, TARGET_RULE)
  {
    EvidenceRefFollows();
    RecordIsDecodedIff(P.EVIDENCE_REF.shape, EVIDENCE_REF_RULE, v);
    ScopeFollows();
    RecordIsDecodedIff(P.SCOPE.shape, SCOPE_RULE, v);
    ToleranceFollows();
    RecordIsDecodedIff(P.TOLERANCE.shape, TOLERANCE_RULE, v);
    LinkFollows();
    RecordIsDecodedIff(P.LESSON_LINK.shape, LINK_RULE, v);
    TargetFollows();
    RecordIsDecodedIff(P.TARGET.shape, TARGET_RULE, v);
  }

  /** Which predictions a review may start from. */
  lemma {:induction false} PredictionIsDecodedIff(v: Json)
    ensures Decode(P.PREDICTION, v).Some? <==> v.Obj? && Meets(v.fields, PREDICTION_RULE)
  {
    PredictionFollows();
    RecordIsDecodedIff(P.PREDICTION.shape, PREDICTION_RULE, v);
  }

  // ---------- the kinds ----------

  function FootprintRules(): map<string, Rule> {
    map["rectangle" := RECTANGLE_RULE, "circle" := CIRCLE_RULE, "line" := LINE_RULE, "polygon" := POLYGON_RULE]
  }

  /** An object by its id, and what is to become of it. */
  function ObjectRule(k: Key, value: Schema): Rule {
    NOTHING.(texts := {KObjectId}, others := map[k := Need(value)])
  }

  function MutationRules(patch: Schema, values: Schema, added: Schema): map<string, Rule> {
    map["update_footprint" := ObjectRule(KFootprint, patch), "update_metadata" := ObjectRule(KValues, values),
        "delete_object" := NOTHING.(texts := {KObjectId}),
        "add_object" := NOTHING.(others := map[KObject := Need(added)])]
  }

  const LOCATION_RULES: map<string, Rule> :=
    map["plan-object" := NOTHING.(texts := {KPlanObjectId}),
        "coordinate" := NOTHING.(others := map[KPoint := Need(D.POINT)])]

  function DeviationRules(record: Rule, end: Rule, proposal: Rule): map<string, Rule> {
    map["record_live_plan_deviation" := record, "end_live_plan_deviation" := end,
        "create_post_event_deviation_proposal" := proposal]
  }

  function ReviewRules(observation: Rule, lesson: Rule, improvement: Rule, review: Rule): map<string, Rule> {
    map["record_post_event_observation" := observation, "record_post_event_lesson" := lesson,
        "create_template_improvement_proposal" := improvement, "review_template_improvement_proposal" := review]
  }

  lemma FootprintsFollow(rectangle: Shape, circle: Shape, line: Shape, polygon: Shape)
    requires Follows(rectangle, RECTANGLE_RULE) && Follows(circle, CIRCLE_RULE)
    requires Follows(line, LINE_RULE) && Follows(polygon, POLYGON_RULE)
    requires IsPlain(RECTANGLE_RULE) && IsPlain(CIRCLE_RULE) && IsPlain(LINE_RULE) && IsPlain(POLYGON_RULE)
    ensures AllFollow(map["rectangle" := rectangle, "circle" := circle, "line" := line, "polygon" := polygon],
                      FootprintRules())
  {
    var cases: map<string, Shape>, rules: map<string, Rule> := map[], map[];
    cases, rules := OneMoreFollows(cases, rules, "rectangle", rectangle, RECTANGLE_RULE);
    cases, rules := OneMoreFollows(cases, rules, "circle", circle, CIRCLE_RULE);
    cases, rules := OneMoreFollows(cases, rules, "line", line, LINE_RULE);
    cases, rules := OneMoreFollows(cases, rules, "polygon", polygon, POLYGON_RULE);
  }

  lemma {:induction false} FootprintIsDecodedIff(v: Json)
    ensures Decode(D.FOOTPRINT, v).Some? <==> Says(v, KKind, FootprintRules())
  {
    RectangleFollows();
    CircleFollows();
    LineFollows();
    PolygonFollows();
    FootprintsFollow(D.RECTANGLE, D.CIRCLE, D.LINE, D.POLYGON);
    TaggedIsDecodedIff(KKind, D.FOOTPRINTS, FootprintRules(), v);
  }

  lemma ObjectFollows(k: Key, value: Schema)
    requires k != KObjectId
    ensures IsPlain(ObjectRule(k, value))
    ensures Follows(Shape(map[KObjectId := Need(Text), k := Need(value)], {}), ObjectRule(k, value))
  {
  }

  lemma DeleteFollows()
    ensures IsPlain(NOTHING.(texts := {KObjectId}))
    ensures Follows(Shape(map[KObjectId := Need(Text)], {}), NOTHING.(texts := {KObjectId}))
  {
  }

  lemma OneOtherFollows(k: Key, value: Schema)
    ensures IsPlain(NOTHING.(others := map[k := Need(value)]))
    ensures Follows(Shape(map[k := Need(value)], {}), NOTHING.(others := map[k := Need(value)]))
  {
  }

  lemma MutationsFollow(patch: Schema, values: Schema, added: Schema)
    ensures AllFollow(D.SpatialMutations(patch, values, added), MutationRules(patch, values, added))
  {
    ObjectFollows(KFootprint, patch);
    ObjectFollows(KValues, values);
    DeleteFollows();
    OneOtherFollows(KObject, added);
    var cases: map<string, Shape>, rules: map<string, Rule> := map[], map[];
    cases, rules := OneMoreFollows(cases, rules, "update_footprint",
                                   Shape(map[KObjectId := Need(Text), KFootprint := Need(patch)], {}),
                                   ObjectRule(KFootprint, patch));
    cases, rules := OneMoreFollows(cases, rules, "update_metadata",
                                   Shape(map[KObjectId := Need(Text), KValues := Need(values)], {}),
                                   ObjectRule(KValues, values));
    cases, rules := OneMoreFollows(cases, rules, "delete_object",
                                   Shape(map[KObjectId := Need(Text)], {}), NOTHING.(texts := {KObjectId}));
    cases, rules := OneMoreFollows(cases, rules, "add_object",
                                   Shape(map[KObject := Need(added)], {}),
                                   NOTHING.(others := map[KObject := Need(added)]));
  }

  lemma {:induction false} MutationIsDecodedIff(v: Json)
    ensures Decode(D.SPATIAL_MUTATION, v).Some? <==>
              Says(v, KOperation, MutationRules(D.FOOTPRINT_PATCH, D.METADATA, D.VENUE_OBJECT))
  {
    MutationsFollow(D.FOOTPRINT_PATCH, D.METADATA, D.VENUE_OBJECT);
    TaggedIsDecodedIff(KOperation, D.SpatialMutations(D.FOOTPRINT_PATCH, D.METADATA, D.VENUE_OBJECT),
                       MutationRules(D.FOOTPRINT_PATCH, D.METADATA, D.VENUE_OBJECT), v);
  }

  lemma LocationsFollow()
    ensures AllFollow(D.LOCATION.cases, LOCATION_RULES)
  {
    OneOtherFollows(KPoint, D.POINT);
    PlanObjectFollows();
  }

  lemma PlanObjectFollows()
    ensures IsPlain(NOTHING.(texts := {KPlanObjectId}))
    ensures Follows(Shape(map[KPlanObjectId := Need(Text)], {}), NOTHING.(texts := {KPlanObjectId}))
  {
  }

  lemma {:induction false} LocationIsDecodedIff(v: Json)
    ensures Decode(D.LOCATION, v).Some? <==> Says(v, KKind, LOCATION_RULES)
  {
    LocationsFollow();
    TaggedIsDecodedIff(KKind, D.LOCATION.cases, LOCATION_RULES, v);
  }

  lemma DeviationCasesFollow(record: Shape, end: Shape, proposal: Shape, r1: Rule, r2: Rule, r3: Rule)
    requires IsPlain(r1) && IsPlain(r2) && IsPlain(r3)
    requires Follows(record, r1) && Follows(end, r2) && Follows(proposal, r3)
    ensures AllFollow(D.DeviationCases(record, end, proposal), DeviationRules(r1, r2, r3))
  {
    var cases: map<string, Shape>, rules: map<string, Rule> := map[], map[];
    cases, rules := OneMoreFollows(cases, rules, "record_live_plan_deviation", record, r1);
    cases, rules := OneMoreFollows(cases, rules, "end_live_plan_deviation", end, r2);
    cases, rules := OneMoreFollows(cases, rules, "create_post_event_deviation_proposal", proposal, r3);
  }

  const DEVIATION_RULES: map<string, Rule> :=
    DeviationRules(RecordRule(D.LOCATION, D.PLANNING_CHANGE), END_RULE, PROPOSAL_RULE)

  lemma DeviationCommandsFollow()
    ensures AllFollow(D.DEVIATION_COMMANDS, DEVIATION_RULES)
  {
    RecordFollows(D.LOCATION, D.PLANNING_CHANGE);
    EndFollows();
    ProposalFollows();
    DeviationCasesFollow(D.RecordDeviation(D.LOCATION, D.PLANNING_CHANGE), D.END_DEVIATION, D.CREATE_PROPOSAL,
                         RecordRule(D.LOCATION, D.PLANNING_CHANGE), END_RULE, PROPOSAL_RULE);
  }

  /** Which bodies the deviation decoder accepts, and which it calls unsupported. */
  lemma DeviationCommandIsAcceptedIff(v: Json, who: Identity)
    ensures D.DecodeDeviationCommand(v, who).Ok? <==> Says(v, KType, DEVIATION_RULES)
    ensures forall kind :: D.DecodeDeviationCommand(v, who) == Err(Unsupported(kind)) <==>
              v.Obj? && KType in v.fields && v.fields[KType] == Str(kind) && kind !in DEVIATION_RULES
  {
    DeviationCommandsFollow();
    CommandIsAcceptedIff(D.DEVIATION_COMMANDS, DEVIATION_RULES, v, who);
  }

  lemma ReviewCasesFollow(observation: Shape, lesson: Shape, improvement: Shape, review: Shape,
                          r1: Rule, r2: Rule, r3: Rule, r4: Rule)
    requires IsPlain(r1) && IsPlain(r2) && IsPlain(r3) && IsPlain(r4)
    requires Follows(observation, r1) && Follows(lesson, r2) && Follows(improvement, r3) && Follows(review, r4)
    ensures AllFollow(P.ReviewCases(observation, lesson, improvement, review), ReviewRules(r1, r2, r3, r4))
  {
    var cases: map<string, Shape>, rules: map<string, Rule> := map[], map[];
    cases, rules := OneMoreFollows(cases, rules, "record_post_event_observation", observation, r1);
    cases, rules := OneMoreFollows(cases, rules, "record_post_event_lesson", lesson, r2);
    cases, rules := OneMoreFollows(cases, rules, "create_template_improvement_proposal", improvement, r3);
    cases, rules := OneMoreFollows(cases, rules, "review_template_improvement_proposal", review, r4);
  }

  const REVIEW_RULES: map<string, Rule> :=
    ReviewRules(OBSERVATION_RULE, LESSON_RULE, ImprovementRule(P.TARGET, P.CHANGE, P.LESSON_LINK), REVIEW_RULE)

  lemma ReviewCommandsFollow()
    ensures AllFollow(P.REVIEW_COMMANDS, REVIEW_RULES)
  {
    ObservationFollows();
    LessonFollows();
    ImprovementFollows(P.TARGET, P.CHANGE, P.LESSON_LINK);
    ReviewFollows();
    ReviewCasesFollow(P.RecordObservation(P.EVIDENCE_REFS), P.RECORD_LESSON,
                      P.CreateImprovement(P.TARGET, P.CHANGE, P.LESSON_LINK), P.REVIEW_IMPROVEMENT, OBSERVATION_RULE,
                      LESSON_RULE, ImprovementRule(P.TARGET, P.CHANGE, P.LESSON_LINK), REVIEW_RULE);
  }

  /** Which bodies the review decoder accepts, and which it calls unsupported. */
  lemma ReviewCommandIsAcceptedIff(v: Json, who: Identity)
    ensures P.DecodeReviewCommand(v, who).Ok? <==> Says(v, KType, REVIEW_RULES)
    ensures forall kind :: P.DecodeReviewCommand(v, who) == Err(Unsupported(kind)) <==>
              v.Obj? && KType in v.fields && v.fields[KType] == Str(kind) && kind !in REVIEW_RULES
  {
    ReviewCommandsFollow();
    CommandIsAcceptedIff(P.REVIEW_COMMANDS, REVIEW_RULES, v, who);
  }

  lemma {:induction false} EitherIsDecodedIff(key: Key, present: Shape, absent: Shape, r1: Rule, r2: Rule, v: Json)
    requires key in present.fields && IsPlain(r1) && IsPlain(r2) && Follows(present, r1) && Follows(absent, r2)
    ensures Decode(IfPresent(key, present, absent), v).Some? <==>
              v.Obj? && if key in v.fields then Meets(v.fields, r1) else Meets(v.fields, r2)
  {
    AcceptedIff(IfPresent(key, present, absent), v);
    if v.Obj? {
      ShapeMeetsItsRule(present, r1, v.fields);
      ShapeMeetsItsRule(absent, r2, v.fields);
    }
  }

  lemma ChangesHaveEffects(mutation: Schema)
    ensures KSpatialEffects in D.PlanningChangeShape(mutation).fields
  {
  }

  /** A change in a review is the deviation decoder's if it has spatial effects, and a plain one if it has none. */
  lemma {:induction false} ReviewChangeIsDecodedIff(v: Json)
    ensures Decode(P.CHANGE, v).Some? <==>
              v.Obj? && if KSpatialEffects in v.fields then Meets(v.fields, ChangeRule(D.SPATIAL_MUTATION))
                        else Meets(v.fields, PLAIN_CHANGE_RULE)
  {
    ChangeFollows(D.SPATIAL_MUTATION);
    PlainChangeFollows();
    ChangesHaveEffects(D.SPATIAL_MUTATION);
    EitherIsDecodedIff(KSpatialEffects, D.PLANNING_CHANGE_SHAPE, P.PLAIN_CHANGE, ChangeRule(D.SPATIAL_MUTATION),
                       PLAIN_CHANGE_RULE, v);
  }

  lemma {:induction false} ScalarOrIsDecodedIff(h: Shape, r: Rule, v: Json)
    requires IsPlain(r) && Follows(h, r)
    ensures Decode(ScalarOr(h), v).Some? <==> v.Str? || v.Num? || v.Bool? || (v.Obj? && Meets(v.fields, r))
  {
    AcceptedIff(ScalarOr(h), v);
    if v.Obj? {
      ShapeMeetsItsRule(h, r, v.fields);
    }
  }

  /** An effect of a change is any scalar but null, infinite numbers included, or a sourced value. */
  lemma {:induction false} EffectIsDecodedIff(v: Json)
    ensures Decode(P.EFFECT, v).Some? <==> v.Str? || v.Num? || v.Bool? || (v.Obj? && Meets(v.fields, EFFECT_RULE))
  {
    EffectFollows();
    ScalarOrIsDecodedIff(P.EFFECT.shape, EFFECT_RULE, v);
  }

  /** Which bodies create a review. */
  lemma {:induction false} CreateBodyIsDecodedIff(v: Json)
    ensures Decode(P.CREATE_BODY, v).Some? <==> v.Obj? && Meets(v.fields, CREATE_BODY_RULE)
  {
    CreateBodyFollows();
    RecordIsDecodedIff(P.CREATE_BODY.shape, CREATE_BODY_RULE, v);
  }
}
