/**
 The post-event review commands and the review's create body, as their decoders accept and return them.
 Lists of ids are bounded and free of repeats here, evidence lists are never empty, and a change with spatial
 effects is handed to the deviation decoder.
 */
module PostEventCommands {
  import opened Results
  import opened CommandSchema
  import D = DeviationCommands

  const IDS := DistinctTexts(100)

  const EVIDENCE_REF :=
    Record(Shape(map[
      KKind := Need(OneOf({"accepted-plan", "runbook", "occupancy-monitor", "occupancy-projection", "incident-register",
                           "deviation-register", "scenario-run"})),
      KId := Need(Text), KFingerprint := Need(Text)], {}))

  const EVIDENCE_REFS := List(EVIDENCE_REF, 1, Some(50))

  const SCOPE :=
    Record(Shape(map[
      KKind := Need(OneOf({"venue", "occupancy-zone", "queue", "route", "incident-category"})), KId := Need(Text)], {}))

  const TOLERANCE := Record(Shape(map[KAbsolute := Need(FiniteNumber), KRelative := Need(FiniteNumber)], {}))

  const PREDICTION :=
    Record(Shape(map[
      KKey := Need(Text),
      KFamily := Need(OneOf({"occupancy", "queue", "flow", "incidents"})),
      KMetric := Need(OneOf({"peak-persons", "utilization-ratio", "average-wait-seconds", "p95-wait-seconds",
                             "maximum-queue-persons",
                             "abandonment-ratio", "clearance-seconds", "peak-congestion-index", "backlog-persons",
                                 "incident-count",
                             "resolution-seconds"})),
      KScope := Need(SCOPE), KValue := Need(FiniteNumber),
      KUnit := Need(OneOf({"persons", "ratio", "seconds", "index", "incidents"})),
      KBetterWhen := Need(OneOf({"lower", "higher", "target"})),
      KTolerance := Need(TOLERANCE), KEvidenceRefs := Need(EVIDENCE_REFS)], {}))

  const EFFECT := ScalarOr(Shape(map[KKind := Need(Text), KSourceId := Need(Text), KSourceChecksum := Need(Text)], {}))

  function PlainFields(ids: Schema): map<Key, Field> {
    map[
      KId := Need(Text), KTitle := May(Text), KShortTitle := May(Text), KLabel := May(Text),
      KTargetObjectIds := May(ids), KTargetRequirementIds := May(ids)]
  }

  const PLAIN_CHANGE := Shape(PlainFields(IDS)[KEffects := May(Values(EFFECT))], {})

  const CHANGE := IfPresent(KSpatialEffects, D.PLANNING_CHANGE_SHAPE, PLAIN_CHANGE)

  const LESSON_LINK := Record(Shape(map[KChangeId := Need(Text), KLessonIds := Need(IDS)], {}))

  function TargetRecord(kind: Schema): Schema {
    Record(Shape(map[KKind := Need(kind), KTemplateId := Need(Text), KVersion := Need(Text)], {}))
  }

  const TARGET := TargetRecord(OneOf({"venue", "room"}))

  function RecordObservation(evidence: Schema): Shape {
    Shape(map[
      KObservationId := Need(Text), KPredictionKey := Need(Text), KValue := Need(FiniteOrNull),
      KConfidence := Need(OneOf({"measured", "estimated", "unavailable"})), KEvidenceRefs := Need(evidence),
      KIdempotencyKey := Need(Text), KExpectedRevision := Need(Natural)], {KOperationId})
  }

  const RECORD_LESSON :=
    Shape(map[
      KLessonId := Need(Text), KComparisonKey := Need(Text), KLessonCode := Need(Text), KFindingCode := Need(Text),
      KRecommendedActionCode := Need(Text), KRequirementIds := Need(IDS), KConstraintIds := Need(IDS),
      KIdempotencyKey := Need(Text), KExpectedRevision := Need(Natural)], {KOperationId})

  function ProposalFields(target: Schema, link: Schema): map<Key, Field> {
    map[
      KProposalId := Need(Text), KGoal := Need(Text), KTarget := Need(target),
          KChangeLessonLinks := Need(List(link, 0, None)),
      KIdempotencyKey := Need(Text), KExpectedRevision := Need(Natural)]
  }

  function CreateImprovement(target: Schema, change: Schema, link: Schema): Shape {
    Shape(ProposalFields(target, link)[KChanges := Need(List(change, 0, None))], {KOperationId})
  }

  const REVIEW_IMPROVEMENT :=
    Shape(map[
      KProposalId := Need(Text), KExpectedProposalRevision := Need(Natural),
          KDecision := Need(OneOf({"approved", "rejected"})),
      KReasonCode := Need(Text), KIdempotencyKey := Need(Text), KExpectedRevision := Need(Natural)], {KOperationId})

  function ReviewCases(observation: Shape, lesson: Shape, improvement: Shape, review: Shape): map<string, Shape> {
    map[
      "record_post_event_observation" := observation,
      "record_post_event_lesson" := lesson,
      "create_template_improvement_proposal" := improvement,
      "review_template_improvement_proposal" := review]
  }

  const REVIEW_COMMANDS: map<string, Shape> :=
    ReviewCases(RecordObservation(EVIDENCE_REFS), RECORD_LESSON, CreateImprovement(TARGET, CHANGE, LESSON_LINK),
                REVIEW_IMPROVEMENT)

  const CREATE_BODY :=
    Record(Shape(map[
      KRunbookVersionId := Need(Text), KOccupancyMonitorId := Need(Text), KIncidentRegisterId := Need(Text),
      KDeviationRegisterId := Need(Text), KScenarioRunIds := Need(IDS),
          KPredictions := Need(List(PREDICTION, 1, Some(100)))], {}))

  function DecodeReviewCommand(v: Json, who: Identity): Result<Json, Refusal> {
    DecodeCommand(REVIEW_COMMANDS, v, who)
  }

  ghost predicate IsReviewCommand(who: Identity, c: Json) {
    IsCommandOf(REVIEW_COMMANDS, who, c)
  }

  lemma ObservationKeepsIdentity(evidence: Schema)
    ensures ShapeKeepsIdentity(RecordObservation(evidence))
  {
  }

  lemma LessonKeepsIdentity()
    ensures ShapeKeepsIdentity(RECORD_LESSON)
  {
  }

  lemma ImprovementKeepsIdentity(target: Schema, change: Schema, link: Schema)
    ensures ShapeKeepsIdentity(CreateImprovement(target, change, link))
  {
  }

  lemma ReviewKeepsIdentity()
    ensures ShapeKeepsIdentity(REVIEW_IMPROVEMENT)
  {
  }

  lemma CasesKeepIdentity(observation: Shape, lesson: Shape, improvement: Shape, review: Shape)
    requires ShapeKeepsIdentity(observation) && ShapeKeepsIdentity(lesson)
    requires ShapeKeepsIdentity(improvement) && ShapeKeepsIdentity(review)
    ensures KeepsIdentity(ReviewCases(observation, lesson, improvement, review))
  {
  }

  lemma ReviewCommandsKeepIdentity()
    ensures KeepsIdentity(REVIEW_COMMANDS)
  {
    ObservationKeepsIdentity(EVIDENCE_REFS);
    LessonKeepsIdentity();
    ImprovementKeepsIdentity(TARGET, CHANGE, LESSON_LINK);
    ReviewKeepsIdentity();
    CasesKeepIdentity(RecordObservation(EVIDENCE_REFS), RECORD_LESSON, CreateImprovement(TARGET, CHANGE, LESSON_LINK),
                      REVIEW_IMPROVEMENT);
  }

  // ---------- which numbers may be infinite ----------

  /** The effect `k` of the change says an infinite number. */
  ghost predicate InfiniteEffect(change: Json, k: Key) {
    && change.Obj? && KEffects in change.fields && change.fields[KEffects].Obj?
    && k in change.fields[KEffects].fields && change.fields[KEffects].fields[k] == Num(NonFinite)
  }

  ghost predicate InfiniteChange(change: Json) {
    exists k :: InfiniteEffect(change, k)
  }

  ghost predicate InfiniteIn(changes: Json) {
    changes.Arr? && exists i :: 0 <= i < |changes.items| && InfiniteChange(changes.items[i])
  }

  /** Some effect of some change in the command says an infinite number. */
  ghost predicate HasInfiniteEffect(c: Json) {
    c.Obj? && KChanges in c.fields && InfiniteIn(c.fields[KChanges])
  }

  lemma {:induction false} EffectFiniteIff(v: Json)
    requires NormalForm(EFFECT, v)
    ensures AllFinite(v) <==> v != Num(NonFinite)
  {
    if v.Obj? {
      ScalarFreeShapeIsFinite(EFFECT.shape, v.fields);
    }
  }

  lemma {:induction false} EffectsFiniteIff(v: Json)
    requires NormalForm(Values(EFFECT), v)
    ensures AllFinite(v) <==> forall k :: k in v.fields ==> v.fields[k] != Num(NonFinite)
  {
    forall k | k in v.fields ensures AllFinite(v.fields[k]) <==> v.fields[k] != Num(NonFinite) {
      EffectFiniteIff(v.fields[k]);
    }
  }

  ghost predicate OthersScalarFree(h: Shape, key: Key) {
    forall k :: k in h.fields && k != key ==> ScalarFree(h.fields[k].schema)
  }

  /** Where every field but one is free of loose scalars, that one decides. */
  lemma {:induction false} OneFieldDecides(h: Shape, key: Key, o: map<Key, Json>)
    requires NormalShape(h, o) && OthersScalarFree(h, key)
    ensures AllFinite(Obj(o)) <==> key in o ==> AllFinite(o[key])
  {
    if key in o ==> AllFinite(o[key]) {
      forall k | k in o ensures AllFinite(o[k]) {
        if k != key {
          OtherFieldIsFinite(h, key, o, k);
        }
      }
    }
  }

  lemma {:induction false} OtherFieldIsFinite(h: Shape, key: Key, o: map<Key, Json>, k: Key)
    requires NormalShape(h, o) && OthersScalarFree(h, key) && k in o && k != key
    ensures AllFinite(o[k])
  {
    assert NormalForm(h.fields[k].schema, o[k]);
    ScalarFreeIsFinite(h.fields[k].schema, o[k]);
  }

  /** One further field beside fields that are free of loose scalars. */
  lemma OneMoreField(own: map<Key, Field>, key: Key, f: Field, ignored: set<Key>)
    requires ShapeScalarFree(Shape(own, {}))
    ensures OthersScalarFree(Shape(own[key := f], ignored), key)
  {
    var h := Shape(own[key := f], ignored);
    forall k | k in h.fields && k != key ensures ScalarFree(h.fields[k].schema) {
      assert k in own && h.fields[k] == own[k];
    }
  }

  lemma {:induction false} PlainFieldsAreScalarFree(ids: Schema)
    requires ScalarFree(ids)
    ensures ShapeScalarFree(Shape(PlainFields(ids), {}))
  {
  }

  lemma PlainChangeFields()
    ensures KEffects in PLAIN_CHANGE.fields && PLAIN_CHANGE.fields[KEffects] == May(Values(EFFECT))
    ensures OthersScalarFree(PLAIN_CHANGE, KEffects)
  {
    PlainFieldsAreScalarFree(IDS);
    OneMoreField(PlainFields(IDS), KEffects, May(Values(EFFECT)), {});
  }

  lemma InfiniteChangeIff(o: map<Key, Json>)
    requires KEffects in o && NormalForm(Values(EFFECT), o[KEffects])
    ensures InfiniteChange(Obj(o)) <==> !AllFinite(o[KEffects])
  {
    EffectsFiniteIff(o[KEffects]);
    forall k ensures InfiniteEffect(Obj(o), k) <==>
        k in o[KEffects].fields && o[KEffects].fields[k] == Num(NonFinite) {}
  }

  lemma {:induction false} ShapeWithEffectsFiniteIff(h: Shape, o: map<Key, Json>)
    requires KEffects in h.fields && h.fields[KEffects].schema == Values(EFFECT) && OthersScalarFree(h, KEffects)
             && NormalShape(h, o)
    ensures AllFinite(Obj(o)) <==> !InfiniteChange(Obj(o))
  {
    OneFieldDecides(h, KEffects, o);
    if KEffects in o {
      InfiniteChangeIff(o);
    }
  }

  lemma SpatialChangesHaveNoEffects()
    ensures KEffects !in D.PLANNING_CHANGE_SHAPE.fields && KEffects !in D.PLANNING_CHANGE_SHAPE.ignored
  {
  }

  lemma {:induction false} ChangeFiniteIff(v: Json)
    requires NormalForm(CHANGE, v)
    ensures AllFinite(v) <==> !InfiniteChange(v)
  {
    if KSpatialEffects in v.fields {
      D.PlanningChangeIsScalarFree();
      ScalarFreeShapeIsFinite(D.PLANNING_CHANGE_SHAPE, v.fields);
      SpatialChangesHaveNoEffects();
    } else {
      PlainChangeFields();
      ShapeWithEffectsFiniteIff(PLAIN_CHANGE, v.fields);
    }
  }

  /** A command that either lists changes beside fields free of loose scalars, or has only such fields. */
  ghost predicate PlainBut(h: Shape, change: Schema) {
    && OthersScalarFree(h, KChanges) && KChanges !in h.ignored
    && (KChanges in h.fields ==> h.fields[KChanges] == Need(List(change, 0, None)))
  }

  lemma {:induction false} ProposalFieldsAreScalarFree(target: Schema, link: Schema)
    requires ScalarFree(target) && ScalarFree(link)
    ensures ShapeScalarFree(Shape(ProposalFields(target, link), {}))
  {
    assert ScalarFree(List(link, 0, None));
  }

  lemma {:induction false} ImprovementIsPlain(target: Schema, change: Schema, link: Schema)
    requires ScalarFree(target) && ScalarFree(link)
    ensures PlainBut(CreateImprovement(target, change, link), change)
  {
    ProposalFieldsAreScalarFree(target, link);
    OneMoreField(ProposalFields(target, link), KChanges, Need(List(change, 0, None)), {KOperationId});
  }

  lemma TargetAndLinkAreScalarFree()
    ensures ScalarFree(TARGET) && ScalarFree(LESSON_LINK)
  {
  }

  /** A kind of change in which only the effects may be infinite. */
  ghost predicate OnlyEffectsInfinite(change: Schema) {
    forall v :: NormalForm(change, v) ==> (AllFinite(v) <==> !InfiniteChange(v))
  }

  lemma ChangesHaveOnlyEffectsInfinite()
    ensures OnlyEffectsInfinite(CHANGE)
  {
    forall v | NormalForm(CHANGE, v) ensures AllFinite(v) <==> !InfiniteChange(v) {
      ChangeFiniteIff(v);
    }
  }

  lemma {:induction false} ChangesFiniteIff(change: Schema, v: Json)
    requires OnlyEffectsInfinite(change) && NormalForm(List(change, 0, None), v)
    ensures AllFinite(v) <==> !InfiniteIn(v)
  {
    forall i | 0 <= i < |v.items| ensures AllFinite(v.items[i]) <==> !InfiniteChange(v.items[i]) {
      assert NormalForm(change, v.items[i]);
    }
  }

  lemma {:induction false} ShapeFiniteIff(h: Shape, change: Schema, o: map<Key, Json>)
    requires OnlyEffectsInfinite(change) && PlainBut(h, change) && NormalShape(h, o)
    ensures AllFinite(Obj(o)) <==> !HasInfiniteEffect(Obj(o))
  {
    OneFieldDecides(h, KChanges, o);
    if KChanges in o {
      ChangesFiniteIff(change, o[KChanges]);
    }
  }

  lemma SameChanges(c: Json, d: Json)
    requires c.Obj? && d.Obj? && (KChanges in c.fields <==> KChanges in d.fields)
    requires KChanges in c.fields ==> c.fields[KChanges] == d.fields[KChanges]
    ensures HasInfiniteEffect(c) <==> HasInfiniteEffect(d)
  {
  }

  lemma EvidenceIsScalarFree()
    ensures ScalarFree(EVIDENCE_REFS)
  {
  }

  lemma {:induction false} ObservationIsScalarFree(evidence: Schema)
    requires ScalarFree(evidence)
    ensures var h := RecordObservation(evidence);
            ShapeScalarFree(h) && KChanges !in h.fields && h.ignored == {KOperationId}
  {
  }

  lemma LessonIsScalarFree()
    ensures ShapeScalarFree(RECORD_LESSON) && KChanges !in RECORD_LESSON.fields
            && RECORD_LESSON.ignored == {KOperationId}
  {
  }

  lemma ReviewIsScalarFree()
    ensures ShapeScalarFree(REVIEW_IMPROVEMENT) && KChanges !in REVIEW_IMPROVEMENT.fields
            && REVIEW_IMPROVEMENT.ignored == {KOperationId}
  {
  }

  lemma {:induction false} ScalarFreeIsPlain(h: Shape, change: Schema)
    requires ShapeScalarFree(h) && KChanges !in h.fields && h.ignored == {KOperationId}
    ensures PlainBut(h, change)
  {
  }

  ghost predicate AllPlainBut(cases: map<string, Shape>, change: Schema) {
    forall kind :: kind in cases ==> PlainBut(cases[kind], change)
  }

  lemma CasesArePlain(observation: Shape, lesson: Shape, improvement: Shape, review: Shape, change: Schema)
    requires PlainBut(observation, change) && PlainBut(lesson, change) && PlainBut(improvement, change)
             && PlainBut(review, change)
    ensures AllPlainBut(ReviewCases(observation, lesson, improvement, review), change)
  {
  }

  lemma ReviewCommandsArePlain(change: Schema)
    ensures AllPlainBut(ReviewCases(RecordObservation(EVIDENCE_REFS), RECORD_LESSON,
                                    CreateImprovement(TARGET, change, LESSON_LINK), REVIEW_IMPROVEMENT), change)
  {
    TargetAndLinkAreScalarFree();
    ImprovementIsPlain(TARGET, change, LESSON_LINK);
    EvidenceIsScalarFree();
    ObservationIsScalarFree(EVIDENCE_REFS);
    ScalarFreeIsPlain(RecordObservation(EVIDENCE_REFS), change);
    LessonIsScalarFree();
    ScalarFreeIsPlain(RECORD_LESSON, change);
    ReviewIsScalarFree();
    ScalarFreeIsPlain(REVIEW_IMPROVEMENT, change);
    CasesArePlain(RecordObservation(EVIDENCE_REFS), RECORD_LESSON, CreateImprovement(TARGET, change, LESSON_LINK),
                  REVIEW_IMPROVEMENT, change);
  }

  lemma {:induction false} TaggedFiniteIff(cases: map<string, Shape>, change: Schema, body: Json)
    requires NormalForm(Tagged(KType, cases), body) && OnlyEffectsInfinite(change)
    requires PlainBut(cases[body.fields[KType].text], change)
    ensures AllFinite(body) <==> !HasInfiniteEffect(body)
  {
    var o := body.fields - {KType};
    ShapeFiniteIff(cases[body.fields[KType].text], change, o);
    SameChanges(Obj(o), body);
    TagIsFinite(body, KType);
  }

  lemma CommandFiniteIff(cases: map<string, Shape>, change: Schema, who: Identity, c: Json)
    requires IsCommandOf(cases, who, c) && OnlyEffectsInfinite(change) && AllPlainBut(cases, change)
    ensures AllFinite(Body(c)) <==> !HasInfiniteEffect(c)
  {
    var body := Body(c);
    assert PlainBut(cases[body.fields[KType].text], change);
    TaggedFiniteIff(cases, change, body);
    BodyHasTheChanges(c);
  }

  lemma BodyHasTheChanges(c: Json)
    requires c.Obj?
    ensures HasInfiniteEffect(c) <==> HasInfiniteEffect(Body(c))
  {
    assert KChanges !in IDENTITY_KEYS;
    SameChanges(c, Body(c));
  }

  /** All numbers of a well-formed review command are finite exactly when no effect of a change says an infinite one. */
  lemma ReviewFiniteIff(who: Identity, c: Json)
    requires IsReviewCommand(who, c)
    ensures AllFinite(Body(c)) <==> !HasInfiniteEffect(c)
  {
    ReviewCommandsArePlain(CHANGE);
    ChangesHaveOnlyEffectsInfinite();
    CommandFiniteIff(REVIEW_COMMANDS, CHANGE, who, c);
  }

  // ---------- decoding keeps infinite effects ----------

  lemma {:induction false} DecodedFields(h: Shape, o: map<Key, Json>, k: Key)
    requires DecodeShape(h, o).Some? && k in o
    ensures k in h.fields ==>
              k in DecodeShape(h, o).value && Decode(h.fields[k].schema, o[k]) == Some(DecodeShape(h, o).value[k])
    ensures k in h.fields || k in h.ignored
  {
    assert k in h.fields ==> !FieldFails(h.fields[k], o, k);
  }

  lemma {:induction false} EffectIsKept(h: Shape, effect: Schema, v: Json, k: Key)
    requires v.Obj? && DecodeShape(h, v.fields).Some? && InfiniteEffect(v, k)
    requires KEffects in h.fields && h.fields[KEffects].schema == Values(effect)
    requires Decode(effect, Num(NonFinite)) == Some(Num(NonFinite))
    ensures InfiniteEffect(Obj(DecodeShape(h, v.fields).value), k)
  {
    DecodedFields(h, v.fields, KEffects);
  }

  lemma {:induction false} EitherKeepsInfinity(present: Shape, absent: Shape, effect: Schema, v: Json, k: Key)
    requires Decode(IfPresent(KSpatialEffects, present, absent), v).Some? && InfiniteEffect(v, k)
    requires KEffects !in present.fields && KEffects !in present.ignored
    requires KEffects in absent.fields && absent.fields[KEffects].schema == Values(effect)
    requires Decode(effect, Num(NonFinite)) == Some(Num(NonFinite))
    ensures InfiniteEffect(Decode(IfPresent(KSpatialEffects, present, absent), v).value, k)
  {
    DecodedFields(if KSpatialEffects in v.fields then present else absent, v.fields, KEffects);
    EffectIsKept(absent, effect, v, k);
  }

  lemma {:induction false} EitherChangeKeepsInfinity(present: Shape, absent: Shape, effect: Schema, v: Json)
    requires Decode(IfPresent(KSpatialEffects, present, absent), v).Some? && InfiniteChange(v)
    requires KEffects !in present.fields && KEffects !in present.ignored
    requires KEffects in absent.fields && absent.fields[KEffects].schema == Values(effect)
    requires Decode(effect, Num(NonFinite)) == Some(Num(NonFinite))
    ensures InfiniteChange(Decode(IfPresent(KSpatialEffects, present, absent), v).value)
  {
    var k :| InfiniteEffect(v, k);
    EitherKeepsInfinity(present, absent, effect, v, k);
  }

  /** A kind of change whose infinite effects get through the decoder. */
  ghost predicate KeepsInfinity(change: Schema) {
    forall v :: Decode(change, v).Some? && InfiniteChange(v) ==> InfiniteChange(Decode(change, v).value)
  }

  lemma {:induction false} IfPresentKeepsInfinity(present: Shape, absent: Shape, effect: Schema)
    requires KEffects !in present.fields && KEffects !in present.ignored
    requires KEffects in absent.fields && absent.fields[KEffects].schema == Values(effect)
    requires Decode(effect, Num(NonFinite)) == Some(Num(NonFinite))
    ensures KeepsInfinity(IfPresent(KSpatialEffects, present, absent))
  {
    var change := IfPresent(KSpatialEffects, present, absent);
    forall v | Decode(change, v).Some? && InfiniteChange(v) ensures InfiniteChange(Decode(change, v).value) {
      EitherChangeKeepsInfinity(present, absent, effect, v);
    }
  }

  lemma EffectsMayBeInfinite()
    ensures Decode(EFFECT, Num(NonFinite)) == Some(Num(NonFinite))
  {
  }

  lemma ChangesKeepInfinity()
    ensures KeepsInfinity(CHANGE)
  {
    SpatialChangesHaveNoEffects();
    PlainChangeFields();
    EffectsMayBeInfinite();
    IfPresentKeepsInfinity(D.PLANNING_CHANGE_SHAPE, PLAIN_CHANGE, EFFECT);
  }

  lemma {:induction false} ListKeepsInfinity(change: Schema, v: Json)
    requires KeepsInfinity(change) && Decode(List(change, 0, None), v).Some? && InfiniteIn(v)
    ensures InfiniteIn(Decode(List(change, 0, None), v).value)
  {
    var i :| 0 <= i < |v.items| && InfiniteChange(v.items[i]);
    assert Decode(change, v.items[i]).Some?;
    assert InfiniteChange(Decode(List(change, 0, None), v).value.items[i]);
  }

  lemma {:induction false} ShapeKeepsInfinity(h: Shape, change: Schema, o: map<Key, Json>)
    requires KeepsInfinity(change) && PlainBut(h, change) && DecodeShape(h, o).Some? && HasInfiniteEffect(Obj(o))
    ensures HasInfiniteEffect(Obj(DecodeShape(h, o).value))
  {
    DecodedFields(h, o, KChanges);
    ListKeepsInfinity(change, o[KChanges]);
  }

  /** An infinite effect that came out came in. */
  lemma {:induction false} InfinityComesFromTheInput(v: Json, x: Json)
    requires Resembles(v, x)
    ensures HasInfiniteEffect(x) ==> HasInfiniteEffect(v)
  {
    if HasInfiniteEffect(x) {
      var i :| 0 <= i < |x.fields[KChanges].items| && InfiniteChange(x.fields[KChanges].items[i]);
      var from, to := v.fields[KChanges].items[i], x.fields[KChanges].items[i];
      assert Resembles(from, to);
      var k :| InfiniteEffect(to, k);
      assert Resembles(from.fields[KEffects], to.fields[KEffects]);
      assert Resembles(from.fields[KEffects].fields[k], Num(NonFinite));
      assert InfiniteEffect(from, k);
    }
  }

  lemma {:induction false} TaggedKeepsInfinity(cases: map<string, Shape>, change: Schema, v: Json)
    requires Decode(Tagged(KType, cases), v).Some? && KeepsInfinity(change)
    requires PlainBut(cases[v.fields[KType].text], change)
    ensures HasInfiniteEffect(v) <==> HasInfiniteEffect(Decode(Tagged(KType, cases), v).value)
  {
    var h, o := cases[v.fields[KType].text], v.fields - {KType};
    var x := Decode(Tagged(KType, cases), v).value;
    DecodedResembles(Tagged(KType, cases), v);
    InfinityComesFromTheInput(v, x);
    SameChanges(v, Obj(o));
    if HasInfiniteEffect(v) {
      ShapeKeepsInfinity(h, change, o);
      SameChanges(Obj(DecodeShape(h, o).value), x);
    }
  }

  lemma CommandKeepsInfinity(cases: map<string, Shape>, change: Schema, v: Json, who: Identity)
    requires DecodeCommand(cases, v, who).Ok? && KeepsInfinity(change) && AllPlainBut(cases, change)
    ensures HasInfiniteEffect(v) <==> HasInfiniteEffect(DecodeCommand(cases, v, who).value)
  {
    TaggedKeepsInfinity(cases, change, v);
    SameChanges(Decode(Tagged(KType, cases), v).value, DecodeCommand(cases, v, who).value);
  }

  /** A command has an infinite effect exactly when the input it was decoded from has one. */
  lemma AcceptedKeepsInfinity(v: Json, who: Identity)
    requires DecodeReviewCommand(v, who).Ok?
    ensures HasInfiniteEffect(v) <==> HasInfiniteEffect(DecodeReviewCommand(v, who).value)
  {
    ReviewCommandsArePlain(CHANGE);
    ChangesKeepInfinity();
    CommandKeepsInfinity(REVIEW_COMMANDS, CHANGE, v, who);
  }

  /**
   A well-formed review command comes back from its encoding under its own identity, unless one of its changes
   has an infinite effect: then it is refused.
   */
  lemma ReviewCommandsComeBack(who: Identity, c: Json)
    requires IsReviewCommand(who, c)
    ensures DecodeReviewCommand(Encode(c), who) == if HasInfiniteEffect(c) then Err(Invalid) else Ok(c)
  {
    ReviewCommandsKeepIdentity();
    CommandsComeBack(REVIEW_COMMANDS, who, c);
    ReviewFiniteIff(who, c);
  }

  /**
   Every accepted value becomes a well-formed command, and sending that command again gives the same command
   exactly when no effect that came in was infinite.
   */
  lemma DecodedReviewCommandsAreFixedIff(v: Json, who: Identity)
    requires DecodeReviewCommand(v, who).Ok?
    ensures IsReviewCommand(who, DecodeReviewCommand(v, who).value)
    ensures DecodeReviewCommand(Encode(DecodeReviewCommand(v, who).value), who) == DecodeReviewCommand(v, who) <==>
            !HasInfiniteEffect(v)
    ensures v.fields.Keys !! IDENTITY_KEYS
  {
    ReviewCommandsKeepIdentity();
    AcceptedCommandsAreWellFormed(REVIEW_COMMANDS, v, who);
    ReviewCommandsComeBack(who, DecodeReviewCommand(v, who).value);
    AcceptedKeepsInfinity(v, who);
  }

  /** The identity in a command is the server's, property by property; all else is what its body decodes to. */
  lemma {:induction false} ReviewIdentityIsTrusted(v: Json, who: Identity)
    requires DecodeReviewCommand(v, who).Ok?
    ensures Decode(Tagged(KType, REVIEW_COMMANDS), v).Some?
    ensures ComesFrom(DecodeReviewCommand(v, who).value, who, Decode(Tagged(KType, REVIEW_COMMANDS), v).value)
  {
    ReviewCommandsKeepIdentity();
    AcceptedCommandsAreWellFormed(REVIEW_COMMANDS, v, who);
  }

  /** A change whose one effect says the number. */
  function ChangeSaying(id: string, name: Key, n: Number): Json {
    Obj(map[KId := Str(id), KEffects := Obj(map[name := Num(n)])])
  }

  lemma EffectsAreNormal(name: Key, n: Number)
    ensures NormalForm(Values(EFFECT), Obj(map[name := Num(n)]))
  {
  }

  lemma IdAloneIsNormal(ids: Schema, id: string)
    requires id != "" && Trimmed(id)
    ensures NormalShape(Shape(PlainFields(ids), {}), map[KId := Str(id)])
  {
    assert NormalForm(Text, Str(id));
  }

  lemma {:induction false} ChangeSayingIsNormal(ids: Schema, effects: Schema, id: string, name: Key, n: Number)
    requires id != "" && Trimmed(id) && NormalForm(effects, Obj(map[name := Num(n)]))
    ensures NormalShape(Shape(PlainFields(ids)[KEffects := May(effects)], {}), ChangeSaying(id, name, n).fields)
  {
    IdAloneIsNormal(ids, id);
    NormalGrows(PlainFields(ids), map[KId := Str(id)], KEffects, May(effects), Obj(map[name := Num(n)]), {});
    assert ChangeSaying(id, name, n).fields == map[KId := Str(id)][KEffects := Obj(map[name := Num(n)])];
  }

  lemma ChangeSayingFiniteIff(id: string, name: Key, n: Number)
    ensures AllFinite(ChangeSaying(id, name, n)) <==> n.Finite?
  {
    var effects := Obj(map[name := Num(n)]);
    assert AllFinite(effects) <==> AllFinite(effects.fields[name]);
    assert AllFinite(ChangeSaying(id, name, n)) ==> AllFinite(ChangeSaying(id, name, n).fields[KEffects]);
  }

  lemma {:induction false} ChangeSayingOnceMore(present: Shape, absent: Shape, id: string, name: Key, n: Number)
    requires NormalShape(absent, ChangeSaying(id, name, n).fields)
    ensures var change, v := IfPresent(KSpatialEffects, present, absent), ChangeSaying(id, name, n);
            && Decode(change, v) == Some(v)
            && Decode(change, Sent(v)) == if n.NonFinite? then None else Some(v)
  {
    var change, v := IfPresent(KSpatialEffects, present, absent), ChangeSaying(id, name, n);
    ChangeSayingFiniteIff(id, name, n);
    NormalIsFixed(change, v);
    SentDecodes(change, v);
  }

  /**
   A change with any number as an effect is accepted as it is. Sent again it is accepted as the same, except when the
   number is infinite: what arrives then says null, and that is refused.
   */
  lemma InfiniteEffectDoesNotComeBack(id: string, name: Key, n: Number)
    requires id != "" && Trimmed(id)
    ensures Decode(CHANGE, ChangeSaying(id, name, n)) == Some(ChangeSaying(id, name, n))
    ensures Decode(CHANGE, Sent(ChangeSaying(id, name, n))) == if n.NonFinite? then None
            else Some(ChangeSaying(id, name, n))
  {
    EffectsAreNormal(name, n);
    ChangeSayingIsNormal(IDS, Values(EFFECT), id, name, n);
    ChangeSayingOnceMore(D.PLANNING_CHANGE_SHAPE, PLAIN_CHANGE, id, name, n);
  }

  function ProposingFields(text: string): map<Key, Json> {
    map[KProposalId := Str(text), KGoal := Str(text), KTarget := Room(text), KChangeLessonLinks := Arr([]),
        KIdempotencyKey := Str(text), KExpectedRevision := Num(Finite(0.0))]
  }

  function Room(text: string): Json {
    Obj(map[KKind := Str("room"), KTemplateId := Str(text), KVersion := Str(text)])
  }

  /** A proposal of one change for a template, without lesson links. */
  function Proposing(text: string, change: Json): map<Key, Json> {
    ProposingFields(text)[KChanges := Arr([change])]
  }

  lemma {:induction false} RoomFits(kind: Schema, text: string)
    requires text != "" && Trimmed(text) && NormalForm(kind, Str("room"))
    ensures NormalForm(TargetRecord(kind), Room(text))
  {
    assert NormalForm(Text, Str(text));
  }

  lemma RoomIsATarget(text: string)
    requires text != "" && Trimmed(text)
    ensures NormalForm(TARGET, Room(text))
  {
    RoomFits(OneOf({"venue", "room"}), text);
  }

  lemma ZeroIsNatural()
    ensures NormalForm(Natural, Num(Finite(0.0)))
  {
    assert 0.0.Floor as real == 0.0;
  }

  /** One further field, and its value, beside a normal record. */
  lemma {:induction false} NormalGrows(own: map<Key, Field>, o: map<Key, Json>, key: Key, f: Field, v: Json,
                                       ignored: set<Key>)
    requires NormalShape(Shape(own, {}), o) && key !in own && NormalForm(f.schema, v)
    ensures NormalShape(Shape(own[key := f], ignored), o[key := v])
  {
    var h, more := Shape(own[key := f], ignored), o[key := v];
    forall k | k in h.fields
      ensures if k in more then NormalForm(h.fields[k].schema, more[k]) else h.fields[k].May?
    {
      assert k != key ==> k in own && (k in o ==> NormalForm(own[k].schema, o[k]));
    }
  }

  lemma {:induction false} ProposingFieldsAreNormal(target: Schema, link: Schema, text: string)
    requires text != "" && Trimmed(text) && NormalForm(target, Room(text))
    ensures NormalShape(Shape(ProposalFields(target, link), {}), ProposingFields(text))
  {
    ZeroIsNatural();
    assert NormalForm(Text, Str(text));
    assert NormalForm(List(link, 0, None), Arr([]));
  }

  lemma {:induction false} ProposingIsNormal(target: Schema, change: Schema, link: Schema, text: string, v: Json)
    requires text != "" && Trimmed(text) && NormalForm(change, v) && NormalForm(target, Room(text))
    ensures NormalShape(CreateImprovement(target, change, link), Proposing(text, v))
  {
    ProposingFieldsAreNormal(target, link, text);
    assert NormalForm(List(change, 0, None), Arr([v]));
    NormalGrows(ProposalFields(target, link), ProposingFields(text), KChanges, Need(List(change, 0, None)), Arr([v]),
                {KOperationId});
  }

  lemma ImprovementCase(observation: Shape, lesson: Shape, improvement: Shape, review: Shape)
    ensures var cases := ReviewCases(observation, lesson, improvement, review);
            "create_template_improvement_proposal" in cases
                && cases["create_template_improvement_proposal"] == improvement
  {
  }

  lemma {:induction false} NormalCommandComesBackIff(cases: map<string, Shape>, v: Json, who: Identity)
    requires KeepsIdentity(cases) && DecodeCommand(cases, v, who).Ok? && Decode(Tagged(KType, cases), v) == Some(v)
    ensures !AllFinite(v) ==> DecodeCommand(cases, Encode(DecodeCommand(cases, v, who).value), who) == Err(Invalid)
  {
    AcceptedCommandsAreWellFormed(cases, v, who);
    BodyOfCommand(who, v);
    CommandsComeBack(cases, who, DecodeCommand(cases, v, who).value);
  }

  lemma {:induction false} NormalBodyIsAccepted(cases: map<string, Shape>, kind: string, o: map<Key, Json>,
                                                who: Identity)
    requires KeepsIdentity(cases) && kind in cases && NormalShape(cases[kind], o) && KType !in o && !AllFinite(Obj(o))
    ensures var v := Obj(o[KType := Str(kind)]);
            && DecodeCommand(cases, v, who).Ok?
            && DecodeCommand(cases, Encode(DecodeCommand(cases, v, who).value), who) == Err(Invalid)
  {
    var v := Obj(o[KType := Str(kind)]);
    TaggedComesBack(KType, cases, kind, o);
    assert v.fields - {KType} == o;
    TagIsFinite(v, KType);
    NormalCommandComesBackIff(cases, v, who);
  }

  lemma {:induction false} InfiniteProposal(text: string, v: Json)
    requires !AllFinite(v)
    ensures !AllFinite(Obj(Proposing(text, v)))
  {
    assert !AllFinite(Arr([v])) by { assert [v][0] == v; }
    assert Proposing(text, v)[KChanges] == Arr([v]);
  }

  lemma InfiniteProposalIsNormal(text: string, name: Key)
    requires text != "" && Trimmed(text)
    ensures NormalShape(CreateImprovement(TARGET, CHANGE, LESSON_LINK),
                        Proposing(text, ChangeSaying(text, name, NonFinite)))
  {
    var change := ChangeSaying(text, name, NonFinite);
    InfiniteEffectDoesNotComeBack(text, name, NonFinite);
    FixedExactlyWhenNormal(CHANGE, change);
    RoomIsATarget(text);
    ProposingIsNormal(TARGET, CHANGE, LESSON_LINK, text, change);
  }

  lemma ProposalIsRefusedWhenSentAgain(cases: map<string, Shape>, text: string, name: Key, who: Identity)
    requires KeepsIdentity(cases) && "create_template_improvement_proposal" in cases
    requires NormalShape(cases["create_template_improvement_proposal"],
                         Proposing(text, ChangeSaying(text, name, NonFinite)))
    ensures var o := Proposing(text, ChangeSaying(text, name, NonFinite));
            var v := Obj(o[KType := Str("create_template_improvement_proposal")]);
            && DecodeCommand(cases, v, who).Ok?
            && DecodeCommand(cases, Encode(DecodeCommand(cases, v, who).value), who) == Err(Invalid)
  {
    var change := ChangeSaying(text, name, NonFinite);
    ChangeSayingFiniteIff(text, name, NonFinite);
    InfiniteProposal(text, change);
    NormalBodyIsAccepted(cases, "create_template_improvement_proposal", Proposing(text, change), who);
  }

  /** Commands with an infinite effect exist: this one is accepted and, sent again, refused. */
  lemma AcceptedCommandIsRefusedWhenSentAgain(text: string, name: Key, who: Identity)
    requires text != "" && Trimmed(text)
    ensures var o := Proposing(text, ChangeSaying(text, name, NonFinite));
            var v := Obj(o[KType := Str("create_template_improvement_proposal")]);
            && DecodeReviewCommand(v, who).Ok?
            && DecodeReviewCommand(Encode(DecodeReviewCommand(v, who).value), who) == Err(Invalid)
  {
    InfiniteProposalIsNormal(text, name);
    ImprovementCase(RecordObservation(EVIDENCE_REFS), RECORD_LESSON, CreateImprovement(TARGET, CHANGE, LESSON_LINK),
                    REVIEW_IMPROVEMENT);
    ReviewCommandsKeepIdentity();
    ProposalIsRefusedWhenSentAgain(REVIEW_COMMANDS, text, name, who);
  }

  /** A change that came with spatial effects keeps them, and one that came without never gets any. */
  lemma {:induction false} ChangesKeepTheirKind(v: Json)
    requires Decode(CHANGE, v).Some?
    ensures Decode(CHANGE, v).value.Obj?
    ensures KSpatialEffects in v.fields <==> KSpatialEffects in Decode(CHANGE, v).value.fields
  {
    EitherKeepsItsKind(D.PLANNING_CHANGE_SHAPE, PLAIN_CHANGE, v);
  }

  lemma {:induction false} EitherKeepsItsKind(present: Shape, absent: Shape, v: Json)
    requires Decode(IfPresent(KSpatialEffects, present, absent), v).Some?
    ensures var x := Decode(IfPresent(KSpatialEffects, present, absent), v).value;
            x.Obj? && (KSpatialEffects in v.fields <==> KSpatialEffects in x.fields)
  {
    RecordsDropOnlyTheIgnored(if KSpatialEffects in v.fields then present else absent, v.fields);
  }

  /** A review's create body is decoded to its normal form, which decodes to itself. */
  lemma {:induction false} CreateBodiesAreFixed(v: Json)
    requires Decode(CREATE_BODY, v).Some?
    ensures NormalForm(CREATE_BODY, Decode(CREATE_BODY, v).value)
    ensures Decode(CREATE_BODY, Decode(CREATE_BODY, v).value) == Decode(CREATE_BODY, v)
    ensures Resembles(v, Decode(CREATE_BODY, v).value)
  {
    DecodedIsNormal(CREATE_BODY, v);
    DecodingTwiceIsDecodingOnce(CREATE_BODY, v);
    DecodedResembles(CREATE_BODY, v);
  }
}
