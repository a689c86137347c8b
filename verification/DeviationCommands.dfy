/**
 The deviation commands as their decoder accepts and returns them. Each constant is one function of the
 decoder: the properties it reads, which of them must be there, and what it makes of each.
 */
module DeviationCommands {
  import opened Results
  import opened CommandSchema

  const STRINGS := List(Text, 0, None)

  const POINT := Record(Shape(map[KX := Need(FiniteNumber), KY := Need(FiniteNumber)], {}))

  const POINTS := List(POINT, 0, None)

  /** Every footprint may carry the properties of the others; those of another kind are dropped. */
  const FOOTPRINT_KEYS: set<Key> := {KCenter, KWidth, KDepth, KRotationDegrees, KRadius, KStart, KEnd, KPoints}

  function RectangleShape(point: Schema): Shape {
    Shape(map[KCenter := Need(point), KWidth := Need(FiniteNumber), KDepth := Need(FiniteNumber),
              KRotationDegrees := Need(FiniteNumber)], FOOTPRINT_KEYS)
  }

  function CircleShape(point: Schema): Shape {
    Shape(map[KCenter := Need(point), KRadius := Need(FiniteNumber)], FOOTPRINT_KEYS)
  }

  function LineShape(point: Schema): Shape {
    Shape(map[KStart := Need(point), KEnd := Need(point), KWidth := Need(FiniteNumber)], FOOTPRINT_KEYS)
  }

  function PolygonShape(points: Schema): Shape {
    Shape(map[KPoints := Need(points), KRotationDegrees := Need(FiniteNumber)], FOOTPRINT_KEYS)
  }

  const RECTANGLE := RectangleShape(POINT)

  const CIRCLE := CircleShape(POINT)

  const LINE := LineShape(POINT)

  const POLYGON := PolygonShape(POINTS)

  const FOOTPRINTS: map<string, Shape> := map["rectangle" := RECTANGLE, "circle" := CIRCLE, "line" := LINE,
                                              "polygon" := POLYGON]

  const FOOTPRINT := Tagged(KKind, FOOTPRINTS)

  const FOOTPRINT_PATCH :=
    Record(Shape(map[
      KKind := May(OneOf({"rectangle", "circle", "line", "polygon"})),
      KCenter := May(POINT), KStart := May(POINT), KEnd := May(POINT), KPoints := May(POINTS),
      KWidth := May(FiniteNumber), KDepth := May(FiniteNumber), KRotationDegrees := May(FiniteNumber),
          KRadius := May(FiniteNumber)], {}))

  const LAYER := OneOf({"architecture", "furniture", "access", "production", "catering", "safety", "annotations"})

  const CIRCULATION :=
    Record(Shape(map[
      KRole := May(OneOf({"queue", "checkpoint"})),
      KCapacityPersonsPerMinute := May(FiniteNumber), KCapacityPersons := May(FiniteNumber),
          KDemandPersons := May(FiniteNumber),
      KClearWidthM := May(FiniteNumber), KCarCapacityPersons := May(FiniteNumber), KCycleSeconds := May(FiniteNumber),
      KServesZoneIds := May(STRINGS), KBlocksPath := May(Boolean), KBlocksExitApproach := May(Boolean)], {}))

  const ROUTE :=
    Record(Shape(map[
      KDirection := Need(OneOf({"one-way", "bidirectional"})),
      KAccessible := Need(Boolean), KPurpose := Need(Text), KStaffOnly := May(Boolean)], {}))

  const RESTRICTION :=
    Record(Shape(map[
      KAccess := Need(OneOf({"prohibited", "staff-only", "conditional"})),
      KReasonCode := Need(Text), KBlocksPlacement := Need(Boolean)], {}))

  const EXIT :=
    Record(Shape(map[KClearWidthM := Need(FiniteNumber), KEmergency := Need(Boolean),
                     KCapacityPersons := Need(FiniteNumber)], {}))

  const EMERGENCY :=
    Record(Shape(map[
      KType := Need(Text), KCapacityPersons := May(FiniteNumber), KDesignatedExitObjectIds := May(STRINGS),
      KResponderOnly := May(Boolean), KEquipmentClass := May(Text), KCoverageRadiusM := May(FiniteNumber),
      KClearanceM := May(FiniteNumber), KAccessible := May(Boolean), KBackupPowerMinutes := May(FiniteNumber),
      KPowerSourceCircuitId := May(Text)], {}))

  const OCCUPANCY :=
    Record(Shape(map[
      KExpected := May(FiniteNumber), KMaximum := May(FiniteNumber), KMinimumCapacity := May(FiniteNumber),
      KMaximumCapacity := May(FiniteNumber), KZoneId := May(RawTextOrNull), KExcludesUsableArea := May(Boolean)], {}))

  const SCALAR_METADATA: map<Key, Field> :=
    map[KLabel := May(Text), KLayer := May(LAYER), KElevationM := May(FiniteNumber), KCapacity := May(FiniteNumber),
        KGroupId := May(RawTextOrNull)]

  function FlowMetadata(circulation: Schema, route: Schema, restriction: Schema): map<Key, Field> {
    map[KCirculation := May(circulation), KRoute := May(route), KRestriction := May(restriction)]
  }

  function SafetyMetadata(exit: Schema, emergency: Schema, occupancy: Schema): map<Key, Field> {
    map[KExit := May(exit), KEmergency := May(emergency), KOccupancy := May(occupancy)]
  }

  function MetadataFields(circulation: Schema, route: Schema, restriction: Schema, exit: Schema, emergency: Schema,
                          occupancy: Schema): map<Key, Field> {
    SCALAR_METADATA + FlowMetadata(circulation, route, restriction) + SafetyMetadata(exit, emergency, occupancy)
  }

  const METADATA_FIELDS := MetadataFields(CIRCULATION, ROUTE, RESTRICTION, EXIT, EMERGENCY, OCCUPANCY)

  const METADATA := Record(Shape(METADATA_FIELDS, {}))

  function ObjectFields(footprint: Schema): map<Key, Field> {
    map[KId := Need(Text), KKind := Need(Text), KFootprint := Need(footprint)]
  }

  const VENUE_OBJECT := Record(Shape(ObjectFields(FOOTPRINT) + METADATA_FIELDS, {}))

  function SpatialMutations(patch: Schema, values: Schema, added: Schema): map<string, Shape> {
    map[
      "update_footprint" := Shape(map[KObjectId := Need(Text), KFootprint := Need(patch)], {}),
      "update_metadata" := Shape(map[KObjectId := Need(Text), KValues := Need(values)], {}),
      "delete_object" := Shape(map[KObjectId := Need(Text)], {}),
      "add_object" := Shape(map[KObject := Need(added)], {})]
  }

  const SPATIAL_MUTATION := Tagged(KOperation, SpatialMutations(FOOTPRINT_PATCH, METADATA, VENUE_OBJECT))

  function PlanningChangeShape(mutation: Schema): Shape {
    Shape(map[
      KId := Need(Text), KTitle := May(Text), KShortTitle := May(Text), KLabel := May(Text),
      KTargetObjectIds := Need(STRINGS), KSpatialEffects := Need(List(mutation, 0, None))], {})
  }

  const PLANNING_CHANGE_SHAPE := PlanningChangeShape(SPATIAL_MUTATION)

  const PLANNING_CHANGE := Record(PLANNING_CHANGE_SHAPE)

  const LOCATION :=
    Tagged(KKind, map[
      "plan-object" := Shape(map[KPlanObjectId := Need(Text)], {}),
      "coordinate" := Shape(map[KPoint := Need(POINT)], {})])

  /** Every command may carry an operation id, which is dropped. */
  function RecordDeviation(location: Schema, change: Schema): Shape {
    Shape(map[
      KDeviationId := Need(Text), KDisposition := Need(OneOf({"temporary", "revision-candidate"})),
          KReasonCode := Need(Text),
      KLocation := Need(location), KAffectedObjectIds := Need(STRINGS), KAvailableConstraintIds := Need(STRINGS),
      KChange := Need(change), KIdempotencyKey := Need(Text), KExpectedRevision := Need(Natural)], {KOperationId})
  }

  const END_DEVIATION :=
    Shape(map[
      KDeviationId := Need(Text), KExpectedRevision := Need(Natural), KExpectedDeviationRevision := Need(Natural),
      KReasonCode := Need(Text), KIdempotencyKey := Need(Text)], {KOperationId})

  const CREATE_PROPOSAL :=
    Shape(map[
      KProposalId := Need(Text), KGoal := Need(Text), KDeviationIds := Need(STRINGS),
          KExpectedRevision := Need(Natural),
      KIdempotencyKey := Need(Text)], {KOperationId})

  function DeviationCases(record: Shape, end: Shape, proposal: Shape): map<string, Shape> {
    map[
      "record_live_plan_deviation" := record,
      "end_live_plan_deviation" := end,
      "create_post_event_deviation_proposal" := proposal]
  }

  const DEVIATION_COMMANDS: map<string, Shape> :=
    DeviationCases(RecordDeviation(LOCATION, PLANNING_CHANGE), END_DEVIATION, CREATE_PROPOSAL)

  function DecodeDeviationCommand(v: Json, who: Identity): Result<Json, Refusal> {
    DecodeCommand(DEVIATION_COMMANDS, v, who)
  }

  ghost predicate IsDeviationCommand(who: Identity, c: Json) {
    IsCommandOf(DEVIATION_COMMANDS, who, c)
  }

  lemma RecordKeepsIdentity(location: Schema, change: Schema)
    ensures ShapeKeepsIdentity(RecordDeviation(location, change))
  {
  }

  lemma EndKeepsIdentity()
    ensures ShapeKeepsIdentity(END_DEVIATION)
  {
  }

  lemma ProposalKeepsIdentity()
    ensures ShapeKeepsIdentity(CREATE_PROPOSAL)
  {
  }

  lemma CasesKeepIdentity(record: Shape, end: Shape, proposal: Shape)
    requires ShapeKeepsIdentity(record) && ShapeKeepsIdentity(end) && ShapeKeepsIdentity(proposal)
    ensures KeepsIdentity(DeviationCases(record, end, proposal))
  {
  }

  lemma DeviationCommandsKeepIdentity()
    ensures KeepsIdentity(DEVIATION_COMMANDS)
  {
    RecordKeepsIdentity(LOCATION, PLANNING_CHANGE);
    EndKeepsIdentity();
    ProposalKeepsIdentity();
    CasesKeepIdentity(RecordDeviation(LOCATION, PLANNING_CHANGE), END_DEVIATION, CREATE_PROPOSAL);
  }

  // ---------- every number in a deviation command is finite ----------

  lemma RectangleIsScalarFree()
    ensures ShapeScalarFree(RECTANGLE)
  {
  }

  lemma CircleIsScalarFree()
    ensures ShapeScalarFree(CIRCLE)
  {
  }

  lemma LineIsScalarFree()
    ensures ShapeScalarFree(LINE)
  {
  }

  lemma PolygonIsScalarFree()
    ensures ShapeScalarFree(POLYGON)
  {
  }

  lemma FootprintsAreScalarFree()
    ensures ScalarFree(FOOTPRINT)
  {
    RectangleIsScalarFree();
    CircleIsScalarFree();
    LineIsScalarFree();
    PolygonIsScalarFree();
  }

  lemma FootprintPatchIsScalarFree()
    ensures ScalarFree(FOOTPRINT_PATCH)
  {
  }

  lemma CirculationIsScalarFree()
    ensures ScalarFree(CIRCULATION)
  {
  }

  lemma RouteIsScalarFree()
    ensures ScalarFree(ROUTE)
  {
  }

  lemma RestrictionIsScalarFree()
    ensures ScalarFree(RESTRICTION)
  {
  }

  lemma ExitIsScalarFree()
    ensures ScalarFree(EXIT)
  {
  }

  lemma EmergencyIsScalarFree()
    ensures ScalarFree(EMERGENCY)
  {
  }

  lemma OccupancyIsScalarFree()
    ensures ScalarFree(OCCUPANCY)
  {
  }

  lemma {:induction false} ScalarMetadataIsScalarFree()
    ensures ShapeScalarFree(Shape(SCALAR_METADATA, {}))
  {
  }

  lemma {:induction false} FlowIsScalarFree(circulation: Schema, route: Schema, restriction: Schema)
    requires ScalarFree(circulation) && ScalarFree(route) && ScalarFree(restriction)
    ensures ShapeScalarFree(Shape(FlowMetadata(circulation, route, restriction), {}))
  {
  }

  lemma {:induction false} SafetyIsScalarFree(exit: Schema, emergency: Schema, occupancy: Schema)
    requires ScalarFree(exit) && ScalarFree(emergency) && ScalarFree(occupancy)
    ensures ShapeScalarFree(Shape(SafetyMetadata(exit, emergency, occupancy), {}))
  {
  }

  lemma {:induction false} ThreePartsAreScalarFree(a: map<Key, Field>, b: map<Key, Field>, c: map<Key, Field>)
    requires ShapeScalarFree(Shape(a, {})) && ShapeScalarFree(Shape(b, {})) && ShapeScalarFree(Shape(c, {}))
    ensures ShapeScalarFree(Shape(a + b + c, {}))
  {
    var h := Shape(a + b + c, {});
    forall k | k in h.fields ensures ScalarFree(h.fields[k].schema) {
      assert k in a || k in b || k in c;
    }
  }

  lemma {:induction false} MetadataFieldsAreScalarFree(circulation: Schema, route: Schema, restriction: Schema,
                                                       exit: Schema, emergency: Schema, occupancy: Schema)
    requires ScalarFree(circulation) && ScalarFree(route) && ScalarFree(restriction) && ScalarFree(exit)
    requires ScalarFree(emergency) && ScalarFree(occupancy)
    ensures ShapeScalarFree(Shape(MetadataFields(circulation, route, restriction, exit, emergency, occupancy), {}))
  {
    ScalarMetadataIsScalarFree();
    FlowIsScalarFree(circulation, route, restriction);
    SafetyIsScalarFree(exit, emergency, occupancy);
    ThreePartsAreScalarFree(SCALAR_METADATA, FlowMetadata(circulation, route, restriction),
                            SafetyMetadata(exit, emergency, occupancy));
  }

  lemma MetadataIsScalarFree()
    ensures ShapeScalarFree(Shape(METADATA_FIELDS, {}))
  {
    CirculationIsScalarFree();
    RouteIsScalarFree();
    RestrictionIsScalarFree();
    ExitIsScalarFree();
    EmergencyIsScalarFree();
    OccupancyIsScalarFree();
    MetadataFieldsAreScalarFree(CIRCULATION, ROUTE, RESTRICTION, EXIT, EMERGENCY, OCCUPANCY);
  }

  lemma JoinedIsScalarFree(own: map<Key, Field>, more: map<Key, Field>)
    requires ShapeScalarFree(Shape(own, {})) && ShapeScalarFree(Shape(more, {}))
    ensures ScalarFree(Record(Shape(own + more, {})))
  {
    var h := Shape(own + more, {});
    forall k | k in h.fields ensures ScalarFree(h.fields[k].schema) {
      assert k in more || k in own;
    }
  }

  lemma {:induction false} ObjectFieldsAreScalarFree(footprint: Schema)
    requires ScalarFree(footprint)
    ensures ShapeScalarFree(Shape(ObjectFields(footprint), {}))
  {
  }

  lemma VenueObjectIsScalarFree()
    ensures ScalarFree(VENUE_OBJECT)
  {
    MetadataIsScalarFree();
    FootprintsAreScalarFree();
    ObjectFieldsAreScalarFree(FOOTPRINT);
    JoinedIsScalarFree(ObjectFields(FOOTPRINT), METADATA_FIELDS);
  }

  lemma OneFieldIsScalarFree(a: Key, f: Field)
    requires ScalarFree(f.schema)
    ensures ShapeScalarFree(Shape(map[a := f], {}))
  {
  }

  lemma TwoFieldsAreScalarFree(a: Key, f: Field, b: Key, g: Field)
    requires ScalarFree(f.schema) && ScalarFree(g.schema)
    ensures ShapeScalarFree(Shape(map[a := f, b := g], {}))
  {
  }

  lemma {:induction false} MutationsAreScalarFree(patch: Schema, values: Schema, added: Schema)
    requires ScalarFree(patch) && ScalarFree(values) && ScalarFree(added)
    ensures ScalarFree(Tagged(KOperation, SpatialMutations(patch, values, added)))
  {
    TwoFieldsAreScalarFree(KObjectId, Need(Text), KFootprint, Need(patch));
    TwoFieldsAreScalarFree(KObjectId, Need(Text), KValues, Need(values));
    OneFieldIsScalarFree(KObjectId, Need(Text));
    OneFieldIsScalarFree(KObject, Need(added));
    var cases := SpatialMutations(patch, values, added);
    forall kind | kind in cases ensures ShapeScalarFree(cases[kind]) {
    }
  }

  lemma MutationIsScalarFree()
    ensures ScalarFree(SPATIAL_MUTATION)
  {
    VenueObjectIsScalarFree();
    FootprintPatchIsScalarFree();
    MetadataIsScalarFree();
    MutationsAreScalarFree(FOOTPRINT_PATCH, METADATA, VENUE_OBJECT);
  }

  lemma {:induction false} ChangeIsScalarFree(mutation: Schema)
    requires ScalarFree(mutation)
    ensures ShapeScalarFree(PlanningChangeShape(mutation))
  {
    assert ScalarFree(List(mutation, 0, None)) && ScalarFree(STRINGS);
  }

  lemma PlanningChangeIsScalarFree()
    ensures ShapeScalarFree(PLANNING_CHANGE_SHAPE)
  {
    MutationIsScalarFree();
    ChangeIsScalarFree(SPATIAL_MUTATION);
  }

  lemma LocationIsScalarFree()
    ensures ScalarFree(LOCATION)
  {
  }

  lemma {:induction false} RecordIsScalarFree(location: Schema, change: Schema)
    requires ScalarFree(location) && ScalarFree(change)
    ensures ShapeScalarFree(RecordDeviation(location, change))
  {
  }

  lemma EndsAreScalarFree()
    ensures ShapeScalarFree(END_DEVIATION)
  {
  }

  lemma ProposalsAreScalarFree()
    ensures ShapeScalarFree(CREATE_PROPOSAL)
  {
  }

  lemma {:induction false} CasesAreScalarFree(record: Shape, end: Shape, proposal: Shape)
    requires ShapeScalarFree(record) && ShapeScalarFree(end) && ShapeScalarFree(proposal)
    ensures ScalarFree(Tagged(KType, DeviationCases(record, end, proposal)))
  {
  }

  lemma DeviationCommandsAreScalarFree()
    ensures ScalarFree(Tagged(KType, DEVIATION_COMMANDS))
  {
    LocationIsScalarFree();
    PlanningChangeIsScalarFree();
    RecordIsScalarFree(LOCATION, PLANNING_CHANGE);
    EndsAreScalarFree();
    ProposalsAreScalarFree();
    CasesAreScalarFree(RecordDeviation(LOCATION, PLANNING_CHANGE), END_DEVIATION, CREATE_PROPOSAL);
  }

  /** Every well-formed deviation command comes back from its encoding under its own identity. */
  lemma DeviationCommandsComeBack(who: Identity, c: Json)
    requires IsDeviationCommand(who, c)
    ensures DecodeDeviationCommand(Encode(c), who) == Ok(c)
  {
    DeviationCommandsKeepIdentity();
    DeviationCommandsAreScalarFree();
    ScalarFreeIsFinite(Tagged(KType, DEVIATION_COMMANDS), Body(c));
    CommandsComeBack(DEVIATION_COMMANDS, who, c);
  }

  /** Every accepted value becomes a well-formed command, and decoding that command's encoding is a fixed point. */
  lemma DecodedDeviationCommandsAreFixed(v: Json, who: Identity)
    requires DecodeDeviationCommand(v, who).Ok?
    ensures IsDeviationCommand(who, DecodeDeviationCommand(v, who).value)
    ensures DecodeDeviationCommand(Encode(DecodeDeviationCommand(v, who).value), who) == DecodeDeviationCommand(v, who)
    ensures v.fields.Keys !! IDENTITY_KEYS
  {
    DeviationCommandsKeepIdentity();
    AcceptedCommandsAreWellFormed(DEVIATION_COMMANDS, v, who);
    DeviationCommandsComeBack(who, DecodeDeviationCommand(v, who).value);
  }

  /** The identity in a command is the server's, property by property; all else is what its body decodes to. */
  lemma {:induction false} DeviationIdentityIsTrusted(v: Json, who: Identity)
    requires DecodeDeviationCommand(v, who).Ok?
    ensures Decode(Tagged(KType, DEVIATION_COMMANDS), v).Some?
    ensures ComesFrom(DecodeDeviationCommand(v, who).value, who, Decode(Tagged(KType, DEVIATION_COMMANDS), v).value)
  {
    DeviationCommandsKeepIdentity();
    AcceptedCommandsAreWellFormed(DEVIATION_COMMANDS, v, who);
  }

  // ---------- footprints as typed values ----------

  datatype Point = Point(x: real, y: real)

  datatype Footprint =
    | Rectangle(center: Point, width: real, depth: real, rotationDegrees: real)
    | Circle(center: Point, radius: real)
    | Line(start: Point, end: Point, width: real)
    | Polygon(points: seq<Point>, rotationDegrees: real)

  function Real(r: real): Json {
    Num(Finite(r))
  }

  function PointJson(p: Point): Json {
    Obj(map[KX := Real(p.x), KY := Real(p.y)])
  }

  function PointsJson(ps: seq<Point>): Json {
    Arr(seq(|ps|, i requires 0 <= i < |ps| => PointJson(ps[i])))
  }

  /** The properties of a footprint beside its kind. */
  function FootprintFields(f: Footprint): map<Key, Json> {
    match f
    case Rectangle(c, w, d, r) => map[KCenter := PointJson(c), KWidth := Real(w), KDepth := Real(d),
                                      KRotationDegrees := Real(r)]
    case Circle(c, r) => map[KCenter := PointJson(c), KRadius := Real(r)]
    case Line(a, b, w) => map[KStart := PointJson(a), KEnd := PointJson(b), KWidth := Real(w)]
    case Polygon(ps, r) => map[KPoints := PointsJson(ps), KRotationDegrees := Real(r)]
  }

  function KindOf(f: Footprint): string {
    match f case Rectangle(_, _, _, _) => "rectangle" case Circle(_, _) => "circle" case Line(_, _, _) => "line"
        case Polygon(_, _) => "polygon"
  }

  function FootprintJson(f: Footprint): Json {
    Obj(FootprintFields(f)[KKind := Str(KindOf(f))])
  }

  lemma {:induction false} PointsAreNormal(p: Point, v: Json)
    ensures NormalForm(POINT, PointJson(p))
    ensures NormalForm(POINT, v) ==> exists q :: v == PointJson(q)
  {
    if NormalForm(POINT, v) {
      var h := POINT.shape;
      assert KX in h.fields && KY in h.fields;
      var q := Point(v.fields[KX].number.value, v.fields[KY].number.value);
      assert v.fields == map[KX := Real(q.x), KY := Real(q.y)];
      assert v == PointJson(q);
    }
  }

  function PointOf(v: Json): (p: Point)
    requires NormalForm(POINT, v)
    ensures v == PointJson(p)
  {
    PointsAreNormal(Point(0.0, 0.0), v);
    assert KX in POINT.shape.fields && KY in POINT.shape.fields;
    Point(v.fields[KX].number.value, v.fields[KY].number.value)
  }

  function RealOf(v: Json): (r: real)
    requires NormalForm(FiniteNumber, v)
    ensures v == Real(r)
  {
    v.number.value
  }

  lemma {:induction false} PointListsAreNormal(ps: seq<Point>, v: Json)
    ensures NormalForm(POINTS, PointsJson(ps))
    ensures NormalForm(POINTS, v) ==> exists qs :: v == PointsJson(qs)
  {
    forall i | 0 <= i < |ps| ensures NormalForm(POINT, PointsJson(ps).items[i]) {
      PointsAreNormal(ps[i], Null);
    }
    if NormalForm(POINTS, v) {
      var qs := seq(|v.items|, i requires 0 <= i < |v.items| => PointOf(v.items[i]));
      assert PointsJson(qs).items == v.items;
    }
  }

  /** A wanted property is there in normal form. */
  lemma {:induction false} FieldAt(h: Shape, o: map<Key, Json>, k: Key, s: Schema)
    requires NormalShape(h, o) && k in h.fields && h.fields[k] == Need(s)
    ensures k in o && NormalForm(s, o[k])
  {
  }

  lemma {:induction false} RectangleIsNormal(point: Schema, f: Footprint)
    requires f.Rectangle? && NormalForm(point, PointJson(f.center))
    ensures NormalShape(RectangleShape(point), FootprintFields(f))
  {
  }

  lemma {:induction false} RectangleFields(point: Schema, o: map<Key, Json>)
    requires NormalShape(RectangleShape(point), o)
    ensures o.Keys == {KCenter, KWidth, KDepth, KRotationDegrees} && NormalForm(point, o[KCenter])
    ensures forall k :: k in {KWidth, KDepth, KRotationDegrees} ==> NormalForm(FiniteNumber, o[k])
  {
    FieldAt(RectangleShape(point), o, KCenter, point);
    FieldAt(RectangleShape(point), o, KWidth, FiniteNumber);
    FieldAt(RectangleShape(point), o, KDepth, FiniteNumber);
    FieldAt(RectangleShape(point), o, KRotationDegrees, FiniteNumber);
    assert o.Keys <= RectangleShape(point).fields.Keys;
  }

  lemma RectangleIsTyped(o: map<Key, Json>) returns (f: Footprint)
    requires NormalShape(RECTANGLE, o)
    ensures f.Rectangle? && o == FootprintFields(f)
  {
    RectangleFields(POINT, o);
    f := Rectangle(PointOf(o[KCenter]), RealOf(o[KWidth]), RealOf(o[KDepth]), RealOf(o[KRotationDegrees]));
  }

  lemma {:induction false} CircleIsNormal(point: Schema, f: Footprint)
    requires f.Circle? && NormalForm(point, PointJson(f.center))
    ensures NormalShape(CircleShape(point), FootprintFields(f))
  {
  }

  lemma {:induction false} CircleFields(point: Schema, o: map<Key, Json>)
    requires NormalShape(CircleShape(point), o)
    ensures o.Keys == {KCenter, KRadius} && NormalForm(point, o[KCenter]) && NormalForm(FiniteNumber, o[KRadius])
  {
    FieldAt(CircleShape(point), o, KCenter, point);
    FieldAt(CircleShape(point), o, KRadius, FiniteNumber);
    assert o.Keys <= CircleShape(point).fields.Keys;
  }

  lemma CircleIsTyped(o: map<Key, Json>) returns (f: Footprint)
    requires NormalShape(CIRCLE, o)
    ensures f.Circle? && o == FootprintFields(f)
  {
    CircleFields(POINT, o);
    f := Circle(PointOf(o[KCenter]), RealOf(o[KRadius]));
  }

  lemma {:induction false} LineIsNormal(point: Schema, f: Footprint)
    requires f.Line? && NormalForm(point, PointJson(f.start)) && NormalForm(point, PointJson(f.end))
    ensures NormalShape(LineShape(point), FootprintFields(f))
  {
  }

  lemma {:induction false} LineFields(point: Schema, o: map<Key, Json>)
    requires NormalShape(LineShape(point), o)
    ensures o.Keys == {KStart, KEnd, KWidth} && NormalForm(point, o[KStart]) && NormalForm(point, o[KEnd])
    ensures NormalForm(FiniteNumber, o[KWidth])
  {
    FieldAt(LineShape(point), o, KStart, point);
    FieldAt(LineShape(point), o, KEnd, point);
    FieldAt(LineShape(point), o, KWidth, FiniteNumber);
    assert o.Keys <= LineShape(point).fields.Keys;
  }

  lemma LineIsTyped(o: map<Key, Json>) returns (f: Footprint)
    requires NormalShape(LINE, o)
    ensures f.Line? && o == FootprintFields(f)
  {
    LineFields(POINT, o);
    var start, end := PointOf(o[KStart]), PointOf(o[KEnd]);
    f := LineOf(o, start, end);
  }

  lemma LineOf(o: map<Key, Json>, start: Point, end: Point) returns (f: Footprint)
    requires o.Keys == {KStart, KEnd, KWidth} && NormalForm(FiniteNumber, o[KWidth])
    requires o[KStart] == PointJson(start) && o[KEnd] == PointJson(end)
    ensures f.Line? && o == FootprintFields(f)
  {
    f := Line(start, end, RealOf(o[KWidth]));
  }

  lemma {:induction false} PolygonIsNormal(points: Schema, f: Footprint)
    requires f.Polygon? && NormalForm(points, PointsJson(f.points))
    ensures NormalShape(PolygonShape(points), FootprintFields(f))
  {
  }

  lemma {:induction false} PolygonFields(points: Schema, o: map<Key, Json>)
    requires NormalShape(PolygonShape(points), o)
    ensures o.Keys == {KPoints, KRotationDegrees} && NormalForm(points, o[KPoints])
            && NormalForm(FiniteNumber, o[KRotationDegrees])
  {
    FieldAt(PolygonShape(points), o, KPoints, points);
    FieldAt(PolygonShape(points), o, KRotationDegrees, FiniteNumber);
    assert o.Keys <= PolygonShape(points).fields.Keys;
  }

  lemma PolygonIsTyped(o: map<Key, Json>) returns (f: Footprint)
    requires NormalShape(POLYGON, o)
    ensures f.Polygon? && o == FootprintFields(f)
  {
    PolygonFields(POINTS, o);
    PointListsAreNormal([], o[KPoints]);
    var points :| o[KPoints] == PointsJson(points);
    f := Polygon(points, RealOf(o[KRotationDegrees]));
  }

  lemma KindsDiffer()
    ensures FOOTPRINTS["rectangle"] == RECTANGLE && FOOTPRINTS["circle"] == CIRCLE
    ensures FOOTPRINTS["line"] == LINE && FOOTPRINTS["polygon"] == POLYGON
  {
    assert "rectangle"[0] != "circle"[0] && "rectangle"[0] != "line"[0] && "rectangle"[0] != "polygon"[0];
    assert "circle"[0] != "line"[0] && "circle"[0] != "polygon"[0] && "line"[0] != "polygon"[0];
  }

  lemma WithItsKind(fields: map<Key, Json>, f: Footprint)
    requires KKind in fields && fields[KKind] == Str(KindOf(f)) && fields - {KKind} == FootprintFields(f)
    ensures Obj(fields) == FootprintJson(f)
  {
    assert (fields - {KKind})[KKind := fields[KKind]] == fields;
  }

  /**
   The normal footprints are the typed ones: what the decoder returns has the properties of its kind and no others.
   */
  lemma FootprintsAreTyped(v: Json) returns (f: Footprint)
    requires NormalForm(FOOTPRINT, v)
    ensures v == FootprintJson(f)
  {
    KindsDiffer();
    var o := v.fields - {KKind};
    if v.fields[KKind].text == "rectangle" {
      f := RectangleIsTyped(o);
    } else if v.fields[KKind].text == "circle" {
      f := CircleIsTyped(o);
    } else if v.fields[KKind].text == "line" {
      f := LineIsTyped(o);
    } else {
      f := PolygonIsTyped(o);
    }
    WithItsKind(v.fields, f);
  }

  lemma FieldsAreNormal(f: Footprint)
    ensures KindOf(f) in FOOTPRINTS && NormalShape(FOOTPRINTS[KindOf(f)], FootprintFields(f))
  {
    KindsDiffer();
    match f
    case Rectangle(c, _, _, _) => PointsAreNormal(c, Null); RectangleIsNormal(POINT, f);
    case Circle(c, _) => PointsAreNormal(c, Null); CircleIsNormal(POINT, f);
    case Line(a, b, _) => PointsAreNormal(a, Null); PointsAreNormal(b, Null); LineIsNormal(POINT, f);
    case Polygon(ps, _) => PointListsAreNormal(ps, Null); PolygonIsNormal(POINTS, f);
  }

  lemma FootprintComesBackIn(cases: map<string, Shape>, f: Footprint)
    requires KindOf(f) in cases && NormalShape(cases[KindOf(f)], FootprintFields(f))
    ensures Decode(Tagged(KKind, cases), FootprintJson(f)) == Some(FootprintJson(f))
  {
    TaggedComesBack(KKind, cases, KindOf(f), FootprintFields(f));
  }

  /** Every typed footprint comes back from its JSON. */
  lemma FootprintsComeBack(f: Footprint)
    ensures Decode(FOOTPRINT, FootprintJson(f)) == Some(FootprintJson(f))
  {
    FieldsAreNormal(f);
    FootprintComesBackIn(FOOTPRINTS, f);
  }
}
