/**
 * The generic partial update of the detail views: every key of the request
 * body that names a field of the record is assigned, then the record is
 * saved, which converts each assigned value for its field or fails.
 */
module Fields {
  import opened Wrappers
  import opened Values
  import opened Records

  // ---------------------------------------------------------------------
  // The assignment loop, for any record kind
  // ---------------------------------------------------------------------

  /** Distinct keys name distinct fields. */
  ghost predicate Injective<F>(named: string -> Option<F>) {
    forall k1, k2 :: named(k1).Some? && named(k1) == named(k2) ==> k1 == k2
  }

  /** The fields that the keys in `keys` name, with the values the body gives them. */
  ghost function AssignedFrom<F>(body: Body, keys: set<string>, named: string -> Option<F>)
    : map<F, Value>
    requires Injective(named)
  {
    map k | k in keys && k in body && named(k).Some? :: named(k).value := body[k]
  }

  lemma AssignedStep<F>(body: Body, done: set<string>, key: string, named: string -> Option<F>)
    requires Injective(named)
    requires key in body && key !in done
    ensures AssignedFrom(body, done + {key}, named) ==
            if named(key).Some? then AssignedFrom(body, done, named)[named(key).value := body[key]]
            else AssignedFrom(body, done, named)
  {
  }

  /** Every key of the body that names a field, assigned to that field. */
  ghost function Assignments<F>(body: Body, named: string -> Option<F>): map<F, Value>
    requires Injective(named)
  {
    AssignedFrom(body, body.Keys, named)
  }

  /** The body names a key whose assignment raises, so the loop fails before the save. */
  predicate AssignsRelation(body: Body, relationKeys: set<string>) {
    body.Keys * relationKeys != {}
  }

  /**
   * `for field, value in data.items(): if hasattr(record, field): setattr(...)`:
   * the assignments the body makes, as a map from field to value.
   */
  method CollectAssignments<F(==)>(body: Body, named: string -> Option<F>)
    returns (assignments: map<F, Value>)
    requires Injective(named)
    ensures assignments == Assignments(body, named)
    ensures forall f :: f in assignments <==> exists k :: k in body && named(k) == Some(f)
    ensures forall k :: k in body && named(k).Some? ==>
              named(k).value in assignments && assignments[named(k).value] == body[k]
  {
    assignments := map[];
    var pending := body.Keys;
    while pending != {}
      invariant pending <= body.Keys
      invariant assignments == AssignedFrom(body, body.Keys - pending, named)
      decreases pending
    {
      var key :| key in pending;
      AssignedStep(body, body.Keys - pending, key, named);
      assert body.Keys - (pending - {key}) == (body.Keys - pending) + {key};
      var field := named(key);
      if field.Some? {
        assignments := assignments[field.value := body[key]];
      }
      pending := pending - {key};
    }
    assert body.Keys - pending == body.Keys;
    forall f | f in assignments
      ensures exists k :: k in body && named(k) == Some(f)
    {
      var k :| k in body && named(k).Some? && named(k).value == f;
    }
  }

  // ---------------------------------------------------------------------
  // Field kinds and the value a field holds
  // ---------------------------------------------------------------------

  datatype Kind = TextKind | NullableTextKind | DateKind | NullableDateKind | IntegerKind | BooleanKind

  /** What one field of a record holds, whatever its kind. */
  datatype Stored =
    | SText(text: string)
    | SNullableText(optText: Option<string>)
    | SDate(date: Date)
    | SNullableDate(optDate: Option<Date>)
    | SInt(number: int)
    | SBool(flag: bool)

  /** The conversion a field of kind `k` applies to an assigned value when saved. */
  function Convert(k: Kind, v: Value): Result<Stored, Error> {
    match k
    case TextKind => (var r :- TextField(v); Ok(SText(r)))
    case NullableTextKind => Ok(SNullableText(NullableTextField(v)))
    case DateKind => (var r :- DateField(v); Ok(SDate(r)))
    case NullableDateKind => (var r :- NullableDateField(v); Ok(SNullableDate(r)))
    case IntegerKind => (var r :- IntegerField(v); Ok(SInt(r)))
    case BooleanKind => (var r :- BooleanField(v); Ok(SBool(r)))
  }

  /** Every assigned value converts for the kind of the field it is assigned to. */
  predicate AllConvert<F(==)>(a: map<F, Value>, kind: F -> Kind) {
    forall f :: f in a ==> Convert(kind(f), a[f]).Ok?
  }

  // The value a field holds after the save: its converted assigned value, or
  // the current one when it was not assigned.

  function TextOr<F(==)>(a: map<F, Value>, kind: F -> Kind, f: F, current: string): string
    requires AllConvert(a, kind) && kind(f) == TextKind
  {
    if f in a then TextField(a[f]).value else current
  }

  function NullableTextOr<F(==)>(a: map<F, Value>, kind: F -> Kind, f: F, current: Option<string>): Option<string>
    requires AllConvert(a, kind) && kind(f) == NullableTextKind
  {
    if f in a then NullableTextField(a[f]) else current
  }

  function DateOr<F(==)>(a: map<F, Value>, kind: F -> Kind, f: F, current: Date): Date
    requires AllConvert(a, kind) && kind(f) == DateKind
  {
    if f in a then DateField(a[f]).value else current
  }

  function NullableDateOr<F(==)>(a: map<F, Value>, kind: F -> Kind, f: F, current: Option<Date>): Option<Date>
    requires AllConvert(a, kind) && kind(f) == NullableDateKind
  {
    if f in a then NullableDateField(a[f]).value else current
  }

  function IntegerOr<F(==)>(a: map<F, Value>, kind: F -> Kind, f: F, current: int): int
    requires AllConvert(a, kind) && kind(f) == IntegerKind
  {
    if f in a then IntegerField(a[f]).value else current
  }

  function BooleanOr<F(==)>(a: map<F, Value>, kind: F -> Kind, f: F, current: bool): bool
    requires AllConvert(a, kind) && kind(f) == BooleanKind
  {
    if f in a then BooleanField(a[f]).value else current
  }

  // What each of them stores, as `Convert` states it.

  lemma TextOrStored<F>(a: map<F, Value>, kind: F -> Kind, f: F, current: string)
    requires AllConvert(a, kind) && kind(f) == TextKind
    ensures SText(TextOr(a, kind, f, current)) == if f in a then Convert(kind(f), a[f]).value else SText(current)
  {
  }

  lemma NullableTextOrStored<F>(a: map<F, Value>, kind: F -> Kind, f: F, current: Option<string>)
    requires AllConvert(a, kind) && kind(f) == NullableTextKind
    ensures SNullableText(NullableTextOr(a, kind, f, current)) == if f in a then Convert(kind(f), a[f]).value else SNullableText(current)
  {
  }

  lemma DateOrStored<F>(a: map<F, Value>, kind: F -> Kind, f: F, current: Date)
    requires AllConvert(a, kind) && kind(f) == DateKind
    ensures SDate(DateOr(a, kind, f, current)) == if f in a then Convert(kind(f), a[f]).value else SDate(current)
  {
  }

  lemma NullableDateOrStored<F>(a: map<F, Value>, kind: F -> Kind, f: F, current: Option<Date>)
    requires AllConvert(a, kind) && kind(f) == NullableDateKind
    ensures SNullableDate(NullableDateOr(a, kind, f, current)) == if f in a then Convert(kind(f), a[f]).value else SNullableDate(current)
  {
  }

  lemma IntegerOrStored<F>(a: map<F, Value>, kind: F -> Kind, f: F, current: int)
    requires AllConvert(a, kind) && kind(f) == IntegerKind
    ensures SInt(IntegerOr(a, kind, f, current)) == if f in a then Convert(kind(f), a[f]).value else SInt(current)
  {
  }

  lemma BooleanOrStored<F>(a: map<F, Value>, kind: F -> Kind, f: F, current: bool)
    requires AllConvert(a, kind) && kind(f) == BooleanKind
    ensures SBool(BooleanOr(a, kind, f, current)) == if f in a then Convert(kind(f), a[f]).value else SBool(current)
  {
  }

  // ---------------------------------------------------------------------
  // Patient
  // ---------------------------------------------------------------------

  datatype PatientField =
    | FullName | Gender | Dob | Age | Address | Condition | Disease | IsExpired
    | CurrentStatus | RegistrationDate | GuardianName | GuardianPhone | RelativeName

  function PatientFieldName(f: PatientField): string {
    match f
    case FullName => "full_name"
    case Gender => "gender"
    case Dob => "dob"
    case Age => "age"
    case Address => "address"
    case Condition => "condition"
    case Disease => "disease"
    case IsExpired => "is_expired"
    case CurrentStatus => "current_status"
    case RegistrationDate => "registration_date"
    case GuardianName => "guardian_name"
    case GuardianPhone => "guardian_phone"
    case RelativeName => "relative_name"
  }

  /** `hasattr(patient, key)`, for the keys that name a data field. */
  function PatientFieldNamed(key: string): (r: Option<PatientField>)
    ensures r.Some? ==> PatientFieldName(r.value) == key
  {
    if key == "full_name" then Some(FullName)
    else if key == "gender" then Some(Gender)
    else if key == "dob" then Some(Dob)
    else if key == "age" then Some(Age)
    else if key == "address" then Some(Address)
    else if key == "condition" then Some(Condition)
    else if key == "disease" then Some(Disease)
    else if key == "is_expired" then Some(IsExpired)
    else if key == "current_status" then Some(CurrentStatus)
    else if key == "registration_date" then Some(RegistrationDate)
    else if key == "guardian_name" then Some(GuardianName)
    else if key == "guardian_phone" then Some(GuardianPhone)
    else if key == "relative_name" then Some(RelativeName)
    else None
  }

  /** Every patient field is found under its own name. */
  lemma PatientFieldNamedByName(f: PatientField)
    ensures PatientFieldNamed(PatientFieldName(f)) == Some(f)
  {
  }

  lemma PatientLookupInjective()
    ensures Injective(PatientFieldNamed)
  {
  }

  /**
   * Keys `hasattr` finds on a patient whose `setattr` raises: the reverse
   * sides of the visit and allocation foreign keys.
   */
  const PatientRelationKeys: set<string> := {"visits", "allocations"}

  /** The patient fields a request body assigns. */
  ghost function PatientAssignments(body: Body): map<PatientField, Value> {
    map f | PatientFieldName(f) in body :: body[PatientFieldName(f)]
  }

  /** The assignment loop of the patient detail view. */
  method CollectPatientAssignments(body: Body) returns (assignments: map<PatientField, Value>)
    ensures assignments == PatientAssignments(body)
  {
    PatientLookupInjective();
    assignments := CollectAssignments(body, PatientFieldNamed);
    forall f
      ensures f in assignments <==> PatientFieldName(f) in body
    {
      PatientFieldNamedByName(f);
    }
    forall f | f in assignments
      ensures assignments[f] == body[PatientFieldName(f)]
    {
      PatientFieldNamedByName(f);
    }
  }

  function PatientFieldKind(f: PatientField): Kind {
    match f
    case Dob | RegistrationDate => DateKind
    case Age => IntegerKind
    case IsExpired => BooleanKind
    case RelativeName => NullableTextKind
    case _ => TextKind
  }

  function PatientFieldValue(p: Patient, f: PatientField): Stored {
    match f
    case FullName => SText(p.fullName)
    case Gender => SText(p.gender)
    case Dob => SDate(p.dob)
    case Age => SInt(p.age)
    case Address => SText(p.address)
    case Condition => SText(p.condition)
    case Disease => SText(p.disease)
    case IsExpired => SBool(p.isExpired)
    case CurrentStatus => SText(p.currentStatus)
    case RegistrationDate => SDate(p.registrationDate)
    case GuardianName => SText(p.guardianName)
    case GuardianPhone => SText(p.guardianPhone)
    case RelativeName => SNullableText(p.relativeName)
  }

  /**
   * `patient.save()` after the assignments: it fails exactly when some
   * assigned value does not convert for its field.
   */
  function SavePatient(p: Patient, a: map<PatientField, Value>): (r: Result<Patient, Error>)
    ensures r.Ok? <==> AllConvert(a, PatientFieldKind)
    ensures r.Err? ==> r.error == Rejected
  {
    if AllConvert(a, PatientFieldKind) then
      Ok(Patient(
        TextOr(a, PatientFieldKind, FullName, p.fullName),
        TextOr(a, PatientFieldKind, Gender, p.gender),
        DateOr(a, PatientFieldKind, Dob, p.dob),
        IntegerOr(a, PatientFieldKind, Age, p.age),
        TextOr(a, PatientFieldKind, Address, p.address),
        TextOr(a, PatientFieldKind, Condition, p.condition),
        TextOr(a, PatientFieldKind, Disease, p.disease),
        BooleanOr(a, PatientFieldKind, IsExpired, p.isExpired),
        TextOr(a, PatientFieldKind, CurrentStatus, p.currentStatus),
        DateOr(a, PatientFieldKind, RegistrationDate, p.registrationDate),
        TextOr(a, PatientFieldKind, GuardianName, p.guardianName),
        TextOr(a, PatientFieldKind, GuardianPhone, p.guardianPhone),
        NullableTextOr(a, PatientFieldKind, RelativeName, p.relativeName)))
    else Err(Rejected)
  }

  /**
   * After a successful save every assigned field holds its converted value
   * and every field the body did not name is unchanged.
   */
  lemma SavePatientFields(p: Patient, a: map<PatientField, Value>)
    requires SavePatient(p, a).Ok?
    ensures forall f :: PatientFieldValue(SavePatient(p, a).value, f) ==
              (if f in a then Convert(PatientFieldKind(f), a[f]).value else PatientFieldValue(p, f))
  {
    var q := SavePatient(p, a).value;
    forall f
      ensures PatientFieldValue(q, f) ==
              (if f in a then Convert(PatientFieldKind(f), a[f]).value else PatientFieldValue(p, f))
    {
      match f
      case FullName => TextOrStored(a, PatientFieldKind, FullName, p.fullName);
      case Gender => TextOrStored(a, PatientFieldKind, Gender, p.gender);
      case Dob => DateOrStored(a, PatientFieldKind, Dob, p.dob);
      case Age => IntegerOrStored(a, PatientFieldKind, Age, p.age);
      case Address => TextOrStored(a, PatientFieldKind, Address, p.address);
      case Condition => TextOrStored(a, PatientFieldKind, Condition, p.condition);
      case Disease => TextOrStored(a, PatientFieldKind, Disease, p.disease);
      case IsExpired => BooleanOrStored(a, PatientFieldKind, IsExpired, p.isExpired);
      case CurrentStatus => TextOrStored(a, PatientFieldKind, CurrentStatus, p.currentStatus);
      case RegistrationDate => DateOrStored(a, PatientFieldKind, RegistrationDate, p.registrationDate);
      case GuardianName => TextOrStored(a, PatientFieldKind, GuardianName, p.guardianName);
      case GuardianPhone => TextOrStored(a, PatientFieldKind, GuardianPhone, p.guardianPhone);
      case RelativeName => NullableTextOrStored(a, PatientFieldKind, RelativeName, p.relativeName);
    }
  }

  // ---------------------------------------------------------------------
  // Visit
  // ---------------------------------------------------------------------

  datatype VisitField =
    | ScheduledDate | VisitDate | TimeSpent | IsCompleted | ServicePerformed
    | ConditionAssessment | SymptomsMalayalam | SymptomsEnglish | NotesMalayalam | NotesEnglish

  function VisitFieldName(f: VisitField): string {
    match f
    case ScheduledDate => "scheduled_date"
    case VisitDate => "visit_date"
    case TimeSpent => "time_spent"
    case IsCompleted => "is_completed"
    case ServicePerformed => "service_performed"
    case ConditionAssessment => "condition_assessment"
    case SymptomsMalayalam => "symptoms_malayalam"
    case SymptomsEnglish => "symptoms_english"
    case NotesMalayalam => "notes_malayalam"
    case NotesEnglish => "notes_english"
  }

  /** `hasattr(visit, key)`, for the keys that name a data field. */
  function VisitFieldNamed(key: string): (r: Option<VisitField>)
    ensures r.Some? ==> VisitFieldName(r.value) == key
  {
    if key == "scheduled_date" then Some(ScheduledDate)
    else if key == "visit_date" then Some(VisitDate)
    else if key == "time_spent" then Some(TimeSpent)
    else if key == "is_completed" then Some(IsCompleted)
    else if key == "service_performed" then Some(ServicePerformed)
    else if key == "condition_assessment" then Some(ConditionAssessment)
    else if key == "symptoms_malayalam" then Some(SymptomsMalayalam)
    else if key == "symptoms_english" then Some(SymptomsEnglish)
    else if key == "notes_malayalam" then Some(NotesMalayalam)
    else if key == "notes_english" then Some(NotesEnglish)
    else None
  }

  /** Every visit field is found under its own name. */
  lemma VisitFieldNamedByName(f: VisitField)
    ensures VisitFieldNamed(VisitFieldName(f)) == Some(f)
  {
  }

  lemma VisitLookupInjective()
    ensures Injective(VisitFieldNamed)
  {
  }

  /**
   * A `patient` key cannot be assigned from JSON: `setattr` refuses any
   * value but a patient record, and None fails the NOT NULL constraint on
   * save. Either way the request is rejected.
   */
  const VisitRelationKeys: set<string> := {"patient"}

  /** The visit fields a request body assigns. */
  ghost function VisitAssignments(body: Body): map<VisitField, Value> {
    map f | VisitFieldName(f) in body :: body[VisitFieldName(f)]
  }

  /** The assignment loop of the visit detail view. */
  method CollectVisitAssignments(body: Body) returns (assignments: map<VisitField, Value>)
    ensures assignments == VisitAssignments(body)
  {
    VisitLookupInjective();
    assignments := CollectAssignments(body, VisitFieldNamed);
    forall f
      ensures f in assignments <==> VisitFieldName(f) in body
    {
      VisitFieldNamedByName(f);
    }
    forall f | f in assignments
      ensures assignments[f] == body[VisitFieldName(f)]
    {
      VisitFieldNamedByName(f);
    }
  }

  function VisitFieldKind(f: VisitField): Kind {
    match f
    case ScheduledDate | VisitDate => NullableDateKind
    case IsCompleted => BooleanKind
    case _ => NullableTextKind
  }

  function VisitFieldValue(v: Visit, f: VisitField): Stored {
    match f
    case ScheduledDate => SNullableDate(v.scheduledDate)
    case VisitDate => SNullableDate(v.visitDate)
    case TimeSpent => SNullableText(v.timeSpent)
    case IsCompleted => SBool(v.isCompleted)
    case ServicePerformed => SNullableText(v.servicePerformed)
    case ConditionAssessment => SNullableText(v.conditionAssessment)
    case SymptomsMalayalam => SNullableText(v.symptomsMalayalam)
    case SymptomsEnglish => SNullableText(v.symptomsEnglish)
    case NotesMalayalam => SNullableText(v.notesMalayalam)
    case NotesEnglish => SNullableText(v.notesEnglish)
  }

  /**
   * The record `visit.save()` writes after the assignments: it fails exactly
   * when some assigned value does not convert for its field.
   */
  function SaveVisitFields(v: Visit, a: map<VisitField, Value>): (r: Result<Visit, Error>)
    ensures r.Ok? <==> AllConvert(a, VisitFieldKind)
    ensures r.Ok? ==> r.value.patient == v.patient
    ensures r.Err? ==> r.error == Rejected
  {
    if AllConvert(a, VisitFieldKind) then
      Ok(Visit(
        v.patient,
        NullableDateOr(a, VisitFieldKind, ScheduledDate, v.scheduledDate),
        NullableDateOr(a, VisitFieldKind, VisitDate, v.visitDate),
        NullableTextOr(a, VisitFieldKind, TimeSpent, v.timeSpent),
        BooleanOr(a, VisitFieldKind, IsCompleted, v.isCompleted),
        NullableTextOr(a, VisitFieldKind, ServicePerformed, v.servicePerformed),
        NullableTextOr(a, VisitFieldKind, ConditionAssessment, v.conditionAssessment),
        NullableTextOr(a, VisitFieldKind, SymptomsMalayalam, v.symptomsMalayalam),
        NullableTextOr(a, VisitFieldKind, SymptomsEnglish, v.symptomsEnglish),
        NullableTextOr(a, VisitFieldKind, NotesMalayalam, v.notesMalayalam),
        NullableTextOr(a, VisitFieldKind, NotesEnglish, v.notesEnglish)))
    else Err(Rejected)
  }

  /**
   * After a successful save every assigned field holds its converted value
   * and every field the body did not name is unchanged.
   */
  lemma SaveVisitFieldsValues(v: Visit, a: map<VisitField, Value>)
    requires SaveVisitFields(v, a).Ok?
    ensures forall f :: VisitFieldValue(SaveVisitFields(v, a).value, f) ==
              (if f in a then Convert(VisitFieldKind(f), a[f]).value else VisitFieldValue(v, f))
  {
    var w := SaveVisitFields(v, a).value;
    forall f
      ensures VisitFieldValue(w, f) ==
              (if f in a then Convert(VisitFieldKind(f), a[f]).value else VisitFieldValue(v, f))
    {
      match f
      case ScheduledDate => NullableDateOrStored(a, VisitFieldKind, ScheduledDate, v.scheduledDate);
      case VisitDate => NullableDateOrStored(a, VisitFieldKind, VisitDate, v.visitDate);
      case TimeSpent => NullableTextOrStored(a, VisitFieldKind, TimeSpent, v.timeSpent);
      case IsCompleted => BooleanOrStored(a, VisitFieldKind, IsCompleted, v.isCompleted);
      case ServicePerformed => NullableTextOrStored(a, VisitFieldKind, ServicePerformed, v.servicePerformed);
      case ConditionAssessment => NullableTextOrStored(a, VisitFieldKind, ConditionAssessment, v.conditionAssessment);
      case SymptomsMalayalam => NullableTextOrStored(a, VisitFieldKind, SymptomsMalayalam, v.symptomsMalayalam);
      case SymptomsEnglish => NullableTextOrStored(a, VisitFieldKind, SymptomsEnglish, v.symptomsEnglish);
      case NotesMalayalam => NullableTextOrStored(a, VisitFieldKind, NotesMalayalam, v.notesMalayalam);
      case NotesEnglish => NullableTextOrStored(a, VisitFieldKind, NotesEnglish, v.notesEnglish);
    }
  }

  /**
   * The test `Visit.save` makes after `visit_detail` has assigned the body.
   * The visit holds the assigned value itself in memory, so the test is that
   * value's Python truth value; when the body does not name the field, it is
   * the truth value of the assessment read from the database.
   */
  predicate AssessmentAssigned(v: Visit, a: map<VisitField, Value>) {
    if ConditionAssessment in a then Truthy(a[ConditionAssessment]) else HasAssessment(v)
  }

  /**
   * An assessment that passes the test is stored as text, and for an
   * assessment sent as a string or as null the test agrees with the stored
   * text; for other values (0, false, an empty array) the two can differ.
   */
  lemma AssessmentAssignedStored(v: Visit, a: map<VisitField, Value>)
    requires SaveVisitFields(v, a).Ok?
    ensures AssessmentAssigned(v, a) ==> SaveVisitFields(v, a).value.conditionAssessment.Some?
    ensures (ConditionAssessment in a ==> a[ConditionAssessment].Str? || a[ConditionAssessment].Null?) ==>
              (AssessmentAssigned(v, a) <==> HasAssessment(SaveVisitFields(v, a).value))
  {
    SaveVisitFieldsValues(v, a);
    var w := SaveVisitFields(v, a).value;
    assert VisitFieldValue(w, ConditionAssessment) ==
           (if ConditionAssessment in a then Convert(NullableTextKind, a[ConditionAssessment]).value
            else VisitFieldValue(v, ConditionAssessment));
  }

  /**
   * An assessment sent as the number 0 is stored as the text "0", which is
   * true for Python, yet the visit does not pass its status on.
   */
  lemma ZeroAssessmentStoredNotPassedOn(v: Visit)
    ensures var a := map[ConditionAssessment := Num(0)];
            && SaveVisitFields(v, a).Ok?
            && SaveVisitFields(v, a).value.conditionAssessment == Some("0")
            && HasAssessment(SaveVisitFields(v, a).value)
            && !AssessmentAssigned(v, a)
  {
    var a := map[ConditionAssessment := Num(0)];
    assert AllConvert(a, VisitFieldKind);
    SaveVisitFieldsValues(v, a);
    assert VisitFieldValue(SaveVisitFields(v, a).value, ConditionAssessment) == SNullableText(Some("0"));
  }

  // ---------------------------------------------------------------------
  // Inventory
  // ---------------------------------------------------------------------

  datatype ItemField = ItemName | Category | Count | Description

  function ItemFieldName(f: ItemField): string {
    match f
    case ItemName => "item_name"
    case Category => "category"
    case Count => "count"
    case Description => "description"
  }

  /** `hasattr(item, key)`, for the keys that name a data field. */
  function ItemFieldNamed(key: string): (r: Option<ItemField>)
    ensures r.Some? ==> ItemFieldName(r.value) == key
  {
    if key == "item_name" then Some(ItemName)
    else if key == "category" then Some(Category)
    else if key == "count" then Some(Count)
    else if key == "description" then Some(Description)
    else None
  }

  /** Every inventory field is found under its own name. */
  lemma ItemFieldNamedByName(f: ItemField)
    ensures ItemFieldNamed(ItemFieldName(f)) == Some(f)
  {
  }

  lemma ItemLookupInjective()
    ensures Injective(ItemFieldNamed)
  {
  }

  /**
   * The key `hasattr` finds on an inventory item whose `setattr` raises:
   * the reverse side of the allocations' foreign key.
   */
  const ItemRelationKeys: set<string> := {"materialallocation_set"}

  /** The inventory fields a request body assigns. */
  ghost function ItemAssignments(body: Body): map<ItemField, Value> {
    map f | ItemFieldName(f) in body :: body[ItemFieldName(f)]
  }

  /** The assignment loop of the inventory item detail view. */
  method CollectItemAssignments(body: Body) returns (assignments: map<ItemField, Value>)
    ensures assignments == ItemAssignments(body)
  {
    ItemLookupInjective();
    assignments := CollectAssignments(body, ItemFieldNamed);
    forall f
      ensures f in assignments <==> ItemFieldName(f) in body
    {
      ItemFieldNamedByName(f);
    }
    forall f | f in assignments
      ensures assignments[f] == body[ItemFieldName(f)]
    {
      ItemFieldNamedByName(f);
    }
  }

  function ItemFieldKind(f: ItemField): Kind {
    match f
    case Count => IntegerKind
    case Description => NullableTextKind
    case _ => TextKind
  }

  function ItemFieldValue(item: InventoryItem, f: ItemField): Stored {
    match f
    case ItemName => SText(item.itemName)
    case Category => SText(item.category)
    case Count => SInt(item.count)
    case Description => SNullableText(item.description)
  }

  /**
   * `item.save()` after the assignments: it fails exactly when some assigned
   * value does not convert for its field.
   */
  function SaveItem(item: InventoryItem, a: map<ItemField, Value>): (r: Result<InventoryItem, Error>)
    ensures r.Ok? <==> AllConvert(a, ItemFieldKind)
    ensures r.Err? ==> r.error == Rejected
  {
    if AllConvert(a, ItemFieldKind) then
      Ok(InventoryItem(
        TextOr(a, ItemFieldKind, ItemName, item.itemName),
        TextOr(a, ItemFieldKind, Category, item.category),
        IntegerOr(a, ItemFieldKind, Count, item.count),
        NullableTextOr(a, ItemFieldKind, Description, item.description)))
    else Err(Rejected)
  }

  /**
   * After a successful save every assigned field holds its converted value
   * and every field the body did not name is unchanged.
   */
  lemma SaveItemFields(item: InventoryItem, a: map<ItemField, Value>)
    requires SaveItem(item, a).Ok?
    ensures forall f :: ItemFieldValue(SaveItem(item, a).value, f) ==
              (if f in a then Convert(ItemFieldKind(f), a[f]).value else ItemFieldValue(item, f))
  {
    var saved := SaveItem(item, a).value;
    forall f
      ensures ItemFieldValue(saved, f) ==
              (if f in a then Convert(ItemFieldKind(f), a[f]).value else ItemFieldValue(item, f))
    {
      match f
      case ItemName => TextOrStored(a, ItemFieldKind, ItemName, item.itemName);
      case Category => TextOrStored(a, ItemFieldKind, Category, item.category);
      case Count => IntegerOrStored(a, ItemFieldKind, Count, item.count);
      case Description => NullableTextOrStored(a, ItemFieldKind, Description, item.description);
    }
  }
}
