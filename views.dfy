/**
 * What the write views compute from a request body: the records the
 * creation views insert, and the return/restock of an allocation update.
 * The store applies these to its tables.
 */
module Views {
  import opened Wrappers
  import opened Values
  import opened Records

  // ---------------------------------------------------------------------
  // Patient registration
  // ---------------------------------------------------------------------

  /** The submitted conditions that become the initial status as they are. */
  const RegistrationStatuses: set<string> := {"Stable", "Moderate", "Severe", "Critical", "Bedridden"}

  /** The initial status: the submitted condition if listed, otherwise "Active". */
  function InitialStatus(condition: Value): string {
    if condition.Str? && condition.s in RegistrationStatuses then condition.s else DefaultStatus
  }

  /**
   * The patient a registration creates on day `today`. The age is read
   * first, with int(); every other value is converted by the record's fields
   * when the row is inserted.
   */
  function NewPatient(body: Body, today: Date): (r: Result<Patient, Error>)
    ensures r == Err(InvalidAge) <==> PyInt(Get(body, "age", Null)).None?
    ensures r.Err? ==> r.error == InvalidAge || r.error == Rejected
    ensures r.Ok? ==> r.value.age == PyInt(Get(body, "age", Null)).value
    ensures r.Ok? && Get(body, "condition", Null).Str? ==> r.value.condition == Get(body, "condition", Null).s
    ensures r.Ok? ==> r.value.currentStatus ==
                      (if Get(body, "condition", Null).Str? && Get(body, "condition", Null).s in RegistrationStatuses
                       then Get(body, "condition", Null).s else DefaultStatus)
    ensures r.Ok? ==> !r.value.isExpired && r.value.registrationDate == today
    ensures r.Ok? <==> PyInt(Get(body, "age", Null)).Some? && PatientValuesConvert(body)
    ensures r.Ok? ==>
              && r.value.fullName == TextField(Get(body, "full_name", Null)).value
              && r.value.gender == TextField(Get(body, "gender", Null)).value
              && r.value.dob == DateField(Get(body, "dob", Null)).value
              && r.value.address == TextField(Get(body, "address", Null)).value
              && r.value.condition == TextField(Get(body, "condition", Null)).value
              && r.value.disease == TextField(Get(body, "disease", Null)).value
              && r.value.guardianName == TextField(Get(body, "guardian_name", Null)).value
              && r.value.guardianPhone == TextField(Get(body, "guardian_phone", Null)).value
              && r.value.relativeName == NullableTextField(Get(body, "relative_name", Str("")))
  {
    match PyInt(Get(body, "age", Null))
    case None => Err(InvalidAge)
    case Some(age) =>
      var condition := Get(body, "condition", Null);
      var fullName :- TextField(Get(body, "full_name", Null));
      var gender :- TextField(Get(body, "gender", Null));
      var dob :- DateField(Get(body, "dob", Null));
      var address :- TextField(Get(body, "address", Null));
      var conditionText :- TextField(condition);
      var disease :- TextField(Get(body, "disease", Null));
      var guardianName :- TextField(Get(body, "guardian_name", Null));
      var guardianPhone :- TextField(Get(body, "guardian_phone", Null));
      var relativeName := NullableTextField(Get(body, "relative_name", Str("")));
      Ok(Patient(fullName, gender, dob, age, address, conditionText, disease, false,
                 InitialStatus(condition), today, guardianName, guardianPhone, relativeName))
  }

  /** Every column of a registration converts when the row is inserted. */
  predicate PatientValuesConvert(body: Body) {
    && TextField(Get(body, "full_name", Null)).Ok?
    && TextField(Get(body, "gender", Null)).Ok?
    && DateField(Get(body, "dob", Null)).Ok?
    && TextField(Get(body, "address", Null)).Ok?
    && TextField(Get(body, "condition", Null)).Ok?
    && TextField(Get(body, "disease", Null)).Ok?
    && TextField(Get(body, "guardian_name", Null)).Ok?
    && TextField(Get(body, "guardian_phone", Null)).Ok?
  }

  /** "Critical" and "Bedridden" become a status outside the declared status choices. */
  lemma RegistrationLeavesStatusChoices(body: Body, today: Date)
    requires NewPatient(body, today).Ok?
    requires Get(body, "condition", Null).Str?
    requires Get(body, "condition", Null).s in {"Critical", "Bedridden"}
    ensures NewPatient(body, today).value.currentStatus !in StatusChoices
  {
    var c := Get(body, "condition", Null).s;
    assert c in RegistrationStatuses;
    assert NewPatient(body, today).value.currentStatus == c;
    ExtraStatusesUndeclared(c);
  }

  lemma ExtraStatusesUndeclared(c: string)
    requires c in {"Critical", "Bedridden"}
    ensures c !in StatusChoices
  {
    assert c[0] == 'C' || c[0] == 'B';
  }

  // ---------------------------------------------------------------------
  // Visit, allocation and inventory creation
  // ---------------------------------------------------------------------

  /** A foreign key value: int() of it must name an existing row. */
  function ForeignKey<R>(v: Value, table: map<nat, R>): (r: Result<nat, Error>)
    ensures r.Ok? <==> PyInt(v).Some? && PyInt(v).value >= 0 && PyInt(v).value in table
    ensures r.Ok? ==> r.value == PyInt(v).value && r.value in table
  {
    match PyInt(v)
    case Some(id) => if id >= 0 && id in table then Ok(id) else Err(Rejected)
    case None => Err(Rejected)
  }
  /** An id sent as a number or as its decimal string names its row. */
  lemma ForeignKeyOfId<R>(id: nat, table: map<nat, R>)
    requires id in table
    ensures ForeignKey(Num(id), table) == Ok(id)
    ensures ForeignKey(Str(IntToString(id)), table) == Ok(id)
  {
    var v := Str(IntToString(id));
    PyIntOfNumericString(id);
    assert PyInt(v) == Some(id as int);
  }

  /** A number, or a string int() reads as a number, that names no row is refused. */
  lemma ForeignKeyOfMissingId<R>(v: Value, table: map<nat, R>)
    requires PyInt(v).Some? && PyInt(v).value !in table
    ensures ForeignKey(v, table) == Err(Rejected)
  {
  }


  /**
   * The visit `visit_list` creates: the patient from the URL when it is
   * given and non-zero, otherwise `patient_id` from the body; a scheduled
   * date, a service and an assessment from the body; nothing completed.
   */
  /** The owner a created visit names: the URL's patient when non-zero, else `patient_id`. */
  function VisitOwner(body: Body, urlPatient: Option<PatientId>): Value {
    if urlPatient.Some? && urlPatient.value != 0 then Num(urlPatient.value)
    else Get(body, "patient_id", Null)
  }

  function NewVisit(body: Body, urlPatient: Option<PatientId>, patients: map<PatientId, Patient>)
    : (r: Result<Visit, Error>)
    ensures r.Ok? <==>
              && ForeignKey(VisitOwner(body, urlPatient), patients).Ok?
              && NullableDateField(Get(body, "scheduled_date", Null)).Ok?
    ensures r.Ok? ==>
              && r.value.servicePerformed == NullableTextField(Get(body, "service_performed", Null))
              && r.value.conditionAssessment == NullableTextField(Get(body, "condition_assessment", Null))
              && r.value.symptomsMalayalam.None? && r.value.symptomsEnglish.None?
              && r.value.notesMalayalam.None? && r.value.notesEnglish.None?
    ensures r.Ok? ==> r.value.patient in patients
    ensures r.Ok? && urlPatient.Some? && urlPatient.value != 0 ==> r.value.patient == urlPatient.value
    ensures urlPatient.Some? && urlPatient.value != 0 && urlPatient.value !in patients ==> r.Err?
    ensures r.Ok? && !(urlPatient.Some? && urlPatient.value != 0) ==>
              ForeignKey(Get(body, "patient_id", Null), patients) == Ok(r.value.patient)
    ensures !(urlPatient.Some? && urlPatient.value != 0) && ForeignKey(Get(body, "patient_id", Null), patients).Err? ==>
              r.Err?
    ensures NullableDateField(Get(body, "scheduled_date", Null)).Err? ==> r.Err?
    ensures r.Ok? ==> NullableDateField(Get(body, "scheduled_date", Null)) == Ok(r.value.scheduledDate)
    ensures r.Ok? ==> !r.value.isCompleted && r.value.visitDate.None? && r.value.timeSpent.None?
    ensures r.Ok? ==> (r.value.conditionAssessment.None? <==> Get(body, "condition_assessment", Null).Null?)
    ensures r.Ok? && Get(body, "condition_assessment", Null).Str? ==>
              r.value.conditionAssessment == Some(Get(body, "condition_assessment", Null).s)
    ensures r.Err? ==> r.error == Rejected
  {
    var patient :- ForeignKey(VisitOwner(body, urlPatient), patients);
    var scheduledDate :- NullableDateField(Get(body, "scheduled_date", Null));
    var servicePerformed := NullableTextField(Get(body, "service_performed", Null));
    var conditionAssessment := NullableTextField(Get(body, "condition_assessment", Null));
    Ok(Visit(patient, scheduledDate, None, None, false, servicePerformed, conditionAssessment,
             None, None, None, None))
  }

  /**
   * The test `Visit.save` makes on a visit `visit_list` creates: the
   * assessment is the body's raw value, so its Python truth value decides.
   */
  predicate AssessmentGiven(body: Body) {
    Truthy(Get(body, "condition_assessment", Null))
  }

  /**
   * A created visit whose assessment passes the test stores it as text; for
   * an assessment sent as a string or as null the test agrees with the
   * stored text.
   */
  lemma AssessmentGivenStored(body: Body, urlPatient: Option<PatientId>, patients: map<PatientId, Patient>)
    requires NewVisit(body, urlPatient, patients).Ok?
    ensures AssessmentGiven(body) ==> NewVisit(body, urlPatient, patients).value.conditionAssessment.Some?
    ensures Get(body, "condition_assessment", Null).Str? || Get(body, "condition_assessment", Null).Null? ==>
              (AssessmentGiven(body) <==> HasAssessment(NewVisit(body, urlPatient, patients).value))
  {
  }

  /**
   * A visit created with the assessment `false` stores the text "False",
   * which is true for Python, yet passes no status on.
   */
  lemma FalseAssessmentNotPassedOn(patient: PatientId, patients: map<PatientId, Patient>)
    requires patient in patients
    ensures var body := map["patient_id" := Num(patient), "condition_assessment" := Bool(false)];
            var r := NewVisit(body, None, patients);
            && r.Ok?
            && r.value.conditionAssessment == Some("False")
            && HasAssessment(r.value)
            && !AssessmentGiven(body)
  {
    var body := map["patient_id" := Num(patient), "condition_assessment" := Bool(false)];
    assert Get(body, "condition_assessment", Null) == Bool(false);
    assert Get(body, "patient_id", Null) == Num(patient);
  }

  /**
   * A link value that stores a null foreign key: None, or the empty string,
   * which a foreign key to an integer id saves as NULL.
   */
  predicate NoLink(link: Value) {
    link.Null? || link == Str("")
  }

  /** Every column of a new allocation other than its links converts on insert. */
  predicate AllocationValuesConvert(body: Body) {
    && TextField(Get(body, "material_name", Null)).Ok?
    && DateField(Get(body, "allocation_date", Null)).Ok?
    && BooleanField(Get(body, "is_returnable", Bool(false))).Ok?
    && NullableDateField(Get(body, "return_date", Null)).Ok?
    && BooleanField(Get(body, "is_damaged", Bool(false))).Ok?
  }

  /**
   * The allocation `allocation_list` creates for the patient in the URL;
   * `is_returnable` and `is_damaged` default to false.
   */
  function NewAllocation(
    body: Body, patient: PatientId,
    patients: map<PatientId, Patient>, inventory: map<ItemId, InventoryItem>)
    : (r: Result<Allocation, Error>)
    ensures r.Ok? ==> r.value.patient == patient && patient in patients
    ensures r.Ok? && r.value.inventoryItem.Some? ==> r.value.inventoryItem.value in inventory
    ensures r.Ok? && "is_returnable" !in body ==> !r.value.isReturnable
    ensures r.Ok? && "is_damaged" !in body ==> !r.value.isDamaged
    ensures r.Ok? ==> (r.value.inventoryItem.None? <==> NoLink(Get(body, "inventory_item_id", Null)))
    ensures r.Ok? && r.value.inventoryItem.Some? ==>
              ForeignKey(Get(body, "inventory_item_id", Null), inventory) == Ok(r.value.inventoryItem.value)
    ensures r.Err? ==> r.error == Rejected
    ensures r.Ok? <==>
              && patient in patients
              && (NoLink(Get(body, "inventory_item_id", Null)) || ForeignKey(Get(body, "inventory_item_id", Null), inventory).Ok?)
              && AllocationValuesConvert(body)
    ensures r.Ok? ==>
              && r.value.materialName == TextField(Get(body, "material_name", Null)).value
              && r.value.allocationDate == DateField(Get(body, "allocation_date", Null)).value
              && r.value.isReturnable == BooleanField(Get(body, "is_returnable", Bool(false))).value
              && r.value.returnDate == NullableDateField(Get(body, "return_date", Null)).value
              && r.value.isDamaged == BooleanField(Get(body, "is_damaged", Bool(false))).value
  {
    if patient !in patients then Err(Rejected)
    else
      var link := Get(body, "inventory_item_id", Null);
      var inventoryItem :- if NoLink(link) then Ok(None)
                           else (var id :- ForeignKey(link, inventory); Ok(Some(id)));
      var materialName :- TextField(Get(body, "material_name", Null));
      var allocationDate :- DateField(Get(body, "allocation_date", Null));
      var isReturnable :- BooleanField(Get(body, "is_returnable", Bool(false)));
      var returnDate :- NullableDateField(Get(body, "return_date", Null));
      var isDamaged :- BooleanField(Get(body, "is_damaged", Bool(false)));
      Ok(Allocation(patient, materialName, inventoryItem, allocationDate, isReturnable,
                    returnDate, isDamaged))
  }

  /** The item `inventory_list` creates; its count defaults to 0. */
  function NewItem(body: Body): (r: Result<InventoryItem, Error>)
    ensures r.Ok? && "count" !in body ==> r.value.count == 0
    ensures r.Ok? ==> PyInt(Get(body, "count", Num(0))) == Some(r.value.count)
    ensures PyInt(Get(body, "count", Num(0))).None? ==> r == Err(Rejected)
    ensures r.Err? ==> r.error == Rejected
    ensures r.Ok? <==>
              && PyInt(Get(body, "count", Num(0))).Some?
              && TextField(Get(body, "item_name", Null)).Ok?
              && TextField(Get(body, "category", Null)).Ok?
    ensures r.Ok? ==>
              && r.value.itemName == TextField(Get(body, "item_name", Null)).value
              && r.value.category == TextField(Get(body, "category", Null)).value
              && r.value.description == NullableTextField(Get(body, "description", Str("")))
  {
    var count :- IntegerField(Get(body, "count", Num(0)));
    var itemName :- TextField(Get(body, "item_name", Null));
    var category :- TextField(Get(body, "category", Null));
    var description := NullableTextField(Get(body, "description", Str("")));
    Ok(InventoryItem(itemName, category, count, description))
  }

  // ---------------------------------------------------------------------
  // Allocation return and restock
  // ---------------------------------------------------------------------

  /** What an allocation update leaves behind: the allocation, the inventory, the response. */
  datatype ReturnOutcome = ReturnOutcome(
    allocation: Allocation,
    inventory: map<ItemId, InventoryItem>,
    result: Result<(), Error>)

  /** The body carries a `return_date` that Python finds true. */
  predicate ReturnRequested(body: Body) {
    "return_date" in body && Truthy(body["return_date"])
  }

  /** `data.get('is_damaged', False)`. */
  function DamagedValue(body: Body): Value {
    Get(body, "is_damaged", Bool(false))
  }

  /** The update restocks: a return of a returnable, undamaged, linked allocation. */
  predicate Restocks(a: Allocation, body: Body) {
    ReturnRequested(body) && a.isReturnable && !Truthy(DamagedValue(body)) && a.inventoryItem.Some?
  }

  /**
   * `allocation_detail` PUT on allocation `a`. A requested return sets the
   * return date and the damage flag and, for a returnable, undamaged, linked
   * allocation, first saves the linked item with its count raised by one;
   * then the allocation is saved, which fails when the date or the flag
   * does not convert. Nothing guards against a second return.
   */
  function ApplyReturn(a: Allocation, inventory: map<ItemId, InventoryItem>, body: Body)
    : (o: ReturnOutcome)
    requires a.inventoryItem.Some? ==> a.inventoryItem.value in inventory
    ensures o.inventory.Keys == inventory.Keys
    ensures forall id :: id in inventory ==>
              o.inventory[id] == inventory[id].(count := o.inventory[id].count)
    ensures forall id :: id in inventory ==>
              o.inventory[id].count ==
              inventory[id].count + (if Restocks(a, body) && a.inventoryItem == Some(id) then 1 else 0)
    ensures !ReturnRequested(body) ==> o == ReturnOutcome(a, inventory, Ok(()))
    ensures ReturnRequested(body) ==>
              (o.result.Ok? <==> body["return_date"].DateStr? && BooleanField(DamagedValue(body)).Ok?)
    ensures o.result.Ok? && ReturnRequested(body) ==>
              o.allocation == a.(returnDate := Some(body["return_date"].d),
                                 isDamaged := BooleanField(DamagedValue(body)).value)
    ensures o.result.Err? ==> o.allocation == a && o.result.error == Rejected
  {
    if !ReturnRequested(body) then ReturnOutcome(a, inventory, Ok(()))
    else
      var damaged := DamagedValue(body);
      var inventory' :=
        if Restocks(a, body) then
          var id := a.inventoryItem.value;
          inventory[id := inventory[id].(count := inventory[id].count + 1)]
        else inventory;
      match (DateField(body["return_date"]), BooleanField(damaged))
      case (Ok(d), Ok(flag)) => ReturnOutcome(a.(returnDate := Some(d), isDamaged := flag), inventory', Ok(()))
      case _ => ReturnOutcome(a, inventory', Err(Rejected))
  }

  /**
   * With the damage flag sent as a JSON boolean or left out, a return with a
   * date is recorded, the flag is the one sent (false by default), and the
   * linked count rises by exactly one iff the allocation is returnable, not
   * damaged and linked; every other count is unchanged.
   */
  lemma ReturnWithBooleanFlag(a: Allocation, inventory: map<ItemId, InventoryItem>, body: Body, day: Date)
    requires a.inventoryItem.Some? ==> a.inventoryItem.value in inventory
    requires "return_date" in body && body["return_date"].DateStr? && body["return_date"].d == day
    requires "is_damaged" in body ==> body["is_damaged"].Bool?
    ensures var o := ApplyReturn(a, inventory, body);
            && o.result.Ok?
            && o.allocation.returnDate == Some(day)
            && o.allocation.isDamaged == ("is_damaged" in body && body["is_damaged"].b)
            && forall id :: id in inventory ==>
                 o.inventory[id].count == inventory[id].count +
                   (if a.isReturnable && !o.allocation.isDamaged && a.inventoryItem == Some(id) then 1 else 0)
  {
    var o := ApplyReturn(a, inventory, body);
    assert ReturnRequested(body);
    assert DamagedValue(body) == Bool("is_damaged" in body && body["is_damaged"].b);
  }

  /**
   * The restock is not guarded: sending the same qualifying return twice
   * raises the linked count by two, whether or not the allocation's own
   * save succeeded the first time.
   */
  lemma ReturnTwiceRestocksTwice(a: Allocation, inventory: map<ItemId, InventoryItem>, body: Body)
    requires a.inventoryItem.Some? && a.inventoryItem.value in inventory
    requires Restocks(a, body)
    ensures var once := ApplyReturn(a, inventory, body);
            var twice := ApplyReturn(once.allocation, once.inventory, body);
            var id := a.inventoryItem.value;
            twice.inventory[id].count == inventory[id].count + 2
  {
    var once := ApplyReturn(a, inventory, body);
    assert once.allocation.inventoryItem == a.inventoryItem;
    assert once.allocation.isReturnable == a.isReturnable;
    assert Restocks(once.allocation, body);
  }

  /**
   * The item is saved before the allocation: a return date the date field
   * cannot read is reported as an error, yet the count has already risen.
   */
  lemma RejectedReturnStillRestocks(a: Allocation, inventory: map<ItemId, InventoryItem>, text: string)
    requires a.inventoryItem.Some? && a.inventoryItem.value in inventory
    requires a.isReturnable && text != ""
    ensures var o := ApplyReturn(a, inventory, map["return_date" := Str(text)]);
            var id := a.inventoryItem.value;
            o.result == Err(Rejected) && o.allocation == a
            && o.inventory[id].count == inventory[id].count + 1
  {
    var body := map["return_date" := Str(text)];
    assert Restocks(a, body);
  }
}
