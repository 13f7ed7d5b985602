/**
 * The four record kinds of the store, their declared choices and defaults,
 * the status propagation a visit performs when it is saved, and the
 * delete rules of the foreign keys.
 */
module Records {
  import opened Wrappers
  import opened Values

  type PatientId = nat
  type VisitId = nat
  type AllocationId = nat
  type ItemId = nat

  datatype Patient = Patient(
    fullName: string,
    gender: string,
    dob: Date,
    age: int,
    address: string,
    condition: string,
    disease: string,
    isExpired: bool,
    currentStatus: string,
    registrationDate: Date,
    guardianName: string,
    guardianPhone: string,
    relativeName: Option<string>)

  datatype Visit = Visit(
    patient: PatientId,
    scheduledDate: Option<Date>,
    visitDate: Option<Date>,
    timeSpent: Option<string>,
    isCompleted: bool,
    servicePerformed: Option<string>,
    conditionAssessment: Option<string>,
    symptomsMalayalam: Option<string>,
    symptomsEnglish: Option<string>,
    notesMalayalam: Option<string>,
    notesEnglish: Option<string>)

  datatype Allocation = Allocation(
    patient: PatientId,
    materialName: string,
    inventoryItem: Option<ItemId>,
    allocationDate: Date,
    isReturnable: bool,
    returnDate: Option<Date>,
    isDamaged: bool)

  datatype InventoryItem = InventoryItem(
    itemName: string,
    category: string,
    count: int,
    description: Option<string>)

  /** The declared choices of a patient's current status (not enforced on save). */
  const StatusChoices: set<string> := {"Active", "Stable", "Moderate", "Severe"}

  /** The declared choices of a visit's condition assessment (not enforced on save). */
  const AssessmentChoices: set<string> := {"Active", "Moderate", "Severe"}

  /** The default of a patient's current status. */
  const DefaultStatus: string := "Active"

  /** Every foreign key names an existing record: what the database keeps. */
  ghost predicate Linked(
    patients: map<PatientId, Patient>,
    visits: map<VisitId, Visit>,
    allocations: map<AllocationId, Allocation>,
    inventory: map<ItemId, InventoryItem>)
  {
    && (forall v :: v in visits ==> visits[v].patient in patients)
    && (forall a :: a in allocations ==> allocations[a].patient in patients)
    && (forall a :: a in allocations && allocations[a].inventoryItem.Some? ==>
          allocations[a].inventoryItem.value in inventory)
  }

  /** A new patient breaks no link. */
  lemma LinkedAfterPatientInsert(
    patients: map<PatientId, Patient>, visits: map<VisitId, Visit>,
    allocations: map<AllocationId, Allocation>, inventory: map<ItemId, InventoryItem>,
    id: PatientId, p: Patient)
    requires Linked(patients, visits, allocations, inventory)
    ensures Linked(patients[id := p], visits, allocations, inventory)
  {
  }

  /** A new inventory item breaks no link. */
  lemma LinkedAfterItemInsert(
    patients: map<PatientId, Patient>, visits: map<VisitId, Visit>,
    allocations: map<AllocationId, Allocation>, inventory: map<ItemId, InventoryItem>,
    id: ItemId, item: InventoryItem)
    requires Linked(patients, visits, allocations, inventory)
    ensures Linked(patients, visits, allocations, inventory[id := item])
  {
  }

  /** A new visit of an existing patient keeps every link, also once its assessment is propagated. */
  lemma LinkedAfterVisitInsert(
    patients: map<PatientId, Patient>, visits: map<VisitId, Visit>,
    allocations: map<AllocationId, Allocation>, inventory: map<ItemId, InventoryItem>,
    id: VisitId, v: Visit, assessed: bool)
    requires Linked(patients, visits, allocations, inventory) && v.patient in patients
    ensures Linked(Propagated(patients, v, assessed), visits[id := v], allocations, inventory)
  {
  }

  /** A new allocation whose patient and item exist keeps every link. */
  lemma LinkedAfterAllocationInsert(
    patients: map<PatientId, Patient>, visits: map<VisitId, Visit>,
    allocations: map<AllocationId, Allocation>, inventory: map<ItemId, InventoryItem>,
    id: AllocationId, a: Allocation)
    requires Linked(patients, visits, allocations, inventory) && a.patient in patients
    requires a.inventoryItem.Some? ==> a.inventoryItem.value in inventory
    ensures Linked(patients, visits, allocations[id := a], inventory)
  {
  }

  // ---------------------------------------------------------------------
  // Visit.save: status propagation
  // ---------------------------------------------------------------------

  /**
   * The stored assessment is one Python finds true: not None, not empty.
   * For a visit read back from the database this is the test of `Visit.save`.
   */
  predicate HasAssessment(v: Visit) {
    v.conditionAssessment.Some? && v.conditionAssessment.value != ""
  }

  /**
   * The patients after `v` has been saved. `Visit.save` tests the assessment
   * the visit holds in memory, which is the value the request assigned, not
   * the text it is stored as; `assessed` is the outcome of that test. When
   * it holds, the stored text becomes the owning patient's current status
   * (the owner's save stores the same str()); nothing else changes.
   */
  function Propagated(patients: map<PatientId, Patient>, v: Visit, assessed: bool): (r: map<PatientId, Patient>)
    requires v.patient in patients
    ensures r.Keys == patients.Keys
    ensures forall id :: id in patients && id != v.patient ==> r[id] == patients[id]
    ensures assessed && v.conditionAssessment.Some? ==>
              r[v.patient].currentStatus == v.conditionAssessment.value
    ensures !assessed || v.conditionAssessment.None? ==> r == patients
    ensures r[v.patient] == patients[v.patient].(currentStatus := r[v.patient].currentStatus)
  {
    if assessed && v.conditionAssessment.Some? then
      patients[v.patient := patients[v.patient].(currentStatus := v.conditionAssessment.value)]
    else patients
  }

  /** Saving the same visit a second time changes nothing more. */
  lemma PropagatedIdempotent(patients: map<PatientId, Patient>, v: Visit, assessed: bool)
    requires v.patient in patients
    ensures Propagated(Propagated(patients, v, assessed), v, assessed) == Propagated(patients, v, assessed)
  {
  }

  /**
   * Every declared assessment is a declared status, so propagating a
   * declared assessment keeps every status within its declared choices.
   */
  lemma PropagatedKeepsStatusChoices(patients: map<PatientId, Patient>, v: Visit, assessed: bool)
    requires v.patient in patients
    requires forall id :: id in patients ==> patients[id].currentStatus in StatusChoices
    requires v.conditionAssessment.Some? ==> v.conditionAssessment.value in AssessmentChoices
    ensures var r := Propagated(patients, v, assessed);
            forall id :: id in r ==> r[id].currentStatus in StatusChoices
  {
    assert AssessmentChoices <= StatusChoices;
  }

  // ---------------------------------------------------------------------
  // Delete rules
  // ---------------------------------------------------------------------

  /** Deleting a patient cascades to its visits. */
  function VisitsWithoutPatient(visits: map<VisitId, Visit>, pk: PatientId): (r: map<VisitId, Visit>)
    ensures forall v :: v in r <==> v in visits && visits[v].patient != pk
    ensures forall v :: v in r ==> r[v] == visits[v]
  {
    map v | v in visits && visits[v].patient != pk :: visits[v]
  }

  /** Deleting a patient cascades to its allocations. */
  function AllocationsWithoutPatient(allocations: map<AllocationId, Allocation>, pk: PatientId)
    : (r: map<AllocationId, Allocation>)
    ensures forall a :: a in r <==> a in allocations && allocations[a].patient != pk
    ensures forall a :: a in r ==> r[a] == allocations[a]
  {
    map a | a in allocations && allocations[a].patient != pk :: allocations[a]
  }

  /** Deleting an inventory item keeps its allocations and sets their link to null. */
  function AllocationsUnlinked(allocations: map<AllocationId, Allocation>, pk: ItemId)
    : (r: map<AllocationId, Allocation>)
    ensures r.Keys == allocations.Keys
    ensures forall a :: a in r ==>
              r[a] == allocations[a].(inventoryItem := r[a].inventoryItem)
              && r[a].inventoryItem == (if allocations[a].inventoryItem == Some(pk) then None
                                        else allocations[a].inventoryItem)
  {
    map a | a in allocations ::
      if allocations[a].inventoryItem == Some(pk) then allocations[a].(inventoryItem := None)
      else allocations[a]
  }

  /** The cascade leaves every foreign key pointing at an existing patient. */
  lemma DeletePatientKeepsLinks(
    patients: map<PatientId, Patient>, visits: map<VisitId, Visit>,
    allocations: map<AllocationId, Allocation>, inventory: map<ItemId, InventoryItem>,
    pk: PatientId)
    requires Linked(patients, visits, allocations, inventory)
    ensures Linked(patients - {pk}, VisitsWithoutPatient(visits, pk),
                   AllocationsWithoutPatient(allocations, pk), inventory)
  {
  }

  /** Setting the links to null leaves no allocation pointing at the deleted item. */
  lemma DeleteItemKeepsLinks(
    patients: map<PatientId, Patient>, visits: map<VisitId, Visit>,
    allocations: map<AllocationId, Allocation>, inventory: map<ItemId, InventoryItem>,
    pk: ItemId)
    requires Linked(patients, visits, allocations, inventory)
    ensures Linked(patients, visits, AllocationsUnlinked(allocations, pk), inventory - {pk})
  {
  }
}
