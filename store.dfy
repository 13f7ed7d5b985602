/**
 * The database behind the views: four tables keyed by auto-incremented
 * ids, and one method per write request of the core views. Each request
 * is either rejected with the tables untouched (404, invalid age, a value
 * a column does not accept) or applies the record functions of the views
 * to the tables.
 */
module Storage {
  import opened Wrappers
  import opened Values
  import opened Records
  import opened Fields
  import opened Views
  import History

  // ---------------------------------------------------------------------
  // The detail views' PUT on one table: look the row up, assign the
  // fields the body names, save.
  // ---------------------------------------------------------------------

  /**
   * `visit_detail` PUT on the visits table: the visit saved with the
   * assignments of the body and its assessment propagated to its patient,
   * or not found, or rejected with both tables as they were. Propagation
   * tests the assessment the body assigned, as the visit holds it in memory.
   */
  method VisitUpdated(visits: map<VisitId, Visit>, patients: map<PatientId, Patient>, pk: VisitId, body: Body)
    returns (r: Result<(), Error>, visits': map<VisitId, Visit>, patients': map<PatientId, Patient>)
    requires pk in visits ==> visits[pk].patient in patients
    ensures visits'.Keys == visits.Keys && patients'.Keys == patients.Keys
    ensures forall id :: id in visits ==> visits'[id].patient == visits[id].patient
    ensures pk !in visits ==> r == Err(NotFound) && visits' == visits && patients' == patients
    ensures pk in visits && AssignsRelation(body, VisitRelationKeys) ==>
              r == Err(Rejected) && visits' == visits && patients' == patients
    ensures pk in visits && !AssignsRelation(body, VisitRelationKeys) ==>
              var assignments := VisitAssignments(body);
              var saved := SaveVisitFields(visits[pk], assignments);
              && (saved.Err? ==> r == Err(Rejected) && visits' == visits && patients' == patients)
              && (saved.Ok? ==>
                    && r == Ok(())
                    && visits' == visits[pk := saved.value]
                    && patients' == Propagated(patients, saved.value, AssessmentAssigned(visits[pk], assignments)))
  {
    if pk !in visits {
      return Err(NotFound), visits, patients;
    }
    if AssignsRelation(body, VisitRelationKeys) {
      return Err(Rejected), visits, patients;
    }
    var assignments := CollectVisitAssignments(body);
    var saved := SaveVisitFields(visits[pk], assignments);
    if saved.Err? {
      return Err(Rejected), visits, patients;
    }
    var assessed := AssessmentAssigned(visits[pk], assignments);
    return Ok(()), visits[pk := saved.value], Propagated(patients, saved.value, assessed);
  }

  /**
   * `patient_detail` PUT on the patients table: the patient saved with the
   * assignments of the body, or not found, or rejected with the table as it was.
   */
  method PatientUpdated(patients: map<PatientId, Patient>, pk: PatientId, body: Body)
    returns (r: Result<(), Error>, patients': map<PatientId, Patient>)
    ensures patients'.Keys == patients.Keys
    ensures pk !in patients ==> r == Err(NotFound) && patients' == patients
    ensures pk in patients && AssignsRelation(body, PatientRelationKeys) ==>
              r == Err(Rejected) && patients' == patients
    ensures pk in patients && !AssignsRelation(body, PatientRelationKeys) ==>
              var saved := SavePatient(patients[pk], PatientAssignments(body));
              && (saved.Err? ==> r == Err(Rejected) && patients' == patients)
              && (saved.Ok? ==> r == Ok(()) && patients' == patients[pk := saved.value])
  {
    if pk !in patients {
      return Err(NotFound), patients;
    }
    if AssignsRelation(body, PatientRelationKeys) {
      return Err(Rejected), patients;
    }
    var assignments := CollectPatientAssignments(body);
    var saved := SavePatient(patients[pk], assignments);
    if saved.Err? {
      return Err(Rejected), patients;
    }
    return Ok(()), patients[pk := saved.value];
  }

  /**
   * `inventory_detail` PUT on the inventory table: the item saved with the
   * assignments of the body, or not found, or rejected with the table as it was.
   */
  method ItemUpdated(inventory: map<ItemId, InventoryItem>, pk: ItemId, body: Body)
    returns (r: Result<(), Error>, inventory': map<ItemId, InventoryItem>)
    ensures inventory'.Keys == inventory.Keys
    ensures pk !in inventory ==> r == Err(NotFound) && inventory' == inventory
    ensures pk in inventory && AssignsRelation(body, ItemRelationKeys) ==>
              r == Err(Rejected) && inventory' == inventory
    ensures pk in inventory && !AssignsRelation(body, ItemRelationKeys) ==>
              var saved := SaveItem(inventory[pk], ItemAssignments(body));
              && (saved.Err? ==> r == Err(Rejected) && inventory' == inventory)
              && (saved.Ok? ==> r == Ok(()) && inventory' == inventory[pk := saved.value])
  {
    if pk !in inventory {
      return Err(NotFound), inventory;
    }
    if AssignsRelation(body, ItemRelationKeys) {
      return Err(Rejected), inventory;
    }
    var assignments := CollectItemAssignments(body);
    var saved := SaveItem(inventory[pk], assignments);
    if saved.Err? {
      return Err(Rejected), inventory;
    }
    return Ok(()), inventory[pk := saved.value];
  }

  /**
   * `allocation_detail` PUT on the allocations and inventory tables. A
   * requested return restocks the linked item of a returnable allocation
   * whose raw damage flag is false, saving the item first; then the
   * allocation is saved, which can still fail.
   */
  method Returned(
    allocations: map<AllocationId, Allocation>, inventory: map<ItemId, InventoryItem>,
    pk: AllocationId, body: Body)
    returns (r: Result<(), Error>, allocations': map<AllocationId, Allocation>,
             inventory': map<ItemId, InventoryItem>)
    requires pk in allocations && allocations[pk].inventoryItem.Some? ==>
               allocations[pk].inventoryItem.value in inventory
    ensures allocations'.Keys == allocations.Keys && inventory'.Keys == inventory.Keys
    ensures forall id :: id in allocations ==>
              && allocations'[id].patient == allocations[id].patient
              && allocations'[id].inventoryItem == allocations[id].inventoryItem
    ensures pk !in allocations ==>
              r == Err(NotFound) && allocations' == allocations && inventory' == inventory
    ensures pk in allocations ==>
              var o := ApplyReturn(allocations[pk], inventory, body);
              && r == o.result
              && allocations' == allocations[pk := o.allocation]
              && inventory' == o.inventory
  {
    allocations', inventory' := allocations, inventory;
    if pk !in allocations {
      return Err(NotFound), allocations', inventory';
    }
    var a := allocations[pk];
    if "return_date" in body && Truthy(body["return_date"]) {
      var damaged := Get(body, "is_damaged", Bool(false));
      if a.isReturnable && !Truthy(damaged) {
        if a.inventoryItem.Some? {
          var id := a.inventoryItem.value;
          inventory' := inventory'[id := inventory'[id].(count := inventory'[id].count + 1)];
        }
      }
      var date := DateField(body["return_date"]);
      var flag := BooleanField(damaged);
      if date.Ok? && flag.Ok? {
        allocations' := allocations'[pk := a.(returnDate := Some(date.value), isDamaged := flag.value)];
        r := Ok(());
      } else {
        r := Err(Rejected);
      }
    } else {
      r := Ok(());
    }
  }

  class Store {
    var patients: map<PatientId, Patient>
    var visits: map<VisitId, Visit>
    var allocations: map<AllocationId, Allocation>
    var inventory: map<ItemId, InventoryItem>
    var nextPatient: nat
    var nextVisit: nat
    var nextAllocation: nat
    var nextItem: nat

    /** Every foreign key names an existing row, and every id is below the next one handed out. */
    ghost predicate Valid()
      reads this
    {
      && Linked(patients, visits, allocations, inventory)
      && (forall id :: id in patients ==> id < nextPatient)
      && (forall id :: id in visits ==> id < nextVisit)
      && (forall id :: id in allocations ==> id < nextAllocation)
      && (forall id :: id in inventory ==> id < nextItem)
    }

    /** An empty database; ids start at 1. */
    constructor ()
      ensures Valid()
      ensures patients == map[] && visits == map[] && allocations == map[] && inventory == map[]
      ensures nextPatient == 1 && nextVisit == 1 && nextAllocation == 1 && nextItem == 1
    {
      patients, visits, allocations, inventory := map[], map[], map[], map[];
      nextPatient, nextVisit, nextAllocation, nextItem := 1, 1, 1, 1;
    }

    /** `patient_list` POST: registers the patient under a fresh id. */
    method RegisterPatient(body: Body, today: Date) returns (r: Result<PatientId, Error>)
      requires Valid()
      modifies this
      ensures Valid()
      ensures NewPatient(body, today).Err? ==>
                r == Err(NewPatient(body, today).error) && unchanged(this)
      ensures NewPatient(body, today).Ok? ==>
                && r == Ok(old(nextPatient))
                && old(nextPatient) !in old(patients)
                && patients == old(patients)[old(nextPatient) := NewPatient(body, today).value]
                && nextPatient == old(nextPatient) + 1
                && visits == old(visits) && allocations == old(allocations) && inventory == old(inventory)
                && nextVisit == old(nextVisit) && nextAllocation == old(nextAllocation)
                && nextItem == old(nextItem)
    {
      match NewPatient(body, today)
      case Err(e) =>
        r := Err(e);
      case Ok(p) =>
        var id := nextPatient;
        LinkedAfterPatientInsert(patients, visits, allocations, inventory, id, p);
        patients := patients[id := p];
        nextPatient := nextPatient + 1;
        r := Ok(id);
    }

    /**
     * `visit_list` POST: stores the visit under a fresh id; saving it
     * propagates its assessment to the patient when the assessment sent is
     * true for Python.
     */
    method CreateVisit(body: Body, urlPatient: Option<PatientId>) returns (r: Result<VisitId, Error>)
      requires Valid()
      modifies this
      ensures Valid()
      ensures NewVisit(body, urlPatient, old(patients)).Err? ==> r == Err(Rejected) && unchanged(this)
      ensures NewVisit(body, urlPatient, old(patients)).Ok? ==>
                var v := NewVisit(body, urlPatient, old(patients)).value;
                && r == Ok(old(nextVisit))
                && old(nextVisit) !in old(visits)
                && visits == old(visits)[old(nextVisit) := v]
                && patients == Propagated(old(patients), v, AssessmentGiven(body))
                && nextVisit == old(nextVisit) + 1
                && allocations == old(allocations) && inventory == old(inventory)
                && nextPatient == old(nextPatient) && nextAllocation == old(nextAllocation)
                && nextItem == old(nextItem)
    {
      match NewVisit(body, urlPatient, patients)
      case Err(e) =>
        r := Err(e);
      case Ok(v) =>
        var id := nextVisit;
        LinkedAfterVisitInsert(patients, visits, allocations, inventory, id, v, AssessmentGiven(body));
        var propagated := Propagated(patients, v, AssessmentGiven(body));
        assert propagated.Keys == patients.Keys;
        visits := visits[id := v];
        patients := propagated;
        nextVisit := nextVisit + 1;
        r := Ok(id);
    }

    /**
     * `visit_detail` PUT: assigns every field the body names, saves the
     * visit and propagates the assessment it holds; a `patient` key or a
     * value that does not convert rejects the request and nothing is written.
     */
    method UpdateVisit(pk: VisitId, body: Body) returns (r: Result<(), Error>)
      requires Valid()
      modifies this
      ensures Valid()
      ensures pk !in old(visits) ==> r == Err(NotFound) && unchanged(this)
      ensures pk in old(visits) && AssignsRelation(body, VisitRelationKeys) ==>
                r == Err(Rejected) && unchanged(this)
      ensures pk in old(visits) && !AssignsRelation(body, VisitRelationKeys) ==>
                var assignments := VisitAssignments(body);
                var saved := SaveVisitFields(old(visits)[pk], assignments);
                && (saved.Err? ==> r == Err(Rejected) && unchanged(this))
                && (saved.Ok? ==>
                      && r == Ok(())
                      && visits == old(visits)[pk := saved.value]
                      && patients == Propagated(old(patients), saved.value,
                                                AssessmentAssigned(old(visits)[pk], assignments))
                      && allocations == old(allocations) && inventory == old(inventory)
                      && nextPatient == old(nextPatient) && nextVisit == old(nextVisit)
                      && nextAllocation == old(nextAllocation) && nextItem == old(nextItem))
    {
      var visits', patients';
      r, visits', patients' := VisitUpdated(visits, patients, pk, body);
      visits, patients := visits', patients';
    }

    /**
     * `patient_detail` PUT: assigns every field the body names and saves the
     * patient; a key naming its visits or allocations rejects the request.
     */
    method UpdatePatient(pk: PatientId, body: Body) returns (r: Result<(), Error>)
      requires Valid()
      modifies this
      ensures Valid()
      ensures pk !in old(patients) ==> r == Err(NotFound) && unchanged(this)
      ensures pk in old(patients) && AssignsRelation(body, PatientRelationKeys) ==>
                r == Err(Rejected) && unchanged(this)
      ensures pk in old(patients) && !AssignsRelation(body, PatientRelationKeys) ==>
                var saved := SavePatient(old(patients)[pk], PatientAssignments(body));
                && (saved.Err? ==> r == Err(Rejected) && unchanged(this))
                && (saved.Ok? ==>
                      && r == Ok(())
                      && patients == old(patients)[pk := saved.value]
                      && visits == old(visits) && allocations == old(allocations)
                      && inventory == old(inventory)
                      && nextPatient == old(nextPatient) && nextVisit == old(nextVisit)
                      && nextAllocation == old(nextAllocation) && nextItem == old(nextItem))
    {
      var patients';
      r, patients' := PatientUpdated(patients, pk, body);
      patients := patients';
    }

    /**
     * `inventory_detail` PUT: assigns every field the body names and saves
     * the item; a key naming its allocations rejects the request.
     */
    method UpdateItem(pk: ItemId, body: Body) returns (r: Result<(), Error>)
      requires Valid()
      modifies this
      ensures Valid()
      ensures pk !in old(inventory) ==> r == Err(NotFound) && unchanged(this)
      ensures pk in old(inventory) && AssignsRelation(body, ItemRelationKeys) ==>
                r == Err(Rejected) && unchanged(this)
      ensures pk in old(inventory) && !AssignsRelation(body, ItemRelationKeys) ==>
                var saved := SaveItem(old(inventory)[pk], ItemAssignments(body));
                && (saved.Err? ==> r == Err(Rejected) && unchanged(this))
                && (saved.Ok? ==>
                      && r == Ok(())
                      && inventory == old(inventory)[pk := saved.value]
                      && patients == old(patients) && visits == old(visits)
                      && allocations == old(allocations)
                      && nextPatient == old(nextPatient) && nextVisit == old(nextVisit)
                      && nextAllocation == old(nextAllocation) && nextItem == old(nextItem))
    {
      var inventory';
      r, inventory' := ItemUpdated(inventory, pk, body);
      inventory := inventory';
    }

    /** `allocation_list` POST: stores the allocation for `patient` under a fresh id. */
    method CreateAllocation(patient: PatientId, body: Body) returns (r: Result<AllocationId, Error>)
      requires Valid()
      modifies this
      ensures Valid()
      ensures NewAllocation(body, patient, old(patients), old(inventory)).Err? ==>
                r == Err(Rejected) && unchanged(this)
      ensures NewAllocation(body, patient, old(patients), old(inventory)).Ok? ==>
                && r == Ok(old(nextAllocation))
                && old(nextAllocation) !in old(allocations)
                && allocations == old(allocations)[old(nextAllocation) :=
                                   NewAllocation(body, patient, old(patients), old(inventory)).value]
                && nextAllocation == old(nextAllocation) + 1
                && patients == old(patients) && visits == old(visits) && inventory == old(inventory)
                && nextPatient == old(nextPatient) && nextVisit == old(nextVisit)
                && nextItem == old(nextItem)
    {
      match NewAllocation(body, patient, patients, inventory)
      case Err(e) =>
        r := Err(e);
      case Ok(a) =>
        var id := nextAllocation;
        LinkedAfterAllocationInsert(patients, visits, allocations, inventory, id, a);
        allocations := allocations[id := a];
        nextAllocation := nextAllocation + 1;
        r := Ok(id);
    }

    /** `inventory_list` POST: stores the item under a fresh id. */
    method CreateItem(body: Body) returns (r: Result<ItemId, Error>)
      requires Valid()
      modifies this
      ensures Valid()
      ensures NewItem(body).Err? ==> r == Err(Rejected) && unchanged(this)
      ensures NewItem(body).Ok? ==>
                && r == Ok(old(nextItem))
                && old(nextItem) !in old(inventory)
                && inventory == old(inventory)[old(nextItem) := NewItem(body).value]
                && nextItem == old(nextItem) + 1
                && patients == old(patients) && visits == old(visits) && allocations == old(allocations)
                && nextPatient == old(nextPatient) && nextVisit == old(nextVisit)
                && nextAllocation == old(nextAllocation)
    {
      match NewItem(body)
      case Err(e) =>
        r := Err(e);
      case Ok(item) =>
        var id := nextItem;
        LinkedAfterItemInsert(patients, visits, allocations, inventory, id, item);
        inventory := inventory[id := item];
        nextItem := nextItem + 1;
        r := Ok(id);
    }

    /** `allocation_detail` PUT, on the allocations and inventory tables. */
    method ReturnAllocation(pk: AllocationId, body: Body) returns (r: Result<(), Error>)
      requires Valid()
      modifies this
      ensures Valid()
      ensures pk !in old(allocations) ==> r == Err(NotFound) && unchanged(this)
      ensures pk in old(allocations) ==>
                var o := ApplyReturn(old(allocations)[pk], old(inventory), body);
                && r == o.result
                && allocations == old(allocations)[pk := o.allocation]
                && inventory == o.inventory
                && patients == old(patients) && visits == old(visits)
                && nextPatient == old(nextPatient) && nextVisit == old(nextVisit)
                && nextAllocation == old(nextAllocation) && nextItem == old(nextItem)
    {
      var allocations', inventory';
      r, allocations', inventory' := Returned(allocations, inventory, pk, body);
      allocations, inventory := allocations', inventory';
    }

    /** `inventory_history` GET, read from the current tables. */
    method InventoryHistory(pk: ItemId) returns (r: Result<History.HistoryReport, Error>)
      requires Valid()
      ensures pk !in inventory <==> r == Err(NotFound)
      ensures pk in inventory ==> r.Ok?
      ensures r.Ok? ==> r.value.item == inventory[pk]
      ensures r.Ok? ==> exists ids ::
                && History.IsHistory(allocations, pk, inventory[pk].itemName, ids)
                && r.value.history == History.Rows(patients, allocations, ids)
                && r.value.stats == History.Tally(allocations, ids)
    {
      r := History.InventoryHistory(patients, allocations, inventory, pk);
    }

    /** Deleting a patient cascades to its visits and its allocations. */
    method DeletePatient(pk: PatientId)
      requires Valid()
      modifies this
      ensures Valid()
      ensures patients == old(patients) - {pk}
      ensures visits == VisitsWithoutPatient(old(visits), pk)
      ensures allocations == AllocationsWithoutPatient(old(allocations), pk)
      ensures inventory == old(inventory)
      ensures nextPatient == old(nextPatient) && nextVisit == old(nextVisit)
      ensures nextAllocation == old(nextAllocation) && nextItem == old(nextItem)
    {
      DeletePatientKeepsLinks(patients, visits, allocations, inventory, pk);
      patients := patients - {pk};
      visits := VisitsWithoutPatient(visits, pk);
      allocations := AllocationsWithoutPatient(allocations, pk);
    }

    /** Deleting an inventory item keeps its allocations and clears their link. */
    method DeleteItem(pk: ItemId)
      requires Valid()
      modifies this
      ensures Valid()
      ensures inventory == old(inventory) - {pk}
      ensures allocations == AllocationsUnlinked(old(allocations), pk)
      ensures patients == old(patients) && visits == old(visits)
      ensures nextPatient == old(nextPatient) && nextVisit == old(nextVisit)
      ensures nextAllocation == old(nextAllocation) && nextItem == old(nextItem)
    {
      DeleteItemKeepsLinks(patients, visits, allocations, inventory, pk);
      inventory := inventory - {pk};
      allocations := AllocationsUnlinked(allocations, pk);
    }
  }
}
