/**
 * The history view of one inventory item: the allocations linked to it
 * together with the unlinked (legacy) allocations whose material name
 * contains the item's name, each once, newest first, and the counters
 * folded over them.
 */
module History {
  import opened Wrappers
  import opened Values
  import opened Records
  import opened Text
  import opened Views

  /** The allocations whose link names item `pk`. */
  function LinkedTo(allocations: map<AllocationId, Allocation>, pk: ItemId): set<AllocationId> {
    set id | id in allocations && allocations[id].inventoryItem == Some(pk)
  }

  /** The unlinked allocations whose material name contains `name`, ignoring case. */
  function LegacyMatches(allocations: map<AllocationId, Allocation>, name: string): set<AllocationId> {
    set id | id in allocations && allocations[id].inventoryItem.None?
                               && ContainsIgnoreCase(allocations[id].materialName, name)
  }

  /** The allocation belongs in the history of item `pk` named `name`. */
  predicate BelongsTo(a: Allocation, pk: ItemId, name: string) {
    a.inventoryItem == Some(pk) || (a.inventoryItem.None? && ContainsIgnoreCase(a.materialName, name))
  }

  predicate AllIn(allocations: map<AllocationId, Allocation>, ids: seq<AllocationId>) {
    forall i :: 0 <= i < |ids| ==> ids[i] in allocations
  }

  /** Ordered by allocation date, newest first (ties in any order). */
  predicate DateDescending(allocations: map<AllocationId, Allocation>, ids: seq<AllocationId>)
    requires AllIn(allocations, ids)
  {
    forall i, j :: 0 <= i < j < |ids| ==>
      allocations[ids[i]].allocationDate >= allocations[ids[j]].allocationDate
  }

  /** `ids` is the merged, de-duplicated, newest-first history of item `pk` named `name`. */
  predicate IsHistory(
    allocations: map<AllocationId, Allocation>, pk: ItemId, name: string, ids: seq<AllocationId>)
  {
    && AllIn(allocations, ids)
    && multiset(ids) == multiset(LinkedTo(allocations, pk) + LegacyMatches(allocations, name))
    && DateDescending(allocations, ids)
  }

  /** An allocation no older than every one of a newest-first sequence can go in front of it. */
  lemma PrependDescending(allocations: map<AllocationId, Allocation>, x: AllocationId, ids: seq<AllocationId>)
    requires x in allocations && AllIn(allocations, ids) && DateDescending(allocations, ids)
    requires forall k :: 0 <= k < |ids| ==> allocations[x].allocationDate >= allocations[ids[k]].allocationDate
    ensures AllIn(allocations, [x] + ids) && DateDescending(allocations, [x] + ids)
  {
    var r := [x] + ids;
    forall i, j | 0 <= i < j < |r|
      ensures allocations[r[i]].allocationDate >= allocations[r[j]].allocationDate
    {
      assert r[j] == ids[j - 1];
      if i > 0 {
        assert r[i] == ids[i - 1];
      }
    }
  }

  /** The tail of a newest-first sequence is newest first, and its head is no older than any of it. */
  lemma DescendingTail(allocations: map<AllocationId, Allocation>, ids: seq<AllocationId>)
    requires |ids| > 0 && AllIn(allocations, ids) && DateDescending(allocations, ids)
    ensures AllIn(allocations, ids[1..]) && DateDescending(allocations, ids[1..])
    ensures forall k :: 0 <= k < |ids[1..]| ==>
              allocations[ids[0]].allocationDate >= allocations[ids[1..][k]].allocationDate
  {
    var tail := ids[1..];
    forall k | 0 <= k < |tail|
      ensures tail[k] == ids[k + 1]
    {
    }
  }

  /** A head newer than `id` and than all of `tail` is newer than all of `tail` with `id` added. */
  lemma HeadStaysNewest(
    allocations: map<AllocationId, Allocation>, h: AllocationId, tail: seq<AllocationId>,
    id: AllocationId, rest: seq<AllocationId>)
    requires h in allocations && id in allocations && AllIn(allocations, tail) && AllIn(allocations, rest)
    requires allocations[h].allocationDate >= allocations[id].allocationDate
    requires forall k :: 0 <= k < |tail| ==> allocations[h].allocationDate >= allocations[tail[k]].allocationDate
    requires multiset(rest) == multiset(tail) + multiset{id}
    ensures forall k :: 0 <= k < |rest| ==> allocations[h].allocationDate >= allocations[rest[k]].allocationDate
  {
    forall k | 0 <= k < |rest|
      ensures allocations[h].allocationDate >= allocations[rest[k]].allocationDate
    {
      assert rest[k] in multiset(rest);
      if rest[k] != id {
        assert rest[k] in multiset(tail);
        var m :| 0 <= m < |tail| && tail[m] == rest[k];
      }
    }
  }

  /** `id` placed before the first allocation that is not newer than it. */
  function InsertByDate(allocations: map<AllocationId, Allocation>, ids: seq<AllocationId>, id: AllocationId)
    : (r: seq<AllocationId>)
    requires AllIn(allocations, ids) && id in allocations
    requires DateDescending(allocations, ids)
    ensures multiset(r) == multiset(ids) + multiset{id}
    ensures AllIn(allocations, r)
    ensures DateDescending(allocations, r)
  {
    if ids == [] then [id]
    else if allocations[id].allocationDate >= allocations[ids[0]].allocationDate then
      PrependDescending(allocations, id, ids);
      [id] + ids
    else
      var tail := ids[1..];
      assert ids == [ids[0]] + tail;
      DescendingTail(allocations, ids);
      var rest := InsertByDate(allocations, tail, id);
      HeadStaysNewest(allocations, ids[0], tail, id, rest);
      PrependDescending(allocations, ids[0], rest);
      assert multiset([ids[0]] + rest) == multiset{ids[0]} + multiset(rest);
      [ids[0]] + rest
  }

  lemma RepeatedCountsTwice(ids: seq<AllocationId>, i: nat, j: nat)
    requires i < j < |ids| && ids[i] == ids[j]
    ensures multiset(ids)[ids[i]] >= 2
  {
    assert ids == ids[..j] + ids[j..];
    assert ids[i] in ids[..j];
    assert ids[j] in ids[j..];
  }

  /** A sequence with the multiset of a set holds no element twice. */
  lemma NoDuplicates(ids: seq<AllocationId>, s: set<AllocationId>)
    requires multiset(ids) == multiset(s)
    ensures forall i, j :: 0 <= i < j < |ids| ==> ids[i] != ids[j]
  {
    forall i, j | 0 <= i < j < |ids|
      ensures ids[i] != ids[j]
    {
      if ids[i] == ids[j] {
        RepeatedCountsTwice(ids, i, j);
        assert false;
      }
    }
  }

  /**
   * The merged queryset `(allocations | legacy_allocs).distinct()
   * .order_by('-allocation_date')`: exactly the linked and the legacy
   * allocations, each once, newest first.
   */
  method MergedHistory(allocations: map<AllocationId, Allocation>, pk: ItemId, name: string)
    returns (ids: seq<AllocationId>)
    ensures IsHistory(allocations, pk, name, ids)
    ensures forall x :: x in ids <==> x in allocations && BelongsTo(allocations[x], pk, name)
    ensures forall i, j :: 0 <= i < j < |ids| ==> ids[i] != ids[j]
  {
    var merged := LinkedTo(allocations, pk) + LegacyMatches(allocations, name);
    var pending := merged;
    ids := [];
    while pending != {}
      invariant pending <= merged
      invariant multiset(ids) + multiset(pending) == multiset(merged)
      invariant AllIn(allocations, ids)
      invariant DateDescending(allocations, ids)
      decreases pending
    {
      var id :| id in pending;
      assert multiset(pending) == multiset(pending - {id}) + multiset{id};
      ids := InsertByDate(allocations, ids, id);
      pending := pending - {id};
    }
    NoDuplicates(ids, merged);
    forall x
      ensures x in ids <==> x in allocations && BelongsTo(allocations[x], pk, name)
    {
      assert x in ids <==> multiset(ids)[x] > 0;
    }
  }

  // ---------------------------------------------------------------------
  // Counters
  // ---------------------------------------------------------------------

  datatype Stats = Stats(totalAllocated: nat, returnedGood: nat, returnedDamaged: nat, withPatient: nat)

  datatype HistoryRow = HistoryRow(
    patientName: string,
    allocationDate: Date,
    returnDate: Option<Date>,
    isDamaged: bool,
    isReturnable: bool)

  datatype HistoryReport = HistoryReport(item: InventoryItem, stats: Stats, history: seq<HistoryRow>)

  /** The counter one allocation adds to, if any. */
  function Counted(s: Stats, a: Allocation): Stats {
    if a.returnDate.Some? then
      if a.isDamaged then s.(returnedDamaged := s.returnedDamaged + 1)
      else s.(returnedGood := s.returnedGood + 1)
    else if a.isReturnable then s.(withPatient := s.withPatient + 1)
    else s
  }

  /** The three counters folded over `ids`, in order; the total is the length. */
  function Tally(allocations: map<AllocationId, Allocation>, ids: seq<AllocationId>): Stats
    requires AllIn(allocations, ids)
  {
    if ids == [] then Stats(0, 0, 0, 0)
    else
      var s := Counted(Tally(allocations, ids[..|ids| - 1]), allocations[ids[|ids| - 1]]);
      s.(totalAllocated := |ids|)
  }

  /** How many of `ids` name an allocation satisfying `p`. */
  function CountWhere(allocations: map<AllocationId, Allocation>, ids: seq<AllocationId>, p: Allocation -> bool)
    : (n: nat)
    requires AllIn(allocations, ids)
    ensures n <= |ids|
  {
    if ids == [] then 0
    else CountWhere(allocations, ids[..|ids| - 1], p) + (if p(allocations[ids[|ids| - 1]]) then 1 else 0)
  }

  /**
   * The counters split the history: returned in good state, returned
   * damaged, returnable and still with a patient, and the rest, which are
   * the outstanding allocations that are not returnable.
   */
  lemma {:induction false} TallyPartition(allocations: map<AllocationId, Allocation>, ids: seq<AllocationId>)
    requires AllIn(allocations, ids)
    ensures var s := Tally(allocations, ids);
            && s.totalAllocated == |ids|
            && s.returnedGood + s.returnedDamaged
               == CountWhere(allocations, ids, (a: Allocation) => a.returnDate.Some?)
            && s.withPatient
               == CountWhere(allocations, ids, (a: Allocation) => a.returnDate.None? && a.isReturnable)
            && s.returnedGood + s.returnedDamaged + s.withPatient
               + CountWhere(allocations, ids, (a: Allocation) => a.returnDate.None? && !a.isReturnable)
               == |ids|
  {
    if ids != [] {
      TallyPartition(allocations, ids[..|ids| - 1]);
    }
  }

  /**
   * A damage flag sent as the string "0", "f" or "False" is stored as false,
   * so the history counts the returned allocation as returned good; yet the
   * restock test finds the string true, so no count rises.
   */
  lemma StringFlagCountedGoodNotRestocked(
    a: Allocation, inventory: map<ItemId, InventoryItem>, body: Body, s: Stats)
    requires a.inventoryItem.Some? && a.inventoryItem.value in inventory && a.isReturnable
    requires "return_date" in body && body["return_date"].DateStr?
    requires "is_damaged" in body && body["is_damaged"] in {Str("0"), Str("f"), Str("False")}
    ensures var o := ApplyReturn(a, inventory, body);
            && o.result.Ok?
            && o.inventory == inventory
            && Counted(s, o.allocation) == s.(returnedGood := s.returnedGood + 1)
  {
    var o := ApplyReturn(a, inventory, body);
    assert !Restocks(a, body);
    assert BooleanField(DamagedValue(body)) == Ok(false);
    assert o.allocation.returnDate.Some? && !o.allocation.isDamaged;
    forall id | id in inventory
      ensures o.inventory[id] == inventory[id]
    {
    }
  }

  /** The three counters never exceed the total. */
  lemma TallyBounded(allocations: map<AllocationId, Allocation>, ids: seq<AllocationId>)
    requires AllIn(allocations, ids)
    ensures var s := Tally(allocations, ids);
            s.returnedGood + s.returnedDamaged + s.withPatient <= s.totalAllocated
  {
    TallyPartition(allocations, ids);
  }

  function Row(patients: map<PatientId, Patient>, a: Allocation): HistoryRow
    requires a.patient in patients
  {
    HistoryRow(patients[a.patient].fullName, a.allocationDate, a.returnDate, a.isDamaged, a.isReturnable)
  }

  /** The rows of `ids`, in order. */
  function Rows(patients: map<PatientId, Patient>, allocations: map<AllocationId, Allocation>, ids: seq<AllocationId>)
    : (rows: seq<HistoryRow>)
    requires AllIn(allocations, ids)
    requires forall id :: id in allocations ==> allocations[id].patient in patients
    ensures |rows| == |ids|
    ensures forall i :: 0 <= i < |ids| ==> rows[i] == Row(patients, allocations[ids[i]])
  {
    if ids == [] then []
    else Rows(patients, allocations, ids[..|ids| - 1]) + [Row(patients, allocations[ids[|ids| - 1]])]
  }

  /** Appending one allocation adds it to its counter. */
  lemma TallySnoc(allocations: map<AllocationId, Allocation>, ids: seq<AllocationId>, i: nat)
    requires AllIn(allocations, ids) && i < |ids|
    ensures Tally(allocations, ids[..i + 1])
            == Counted(Tally(allocations, ids[..i]), allocations[ids[i]]).(totalAllocated := i + 1)
  {
    assert ids[..i + 1][..i] == ids[..i];
  }

  /** The loop over the merged history: one row per allocation and the three counters. */
  method CountHistory(
    patients: map<PatientId, Patient>, allocations: map<AllocationId, Allocation>, ids: seq<AllocationId>)
    returns (history: seq<HistoryRow>, stats: Stats)
    requires AllIn(allocations, ids)
    requires forall id :: id in allocations ==> allocations[id].patient in patients
    ensures history == Rows(patients, allocations, ids)
    ensures stats == Tally(allocations, ids)
  {
    history := [];
    stats := Stats(|ids|, 0, 0, 0);
    var i := 0;
    while i < |ids|
      invariant 0 <= i <= |ids|
      invariant history == Rows(patients, allocations, ids[..i])
      invariant stats == Tally(allocations, ids[..i]).(totalAllocated := |ids|)
    {
      TallySnoc(allocations, ids, i);
      assert ids[..i + 1][..i] == ids[..i];
      var alloc := allocations[ids[i]];
      history := history + [Row(patients, alloc)];
      if alloc.returnDate.Some? {
        if alloc.isDamaged {
          stats := stats.(returnedDamaged := stats.returnedDamaged + 1);
        } else {
          stats := stats.(returnedGood := stats.returnedGood + 1);
        }
      } else {
        if alloc.isReturnable {
          stats := stats.(withPatient := stats.withPatient + 1);
        }
      }
      i := i + 1;
    }
    assert ids[..i] == ids;
  }

  /**
   * `inventory_history`: not found for an unknown item; otherwise the item,
   * the rows of its merged history and the counters over it.
   */
  method InventoryHistory(
    patients: map<PatientId, Patient>, allocations: map<AllocationId, Allocation>,
    inventory: map<ItemId, InventoryItem>, pk: ItemId)
    returns (r: Result<HistoryReport, Error>)
    requires forall id :: id in allocations ==> allocations[id].patient in patients
    ensures pk !in inventory <==> r == Err(NotFound)
    ensures pk in inventory ==> r.Ok?
    ensures r.Ok? ==> r.value.item == inventory[pk]
    ensures r.Ok? ==> exists ids ::
              && IsHistory(allocations, pk, inventory[pk].itemName, ids)
              && r.value.history == Rows(patients, allocations, ids)
              && r.value.stats == Tally(allocations, ids)
  {
    if pk !in inventory {
      return Err(NotFound);
    }
    var item := inventory[pk];
    var ids := MergedHistory(allocations, pk, item.itemName);
    var history, stats := CountHistory(patients, allocations, ids);
    r := Ok(HistoryReport(item, stats, history));
  }
}
