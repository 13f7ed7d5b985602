/**
 * The counts of the analytics view: patients in total, by status (expired
 * patients excluded) and expired, and by age group.
 */
module Analytics {
  import opened Records

  /** The four age groups, named by the view's labels "0-18", "19-40", "41-60" and "60+". */
  datatype AgeGroup = UpTo18 | From19To40 | From41To60 | Over60

  function AgeGroupOf(age: int): AgeGroup {
    if age <= 18 then UpTo18
    else if age <= 40 then From19To40
    else if age <= 60 then From41To60
    else Over60
  }

  datatype StatusCounts = StatusCounts(active: nat, moderate: nat, severe: nat, expired: nat)

  datatype AgeCounts = AgeCounts(upTo18: nat, from19To40: nat, from41To60: nat, over60: nat)

  datatype Report = Report(total: nat, status: StatusCounts, ageGroups: AgeCounts)

  /** The patients with status `status` who have not expired. */
  function WithStatus(patients: map<PatientId, Patient>, status: string): (ids: set<PatientId>)
    ensures forall id :: id in ids ==> id in patients && !patients[id].isExpired
  {
    set id | id in patients && patients[id].currentStatus == status && !patients[id].isExpired
  }

  function Expired(patients: map<PatientId, Patient>): set<PatientId> {
    set id | id in patients && patients[id].isExpired
  }

  function InAgeGroup(patients: map<PatientId, Patient>, group: AgeGroup): set<PatientId> {
    set id | id in patients && AgeGroupOf(patients[id].age) == group
  }

  /** `get_analytics` without the disease histogram. */
  function Analytics(patients: map<PatientId, Patient>): Report {
    Report(
      |patients|,
      StatusCounts(
        |WithStatus(patients, "Active")|,
        |WithStatus(patients, "Moderate")|,
        |WithStatus(patients, "Severe")|,
        |Expired(patients)|),
      AgeCounts(
        |InAgeGroup(patients, UpTo18)|,
        |InAgeGroup(patients, From19To40)|,
        |InAgeGroup(patients, From41To60)|,
        |InAgeGroup(patients, Over60)|))
  }

  lemma DisjointUnionSize(a: set<PatientId>, b: set<PatientId>)
    requires a !! b
    ensures |a + b| == |a| + |b|
  {
  }

  /** No patient is counted in two age groups. */
  lemma AgeGroupsDisjoint(patients: map<PatientId, Patient>, g: AgeGroup, h: AgeGroup)
    requires g != h
    ensures InAgeGroup(patients, g) !! InAgeGroup(patients, h)
  {
  }

  /** Every patient falls in one of the four age groups. */
  lemma AgeGroupsCover(patients: map<PatientId, Patient>)
    ensures InAgeGroup(patients, UpTo18) + InAgeGroup(patients, From19To40)
            + InAgeGroup(patients, From41To60) + InAgeGroup(patients, Over60) == patients.Keys
  {
    forall id | id in patients
      ensures id in InAgeGroup(patients, AgeGroupOf(patients[id].age))
    {
    }
  }

  /** Every patient falls in exactly one age group, so the groups add up to the total. */
  lemma AgeGroupsPartition(patients: map<PatientId, Patient>)
    ensures var r := Analytics(patients);
            r.ageGroups.upTo18 + r.ageGroups.from19To40 + r.ageGroups.from41To60 + r.ageGroups.over60
            == r.total
  {
    var g1 := InAgeGroup(patients, UpTo18);
    var g2 := InAgeGroup(patients, From19To40);
    var g3 := InAgeGroup(patients, From41To60);
    var g4 := InAgeGroup(patients, Over60);
    AgeGroupsCover(patients);
    assert |patients.Keys| == |patients|;
    DisjointUnionSize(g1, g2);
    DisjointUnionSize(g1 + g2, g3);
    DisjointUnionSize(g1 + g2 + g3, g4);
  }

  /**
   * The status counts leave out expired patients, so active, moderate,
   * severe and expired together count no patient twice and no more than all.
   */
  lemma StatusCountsBounded(patients: map<PatientId, Patient>)
    ensures var r := Analytics(patients);
            r.status.active + r.status.moderate + r.status.severe + r.status.expired <= r.total
  {
    var a := WithStatus(patients, "Active");
    var m := WithStatus(patients, "Moderate");
    var s := WithStatus(patients, "Severe");
    var e := Expired(patients);
    DisjointUnionSize(a, m);
    DisjointUnionSize(a + m, s);
    DisjointUnionSize(a + m + s, e);
    assert a + m + s + e <= patients.Keys;
    SubsetSize(a + m + s + e, patients.Keys);
  }

  lemma SubsetSize(a: set<PatientId>, b: set<PatientId>)
    requires a <= b
    ensures |a| <= |b|
  {
    assert b == a + (b - a);
    DisjointUnionSize(a, b - a);
  }

  /**
   * Registering a patient of age `p.age` adds one to the total and to that
   * patient's age group, and leaves the other groups as they were.
   */
  lemma RegistrationCountsInOneGroup(patients: map<PatientId, Patient>, id: PatientId, p: Patient)
    requires id !in patients
    ensures |patients[id := p]| == |patients| + 1
    ensures forall g :: |InAgeGroup(patients[id := p], g)| ==
              |InAgeGroup(patients, g)| + (if g == AgeGroupOf(p.age) then 1 else 0)
  {
    assert patients[id := p].Keys == patients.Keys + {id};
    forall g
      ensures |InAgeGroup(patients[id := p], g)| ==
              |InAgeGroup(patients, g)| + (if g == AgeGroupOf(p.age) then 1 else 0)
    {
      GroupAfterInsert(patients, id, p, g);
    }
  }

  lemma GroupAfterInsert(patients: map<PatientId, Patient>, id: PatientId, p: Patient, g: AgeGroup)
    requires id !in patients
    ensures InAgeGroup(patients[id := p], g) ==
            InAgeGroup(patients, g) + (if g == AgeGroupOf(p.age) then {id} else {})
    ensures |InAgeGroup(patients[id := p], g)| ==
            |InAgeGroup(patients, g)| + (if g == AgeGroupOf(p.age) then 1 else 0)
  {
    var before := InAgeGroup(patients, g);
    var after := InAgeGroup(patients[id := p], g);
    var added: set<PatientId> := if g == AgeGroupOf(p.age) then {id} else {};
    forall x | x in after
      ensures x in before + added
    {
      if x != id {
        assert x in patients;
      }
    }
    assert after == before + added;
    DisjointUnionSize(before, added);
  }
}
