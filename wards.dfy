/**
 * The bed-allocation routes: admission takes a bed from the ward's counter, discharge prices
 * the stay and gives the bed back, daily notes are appended, and the admitted listing.
 */
module Wards {
  import opened Common
  import opened Seqs
  import opened WardModel

  datatype WardError = WardNotFound | NoBedsAvailable | ValidationFailed | DuplicateKey | AllocationNotFound | AlreadyDischarged

  /** The two collections: wards by document key, allocations by `allocationId`. */
  datatype WardState = WardState(wards: map<Key, Ward>, allocations: map<Key, BedAllocation>)

  /** A route's response together with the state it leaves behind. */
  datatype Outcome = Outcome(result: Result<BedAllocation, WardError>, state: WardState)

  /** The allocations currently occupying a bed of ward `w`. */
  function AdmittedIn(allocations: map<Key, BedAllocation>, w: Key): set<Key>
  {
    set k | k in allocations && allocations[k].wardId == w && allocations[k].status == Admitted
  }

  /** Allocation `k` sits under its own id, passed validation, belongs to a stored ward and is Admitted or Discharged. */
  predicate AllocationFiled(s: WardState, k: Key)
    requires k in s.allocations
  {
    var a := s.allocations[k];
    a.allocationId == k && ValidAllocation(a) && a.wardId in s.wards && a.status != Transferred
  }

  /** Ward `w` has no negative count of free beds, and its free beds plus its admitted allocations make up its total beds. */
  predicate BedsAccounted(s: WardState, w: Key)
    requires w in s.wards
  {
    s.wards[w].availableBeds >= 0 && s.wards[w].availableBeds + |AdmittedIn(s.allocations, w)| == s.wards[w].totalBeds
  }

  /**
   * The bed-count invariant: every allocation is filed as above and every ward's beds are
   * accounted for. Each quantifier is triggered only by its own per-element predicate.
   */
  predicate Consistent(s: WardState)
  {
    && (forall k {:trigger AllocationFiled(s, k)} :: k in s.allocations ==> AllocationFiled(s, k))
    && (forall w {:trigger BedsAccounted(s, w)} :: w in s.wards ==> BedsAccounted(s, w))
  }

  /** Storing allocation `a` under `k` moves `k` into or out of ward `w`'s admitted set and nothing else. */
  lemma AdmittedInUpdate(m: map<Key, BedAllocation>, k: Key, a: BedAllocation, w: Key)
    ensures AdmittedIn(m[k := a], w) == (AdmittedIn(m, w) - {k}) + (if a.wardId == w && a.status == Admitted then {k} else {})
  {
  }

  /** In a consistent state no ward has more free beds than beds, nor fewer than none. */
  lemma ConsistentBedsBounded(s: WardState, w: Key)
    requires Consistent(s) && w in s.wards
    ensures 0 <= s.wards[w].availableBeds <= s.wards[w].totalBeds
    ensures s.wards[w].totalBeds - s.wards[w].availableBeds == |AdmittedIn(s.allocations, w)|
  {
    assert BedsAccounted(s, w);
  }

  /**
   * `POST /allocations` with the allocation key `allocationId`: a missing ward, then a ward with
   * no free bed, then a document failing the schema, then a taken key are errors that change
   * nothing; otherwise a new Admitted allocation is stored and the ward loses one free bed.
   * Neither the ward's status nor the bed number is checked.
   */
  function Admit(s: WardState, allocationId: Key, req: AdmissionRequest, now: int): Outcome
  {
    if req.wardId !in s.wards then Outcome(Err(WardNotFound), s)
    else
      var ward := s.wards[req.wardId];
      if ward.availableBeds <= 0 then Outcome(Err(NoBedsAvailable), s)
      else
        var a := NewAllocation(allocationId, req, now);
        if !ValidAllocation(a) then Outcome(Err(ValidationFailed), s)
        else if allocationId in s.allocations then Outcome(Err(DuplicateKey), s)
        else Outcome(Ok(a), WardState(s.wards[req.wardId := ward.(availableBeds := ward.availableBeds - 1)],
                                       s.allocations[allocationId := a]))
  }

  /** What admission answers and leaves behind, branch by branch. */
  lemma AdmitOutcome(s: WardState, allocationId: Key, req: AdmissionRequest, now: int)
    ensures var o := Admit(s, allocationId, req, now);
      o.result.Err? ==> o.state == s
    ensures var o := Admit(s, allocationId, req, now);
      req.wardId !in s.wards ==> o.result == Err(WardNotFound)
    ensures var o := Admit(s, allocationId, req, now);
      req.wardId in s.wards && s.wards[req.wardId].availableBeds <= 0 ==> o.result == Err(NoBedsAvailable)
    ensures var o := Admit(s, allocationId, req, now);
      o.result.Ok? <==>
        && req.wardId in s.wards && s.wards[req.wardId].availableBeds > 0
        && ValidAllocation(NewAllocation(allocationId, req, now)) && allocationId !in s.allocations
    ensures var o := Admit(s, allocationId, req, now);
      o.result.Ok? ==>
        var ward := s.wards[req.wardId];
        && o.result.value == NewAllocation(allocationId, req, now)
        && o.state.allocations == s.allocations[allocationId := o.result.value]
        && o.state.wards == s.wards[req.wardId := ward.(availableBeds := ward.availableBeds - 1)]
  {
  }

  /**
   * The route as written builds the allocation without an `allocationId`, a field the schema
   * requires, so every admission that gets past the bed check fails validation and changes nothing.
   */
  lemma AdmitAsWrittenRejected(s: WardState, req: AdmissionRequest, now: int)
    ensures Admit(s, "", req, now).result.Err?
    ensures Admit(s, "", req, now).state == s
    ensures req.wardId in s.wards && s.wards[req.wardId].availableBeds > 0 ==>
      Admit(s, "", req, now).result == Err(ValidationFailed)
  {
  }

  /** Admission with a fresh key keeps the bed-count invariant. */
  lemma AdmitPreservesConsistent(s: WardState, allocationId: Key, req: AdmissionRequest, now: int)
    requires Consistent(s)
    ensures Consistent(Admit(s, allocationId, req, now).state)
  {
    var o := Admit(s, allocationId, req, now);
    if o.result.Ok? {
      StoreAdmittedKeepsConsistent(s, o.result.value);
    }
  }

  /** Storing a fresh, valid Admitted allocation and taking one free bed of its ward keeps the invariant. */
  lemma StoreAdmittedKeepsConsistent(s: WardState, a: BedAllocation)
    requires Consistent(s)
    requires a.allocationId !in s.allocations && ValidAllocation(a) && a.status == Admitted
    requires a.wardId in s.wards && s.wards[a.wardId].availableBeds > 0
    ensures var ward := s.wards[a.wardId];
      Consistent(WardState(s.wards[a.wardId := ward.(availableBeds := ward.availableBeds - 1)],
                           s.allocations[a.allocationId := a]))
  {
    var k0 := a.allocationId;
    var ward := s.wards[a.wardId];
    var t := WardState(s.wards[a.wardId := ward.(availableBeds := ward.availableBeds - 1)], s.allocations[k0 := a]);
    forall k | k in t.allocations ensures AllocationFiled(t, k) {
      if k != k0 {
        assert AllocationFiled(s, k);
      }
    }
    forall w | w in t.wards ensures BedsAccounted(t, w) {
      assert BedsAccounted(s, w);
      AdmittedCountAfterStore(s.allocations, a, w);
    }
  }

  /** Storing a fresh Admitted allocation adds one to its own ward's admitted count and none to others. */
  lemma AdmittedCountAfterStore(m: map<Key, BedAllocation>, a: BedAllocation, w: Key)
    requires a.allocationId !in m && a.status == Admitted
    ensures |AdmittedIn(m[a.allocationId := a], w)| == |AdmittedIn(m, w)| + (if w == a.wardId then 1 else 0)
  {
    var k0 := a.allocationId;
    AdmittedInUpdate(m, k0, a, w);
    assert k0 !in AdmittedIn(m, w);
    if w == a.wardId {
      assert AdmittedIn(m[k0 := a], w) == AdmittedIn(m, w) + {k0};
    } else {
      assert AdmittedIn(m[k0 := a], w) == AdmittedIn(m, w);
    }
  }

  const MsPerDay: int := 1000 * 60 * 60 * 24

  /** `Math.ceil(a / b)` for a positive divisor: the least whole number of `b`-long periods covering `a`. */
  function CeilDiv(a: int, b: int): (q: int)
    requires b > 0
    ensures (q - 1) * b < a <= q * b
  {
    -((-a) / b)
  }

  /** The days charged for a stay, rounded up, with no minimum. */
  function StayDays(admissionDate: int, dischargeDate: int): int
  {
    CeilDiv(dischargeDate - admissionDate, MsPerDay)
  }

  /**
   * Any started day is charged in full, but a discharge at the instant of admission costs
   * nothing: there is no one-day minimum.
   */
  lemma StayDaysRounding(admissionDate: int)
    ensures StayDays(admissionDate, admissionDate) == 0
    ensures StayDays(admissionDate, admissionDate + 1) == 1
    ensures StayDays(admissionDate, admissionDate + MsPerDay) == 1
    ensures StayDays(admissionDate, admissionDate + MsPerDay + 1) == 2
  {
  }

  /**
   * `PUT /allocations/:id/discharge`: an unknown allocation, one already Discharged, or one whose
   * ward is gone is an error that changes nothing; otherwise the allocation is Discharged now,
   * charged its rounded-up days at the ward's daily rate, and the ward gains one free bed.
   */
  function Discharge(s: WardState, id: Key, now: int): Outcome
  {
    if id !in s.allocations then Outcome(Err(AllocationNotFound), s)
    else
      var a := s.allocations[id];
      if a.status == Discharged then Outcome(Err(AlreadyDischarged), s)
      else if a.wardId !in s.wards then Outcome(Err(WardNotFound), s)
      else
        var ward := s.wards[a.wardId];
        var days := StayDays(a.admissionDate, now);
        var done := a.(dischargeDate := Some(now), status := Discharged, totalDays := days,
                       totalCharges := days * ward.chargesPerDay);
        Outcome(Ok(done), WardState(s.wards[a.wardId := ward.(availableBeds := ward.availableBeds + 1)],
                                    s.allocations[id := done]))
  }

  /** What discharge answers and leaves behind, branch by branch. */
  lemma DischargeOutcome(s: WardState, id: Key, now: int)
    ensures var o := Discharge(s, id, now);
      o.result.Err? ==> o.state == s
    ensures var o := Discharge(s, id, now);
      id !in s.allocations ==> o.result == Err(AllocationNotFound)
    ensures var o := Discharge(s, id, now);
      id in s.allocations && s.allocations[id].status == Discharged ==> o.result == Err(AlreadyDischarged)
    ensures var o := Discharge(s, id, now);
      o.result.Ok? <==>
        id in s.allocations && s.allocations[id].status != Discharged && s.allocations[id].wardId in s.wards
    ensures var o := Discharge(s, id, now);
      o.result.Ok? ==>
        var a := s.allocations[id];
        var ward := s.wards[a.wardId];
        var days := o.result.value.totalDays;
        && (days - 1) * MsPerDay < now - a.admissionDate <= days * MsPerDay
        && o.result.value == a.(dischargeDate := Some(now), status := Discharged, totalDays := days,
                                totalCharges := days * ward.chargesPerDay)
        && o.state.allocations == s.allocations[id := o.result.value]
        && o.state.wards == s.wards[a.wardId := ward.(availableBeds := ward.availableBeds + 1)]
  {
  }

  /** Discharge keeps the bed-count invariant. */
  lemma DischargePreservesConsistent(s: WardState, id: Key, now: int)
    requires Consistent(s)
    ensures Consistent(Discharge(s, id, now).state)
  {
    var o := Discharge(s, id, now);
    if o.result.Ok? {
      assert AllocationFiled(s, id);
      StoreDischargedKeepsConsistent(s, o.result.value);
    }
  }

  /** Replacing an Admitted allocation by its Discharged form and freeing one bed of its ward keeps the invariant. */
  lemma StoreDischargedKeepsConsistent(s: WardState, d: BedAllocation)
    requires Consistent(s)
    requires d.allocationId in s.allocations && s.allocations[d.allocationId].status == Admitted
    requires d.wardId == s.allocations[d.allocationId].wardId && d.status == Discharged && ValidAllocation(d)
    ensures d.wardId in s.wards
    ensures var ward := s.wards[d.wardId];
      Consistent(WardState(s.wards[d.wardId := ward.(availableBeds := ward.availableBeds + 1)],
                           s.allocations[d.allocationId := d]))
  {
    assert AllocationFiled(s, d.allocationId);
    var k0 := d.allocationId;
    var ward := s.wards[d.wardId];
    var t := WardState(s.wards[d.wardId := ward.(availableBeds := ward.availableBeds + 1)], s.allocations[k0 := d]);
    forall k | k in t.allocations ensures AllocationFiled(t, k) {
      if k != k0 {
        assert AllocationFiled(s, k);
      }
    }
    forall w | w in t.wards ensures BedsAccounted(t, w) {
      assert BedsAccounted(s, w);
      AdmittedCountAfterDischarge(s.allocations, d, w);
    }
  }

  /** Discharging an Admitted allocation takes one from its own ward's admitted count and none from others. */
  lemma AdmittedCountAfterDischarge(m: map<Key, BedAllocation>, d: BedAllocation, w: Key)
    requires d.allocationId in m && m[d.allocationId].status == Admitted
    requires m[d.allocationId].wardId == d.wardId && d.status == Discharged
    ensures |AdmittedIn(m[d.allocationId := d], w)| == |AdmittedIn(m, w)| - (if w == d.wardId then 1 else 0)
  {
    var k0 := d.allocationId;
    AdmittedInUpdate(m, k0, d, w);
    if w == d.wardId {
      assert k0 in AdmittedIn(m, w);
      assert AdmittedIn(m[k0 := d], w) == AdmittedIn(m, w) - {k0};
    } else {
      assert k0 !in AdmittedIn(m, w);
      assert AdmittedIn(m[k0 := d], w) == AdmittedIn(m, w);
    }
  }

  /** Admitting a patient and discharging that allocation gives every ward back its free beds. */
  lemma AdmitThenDischargeRestoresBeds(s: WardState, allocationId: Key, req: AdmissionRequest, admittedAt: int, dischargedAt: int)
    requires Admit(s, allocationId, req, admittedAt).result.Ok?
    ensures var admitted := Admit(s, allocationId, req, admittedAt).state;
      var o := Discharge(admitted, allocationId, dischargedAt);
      o.result.Ok? && o.state.wards == s.wards
  {
    var admitted := Admit(s, allocationId, req, admittedAt).state;
    var ward := s.wards[req.wardId];
    assert admitted.allocations[allocationId].wardId == req.wardId;
    assert admitted.wards[req.wardId].availableBeds + 1 == ward.availableBeds;
    assert admitted.wards[req.wardId].(availableBeds := ward.availableBeds) == ward;
  }

  /**
   * `PUT /allocations/:id/notes`: an unknown allocation is an error; otherwise exactly one note,
   * dated now, is appended after the earlier ones, whatever the allocation's status.
   */
  function AddNote(s: WardState, id: Key, note: Option<string>, recordedBy: Option<string>, now: int): (o: Outcome)
    ensures id !in s.allocations ==> o.result == Err(AllocationNotFound) && o.state == s
    ensures id in s.allocations ==>
      var a := s.allocations[id];
      && o.result == Ok(a.(dailyNotes := a.dailyNotes + [DailyNote(now, note, recordedBy)]))
      && o.state == s.(allocations := s.allocations[id := o.result.value])
  {
    if id !in s.allocations then Outcome(Err(AllocationNotFound), s)
    else
      var a := s.allocations[id];
      var noted := a.(dailyNotes := a.dailyNotes + [DailyNote(now, note, recordedBy)]);
      Outcome(Ok(noted), s.(allocations := s.allocations[id := noted]))
  }

  /** Notes are append-only: the earlier notes are a prefix of the new list, one longer. */
  lemma AddNoteAppendOnly(s: WardState, id: Key, note: Option<string>, recordedBy: Option<string>, now: int)
    requires id in s.allocations
    ensures var after := AddNote(s, id, note, recordedBy, now).state.allocations[id].dailyNotes;
      var before := s.allocations[id].dailyNotes;
      |after| == |before| + 1 && after[..|before|] == before && after[|before|].date == now
  {
  }

  /** Notes change no bed count. */
  lemma AddNotePreservesConsistent(s: WardState, id: Key, note: Option<string>, recordedBy: Option<string>, now: int)
    requires Consistent(s)
    ensures Consistent(AddNote(s, id, note, recordedBy, now).state)
  {
    var o := AddNote(s, id, note, recordedBy, now);
    if o.result.Ok? {
      var a := o.result.value;
      var t := o.state;
      assert t.allocations == s.allocations[id := a];
      forall k | k in t.allocations ensures AllocationFiled(t, k) {
        assert AllocationFiled(s, k);
      }
      forall w | w in t.wards ensures BedsAccounted(t, w) {
        assert BedsAccounted(s, w);
        AdmittedInUpdate(s.allocations, id, a, w);
      }
    }
  }

  predicate IsAdmitted(a: BedAllocation)
  {
    a.status == Admitted
  }

  /** Sorting on this key puts the latest admission first. */
  function NewestFirst(a: BedAllocation): int
  {
    -a.admissionDate
  }

  /** `GET /allocations/status/admitted`: the Admitted allocations, latest admission first. */
  function AdmittedAllocations(allocations: seq<BedAllocation>): seq<BedAllocation>
  {
    SortBy(Filter(allocations, IsAdmitted), NewestFirst)
  }

  /** The admitted listing holds every Admitted allocation as often as stored and nothing else, latest admission first. */
  lemma AdmittedAllocationsSpec(allocations: seq<BedAllocation>)
    ensures var r := AdmittedAllocations(allocations);
      && multiset(r) == multiset(Filter(allocations, IsAdmitted))
      && (forall i :: 0 <= i < |r| ==> r[i] in allocations && r[i].status == Admitted)
      && (forall i, j :: 0 <= i < j < |r| ==> r[i].admissionDate >= r[j].admissionDate)
  {
    var f := Filter(allocations, IsAdmitted);
    var r := AdmittedAllocations(allocations);
    SortByPermutes(f, NewestFirst);
    forall i | 0 <= i < |r| ensures r[i] in allocations && r[i].status == Admitted {
      assert r[i] in multiset(f);
    }
    forall i, j | 0 <= i < j < |r| ensures r[i].admissionDate >= r[j].admissionDate {
      assert NewestFirst(r[i]) <= NewestFirst(r[j]);
    }
  }

  /** The ward and allocation collections. */
  class WardRegistry {
    var wards: map<Key, Ward>
    var allocations: map<Key, BedAllocation>

    predicate Valid()
      reads this
    {
      Consistent(WardState(wards, allocations))
    }

    constructor (wards: map<Key, Ward>)
      requires forall w :: w in wards ==> wards[w].availableBeds == wards[w].totalBeds >= 0
      ensures Valid() && this.wards == wards && allocations == map[]
    {
      this.wards := wards;
      allocations := map[];
      assert forall w :: AdmittedIn(map[], w) == {};
    }

    /** `POST /allocations`, given the key the new allocation is stored under. */
    method AdmitPatient(allocationId: Key, req: AdmissionRequest, now: int) returns (r: Result<BedAllocation, WardError>)
      requires Valid()
      modifies this
      ensures Valid()
      ensures Outcome(r, WardState(wards, allocations)) == Admit(WardState(old(wards), old(allocations)), allocationId, req, now)
    {
      if req.wardId !in wards {
        return Err(WardNotFound);
      }
      var ward := wards[req.wardId];
      if ward.availableBeds <= 0 {
        return Err(NoBedsAvailable);
      }
      var a := NewAllocation(allocationId, req, now);
      if !ValidAllocation(a) {
        return Err(ValidationFailed);
      }
      if allocationId in allocations {
        return Err(DuplicateKey);
      }
      ward := ward.(availableBeds := ward.availableBeds - 1);
      allocations := allocations[allocationId := a];
      wards := wards[req.wardId := ward];
      r := Ok(a);
      StoreAdmittedKeepsConsistent(WardState(old(wards), old(allocations)), a);
    }

    /** `PUT /allocations/:id/discharge` */
    method DischargePatient(id: Key, now: int) returns (r: Result<BedAllocation, WardError>)
      requires Valid()
      modifies this
      ensures Valid()
      ensures Outcome(r, WardState(wards, allocations)) == Discharge(WardState(old(wards), old(allocations)), id, now)
    {
      DischargePreservesConsistent(WardState(wards, allocations), id, now);
      if id !in allocations {
        return Err(AllocationNotFound);
      }
      var a := allocations[id];
      if a.status == Discharged {
        return Err(AlreadyDischarged);
      }
      var elapsed := now - a.admissionDate;
      var days := -((-elapsed) / MsPerDay);
      if a.wardId !in wards {
        return Err(WardNotFound);
      }
      var ward := wards[a.wardId];
      a := a.(dischargeDate := Some(now), status := Discharged, totalDays := days, totalCharges := days * ward.chargesPerDay);
      allocations := allocations[id := a];
      ward := ward.(availableBeds := ward.availableBeds + 1);
      wards := wards[a.wardId := ward];
      r := Ok(a);
    }

    /** `PUT /allocations/:id/notes` */
    method AddDailyNote(id: Key, note: Option<string>, recordedBy: Option<string>, now: int) returns (r: Result<BedAllocation, WardError>)
      requires Valid()
      modifies this
      ensures Valid()
      ensures Outcome(r, WardState(wards, allocations)) == AddNote(WardState(old(wards), old(allocations)), id, note, recordedBy, now)
    {
      AddNotePreservesConsistent(WardState(wards, allocations), id, note, recordedBy, now);
      if id !in allocations {
        return Err(AllocationNotFound);
      }
      var a := allocations[id];
      a := a.(dailyNotes := a.dailyNotes + [DailyNote(now, note, recordedBy)]);
      allocations := allocations[id := a];
      r := Ok(a);
    }
  }
}
