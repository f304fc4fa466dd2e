/**
 * The ward and bed-allocation records: their enums, their defaults, and the schema's
 * required fields.
 */
module WardModel {
  import opened Common

  type Key = string

  datatype WardType = General | Icu | Private | SemiPrivate | Emergency | Pediatric | Maternity
  datatype WardStatus = Active | UnderMaintenance | Closed

  /** A ward; `availableBeds` is a counter the routes keep, not bounded by the schema. */
  datatype Ward = Ward(
    wardId: string,
    wardName: string,
    wardType: WardType,
    floor: int,
    totalBeds: int,
    availableBeds: int,
    chargesPerDay: int,
    facilities: seq<string>,
    nurseInCharge: Option<string>,
    status: WardStatus)

  /** A ward as submitted; the status may be left out. */
  datatype WardDraft = WardDraft(
    wardId: string,
    wardName: string,
    wardType: WardType,
    floor: int,
    totalBeds: int,
    availableBeds: int,
    chargesPerDay: int,
    facilities: seq<string>,
    nurseInCharge: Option<string>,
    status: Option<WardStatus>)

  const DefaultWardStatus: WardStatus := Active

  /** A ward built from its draft: every field as submitted, and Active when no status is given. */
  function NewWard(d: WardDraft): (w: Ward)
    ensures d.status.None? ==> w.status == Active
    ensures d.status.Some? ==> w.status == d.status.value
    ensures w.totalBeds == d.totalBeds && w.availableBeds == d.availableBeds && w.chargesPerDay == d.chargesPerDay
  {
    Ward(d.wardId, d.wardName, d.wardType, d.floor, d.totalBeds, d.availableBeds, d.chargesPerDay,
         d.facilities, d.nurseInCharge, d.status.GetOr(DefaultWardStatus))
  }

  datatype AllocationStatus = Admitted | Discharged | Transferred

  /** One entry of `dailyNotes`; note and author are optional. */
  datatype DailyNote = DailyNote(date: int, note: Option<string>, recordedBy: Option<string>)

  /**
   * A bed allocation; `allocationId` is its business key (empty when missing), `wardId` the key
   * of its ward, dates in milliseconds since the epoch.
   */
  datatype BedAllocation = BedAllocation(
    allocationId: string,
    patientId: Key,
    wardId: Key,
    bedNumber: string,
    admissionDate: int,
    dischargeDate: Option<int>,
    admittedBy: Option<Key>,
    reason: string,
    status: AllocationStatus,
    dailyNotes: seq<DailyNote>,
    totalDays: int,
    totalCharges: int)

  /** The body of an admission: which ward, which patient, which bed, by whom and why. */
  datatype AdmissionRequest = AdmissionRequest(
    wardId: Key,
    patientId: Key,
    bedNumber: string,
    admittedBy: Option<Key>,
    reason: string)

  /**
   * A new allocation: Admitted, admitted now, not yet discharged, no notes, and zero days and
   * charges, as the schema's defaults give it.
   */
  function NewAllocation(allocationId: string, req: AdmissionRequest, now: int): (a: BedAllocation)
    ensures a.status == Admitted && a.totalDays == 0 && a.totalCharges == 0
    ensures a.dischargeDate.None? && a.dailyNotes == [] && a.admissionDate == now
    ensures a.allocationId == allocationId && a.wardId == req.wardId && a.patientId == req.patientId
    ensures a.bedNumber == req.bedNumber && a.reason == req.reason && a.admittedBy == req.admittedBy
  {
    BedAllocation(allocationId, req.patientId, req.wardId, req.bedNumber, now, None, req.admittedBy,
                  req.reason, Admitted, [], 0, 0)
  }

  /** The schema's required fields of an allocation: allocationId, patient, ward, bed number and reason. */
  predicate ValidAllocation(a: BedAllocation)
  {
    a.allocationId != "" && a.patientId != "" && a.wardId != "" && a.bedNumber != "" && a.reason != ""
  }
}
