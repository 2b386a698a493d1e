/** The records `initializeSampleData` seeds the store with. `claimId` is the id drawn for the
    claim, `ids` the ones drawn for the child records (in the order of the literal arrays), and
    `now` the clock reading the "2 hours ago" and "3 hours ago" timestamps are taken from. */
module SampleData {
  import opened Wrappers
  import opened Schema

  const HourMs := 60 * 60 * 1000

  /** `new Date("2024-03-15")`, in milliseconds since the epoch. */
  const IncidentDateMs := 1710460800000

  const SampleClaimNumber := "CLM-2024-001847"

  function SampleClaim(claimId: string, now: int): (r: Claim)
    ensures r.id == claimId && r.claimNumber == SampleClaimNumber
    ensures r.status == "pending_review" && r.aiConfidence.None?
    ensures r.submittedAt == Some(now - 2 * HourMs)
  {
    Claim(
      id := claimId,
      claimNumber := SampleClaimNumber,
      policyholderName := "Michael Rodriguez",
      vehicleInfo := "2022 Toyota Camry",
      vin := "4T1C11AK*N*123456",
      incidentDate := IncidentDateMs,
      incidentDescription := "Parking lot collision",
      status := "pending_review",
      priority := Some("high"),
      submittedAt := Some(now - 2 * HourMs),
      totalEstimate := Some(284700),
      agentNotes := None,
      assignedAgent := Some("Sarah Johnson"),
      aiConfidence := None,
      adjusterNotes := None,
      assignedShopId := None)
  }

  function SampleDamageItems(claimId: string, ids: seq<string>): (r: seq<DamageItem>)
    requires |ids| == 3
    ensures |r| == |ids|
    ensures forall i :: 0 <= i < |r| ==> r[i].id == ids[i] && r[i].claimId == claimId
  {
    [ DamageItem(ids[0], claimId, "paint_scratches", "moderate", "front_bumper", "Paint Scratches",
                 Some("12\" x 4\""), Some("Surface level"), Some("Paint & buff"), 8700, Some(Box(35, 45, 25, 15))),
      DamageItem(ids[1], claimId, "structural_dent", "severe", "front_bumper", "Structural Dent",
                 Some("8\" x 6\""), Some("2.5\" deep"), Some("Panel replacement"), 9400, Some(Box(20, 60, 15, 10))),
      DamageItem(ids[2], claimId, "surface_abrasion", "minor", "headlight_housing", "Minor Scuff",
                 Some("3\" x 1\""), Some("Surface only"), Some("Polish/compound"), 7600, Some(Box(45, 35, 10, 8))) ]
  }

  const UnsplashPrefix := "https://images.unsplash.com/photo-"
  const FullSize := "?ixlib=rb-4.0.3&auto=format&fit=crop&w=800&h=600"
  const ThumbSize := "?ixlib=rb-4.0.3&auto=format&fit=crop&w=200&h=150"

  function SamplePhotos(claimId: string, ids: seq<string>, now: int): (r: seq<Photo>)
    requires |ids| == 3
    ensures |r| == |ids|
    ensures forall i :: 0 <= i < |r| ==> r[i].id == ids[i] && r[i].claimId == claimId
  {
    [ Photo(ids[0], claimId, "front_bumper", UnsplashPrefix + "1449965408869-eaa3f722e40d" + FullSize,
            Some(UnsplashPrefix + "1449965408869-eaa3f722e40d" + ThumbSize), true, Some(now - 2 * HourMs)),
      Photo(ids[1], claimId, "front_bumper", UnsplashPrefix + "1603584173870-7f23fdae1b7a" + FullSize,
            Some(UnsplashPrefix + "1603584173870-7f23fdae1b7a" + ThumbSize), false, Some(now - 2 * HourMs)),
      Photo(ids[2], claimId, "side_panel", UnsplashPrefix + "1609244314066-f69aae9f7f82" + FullSize,
            Some(UnsplashPrefix + "1609244314066-f69aae9f7f82" + ThumbSize), false, Some(now - 2 * HourMs)) ]
  }

  function SampleCostLines(claimId: string, ids: seq<string>): (r: seq<CostLine>)
    requires |ids| == 4
    ensures |r| == |ids|
    ensures forall i :: 0 <= i < |r| ==> r[i].id == ids[i] && r[i].claimId == claimId
  {
    [ CostLine(ids[0], claimId, "labor", "Labor", 102000, Some(1200), Some(8500)),
      CostLine(ids[1], claimId, "parts", "Front bumper assembly", 148500, None, None),
      CostLine(ids[2], claimId, "paint", "Paint & Materials", 28500, None, None),
      CostLine(ids[3], claimId, "supplies", "Shop Supplies", 5700, None, None) ]
  }

  function SampleAuditEntries(claimId: string, ids: seq<string>, now: int): (r: seq<AuditEntry>)
    requires |ids| == 3
    ensures |r| == |ids|
    ensures forall i :: 0 <= i < |r| ==> r[i].id == ids[i] && r[i].claimId == claimId
  {
    [ AuditEntry(ids[0], claimId, "ai_analysis_completed", "AI Analysis Completed", Some("system"),
                 Some(now - 2 * HourMs), AnalysisCompleted("87%", 3)),
      AuditEntry(ids[1], claimId, "photos_uploaded", "Photos Uploaded", Some("system"),
                 Some(now - 2 * HourMs), PhotosUploaded(9, true)),
      AuditEntry(ids[2], claimId, "claim_submitted", "Claim Submitted", Some("Michael Rodriguez"),
                 Some(now - 3 * HourMs), NoDetails) ]
  }

  /** Sum of the line amounts, in cents. */
  function TotalAmount(lines: seq<CostLine>): int {
    if lines == [] then 0 else lines[0].amount + TotalAmount(lines[1..])
  }

  /** A line that states hours and a rate charges exactly hours times rate. */
  predicate ChargesHoursTimesRate(l: CostLine) {
    l.hours.Some? && l.rate.Some? ==> l.amount * 100 == l.hours.value * l.rate.value
  }
}
