/** The records the store holds (the `$inferSelect` row types of shared/schema.ts), the
    insert shapes the `create*` methods take, and the partial claim a PATCH body carries.
    Money is integer cents; the other two-decimal columns (hours, confidence) are integer
    hundredths; timestamps are integer milliseconds; `null` and `undefined` are both `None`. */
module Schema {
  import opened Wrappers

  /** A damage region on the photo, in percent of the image extent. */
  datatype Box = Box(x: int, y: int, width: int, height: int)

  /** A claim. `aiConfidence`, `adjusterNotes` and `assignedShopId` are not columns of the
      claims table, but the handlers read and write them, so a stored claim may carry them. */
  datatype Claim = Claim(
    id: string,
    claimNumber: string,
    policyholderName: string,
    vehicleInfo: string,
    vin: string,
    incidentDate: int,
    incidentDescription: string,
    status: string,
    priority: Option<string>,
    submittedAt: Option<int>,
    totalEstimate: Option<int>,
    agentNotes: Option<string>,
    assignedAgent: Option<string>,
    aiConfidence: Option<string>,
    adjusterNotes: Option<string>,
    assignedShopId: Option<string>)

  /** `Partial<Claim>` without `id`: a present field replaces the stored one, an absent one keeps it.
      A present nullable field may itself be `null` (`Some(None)`). */
  datatype ClaimPatch = ClaimPatch(
    claimNumber: Option<string>,
    policyholderName: Option<string>,
    vehicleInfo: Option<string>,
    vin: Option<string>,
    incidentDate: Option<int>,
    incidentDescription: Option<string>,
    status: Option<string>,
    priority: Option<Option<string>>,
    submittedAt: Option<Option<int>>,
    totalEstimate: Option<Option<int>>,
    agentNotes: Option<Option<string>>,
    assignedAgent: Option<Option<string>>,
    aiConfidence: Option<Option<string>>,
    adjusterNotes: Option<Option<string>>,
    assignedShopId: Option<Option<string>>)

  /** `{}` as a patch. */
  function NoChanges(): ClaimPatch {
    ClaimPatch(None, None, None, None, None, None, None, None, None, None, None, None, None, None, None)
  }

  function Pick<T>(current: T, update: Option<T>): T {
    if update.Some? then update.value else current
  }

  /** `{ ...claim, ...updates }`: the id is kept; each field the patch supplies replaces the
      stored one and each field it leaves out is kept. */
  function Merge(c: Claim, p: ClaimPatch): (r: Claim)
    ensures r.id == c.id
    ensures (p.claimNumber.Some? ==> r.claimNumber == p.claimNumber.value) && (p.claimNumber.None? ==> r.claimNumber == c.claimNumber)
    ensures (p.policyholderName.Some? ==> r.policyholderName == p.policyholderName.value) && (p.policyholderName.None? ==> r.policyholderName == c.policyholderName)
    ensures (p.vehicleInfo.Some? ==> r.vehicleInfo == p.vehicleInfo.value) && (p.vehicleInfo.None? ==> r.vehicleInfo == c.vehicleInfo)
    ensures (p.vin.Some? ==> r.vin == p.vin.value) && (p.vin.None? ==> r.vin == c.vin)
    ensures (p.incidentDate.Some? ==> r.incidentDate == p.incidentDate.value) && (p.incidentDate.None? ==> r.incidentDate == c.incidentDate)
    ensures (p.incidentDescription.Some? ==> r.incidentDescription == p.incidentDescription.value) && (p.incidentDescription.None? ==> r.incidentDescription == c.incidentDescription)
    ensures (p.status.Some? ==> r.status == p.status.value) && (p.status.None? ==> r.status == c.status)
    ensures (p.priority.Some? ==> r.priority == p.priority.value) && (p.priority.None? ==> r.priority == c.priority)
    ensures (p.submittedAt.Some? ==> r.submittedAt == p.submittedAt.value) && (p.submittedAt.None? ==> r.submittedAt == c.submittedAt)
    ensures (p.totalEstimate.Some? ==> r.totalEstimate == p.totalEstimate.value) && (p.totalEstimate.None? ==> r.totalEstimate == c.totalEstimate)
    ensures (p.agentNotes.Some? ==> r.agentNotes == p.agentNotes.value) && (p.agentNotes.None? ==> r.agentNotes == c.agentNotes)
    ensures (p.assignedAgent.Some? ==> r.assignedAgent == p.assignedAgent.value) && (p.assignedAgent.None? ==> r.assignedAgent == c.assignedAgent)
    ensures (p.aiConfidence.Some? ==> r.aiConfidence == p.aiConfidence.value) && (p.aiConfidence.None? ==> r.aiConfidence == c.aiConfidence)
    ensures (p.adjusterNotes.Some? ==> r.adjusterNotes == p.adjusterNotes.value) && (p.adjusterNotes.None? ==> r.adjusterNotes == c.adjusterNotes)
    ensures (p.assignedShopId.Some? ==> r.assignedShopId == p.assignedShopId.value) && (p.assignedShopId.None? ==> r.assignedShopId == c.assignedShopId)
  {
    Claim(
      c.id,
      Pick(c.claimNumber, p.claimNumber),
      Pick(c.policyholderName, p.policyholderName),
      Pick(c.vehicleInfo, p.vehicleInfo),
      Pick(c.vin, p.vin),
      Pick(c.incidentDate, p.incidentDate),
      Pick(c.incidentDescription, p.incidentDescription),
      Pick(c.status, p.status),
      Pick(c.priority, p.priority),
      Pick(c.submittedAt, p.submittedAt),
      Pick(c.totalEstimate, p.totalEstimate),
      Pick(c.agentNotes, p.agentNotes),
      Pick(c.assignedAgent, p.assignedAgent),
      Pick(c.aiConfidence, p.aiConfidence),
      Pick(c.adjusterNotes, p.adjusterNotes),
      Pick(c.assignedShopId, p.assignedShopId))
  }

  /** The insert shape of `createClaim`: fields with a column default may be left out. */
  datatype InsertClaim = InsertClaim(
    claimNumber: string,
    policyholderName: string,
    vehicleInfo: string,
    vin: string,
    incidentDate: int,
    incidentDescription: string,
    status: Option<string>,
    priority: Option<string>,
    totalEstimate: Option<int>,
    agentNotes: Option<string>,
    assignedAgent: Option<string>)

  datatype DamageItem = DamageItem(
    id: string,
    claimId: string,
    kind: string,
    severity: string,
    location: string,
    description: string,
    area: Option<string>,
    depth: Option<string>,
    repairType: Option<string>,
    confidence: int,
    coordinates: Option<Box>)

  datatype InsertDamageItem = InsertDamageItem(
    claimId: string,
    kind: string,
    severity: string,
    location: string,
    description: string,
    area: Option<string>,
    depth: Option<string>,
    repairType: Option<string>,
    confidence: int,
    coordinates: Option<Box>)

  datatype Photo = Photo(
    id: string,
    claimId: string,
    category: string,
    url: string,
    thumbnailUrl: Option<string>,
    isPrimary: bool,
    uploadedAt: Option<int>)

  datatype InsertPhoto = InsertPhoto(
    claimId: string,
    category: string,
    url: string,
    thumbnailUrl: Option<string>,
    isPrimary: Option<bool>)

  /** A line of the repair estimate: `amount` in cents, `hours` in hundredths of an hour,
      `rate` in cents per hour. */
  datatype CostLine = CostLine(
    id: string,
    claimId: string,
    category: string,
    description: string,
    amount: int,
    hours: Option<int>,
    rate: Option<int>)

  datatype InsertCostLine = InsertCostLine(
    claimId: string,
    category: string,
    description: string,
    amount: int,
    hours: Option<int>,
    rate: Option<int>)

  /** The free-form `metadata` object of an audit entry, one variant per shape the code writes. */
  datatype Metadata =
    | NoDetails
    | AnalysisCompleted(confidence: string, areasIdentified: int)
    | PhotosUploaded(photoCount: int, processedByCV: bool)
    | ClaimUpdated(updates: ClaimPatch)
    | ClaimApproved(notes: Option<string>, estimateAmount: Option<int>)
    | ClaimBatchApproved(batchConfidence: string, batchSize: nat, batchEstimate: Option<int>)
    | ClaimRejected(reason: Option<string>)
    | SentToShop(shopId: Option<string>, shopNotes: Option<string>)

  datatype AuditEntry = AuditEntry(
    id: string,
    claimId: string,
    action: string,
    description: string,
    performedBy: Option<string>,
    timestamp: Option<int>,
    metadata: Metadata)

  datatype InsertAuditEntry = InsertAuditEntry(
    claimId: string,
    action: string,
    description: string,
    performedBy: Option<string>,
    metadata: Option<Metadata>)

  datatype User = User(id: string, username: string, password: string)

  datatype InsertUser = InsertUser(username: string, password: string)

  /** `s || null` for a text field: the empty string is falsy. */
  function OrNull(s: Option<string>): (r: Option<string>)
    ensures r.Some? <==> s.Some? && s.value != ""
    ensures r.Some? ==> r == s
  {
    if s == Some("") then None else s
  }

  /** `s || d` for a text field. */
  function OrDefault(s: Option<string>, d: string): (r: string)
    ensures s.Some? && s.value != "" ==> r == s.value
    ensures s.None? || s.value == "" ==> r == d
  {
    if s.Some? && s.value != "" then s.value else d
  }

  /** The `claimId === id` conditions of the `get*ByClaim` readers. */
  function DamageItemOf(claimId: string): DamageItem -> bool {
    (d: DamageItem) => d.claimId == claimId
  }

  function PhotoOf(claimId: string): Photo -> bool {
    (p: Photo) => p.claimId == claimId
  }

  function CostLineOf(claimId: string): CostLine -> bool {
    (l: CostLine) => l.claimId == claimId
  }

  function AuditEntryOf(claimId: string): AuditEntry -> bool {
    (e: AuditEntry) => e.claimId == claimId
  }

  /** The id each kind of record is stored under. */
  function UserId(u: User): string { u.id }
  function ClaimId(c: Claim): string { c.id }
  function DamageItemId(d: DamageItem): string { d.id }
  function PhotoId(p: Photo): string { p.id }
  function CostLineId(l: CostLine): string { l.id }
  function AuditEntryId(e: AuditEntry): string { e.id }
}
