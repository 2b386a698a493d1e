/** The state-changing API handlers of server/routes.ts over one `MemStorage`. A handler that
    answers 404 returns `Err(ClaimNotFound)`; each audit entry a handler writes takes the next id
    a fresh-id source hands out and the handler's clock reading `now`. */
module Routes {
  import opened Wrappers
  import opened Seqs
  import opened Tables
  import opened Schema
  import opened SampleData
  import opened Storage

  /** The hard-coded actors the handlers log. */
  const Agent := "Sarah Johnson"
  const Adjuster := "Michael Chen"

  datatype Failure =
    | ClaimNotFound      // 404 { error: "Claim not found" }
    | ResetUnavailable   // 500 { error: "Failed to reset data" }

  datatype Result<T> = Ok(value: T) | Err(error: Failure)

  /** The patch `POST /api/claims/:id/approve` applies. */
  function ApprovePatch(notes: Option<string>): ClaimPatch {
    NoChanges().(status := Some("approved"), agentNotes := Some(notes))
  }

  /** The patch `POST /api/claims/:id/reject` applies. */
  function RejectPatch(reason: Option<string>): ClaimPatch {
    NoChanges().(status := Some("rejected"), agentNotes := Some(reason))
  }

  /** The patch `POST /api/claims/:id/send-to-shop` applies. */
  function SendToShopPatch(shopId: Option<string>, notes: Option<string>): ClaimPatch {
    NoChanges().(status := Some("sent_to_shop"), adjusterNotes := Some(notes), assignedShopId := Some(shopId))
  }

  /** `${shopId}` in a template literal: a missing shop id prints as "undefined". */
  function ShownShopId(shopId: Option<string>): (r: string)
    ensures shopId.Some? ==> r == shopId.value
    ensures shopId.None? ==> r == "undefined"
  {
    shopId.GetOr("undefined")
  }

  /** `storage.updateClaim(id, patch)` and, when the claim exists, one `storage.createAuditLog`
      whose metadata may depend on the updated claim. */
  method PatchAndLog(store: MemStorage, id: string, patch: ClaimPatch, auditId: string, now: int,
                     action: string, description: string, performedBy: string,
                     metadata: Claim -> Metadata) returns (r: Result<Claim>)
    requires store.Valid() && auditId !in store.auditLogs.rows && performedBy != ""
    modifies store
    ensures store.Valid()
    ensures id !in old(store.claims.rows) ==> r == Err(ClaimNotFound) && store.State() == old(store.State())
    ensures id in old(store.claims.rows) ==>
      && r == Ok(Merge(old(store.claims.rows[id]), patch))
      && store.State() == old(store.State()).(
           claims := old(store.claims).Set(id, r.value),
           auditLogs := old(store.auditLogs).Set(auditId,
             AuditEntry(auditId, id, action, description, Some(performedBy), Some(now), metadata(r.value))))
  {
    var updated := store.UpdateClaim(id, patch);
    if updated.None? {
      return Err(ClaimNotFound);
    }
    var _ := store.CreateAuditLog(auditId, now,
      InsertAuditEntry(id, action, description, Some(performedBy), Some(metadata(updated.value))));
    r := Ok(updated.value);
  }

  /** `PATCH /api/claims/:id`: the body is spread over the stored claim and logged as it came. */
  method UpdateClaimRoute(store: MemStorage, id: string, updates: ClaimPatch, auditId: string, now: int)
    returns (r: Result<Claim>)
    requires store.Valid() && auditId !in store.auditLogs.rows
    modifies store
    ensures store.Valid()
    ensures id !in old(store.claims.rows) ==> r == Err(ClaimNotFound) && store.State() == old(store.State())
    ensures id in old(store.claims.rows) ==>
      && r == Ok(Merge(old(store.claims.rows[id]), updates))
      && store.State() == old(store.State()).(
           claims := old(store.claims).Set(id, r.value),
           auditLogs := old(store.auditLogs).Set(auditId,
             AuditEntry(auditId, id, "claim_updated", "Claim updated by agent", Some(Agent), Some(now),
                        ClaimUpdated(updates))))
  {
    r := PatchAndLog(store, id, updates, auditId, now, "claim_updated", "Claim updated by agent", Agent,
                     (c: Claim) => ClaimUpdated(updates));
  }

  /** `POST /api/claims/:id/approve`: status "approved", the notes (or nothing) as agent notes,
      and a log entry carrying the notes and the claim's estimate. */
  method ApproveClaim(store: MemStorage, id: string, notes: Option<string>, auditId: string, now: int)
    returns (r: Result<Claim>)
    requires store.Valid() && auditId !in store.auditLogs.rows
    modifies store
    ensures store.Valid()
    ensures id !in old(store.claims.rows) ==> r == Err(ClaimNotFound) && store.State() == old(store.State())
    ensures id in old(store.claims.rows) ==>
      && r == Ok(old(store.claims.rows[id]).(status := "approved", agentNotes := notes))
      && store.State() == old(store.State()).(
           claims := old(store.claims).Set(id, r.value),
           auditLogs := old(store.auditLogs).Set(auditId,
             AuditEntry(auditId, id, "claim_approved", "Claim approved by agent", Some(Agent), Some(now),
                        ClaimApproved(notes, old(store.claims.rows[id]).totalEstimate))))
  {
    r := PatchAndLog(store, id, ApprovePatch(notes), auditId, now, "claim_approved", "Claim approved by agent",
                     Agent, (c: Claim) => ClaimApproved(notes, c.totalEstimate));
  }

  /** `POST /api/claims/:id/reject`: status "rejected" and the reason (or nothing) as agent notes;
      the handler itself accepts a missing or blank reason. */
  method RejectClaim(store: MemStorage, id: string, reason: Option<string>, auditId: string, now: int)
    returns (r: Result<Claim>)
    requires store.Valid() && auditId !in store.auditLogs.rows
    modifies store
    ensures store.Valid()
    ensures id !in old(store.claims.rows) ==> r == Err(ClaimNotFound) && store.State() == old(store.State())
    ensures id in old(store.claims.rows) ==>
      && r == Ok(old(store.claims.rows[id]).(status := "rejected", agentNotes := reason))
      && store.State() == old(store.State()).(
           claims := old(store.claims).Set(id, r.value),
           auditLogs := old(store.auditLogs).Set(auditId,
             AuditEntry(auditId, id, "claim_rejected", "Claim rejected by agent", Some(Agent), Some(now),
                        ClaimRejected(reason))))
  {
    r := PatchAndLog(store, id, RejectPatch(reason), auditId, now, "claim_rejected", "Claim rejected by agent",
                     Agent, (c: Claim) => ClaimRejected(reason));
  }

  /** `POST /api/claims/:id/send-to-shop`: status "sent_to_shop", the shop and the adjuster's notes
      on the claim, and a log entry by the adjuster naming the shop. */
  method SendToShop(store: MemStorage, id: string, shopId: Option<string>, notes: Option<string>,
                    auditId: string, now: int) returns (r: Result<Claim>)
    requires store.Valid() && auditId !in store.auditLogs.rows
    modifies store
    ensures store.Valid()
    ensures id !in old(store.claims.rows) ==> r == Err(ClaimNotFound) && store.State() == old(store.State())
    ensures id in old(store.claims.rows) ==>
      && r == Ok(old(store.claims.rows[id]).(status := "sent_to_shop", adjusterNotes := notes, assignedShopId := shopId))
      && store.State() == old(store.State()).(
           claims := old(store.claims).Set(id, r.value),
           auditLogs := old(store.auditLogs).Set(auditId,
             AuditEntry(auditId, id, "sent_to_shop", "Claim sent to repair shop (ID: " + ShownShopId(shopId) + ")",
                        Some(Adjuster), Some(now), SentToShop(shopId, notes))))
  {
    r := PatchAndLog(store, id, SendToShopPatch(shopId, notes), auditId, now, "sent_to_shop",
                     "Claim sent to repair shop (ID: " + ShownShopId(shopId) + ")", Adjuster,
                     (c: Claim) => SentToShop(shopId, notes));
  }

  /** `claim.status === "pending_review" && claim.aiConfidence === confidence` */
  function IsCandidate(confidence: string): Claim -> bool {
    (c: Claim) => c.status == "pending_review" && c.aiConfidence == Some(confidence)
  }

  /** The claims a batch approval for `confidence` picks, in enumeration order. */
  function Candidates(claims: seq<Claim>, confidence: string): (r: seq<Claim>)
    ensures forall c :: c in r <==> c in claims && c.status == "pending_review" && c.aiConfidence == Some(confidence)
  {
    Filter(claims, IsCandidate(confidence))
  }

  function BatchNote(confidence: string): string {
    "Auto-approved via batch approval for " + confidence + " confidence claims"
  }

  /** The patch a batch approval applies to each candidate. */
  function BatchPatch(confidence: string): ClaimPatch {
    ApprovePatch(Some(BatchNote(confidence)))
  }

  /** Every claim of `claims` as it stands after a batch approval for `confidence`. */
  function BatchApplied(claims: seq<Claim>, confidence: string): (r: seq<Claim>)
    ensures |r| == |claims|
    ensures forall j :: 0 <= j < |claims| ==>
      r[j] == if IsCandidate(confidence)(claims[j])
              then claims[j].(status := "approved", agentNotes := Some(BatchNote(confidence)))
              else claims[j]
  {
    seq(|claims|, j requires 0 <= j < |claims| =>
      if IsCandidate(confidence)(claims[j]) then Merge(claims[j], BatchPatch(confidence)) else claims[j])
  }

  /** The candidates as the response lists them, approved. */
  function ApprovedClaims(candidates: seq<Claim>, confidence: string): (r: seq<Claim>)
    ensures |r| == |candidates|
    ensures forall k :: 0 <= k < |r| ==>
      r[k] == candidates[k].(status := "approved", agentNotes := Some(BatchNote(confidence)))
  {
    seq(|candidates|, k requires 0 <= k < |candidates| => Merge(candidates[k], BatchPatch(confidence)))
  }

  /** The audit entry each approved candidate gets. */
  function BatchEntry(auditId: string, approved: Claim, confidence: string, batchSize: nat, now: int): AuditEntry {
    AuditEntry(auditId, approved.id, "claim_batch_approved", "Claim batch-approved for " + confidence + " confidence",
               Some(Agent), Some(now), ClaimBatchApproved(confidence, batchSize, approved.totalEstimate))
  }

  function BatchEntries(auditIds: seq<string>, approved: seq<Claim>, confidence: string, batchSize: nat, now: int): seq<AuditEntry>
    requires |auditIds| == |approved|
  {
    seq(|approved|, k requires 0 <= k < |approved| => BatchEntry(auditIds[k], approved[k], confidence, batchSize, now))
  }

  datatype BatchResult = BatchResult(approvedClaims: nat, confidence: string, claims: seq<Claim>)

  /** The claims after the first `i` candidates of a batch are approved. */
  ghost predicate ClaimsAfter(claims: seq<Claim>, all: seq<Claim>, cands: seq<Claim>, i: nat, conf: string)
    requires i <= |cands|
  {
    && |claims| == |all|
    && forall j :: 0 <= j < |all| ==>
         claims[j] == if all[j] in cands[..i] then Merge(all[j], BatchPatch(conf)) else all[j]
  }

  /** The store after the first `i` candidates of a batch are approved and logged. */
  ghost predicate BatchProgress(s: StoreState, s0: StoreState, cands: seq<Claim>, conf: string,
                                auditIds: seq<string>, now: int, i: nat, approved: seq<Claim>)
  {
    && Consistent(s) && Consistent(s0)
    && cands == Candidates(s0.claims.Values(), conf) && NoDup(cands)
    && i <= |cands| <= |auditIds| && NoDup(auditIds)
    && (forall a :: a in auditIds ==> a !in s0.auditLogs.rows)
    && s.claims.keys == s0.claims.keys
    && ClaimsAfter(s.claims.Values(), s0.claims.Values(), cands, i, conf)
    && approved == ApprovedClaims(cands[..i], conf)
    && s.auditLogs.keys == s0.auditLogs.keys + auditIds[..i]
    && s.auditLogs.Values() == s0.auditLogs.Values() + BatchEntries(auditIds[..i], approved, conf, |cands|, now)
    && s.users == s0.users && s.damageItems == s0.damageItems
    && s.photos == s0.photos && s.costBreakdowns == s0.costBreakdowns
  }

  /** `POST /api/claims/batch-approve`: approves, in enumeration order, every claim pending review
      whose AI confidence is the requested one ("high" when the body names none), logging one entry
      per claim. */
  method BatchApprove(store: MemStorage, confidence: Option<string>, auditIds: seq<string>, now: int)
    returns (r: BatchResult)
    requires store.Valid()
    requires NoDup(auditIds) && forall a :: a in auditIds ==> a !in store.auditLogs.rows
    requires |auditIds| >= |Candidates(store.claims.Values(), confidence.GetOr("high"))|
    modifies store
    ensures store.Valid()
    ensures var conf := confidence.GetOr("high");
      var cands := Candidates(old(store.claims.Values()), conf);
      && r == BatchResult(|cands|, conf, ApprovedClaims(cands, conf))
      && store.claims.keys == old(store.claims.keys)
      && store.claims.Values() == BatchApplied(old(store.claims.Values()), conf)
      && store.auditLogs.keys == old(store.auditLogs.keys) + auditIds[..|cands|]
      && store.auditLogs.Values() == old(store.auditLogs.Values())
           + BatchEntries(auditIds[..|cands|], ApprovedClaims(cands, conf), conf, |cands|, now)
      && store.users == old(store.users) && store.damageItems == old(store.damageItems)
      && store.photos == old(store.photos) && store.costBreakdowns == old(store.costBreakdowns)
  {
    var conf := confidence.GetOr("high");
    var all := store.GetAllClaims();
    var cands := Candidates(all, conf);
    ghost var s0 := store.State();
    FilterNoDup(all, IsCandidate(conf));
    var approved: seq<Claim> := [];
    BatchStart(s0, cands, conf, auditIds, now);
    var i := 0;
    while i < |cands|
      invariant 0 <= i <= |cands|
      invariant store.Valid()
      invariant BatchProgress(store.State(), s0, cands, conf, auditIds, now, i, approved)
    {
      approved := ApproveCandidate(store, s0, cands, conf, auditIds, now, i, approved);
      i := i + 1;
    }
    FullPrefix(cands);
    BatchFinal(store.claims.Values(), all, cands, conf);
    r := BatchResult(|approved|, conf, approved);
  }

  lemma BatchStart(s0: StoreState, cands: seq<Claim>, conf: string, auditIds: seq<string>, now: int)
    requires Consistent(s0) && cands == Candidates(s0.claims.Values(), conf) && NoDup(cands)
    requires |cands| <= |auditIds| && NoDup(auditIds)
    requires forall a :: a in auditIds ==> a !in s0.auditLogs.rows
    ensures BatchProgress(s0, s0, cands, conf, auditIds, now, 0, [])
  {
    assert cands[..0] == [] && auditIds[..0] == [];
    assert s0.auditLogs.keys + [] == s0.auditLogs.keys;
    assert s0.auditLogs.Values() + [] == s0.auditLogs.Values();
  }

  /** One turn of the `for` loop: update the `i`-th candidate and log it. */
  method ApproveCandidate(store: MemStorage, ghost s0: StoreState, cands: seq<Claim>, conf: string,
                          auditIds: seq<string>, now: int, i: nat, approved: seq<Claim>)
    returns (approved': seq<Claim>)
    requires store.Valid() && i < |cands|
    requires BatchProgress(store.State(), s0, cands, conf, auditIds, now, i, approved)
    modifies store
    ensures store.Valid()
    ensures BatchProgress(store.State(), s0, cands, conf, auditIds, now, i + 1, approved')
  {
    var claim := cands[i];
    ghost var before := store.State();
    BatchStepFacts(before.claims, s0.claims.Values(), cands, i, conf);
    var updated := store.UpdateClaim(claim.id, BatchPatch(conf));
    AuditIdFresh(store.auditLogs, s0.auditLogs, auditIds, i);
    var _ := store.CreateAuditLog(auditIds[i], now,
      InsertAuditEntry(claim.id, "claim_batch_approved", "Claim batch-approved for " + conf + " confidence",
                       Some(Agent), Some(ClaimBatchApproved(conf, |cands|, updated.value.totalEstimate))));
    approved' := approved + [updated.value];
    StepProgress(before, store.State(), s0, cands, conf, auditIds, now, i, approved, updated.value);
  }

  /** Approving and logging the `i`-th candidate keeps `BatchProgress`, one step further. */
  lemma StepProgress(s: StoreState, s': StoreState, s0: StoreState, cands: seq<Claim>, conf: string,
                     auditIds: seq<string>, now: int, i: nat, approved: seq<Claim>, updated: Claim)
    requires i < |cands| && BatchProgress(s, s0, cands, conf, auditIds, now, i, approved)
    requires updated == Merge(cands[i], BatchPatch(conf))
    requires s' == s.(claims := s.claims.Set(cands[i].id, updated),
                      auditLogs := s.auditLogs.Set(auditIds[i], BatchEntry(auditIds[i], updated, conf, |cands|, now)))
    ensures BatchProgress(s', s0, cands, conf, auditIds, now, i + 1, approved + [updated])
  {
    BatchStepFacts(s.claims, s0.claims.Values(), cands, i, conf);
    ClaimsStepAt(s.claims, s0.claims.Values(), cands, i, conf, updated);
    AuditStep(s.auditLogs, s0.auditLogs, auditIds, approved, conf, |cands|, now, i, updated);
    ApprovedStep(cands, conf, i);
  }

  /** The claims table after storing the `i`-th candidate's update. */
  lemma ClaimsStepAt(t: Table<Claim>, all: seq<Claim>, cands: seq<Claim>, i: nat, conf: string, updated: Claim)
    requires t.KeyedBy(ClaimId) && i < |cands|
    requires cands[i].id in t.rows && updated == Merge(cands[i], BatchPatch(conf))
    requires ClaimsAfter(t.Values(), all, cands, i, conf)
    requires forall j :: 0 <= j < |t.keys| ==> (t.keys[j] == cands[i].id <==> all[j] == cands[i])
    ensures t.Set(cands[i].id, updated).KeyedBy(ClaimId)
    ensures t.Set(cands[i].id, updated).keys == t.keys
    ensures ClaimsAfter(t.Set(cands[i].id, updated).Values(), all, cands, i + 1, conf)
  {
    var j :| 0 <= j < |t.keys| && t.keys[j] == cands[i].id;
    var t' := t.Set(cands[i].id, updated);
    ValuesSetPresent(t, j, updated);
    SetKeyedBy(t, ClaimId, updated);
    assert t'.keys == t.keys;
    assert t'.Values() == t.Values()[j := updated];
    forall k | 0 <= k < |t'.keys|
      ensures t'.Values()[k] == if t'.keys[k] == cands[i].id then updated else t.Values()[k]
    {
      if k != j {
        assert t.keys[k] != t.keys[j];
      }
    }
    ClaimsStep(t, t', all, cands, i, conf);
  }

  /** The audit table after logging the `i`-th candidate. */
  lemma AuditStep(t: Table<AuditEntry>, t0: Table<AuditEntry>, auditIds: seq<string>, approved: seq<Claim>,
                  conf: string, size: nat, now: int, i: nat, updated: Claim)
    requires t.KeyedBy(AuditEntryId) && t0.Valid() && i < |auditIds| && NoDup(auditIds) && |approved| == i
    requires auditIds[i] !in t0.rows
    requires t.keys == t0.keys + auditIds[..i]
    requires t.Values() == t0.Values() + BatchEntries(auditIds[..i], approved, conf, size, now)
    ensures t.Set(auditIds[i], BatchEntry(auditIds[i], updated, conf, size, now)).KeyedBy(AuditEntryId)
    ensures t.Set(auditIds[i], BatchEntry(auditIds[i], updated, conf, size, now)).keys == t0.keys + auditIds[..i + 1]
    ensures t.Set(auditIds[i], BatchEntry(auditIds[i], updated, conf, size, now)).Values()
         == t0.Values() + BatchEntries(auditIds[..i + 1], approved + [updated], conf, size, now)
  {
    var e := BatchEntry(auditIds[i], updated, conf, size, now);
    AuditIdFresh(t, t0, auditIds, i);
    ValuesSetAbsent(t, auditIds[i], e);
    SetKeyedBy(t, AuditEntryId, e);
    BatchEntriesStep(auditIds, approved, updated, conf, size, now, i);
    PrefixStep(auditIds, i);
  }

  lemma PrefixStep<T>(s: seq<T>, i: nat)
    requires i < |s|
    ensures s[..i + 1] == s[..i] + [s[i]]
  {
  }

  lemma FullPrefix<T>(s: seq<T>)
    ensures s[..|s|] == s
  {
  }

  lemma NotInPrefix<T>(s: seq<T>, i: nat)
    requires NoDup(s) && i < |s|
    ensures s[i] !in s[..i]
  {
    forall k | 0 <= k < i ensures s[..i][k] != s[i] {
      assert s[..i][k] == s[k];
    }
  }

  /** Before step `i`, the `i`-th candidate is still stored unchanged, at the position of its id. */
  lemma BatchStepFacts(t: Table<Claim>, all: seq<Claim>, cands: seq<Claim>, i: nat, conf: string)
    requires t.KeyedBy(ClaimId) && i < |cands| && cands == Candidates(all, conf) && NoDup(cands)
    requires ClaimsAfter(t.Values(), all, cands, i, conf)
    ensures cands[i].id in t.rows && t.rows[cands[i].id] == cands[i]
    ensures forall j :: 0 <= j < |t.keys| ==> (t.keys[j] == cands[i].id <==> all[j] == cands[i])
  {
    var c := cands[i];
    assert c in all;
    var j0 :| 0 <= j0 < |all| && all[j0] == c;
    NotInPrefix(cands, i);
    assert t.Values()[j0] == c;
    assert t.keys[j0] in t.rows;
    forall j | 0 <= j < |t.keys| ensures t.keys[j] == c.id <==> all[j] == c {
      KeyedPosition(t, ClaimId, c, j);
    }
  }

  /** Updating the `i`-th candidate takes the claims from step `i` to step `i + 1`. */
  lemma ClaimsStep(t: Table<Claim>, t': Table<Claim>, all: seq<Claim>, cands: seq<Claim>, i: nat, conf: string)
    requires t.Valid() && t'.Valid() && i < |cands|
    requires ClaimsAfter(t.Values(), all, cands, i, conf)
    requires t'.keys == t.keys && |t'.Values()| == |t.Values()|
    requires forall j :: 0 <= j < |t.keys| ==> (t.keys[j] == cands[i].id <==> all[j] == cands[i])
    requires forall j :: 0 <= j < |t'.keys| ==>
      t'.Values()[j] == if t'.keys[j] == cands[i].id then Merge(cands[i], BatchPatch(conf)) else t.Values()[j]
    ensures ClaimsAfter(t'.Values(), all, cands, i + 1, conf)
  {
    PrefixStep(cands, i);
    forall j | 0 <= j < |all|
      ensures t'.Values()[j] == if all[j] in cands[..i + 1] then Merge(all[j], BatchPatch(conf)) else all[j]
    {
      assert all[j] in cands[..i + 1] <==> all[j] in cands[..i] || all[j] == cands[i];
    }
  }

  lemma AuditIdFresh(t: Table<AuditEntry>, t0: Table<AuditEntry>, auditIds: seq<string>, i: nat)
    requires t.Valid() && t0.Valid() && i < |auditIds| && NoDup(auditIds)
    requires t.keys == t0.keys + auditIds[..i]
    requires auditIds[i] !in t0.rows
    ensures auditIds[i] !in t.rows
  {
    NotInPrefix(auditIds, i);
  }

  lemma ApprovedStep(cands: seq<Claim>, conf: string, i: nat)
    requires i < |cands|
    ensures ApprovedClaims(cands[..i + 1], conf) == ApprovedClaims(cands[..i], conf) + [Merge(cands[i], BatchPatch(conf))]
  {
    assert cands[..i + 1][i] == cands[i];
  }

  lemma BatchEntriesStep(auditIds: seq<string>, approved: seq<Claim>, next: Claim, conf: string, size: nat, now: int, i: nat)
    requires i < |auditIds| && |approved| == i
    ensures BatchEntries(auditIds[..i + 1], approved + [next], conf, size, now)
         == BatchEntries(auditIds[..i], approved, conf, size, now) + [BatchEntry(auditIds[i], next, conf, size, now)]
  {
    assert auditIds[..i + 1][i] == auditIds[i];
    forall k | 0 <= k < i ensures auditIds[..i + 1][k] == auditIds[..i][k] {
    }
  }

  lemma BatchFinal(after: seq<Claim>, all: seq<Claim>, cands: seq<Claim>, conf: string)
    requires cands == Candidates(all, conf) && ClaimsAfter(after, all, cands, |cands|, conf)
    ensures after == BatchApplied(all, conf)
  {
    FullPrefix(cands);
    forall j | 0 <= j < |all| ensures after[j] == BatchApplied(all, conf)[j] {
      assert all[j] in cands <==> IsCandidate(conf)(all[j]);
    }
  }

  /** After a batch approval for `confidence` no claim is left for a second one to pick. */
  lemma BatchLeavesNoCandidates(claims: seq<Claim>, confidence: string)
    ensures Candidates(BatchApplied(claims, confidence), confidence) == []
  {
    FilterNone(BatchApplied(claims, confidence), IsCandidate(confidence));
  }

  /** A second batch approval for the same confidence changes nothing. */
  lemma BatchIdempotent(claims: seq<Claim>, confidence: string)
    ensures BatchApplied(BatchApplied(claims, confidence), confidence) == BatchApplied(claims, confidence)
  {
    var once := BatchApplied(claims, confidence);
    forall j | 0 <= j < |claims| ensures BatchApplied(once, confidence)[j] == once[j] {
      assert !IsCandidate(confidence)(once[j]);
    }
  }

  /** With no candidate the batch changes no claim, reports nothing and logs nothing. */
  lemma BatchWithoutCandidates(claims: seq<Claim>, confidence: string, auditIds: seq<string>, now: int)
    requires Candidates(claims, confidence) == []
    ensures BatchApplied(claims, confidence) == claims
    ensures ApprovedClaims(Candidates(claims, confidence), confidence) == []
    ensures var n := |Candidates(claims, confidence)|;
      BatchEntries(auditIds[..n], ApprovedClaims(Candidates(claims, confidence), confidence), confidence, n, now) == []
  {
  }

  /** Three claims pending review with confidence high, high and medium: a batch for "high"
      picks the first two, approves them and leaves the third as it was. */
  lemma BatchScenario(a: Claim, b: Claim, c: Claim)
    requires a.status == "pending_review" && b.status == "pending_review" && c.status == "pending_review"
    requires a.aiConfidence == Some("high") && b.aiConfidence == Some("high") && c.aiConfidence == Some("medium")
    ensures Candidates([a, b, c], "high") == [a, b]
    ensures |ApprovedClaims(Candidates([a, b, c], "high"), "high")| == 2
    ensures var after := BatchApplied([a, b, c], "high");
      after[0].status == "approved" && after[1].status == "approved" && after[2] == c
  {
    assert [a, b, c][1..] == [b, c] && [b, c][1..] == [c] && [c][1..] == [];
    var p := IsCandidate("high");
    assert p(a) && p(b) && !p(c);
    assert Filter([c], p) == [];
    assert Filter([b, c], p) == [b];
    assert Filter([a, b, c], p) == [a, b];
  }

  /** The seeded claim carries no AI confidence, so right after a reset no batch approval picks
      anything. */
  lemma SeedHasNoCandidates(ids: seq<string>, now: int, confidence: string)
    requires SeedIds(ids)
    ensures Candidates(SeedState(ids, now).claims.Values(), confidence) == []
  {
    SeedFacts(ids, now);
  }

  /** The seeded claim approved and then a reset as written: the approval survives. */
  method ResetAfterApprovalAsWritten(ids: seq<string>, now: int, auditId: string) returns (status: string)
    requires SeedIds(ids) && auditId !in ids
    ensures status == "approved"
  {
    var store := new MemStorage(ids, now);
    SeedFacts(ids, now);
    var _ := ApproveClaim(store, ids[0], None, auditId, now);
    var _ := ResetDataAsWritten(store);
    var c := store.GetClaim(ids[0]);
    status := c.value.status;
  }

  /** The seeded claim approved and then a reset that restores the seed: it is pending review again. */
  method ResetAfterApproval(ids: seq<string>, now: int, auditId: string) returns (status: string)
    requires SeedIds(ids) && auditId !in ids
    ensures status == "pending_review"
  {
    var store := new MemStorage(ids, now);
    SeedFacts(ids, now);
    var _ := ApproveClaim(store, ids[0], None, auditId, now);
    var _ := ResetData(store, ids, now);
    var c := store.GetClaim(ids[0]);
    status := c.value.status;
  }

  /** `POST /api/reset-data`, with `resetToInitialData` as the store method restoring the state
      of a new store. */
  method ResetData(store: MemStorage, ids: seq<string>, now: int) returns (r: Result<string>)
    requires store.Valid() && |ids| == 14
    modifies store
    ensures store.Valid() && store.State() == SeedState(ids, now)
    ensures r == Ok("Data reset to initial state successfully")
  {
    store.ResetToInitialData(ids, now);
    r := Ok("Data reset to initial state successfully");
  }

  /** `POST /api/reset-data` as written: `storage.resetToInitialData` is not defined on
      `MemStorage`, so the call throws a TypeError, the handler answers 500 and nothing changes. */
  method ResetDataAsWritten(store: MemStorage) returns (r: Result<string>)
    requires store.Valid()
    ensures r == Err(ResetUnavailable)
    ensures store.State() == old(store.State())
  {
    r := Err(ResetUnavailable);
  }
}
