/** `MemStorage`: the in-memory store behind the API, six JavaScript `Map`s keyed by record id.
    `randomUUID()` is modelled by fresh ids passed in, `new Date()` by a clock reading `now`. */
module Storage {
  import opened Wrappers
  import opened Seqs
  import opened Tables
  import opened Schema
  import opened SampleData

  /** The six tables at one moment. */
  datatype StoreState = StoreState(
    users: Table<User>,
    claims: Table<Claim>,
    damageItems: Table<DamageItem>,
    photos: Table<Photo>,
    costBreakdowns: Table<CostLine>,
    auditLogs: Table<AuditEntry>)

  /** Every table is well formed and every record is stored under its own id. */
  ghost predicate Consistent(s: StoreState) {
    && s.users.KeyedBy(UserId) && s.claims.KeyedBy(ClaimId) && s.damageItems.KeyedBy(DamageItemId)
    && s.photos.KeyedBy(PhotoId) && s.costBreakdowns.KeyedBy(CostLineId) && s.auditLogs.KeyedBy(AuditEntryId)
  }

  /** The fourteen `randomUUID()` results `initializeSampleData` draws, in call order: the claim,
      three damage items, three photos, four cost lines, three audit entries. */
  ghost predicate SeedIds(ids: seq<string>) {
    |ids| == 14 && NoDup(ids)
  }

  /** Each record carries the id it is stored under. */
  ghost predicate SeedShape(ids: seq<string>, claim: Claim, items: seq<DamageItem>, photos: seq<Photo>,
                            lines: seq<CostLine>, entries: seq<AuditEntry>)
  {
    && |ids| == 14 && claim.id == ids[0]
    && KeysOf(ids[1..4], items, DamageItemId)
    && KeysOf(ids[4..7], photos, PhotoId)
    && KeysOf(ids[7..11], lines, CostLineId)
    && KeysOf(ids[11..14], entries, AuditEntryId)
  }

  /** Six empty tables. */
  function EmptyState(): (s: StoreState)
    ensures Consistent(s)
  {
    EmptyKeyedBy(UserId);
    EmptyKeyedBy(ClaimId);
    EmptyKeyedBy(DamageItemId);
    EmptyKeyedBy(PhotoId);
    EmptyKeyedBy(CostLineId);
    EmptyKeyedBy(AuditEntryId);
    StoreState(Empty(), Empty(), Empty(), Empty(), Empty(), Empty())
  }

  /** `s` after storing `claim` and then its child records, in order, under `ids`. */
  function SeedOnto(s: StoreState, ids: seq<string>, claim: Claim, items: seq<DamageItem>, photos: seq<Photo>,
                    lines: seq<CostLine>, entries: seq<AuditEntry>): StoreState
    requires Consistent(s)
    requires |ids| == 14 && |items| == 3 && |photos| == 3 && |lines| == 4 && |entries| == 3
  {
    s.(claims := s.claims.Set(ids[0], claim),
       damageItems := SetAll(s.damageItems, ids[1..4], items),
       photos := SetAll(s.photos, ids[4..7], photos),
       costBreakdowns := SetAll(s.costBreakdowns, ids[7..11], lines),
       auditLogs := SetAll(s.auditLogs, ids[11..14], entries))
  }

  /** Storing records under their own ids keeps the store consistent. */
  lemma SeedOntoConsistent(s: StoreState, ids: seq<string>, claim: Claim, items: seq<DamageItem>, photos: seq<Photo>,
                           lines: seq<CostLine>, entries: seq<AuditEntry>)
    requires Consistent(s) && SeedShape(ids, claim, items, photos, lines, entries)
    ensures Consistent(SeedOnto(s, ids, claim, items, photos, lines, entries))
  {
    SetKeyedBy(s.claims, ClaimId, claim);
    SetAllKeyedBy(s.damageItems, ids[1..4], items, DamageItemId);
    SetAllKeyedBy(s.photos, ids[4..7], photos, PhotoId);
    SetAllKeyedBy(s.costBreakdowns, ids[7..11], lines, CostLineId);
    SetAllKeyedBy(s.auditLogs, ids[11..14], entries, AuditEntryId);
  }

  /** The store after storing `claim` and then its child records into empty tables. */
  function SeedFrom(ids: seq<string>, claim: Claim, items: seq<DamageItem>, photos: seq<Photo>,
                    lines: seq<CostLine>, entries: seq<AuditEntry>): StoreState
    requires |ids| == 14 && |items| == 3 && |photos| == 3 && |lines| == 4 && |entries| == 3
  {
    SeedOnto(EmptyState(), ids, claim, items, photos, lines, entries)
  }

  /** The store a freshly constructed `MemStorage` holds. */
  function SeedState(ids: seq<string>, now: int): StoreState
    requires |ids| == 14
  {
    SeedFrom(ids, SampleClaim(ids[0], now), SampleDamageItems(ids[0], ids[1..4]),
             SamplePhotos(ids[0], ids[4..7], now), SampleCostLines(ids[0], ids[7..11]),
             SampleAuditEntries(ids[0], ids[11..14], now))
  }

  lemma SliceNoDup(ids: seq<string>, lo: nat, hi: nat)
    requires NoDup(ids) && lo <= hi <= |ids|
    ensures NoDup(ids[lo..hi])
  {
    assert forall i :: 0 <= i < hi - lo ==> ids[lo..hi][i] == ids[lo + i];
  }

  /** Storing records into an empty table enumerates them in the order given. */
  lemma SeedTable<V>(ids: seq<string>, lo: nat, hi: nat, vs: seq<V>)
    requires NoDup(ids) && lo <= hi <= |ids| && |vs| == hi - lo
    ensures SetAll(Empty(), ids[lo..hi], vs).keys == ids[lo..hi]
    ensures SetAll(Empty(), ids[lo..hi], vs).Values() == vs
  {
    SliceNoDup(ids, lo, hi);
    SetAllFresh(Empty(), ids[lo..hi], vs);
  }

  /** Seeding keeps every record under its own id and enumerates the records in the order given. */
  lemma SeedFromFacts(ids: seq<string>, claim: Claim, items: seq<DamageItem>, photos: seq<Photo>,
                      lines: seq<CostLine>, entries: seq<AuditEntry>)
    requires SeedIds(ids) && SeedShape(ids, claim, items, photos, lines, entries)
    ensures var s := SeedFrom(ids, claim, items, photos, lines, entries);
      && Consistent(s)
      && s.users.Values() == [] && s.claims.Values() == [claim]
      && s.damageItems.Values() == items && s.photos.Values() == photos
      && s.costBreakdowns.Values() == lines && s.auditLogs.Values() == entries
      && s.claims.keys == [ids[0]] && s.auditLogs.keys == ids[11..14]
  {
    SeedTable(ids, 1, 4, items);
    SeedTable(ids, 4, 7, photos);
    SeedTable(ids, 7, 11, lines);
    SeedTable(ids, 11, 14, entries);
    ValuesSetAbsent(Empty<Claim>(), ids[0], claim);
    SeedOntoConsistent(EmptyState(), ids, claim, items, photos, lines, entries);
  }

  lemma SampleShape(ids: seq<string>, now: int)
    requires |ids| == 14
    ensures SeedShape(ids, SampleClaim(ids[0], now), SampleDamageItems(ids[0], ids[1..4]),
                      SamplePhotos(ids[0], ids[4..7], now), SampleCostLines(ids[0], ids[7..11]),
                      SampleAuditEntries(ids[0], ids[11..14], now))
  {
  }

  /** The sample cost lines add up to the sample claim's estimate, and the labor line charges
      its hours at its rate. */
  lemma SampleCostsMatchEstimate(claimId: string, ids: seq<string>, now: int)
    requires |ids| == 4
    ensures TotalAmount(SampleCostLines(claimId, ids)) == SampleClaim(claimId, now).totalEstimate.value
    ensures ChargesHoursTimesRate(SampleCostLines(claimId, ids)[0])
  {
    var lines := SampleCostLines(claimId, ids);
    assert TotalAmount(lines[3..]) == 5700;
    assert lines[2..][1..] == lines[3..];
    assert TotalAmount(lines[2..]) == 28500 + 5700;
    assert lines[1..][1..] == lines[2..];
    assert TotalAmount(lines[1..]) == 148500 + 28500 + 5700;
  }

  /** The seeded store: one claim, pending review, owning three damage items, three photos,
      four cost lines and three audit entries; the cost lines add up to the claim's estimate. */
  lemma SeedFacts(ids: seq<string>, now: int)
    requires SeedIds(ids)
    ensures var s := SeedState(ids, now);
      && Consistent(s)
      && |s.users.Values()| == 0 && s.claims.Values() == [SampleClaim(ids[0], now)]
      && s.claims.Values()[0].id == ids[0] && s.claims.Values()[0].status == "pending_review"
      && s.claims.keys == [ids[0]] && s.auditLogs.keys == ids[11..14]
      && |s.damageItems.Values()| == 3 && |s.photos.Values()| == 3
      && |s.costBreakdowns.Values()| == 4 && |s.auditLogs.Values()| == 3
      && (forall d :: d in s.damageItems.Values() ==> d.claimId == ids[0])
      && (forall p :: p in s.photos.Values() ==> p.claimId == ids[0])
      && (forall l :: l in s.costBreakdowns.Values() ==> l.claimId == ids[0])
      && (forall e :: e in s.auditLogs.Values() ==> e.claimId == ids[0])
      && TotalAmount(s.costBreakdowns.Values()) == s.claims.Values()[0].totalEstimate.value
  {
    SampleShape(ids, now);
    SeedFromFacts(ids, SampleClaim(ids[0], now), SampleDamageItems(ids[0], ids[1..4]),
                  SamplePhotos(ids[0], ids[4..7], now), SampleCostLines(ids[0], ids[7..11]),
                  SampleAuditEntries(ids[0], ids[11..14], now));
    SampleCostsMatchEstimate(ids[0], ids[7..11], now);
  }

  /** `timestamp?.getTime() || 0`: the sort key of an audit entry. */
  function TimeKey(e: AuditEntry): int {
    e.timestamp.GetOr(0)
  }

  ghost predicate NewestFirstOrder(s: seq<AuditEntry>) {
    forall i, j :: 0 <= i < j < |s| ==> TimeKey(s[i]) >= TimeKey(s[j])
  }

  /** Puts `x` in front of the first entry that is not newer than it. */
  function InsertByTime(x: AuditEntry, s: seq<AuditEntry>): (r: seq<AuditEntry>)
    ensures multiset(r) == multiset(s) + multiset{x}
  {
    if s == [] || TimeKey(s[0]) <= TimeKey(x) then [x] + s
    else
      assert s == [s[0]] + s[1..];
      [s[0]] + InsertByTime(x, s[1..])
  }

  /** Every entry of `s` is at most as new as `t`. */
  ghost predicate NotNewerThan(s: seq<AuditEntry>, t: int) {
    forall i :: 0 <= i < |s| ==> TimeKey(s[i]) <= t
  }

  lemma {:induction false} InsertByTimeBounded(x: AuditEntry, s: seq<AuditEntry>, t: int)
    requires NotNewerThan(s, t) && TimeKey(x) <= t
    ensures NotNewerThan(InsertByTime(x, s), t)
  {
    if s != [] && TimeKey(s[0]) > TimeKey(x) {
      InsertByTimeBounded(x, s[1..], t);
    }
  }

  lemma {:induction false} InsertByTimeOrder(x: AuditEntry, s: seq<AuditEntry>)
    requires NewestFirstOrder(s)
    ensures NewestFirstOrder(InsertByTime(x, s))
  {
    if s != [] && TimeKey(s[0]) > TimeKey(x) {
      var rest := InsertByTime(x, s[1..]);
      InsertByTimeOrder(x, s[1..]);
      InsertByTimeBounded(x, s[1..], TimeKey(s[0]));
      assert InsertByTime(x, s) == [s[0]] + rest;
    }
  }

  /** `.sort((a, b) => TimeKey(b) - TimeKey(a))`: newest first; JavaScript's sort is stable. */
  function NewestFirst(s: seq<AuditEntry>): (r: seq<AuditEntry>)
    ensures multiset(r) == multiset(s)
    ensures NewestFirstOrder(r)
  {
    if s == [] then []
    else
      assert s == [s[0]] + s[1..];
      InsertByTimeOrder(s[0], NewestFirst(s[1..]));
      InsertByTime(s[0], NewestFirst(s[1..]))
  }

  function AtTime(t: int): AuditEntry -> bool {
    (e: AuditEntry) => TimeKey(e) == t
  }

  lemma FilterOne(x: AuditEntry, t: int)
    ensures Filter([x], AtTime(t)) == if TimeKey(x) == t then [x] else []
  {
    assert [x][1..] == [];
  }

  lemma {:induction false} InsertByTimeAtTime(x: AuditEntry, s: seq<AuditEntry>, t: int)
    ensures Filter(InsertByTime(x, s), AtTime(t)) == Filter([x], AtTime(t)) + Filter(s, AtTime(t))
  {
    if s == [] || TimeKey(s[0]) <= TimeKey(x) {
      FilterConcat([x], s, AtTime(t));
    } else {
      var rest := InsertByTime(x, s[1..]);
      assert InsertByTime(x, s) == [s[0]] + rest;
      assert [s[0]] + s[1..] == s;
      FilterConcat([s[0]], rest, AtTime(t));
      InsertByTimeAtTime(x, s[1..], t);
      FilterConcat([s[0]], s[1..], AtTime(t));
      SwapOther(s[0], x, t, Filter(s[1..], AtTime(t)));
    }
  }

  /** Two entries with different timestamps never both pass the same `AtTime` filter. */
  lemma SwapOther(a: AuditEntry, b: AuditEntry, t: int, tail: seq<AuditEntry>)
    requires TimeKey(a) != TimeKey(b)
    ensures Filter([a], AtTime(t)) + (Filter([b], AtTime(t)) + tail) == Filter([b], AtTime(t)) + (Filter([a], AtTime(t)) + tail)
  {
    FilterOne(a, t);
    FilterOne(b, t);
  }

  /** The sort is stable: the entries that share a timestamp keep their relative order. */
  lemma {:induction false} NewestFirstIsStable(s: seq<AuditEntry>, t: int)
    ensures Filter(NewestFirst(s), AtTime(t)) == Filter(s, AtTime(t))
  {
    if s != [] {
      InsertByTimeAtTime(s[0], NewestFirst(s[1..]), t);
      NewestFirstIsStable(s[1..], t);
      FilterConcat([s[0]], s[1..], AtTime(t));
      assert [s[0]] + s[1..] == s;
    }
  }

  lemma NewestFirstKeepsTies(s: seq<AuditEntry>)
    ensures forall t :: Filter(NewestFirst(s), AtTime(t)) == Filter(s, AtTime(t))
  {
    forall t ensures Filter(NewestFirst(s), AtTime(t)) == Filter(s, AtTime(t)) {
      NewestFirstIsStable(s, t);
    }
  }

  lemma SameMembers<T>(a: seq<T>, b: seq<T>)
    requires multiset(a) == multiset(b)
    ensures forall x :: x in a <==> x in b
  {
    forall x ensures x in a <==> x in b {
      assert x in a <==> x in multiset(a);
      assert x in b <==> x in multiset(b);
    }
  }

  class MemStorage {
    var users: Table<User>
    var claims: Table<Claim>
    var damageItems: Table<DamageItem>
    var photos: Table<Photo>
    var costBreakdowns: Table<CostLine>
    var auditLogs: Table<AuditEntry>

    function State(): StoreState
      reads this
    {
      StoreState(users, claims, damageItems, photos, costBreakdowns, auditLogs)
    }

    ghost predicate Valid()
      reads this
    {
      Consistent(State())
    }

    /** `new MemStorage()`: empty tables, then the sample data. */
    constructor (ids: seq<string>, now: int)
      requires |ids| == 14
      ensures Valid() && State() == SeedState(ids, now)
    {
      users, claims, damageItems := Empty(), Empty(), Empty();
      photos, costBreakdowns, auditLogs := Empty(), Empty(), Empty();
      new;
      assert State() == EmptyState();
      InitializeSampleData(ids, now);
    }

    /** Stores the sample claim and then, one `forEach` per array, its child records. */
    method InitializeSampleData(ids: seq<string>, now: int)
      requires Valid() && |ids| == 14
      modifies this
      ensures Valid()
      ensures State() == SeedOnto(old(State()), ids, SampleClaim(ids[0], now), SampleDamageItems(ids[0], ids[1..4]),
                                  SamplePhotos(ids[0], ids[4..7], now), SampleCostLines(ids[0], ids[7..11]),
                                  SampleAuditEntries(ids[0], ids[11..14], now))
    {
      var claimId := ids[0];
      SampleShape(ids, now);
      StoreRecords(ids, SampleClaim(claimId, now), SampleDamageItems(claimId, ids[1..4]),
                   SamplePhotos(claimId, ids[4..7], now), SampleCostLines(claimId, ids[7..11]),
                   SampleAuditEntries(claimId, ids[11..14], now));
    }

    method StoreRecords(ids: seq<string>, claim: Claim, items: seq<DamageItem>, photos': seq<Photo>,
                        lines: seq<CostLine>, entries: seq<AuditEntry>)
      requires Valid() && SeedShape(ids, claim, items, photos', lines, entries)
      modifies this
      ensures Valid()
      ensures State() == SeedOnto(old(State()), ids, claim, items, photos', lines, entries)
    {
      SetKeyedBy(claims, ClaimId, claim);
      claims := claims.Set(ids[0], claim);
      StoreDamageItems(ids[1..4], items);
      StorePhotos(ids[4..7], photos');
      StoreCostLines(ids[7..11], lines);
      StoreAuditEntries(ids[11..14], entries);
    }

    /** `sampleDamageItems.forEach(item => this.damageItems.set(item.id, item))`, and the same
        loop for each of the other three arrays below. */
    method StoreDamageItems(ks: seq<string>, vs: seq<DamageItem>)
      requires damageItems.KeyedBy(DamageItemId) && KeysOf(ks, vs, DamageItemId)
      modifies this
      ensures damageItems == SetAll(old(damageItems), ks, vs)
      ensures damageItems.KeyedBy(DamageItemId)
      ensures users == old(users) && claims == old(claims) && photos == old(photos)
      ensures costBreakdowns == old(costBreakdowns) && auditLogs == old(auditLogs)
    {
      SetAllKeyedBy(damageItems, ks, vs, DamageItemId);
      damageItems := SetEach(damageItems, ks, vs);
    }

    method StorePhotos(ks: seq<string>, vs: seq<Photo>)
      requires photos.KeyedBy(PhotoId) && KeysOf(ks, vs, PhotoId)
      modifies this
      ensures photos == SetAll(old(photos), ks, vs)
      ensures photos.KeyedBy(PhotoId)
      ensures users == old(users) && claims == old(claims) && damageItems == old(damageItems)
      ensures costBreakdowns == old(costBreakdowns) && auditLogs == old(auditLogs)
    {
      SetAllKeyedBy(photos, ks, vs, PhotoId);
      photos := SetEach(photos, ks, vs);
    }

    method StoreCostLines(ks: seq<string>, vs: seq<CostLine>)
      requires costBreakdowns.KeyedBy(CostLineId) && KeysOf(ks, vs, CostLineId)
      modifies this
      ensures costBreakdowns == SetAll(old(costBreakdowns), ks, vs)
      ensures costBreakdowns.KeyedBy(CostLineId)
      ensures users == old(users) && claims == old(claims) && damageItems == old(damageItems)
      ensures photos == old(photos) && auditLogs == old(auditLogs)
    {
      SetAllKeyedBy(costBreakdowns, ks, vs, CostLineId);
      costBreakdowns := SetEach(costBreakdowns, ks, vs);
    }

    method StoreAuditEntries(ks: seq<string>, vs: seq<AuditEntry>)
      requires auditLogs.KeyedBy(AuditEntryId) && KeysOf(ks, vs, AuditEntryId)
      modifies this
      ensures auditLogs == SetAll(old(auditLogs), ks, vs)
      ensures auditLogs.KeyedBy(AuditEntryId)
      ensures users == old(users) && claims == old(claims) && damageItems == old(damageItems)
      ensures photos == old(photos) && costBreakdowns == old(costBreakdowns)
    {
      SetAllKeyedBy(auditLogs, ks, vs, AuditEntryId);
      auditLogs := SetEach(auditLogs, ks, vs);
    }

    /** The operation the reset route calls. storage.ts does not define it; here it rebuilds the
        state of a freshly constructed store (sample data, no users). */
    method ResetToInitialData(ids: seq<string>, now: int)
      requires Valid() && |ids| == 14
      modifies this
      ensures Valid() && State() == SeedState(ids, now)
    {
      users, claims, damageItems := Empty(), Empty(), Empty();
      photos, costBreakdowns, auditLogs := Empty(), Empty(), Empty();
      assert State() == EmptyState();
      InitializeSampleData(ids, now);
    }

    function GetUser(id: string): (r: Option<User>)
      reads this
      requires Valid()
      ensures r.Some? <==> id in users.rows
      ensures r.Some? ==> r.value.id == id && r.value in users.Values()
    {
      ValuesAreRows(users);
      users.Get(id)
    }

    /** The first user, in insertion order, with this username. */
    function GetUserByUsername(username: string): (r: Option<User>)
      reads this
      requires Valid()
      ensures var vs := users.Values();
        && (r.None? <==> forall i :: 0 <= i < |vs| ==> vs[i].username != username)
        && (r.Some? ==> exists i :: 0 <= i < |vs| && vs[i] == r.value && r.value.username == username
                                    && forall j :: 0 <= j < i ==> vs[j].username != username)
    {
      Find(users.Values(), (u: User) => u.username == username)
    }

    method CreateUser(id: string, insertUser: InsertUser) returns (user: User)
      requires Valid() && id !in users.rows
      modifies this
      ensures Valid()
      ensures user == User(id, insertUser.username, insertUser.password)
      ensures State() == old(State()).(users := old(users).Set(id, user))
      ensures users.Values() == old(users.Values()) + [user]
    {
      user := User(id, insertUser.username, insertUser.password);
      ValuesSetAbsent(users, id, user);
      SetKeyedBy(users, UserId, user);
      users := users.Set(id, user);
    }

    function GetClaim(id: string): (r: Option<Claim>)
      reads this
      requires Valid()
      ensures r.Some? <==> id in claims.rows
      ensures r.Some? ==> r.value.id == id && r.value in claims.Values()
    {
      ValuesAreRows(claims);
      claims.Get(id)
    }

    /** The first claim, in insertion order, with this claim number. */
    function GetClaimByNumber(claimNumber: string): (r: Option<Claim>)
      reads this
      requires Valid()
      ensures var vs := claims.Values();
        && (r.None? <==> forall i :: 0 <= i < |vs| ==> vs[i].claimNumber != claimNumber)
        && (r.Some? ==> exists i :: 0 <= i < |vs| && vs[i] == r.value && r.value.claimNumber == claimNumber
                                    && forall j :: 0 <= j < i ==> vs[j].claimNumber != claimNumber)
    {
      Find(claims.Values(), (c: Claim) => c.claimNumber == claimNumber)
    }

    /** Every stored claim exactly once, in insertion order. */
    function GetAllClaims(): (r: seq<Claim>)
      reads this
      requires Valid()
      ensures |r| == |claims.rows|
      ensures NoDup(r)
      ensures forall c :: c in r <==> c in claims.rows.Values
      ensures |r| == |claims.keys| && forall i :: 0 <= i < |r| ==> r[i] == claims.rows[claims.keys[i]]
    {
      SizeIsKeyCount(claims);
      ValuesAreRows(claims);
      KeyedValuesNoDup(claims, ClaimId);
      claims.Values()
    }

    /** `{ ...insertClaim, id, submittedAt: new Date(), status: insertClaim.status || "pending" }`. */
    method CreateClaim(id: string, now: int, insertClaim: InsertClaim) returns (claim: Claim)
      requires Valid() && id !in claims.rows
      modifies this
      ensures Valid()
      ensures claim == Claim(id, insertClaim.claimNumber, insertClaim.policyholderName,
        insertClaim.vehicleInfo, insertClaim.vin, insertClaim.incidentDate,
        insertClaim.incidentDescription, OrDefault(insertClaim.status, "pending"),
        insertClaim.priority, Some(now), insertClaim.totalEstimate, insertClaim.agentNotes,
        insertClaim.assignedAgent, None, None, None)
      ensures State() == old(State()).(claims := old(claims).Set(id, claim))
      ensures claims.Values() == old(claims.Values()) + [claim]
    {
      claim := Claim(id, insertClaim.claimNumber, insertClaim.policyholderName,
        insertClaim.vehicleInfo, insertClaim.vin, insertClaim.incidentDate,
        insertClaim.incidentDescription, OrDefault(insertClaim.status, "pending"),
        insertClaim.priority, Some(now), insertClaim.totalEstimate, insertClaim.agentNotes,
        insertClaim.assignedAgent, None, None, None);
      ValuesSetAbsent(claims, id, claim);
      SetKeyedBy(claims, ClaimId, claim);
      claims := claims.Set(id, claim);
    }

    /** `{ ...claim, ...updates }` stored back under the same key, or `undefined` for an unknown id. */
    method UpdateClaim(id: string, updates: ClaimPatch) returns (r: Option<Claim>)
      requires Valid()
      modifies this
      ensures Valid()
      ensures id !in old(claims.rows) ==> r.None? && State() == old(State())
      ensures id in old(claims.rows) ==>
        && r == Some(Merge(old(claims.rows[id]), updates))
        && State() == old(State()).(claims := old(claims).Set(id, r.value))
      ensures claims.keys == old(claims.keys)
      ensures |claims.Values()| == |old(claims.Values())|
      ensures forall i :: 0 <= i < |claims.keys| ==>
        claims.Values()[i] == if claims.keys[i] == id then r.value else old(claims.Values())[i]
    {
      var claim := claims.Get(id);
      if claim.None? {
        return None;
      }
      var updated := Merge(claim.value, updates);
      var i :| 0 <= i < |claims.keys| && claims.keys[i] == id;
      ValuesSetPresent(claims, i, updated);
      SetKeyedBy(claims, ClaimId, updated);
      claims := claims.Set(id, updated);
      r := Some(updated);
    }

    /** The claim's damage items, in insertion order. */
    function GetDamageItemsByClaim(claimId: string): (r: seq<DamageItem>)
      reads this
      requires Valid()
      ensures NoDup(r)
      ensures forall d :: d in r <==> d in damageItems.rows.Values && d.claimId == claimId
      ensures InOrderOf(r, damageItems.Values())
    {
      ValuesAreRows(damageItems);
      KeyedValuesNoDup(damageItems, DamageItemId);
      FilterNoDup(damageItems.Values(), DamageItemOf(claimId));
      FilterInOrder(damageItems.Values(), DamageItemOf(claimId));
      Filter(damageItems.Values(), DamageItemOf(claimId))
    }

    /** `{ ...insertDamageItem, id, area: area || null, depth: depth || null, repairType: repairType || null }` */
    method CreateDamageItem(id: string, insertDamageItem: InsertDamageItem) returns (item: DamageItem)
      requires Valid() && id !in damageItems.rows
      modifies this
      ensures Valid()
      ensures item == DamageItem(id, insertDamageItem.claimId, insertDamageItem.kind,
        insertDamageItem.severity, insertDamageItem.location, insertDamageItem.description,
        OrNull(insertDamageItem.area), OrNull(insertDamageItem.depth), OrNull(insertDamageItem.repairType),
        insertDamageItem.confidence, insertDamageItem.coordinates)
      ensures State() == old(State()).(damageItems := old(damageItems).Set(id, item))
      ensures damageItems.Values() == old(damageItems.Values()) + [item]
      ensures forall c :: (GetDamageItemsByClaim(c) ==
        old(GetDamageItemsByClaim(c)) + if c == item.claimId then [item] else [])
    {
      item := DamageItem(id, insertDamageItem.claimId, insertDamageItem.kind,
        insertDamageItem.severity, insertDamageItem.location, insertDamageItem.description,
        OrNull(insertDamageItem.area), OrNull(insertDamageItem.depth), OrNull(insertDamageItem.repairType),
        insertDamageItem.confidence, insertDamageItem.coordinates);
      ValuesSetAbsent(damageItems, id, item);
      SetKeyedBy(damageItems, DamageItemId, item);
      ghost var before := damageItems.Values();
      damageItems := damageItems.Set(id, item);
      forall c ensures Filter(before + [item], DamageItemOf(c)) ==
        Filter(before, DamageItemOf(c)) + if c == item.claimId then [item] else [] {
        FilterConcat(before, [item], DamageItemOf(c));
      }
    }

    /** The claim's photos, in insertion order. */
    function GetPhotosByClaim(claimId: string): (r: seq<Photo>)
      reads this
      requires Valid()
      ensures NoDup(r)
      ensures forall p :: p in r <==> p in photos.rows.Values && p.claimId == claimId
      ensures InOrderOf(r, photos.Values())
    {
      ValuesAreRows(photos);
      KeyedValuesNoDup(photos, PhotoId);
      FilterNoDup(photos.Values(), PhotoOf(claimId));
      FilterInOrder(photos.Values(), PhotoOf(claimId));
      Filter(photos.Values(), PhotoOf(claimId))
    }

    /** `{ ...insertPhoto, id, uploadedAt: new Date(), thumbnailUrl: thumbnailUrl || null, isPrimary: isPrimary || false }` */
    method CreatePhoto(id: string, now: int, insertPhoto: InsertPhoto) returns (photo: Photo)
      requires Valid() && id !in photos.rows
      modifies this
      ensures Valid()
      ensures photo == Photo(id, insertPhoto.claimId, insertPhoto.category, insertPhoto.url,
        OrNull(insertPhoto.thumbnailUrl), insertPhoto.isPrimary == Some(true), Some(now))
      ensures State() == old(State()).(photos := old(photos).Set(id, photo))
      ensures photos.Values() == old(photos.Values()) + [photo]
      ensures forall c :: (GetPhotosByClaim(c) ==
        old(GetPhotosByClaim(c)) + if c == photo.claimId then [photo] else [])
    {
      photo := Photo(id, insertPhoto.claimId, insertPhoto.category, insertPhoto.url,
        OrNull(insertPhoto.thumbnailUrl), insertPhoto.isPrimary == Some(true), Some(now));
      ValuesSetAbsent(photos, id, photo);
      SetKeyedBy(photos, PhotoId, photo);
      ghost var before := photos.Values();
      photos := photos.Set(id, photo);
      forall c ensures Filter(before + [photo], PhotoOf(c)) ==
        Filter(before, PhotoOf(c)) + if c == photo.claimId then [photo] else [] {
        FilterConcat(before, [photo], PhotoOf(c));
      }
    }

    /** The claim's cost lines, in insertion order. */
    function GetCostBreakdownByClaim(claimId: string): (r: seq<CostLine>)
      reads this
      requires Valid()
      ensures NoDup(r)
      ensures forall l :: l in r <==> l in costBreakdowns.rows.Values && l.claimId == claimId
      ensures InOrderOf(r, costBreakdowns.Values())
    {
      ValuesAreRows(costBreakdowns);
      KeyedValuesNoDup(costBreakdowns, CostLineId);
      FilterNoDup(costBreakdowns.Values(), CostLineOf(claimId));
      FilterInOrder(costBreakdowns.Values(), CostLineOf(claimId));
      Filter(costBreakdowns.Values(), CostLineOf(claimId))
    }

    /** `{ ...insertCostBreakdown, id, hours: hours || null, rate: rate || null }`; a decimal
        that is present is a non-empty string and so is kept as it is. */
    method CreateCostBreakdown(id: string, insertLine: InsertCostLine) returns (line: CostLine)
      requires Valid() && id !in costBreakdowns.rows
      modifies this
      ensures Valid()
      ensures line == CostLine(id, insertLine.claimId, insertLine.category, insertLine.description,
        insertLine.amount, insertLine.hours, insertLine.rate)
      ensures State() == old(State()).(costBreakdowns := old(costBreakdowns).Set(id, line))
      ensures costBreakdowns.Values() == old(costBreakdowns.Values()) + [line]
      ensures forall c :: (GetCostBreakdownByClaim(c) ==
        old(GetCostBreakdownByClaim(c)) + if c == line.claimId then [line] else [])
    {
      line := CostLine(id, insertLine.claimId, insertLine.category, insertLine.description,
        insertLine.amount, insertLine.hours, insertLine.rate);
      ValuesSetAbsent(costBreakdowns, id, line);
      SetKeyedBy(costBreakdowns, CostLineId, line);
      ghost var before := costBreakdowns.Values();
      costBreakdowns := costBreakdowns.Set(id, line);
      forall c ensures Filter(before + [line], CostLineOf(c)) ==
        Filter(before, CostLineOf(c)) + if c == line.claimId then [line] else [] {
        FilterConcat(before, [line], CostLineOf(c));
      }
    }

    /** The claim's audit entries, newest first; entries with equal timestamps keep their
        insertion order, and a missing timestamp sorts as 0. */
    function GetAuditLogByClaim(claimId: string): (r: seq<AuditEntry>)
      reads this
      requires Valid()
      ensures multiset(r) == multiset(Filter(auditLogs.Values(), AuditEntryOf(claimId)))
      ensures forall e :: e in r <==> e in auditLogs.rows.Values && e.claimId == claimId
      ensures NewestFirstOrder(r)
      ensures forall t :: Filter(r, AtTime(t)) == Filter(Filter(auditLogs.Values(), AuditEntryOf(claimId)), AtTime(t))
    {
      ValuesAreRows(auditLogs);
      var mine := Filter(auditLogs.Values(), AuditEntryOf(claimId));
      NewestFirstKeepsTies(mine);
      SameMembers(NewestFirst(mine), mine);
      NewestFirst(mine)
    }

    /** `{ ...insertAuditLog, id, timestamp: new Date(), metadata: metadata || {}, performedBy: performedBy || null }` */
    method CreateAuditLog(id: string, now: int, insertEntry: InsertAuditEntry) returns (entry: AuditEntry)
      requires Valid() && id !in auditLogs.rows
      modifies this
      ensures Valid()
      ensures entry == AuditEntry(id, insertEntry.claimId, insertEntry.action, insertEntry.description,
        OrNull(insertEntry.performedBy), Some(now), insertEntry.metadata.GetOr(NoDetails))
      ensures State() == old(State()).(auditLogs := old(auditLogs).Set(id, entry))
      ensures auditLogs.keys == old(auditLogs.keys) + [id]
      ensures auditLogs.Values() == old(auditLogs.Values()) + [entry]
    {
      entry := AuditEntry(id, insertEntry.claimId, insertEntry.action, insertEntry.description,
        OrNull(insertEntry.performedBy), Some(now), insertEntry.metadata.GetOr(NoDetails));
      ValuesSetAbsent(auditLogs, id, entry);
      SetKeyedBy(auditLogs, AuditEntryId, entry);
      auditLogs := auditLogs.Set(id, entry);
    }
  }
}
