/** Versioned key rotation. */
module KeyRotation {
  import opened Prelude
  import Model

  type Address = Model.Address

  newtype byte = b: int | 0 <= b < 256

  datatype Purpose = WebhookSigning | ApiKeyHash | ZkpVerification | PiiEncryption

  datatype KeyStatus = Active | Archived | Revoked

  datatype KeyRecord = KeyRecord(
    purpose: Purpose, version: nat, hash: seq<byte>, installedBy: Address,
    installedAt: nat, archivedAt: nat, status: KeyStatus)

  datatype KeyError =
    | NoActiveKey | VersionNotFound | Unauthorized | CannotPurgeActive | ZeroKeyHash | AlreadyExists | Overflow

  datatype Slot = Slot(purpose: Purpose, version: nat)

  datatype Keys = Keys(active: map<Purpose, nat>, records: map<Slot, KeyRecord>)

  type Outcome<+T> = Result<T, KeyError>

  predicate ZeroHash(hash: seq<byte>) { forall i :: 0 <= i < |hash| ==> hash[i] == 0 }

  function Fresh(p: Purpose, v: nat, hash: seq<byte>, admin: Address, now: nat): KeyRecord {
    KeyRecord(p, v, hash, admin, now, 0, Active)
  }

  function Install(k: Keys, admins: seq<Address>, now: nat, admin: Address, p: Purpose,
                   hash: seq<byte>): Outcome<(Keys, nat)> {
    if admin !in admins then Err(Unauthorized)
    else
      :- Need(!ZeroHash(hash), ZeroKeyHash);
      :- Need(p !in k.active, AlreadyExists);
      Ok((Keys(k.active[p := 1], k.records[Slot(p, 1) := Fresh(p, 1, hash, admin, now)]), 1))
  }

  /** The old record is archived whatever its status was. */
  function Rotate(k: Keys, admins: seq<Address>, now: nat, admin: Address, p: Purpose,
                  hash: seq<byte>): Outcome<(Keys, nat)> {
    if admin !in admins then Err(Unauthorized)
    else
      :- Need(!ZeroHash(hash), ZeroKeyHash);
      var v :- Find(k.active, p, NoActiveKey);
      var r :- Find(k.records, Slot(p, v), VersionNotFound);
      :- Need(v < U32_MAX, Overflow);
      var next: nat := v + 1;
      Ok((Keys(k.active[p := next],
               k.records[Slot(p, v) := r.(status := Archived, archivedAt := now)]
                        [Slot(p, next) := Fresh(p, next, hash, admin, now)]),
          next))
  }

  function Revoke(k: Keys, admins: seq<Address>, now: nat, admin: Address, p: Purpose, v: nat): Outcome<Keys> {
    if admin !in admins then Err(Unauthorized)
    else
      var r :- Find(k.records, Slot(p, v), VersionNotFound);
      Ok(k.(records := k.records[Slot(p, v) := r.(status := Revoked, archivedAt := now)]))
  }

  function Purge(k: Keys, admins: seq<Address>, admin: Address, p: Purpose, v: nat): Outcome<Keys> {
    if admin !in admins then Err(Unauthorized)
    else
      :- Need(!(p in k.active && k.active[p] == v), CannotPurgeActive);
      :- Need(Slot(p, v) in k.records, VersionNotFound);
      Ok(k.(records := k.records - {Slot(p, v)}))
  }

  function GetVersion(k: Keys, p: Purpose, v: nat): Outcome<KeyRecord> {
    Find(k.records, Slot(p, v), VersionNotFound)
  }

  function GetActive(k: Keys, p: Purpose): Outcome<KeyRecord> {
    var v :- Find(k.active, p, NoActiveKey);
    GetVersion(k, p, v)
  }

  // ---------- the store the functions above write to ----------

  class KeyStore {
    var active: map<Purpose, nat>            // KeyStorage::Active
    var records: map<Slot, KeyRecord>        // KeyStorage::Key

    ghost function Contents(): Keys
      reads this
    {
      Keys(active, records)
    }

    constructor ()
      ensures Contents() == Keys(map[], map[])
    {
      active, records := map[], map[];
    }

    method InstallKey(admins: seq<Address>, now: nat, admin: Address, p: Purpose, hash: seq<byte>)
      returns (r: Outcome<nat>)
      modifies this
      ensures match Install(old(Contents()), admins, now, admin, p, hash)
              case Ok(done) => r == Ok(done.1) && Contents() == done.0
              case Err(e) => r == Err(e) && Contents() == old(Contents())
    {
      if admin !in admins { return Err(Unauthorized); }
      if ZeroHash(hash) { return Err(ZeroKeyHash); }
      if p in active { return Err(AlreadyExists); }
      records := records[Slot(p, 1) := Fresh(p, 1, hash, admin, now)];
      active := active[p := 1];
      return Ok(1);
    }

    method RotateKey(admins: seq<Address>, now: nat, admin: Address, p: Purpose, hash: seq<byte>)
      returns (r: Outcome<nat>)
      modifies this
      ensures match Rotate(old(Contents()), admins, now, admin, p, hash)
              case Ok(done) => r == Ok(done.1) && Contents() == done.0
              case Err(e) => r == Err(e) && Contents() == old(Contents())
    {
      if admin !in admins { return Err(Unauthorized); }
      if ZeroHash(hash) { return Err(ZeroKeyHash); }
      if p !in active { return Err(NoActiveKey); }
      var version := active[p];
      if Slot(p, version) !in records { return Err(VersionNotFound); }
      if version >= U32_MAX { return Err(Overflow); }
      records := records[Slot(p, version) := records[Slot(p, version)].(status := Archived, archivedAt := now)];
      version := version + 1;
      records := records[Slot(p, version) := Fresh(p, version, hash, admin, now)];
      active := active[p := version];
      return Ok(version);
    }

    method RevokeKeyVersion(admins: seq<Address>, now: nat, admin: Address, p: Purpose, v: nat) returns (r: Outcome<()>)
      modifies this
      ensures match Revoke(old(Contents()), admins, now, admin, p, v)
              case Ok(done) => r == Ok(()) && Contents() == done
              case Err(e) => r == Err(e) && Contents() == old(Contents())
    {
      if admin !in admins { return Err(Unauthorized); }
      if Slot(p, v) !in records { return Err(VersionNotFound); }
      records := records[Slot(p, v) := records[Slot(p, v)].(status := Revoked, archivedAt := now)];
      return Ok(());
    }

    method PurgeKeyVersion(admins: seq<Address>, admin: Address, p: Purpose, v: nat) returns (r: Outcome<()>)
      modifies this
      ensures match Purge(old(Contents()), admins, admin, p, v)
              case Ok(done) => r == Ok(()) && Contents() == done
              case Err(e) => r == Err(e) && Contents() == old(Contents())
    {
      if admin !in admins { return Err(Unauthorized); }
      if p in active && active[p] == v { return Err(CannotPurgeActive); }
      if Slot(p, v) !in records { return Err(VersionNotFound); }
      records := records - {Slot(p, v)};
      return Ok(());
    }
  }

  // ---------- every call ----------

  /** A call, with the administrator list and the clock it met. */
  datatype KeyCall =
    | Installing(admins: seq<Address>, now: nat, admin: Address, p: Purpose, hash: seq<byte>)
    | Rotating(admins: seq<Address>, now: nat, admin: Address, p: Purpose, hash: seq<byte>)
    | Revoking(admins: seq<Address>, now: nat, admin: Address, p: Purpose, v: nat)
    | Purging(admins: seq<Address>, admin: Address, p: Purpose, v: nat)

  function KeyStep(k: Keys, c: KeyCall): Keys {
    match c
    case Installing(list, now, a, p, hash) =>
      (match Install(k, list, now, a, p, hash) case Ok(r) => r.0 case Err(_) => k)
    case Rotating(list, now, a, p, hash) => (match Rotate(k, list, now, a, p, hash) case Ok(r) => r.0 case Err(_) => k)
    case Revoking(list, now, a, p, v) => (match Revoke(k, list, now, a, p, v) case Ok(r) => r case Err(_) => k)
    case Purging(list, a, p, v) => (match Purge(k, list, a, p, v) case Ok(r) => r case Err(_) => k)
  }

  function KeyRun(k: Keys, calls: seq<KeyCall>): Keys {
    if calls == [] then k else KeyStep(KeyRun(k, calls[..|calls| - 1]), calls[|calls| - 1])
  }

  /** The slot points at a stored record; stored versions are 1..=active and carry their own key and a real hash;
      only the slot's version can be `Active`, and the slot's version is never `Archived`. */
  ghost predicate KeyInv(k: Keys) {
    && (forall p :: p in k.active ==> Slot(p, k.active[p]) in k.records)
    && (forall s :: s in k.records ==> s.purpose in k.active && GoodRecord(k, s))
  }

  ghost predicate GoodRecord(k: Keys, s: Slot)
    requires s in k.records && s.purpose in k.active
  {
    var r := k.records[s];
    && 1 <= s.version <= k.active[s.purpose]
    && r.purpose == s.purpose && r.version == s.version && !ZeroHash(r.hash)
    && (r.status == Active ==> s.version == k.active[s.purpose])
    && (s.version == k.active[s.purpose] ==> r.status != Archived)
  }

  lemma StepKeepsKeys(k: Keys, c: KeyCall)
    requires KeyInv(k)
    ensures KeyInv(KeyStep(k, c))
  {
    match c
    case Rotating(list, now, a, p, hash) =>
      if Rotate(k, list, now, a, p, hash).Ok? { RotateKeepsKeys(k, list, now, a, p, hash); }
    case _ =>
  }

  lemma RotateKeepsKeys(k: Keys, admins: seq<Address>, now: nat, admin: Address, p: Purpose, hash: seq<byte>)
    requires KeyInv(k) && Rotate(k, admins, now, admin, p, hash).Ok?
    ensures KeyInv(Rotate(k, admins, now, admin, p, hash).value.0)
  {}

  /** In every reachable state the key store is sound. */
  lemma {:induction false} RunKeepsKeys(calls: seq<KeyCall>)
    ensures KeyInv(KeyRun(Keys(map[], map[]), calls))
  {
    if calls != [] {
      RunKeepsKeys(calls[..|calls| - 1]);
      StepKeepsKeys(KeyRun(Keys(map[], map[]), calls[..|calls| - 1]), calls[|calls| - 1]);
    }
  }

  /** What one call may do to one version that was issued before it. */
  ghost predicate Ages(k: Keys, k': Keys, s: Slot) {
    && (s.purpose in k.active ==> s.purpose in k'.active && k.active[s.purpose] <= k'.active[s.purpose])
    && (s.purpose in k.active && s.version <= k.active[s.purpose] && s in k'.records ==>
          && s in k.records
          && k'.records[s].hash == k.records[s].hash
          && (k.records[s].status != Active ==> k'.records[s].status != Active)
          && (k.records[s].status == Revoked && s.version < k.active[s.purpose] ==> k'.records[s].status == Revoked))
  }

  lemma StepAges(k: Keys, c: KeyCall, s: Slot)
    requires KeyInv(k)
    ensures Ages(k, KeyStep(k, c), s)
  {
    match c
    case Rotating(list, now, a, p, hash) =>
      if Rotate(k, list, now, a, p, hash).Ok? { RotateAges(k, list, now, a, p, hash, s); }
    case _ =>
  }

  lemma RotateAges(k: Keys, admins: seq<Address>, now: nat, admin: Address, p: Purpose, hash: seq<byte>, s: Slot)
    requires KeyInv(k) && Rotate(k, admins, now, admin, p, hash).Ok?
    ensures Ages(k, Rotate(k, admins, now, admin, p, hash).value.0, s)
  {}

  /** Along every run: an issued version never gets another hash, never comes back once purged, is never active
      again once it stopped being so, and a superseded revoked version stays revoked until it is purged. */
  lemma {:induction false} RunAges(k: Keys, calls: seq<KeyCall>, s: Slot)
    requires KeyInv(k)
    ensures KeyInv(KeyRun(k, calls)) && Ages(k, KeyRun(k, calls), s)
  {
    if calls != [] {
      var before := KeyRun(k, calls[..|calls| - 1]);
      RunAges(k, calls[..|calls| - 1], s);
      StepKeepsKeys(before, calls[|calls| - 1]);
      StepAges(before, calls[|calls| - 1], s);
    }
  }

  /** The active lookup returns a key that is not active if and only if the slot's own version was revoked. */
  lemma ActiveLookup(k: Keys, p: Purpose)
    requires KeyInv(k)
    ensures GetActive(k, p).Ok? <==> p in k.active
    ensures p in k.active ==>
      && GetActive(k, p).value.version == k.active[p]
      && (GetActive(k, p).value.status != Active <==> k.records[Slot(p, k.active[p])].status == Revoked)
  {}

  /** A revocation is lost exactly when the slot's own version was revoked and is then rotated away. */
  lemma RevocationLostIff(k: Keys, c: KeyCall, s: Slot)
    requires KeyInv(k) && s in k.records && k.records[s].status == Revoked
    ensures var k' := KeyStep(k, c);
      (s in k'.records && k'.records[s].status != Revoked)
      <==> && c.Rotating? && c.p == s.purpose && s.version == k.active[s.purpose]
           && Rotate(k, c.admins, c.now, c.admin, c.p, c.hash).Ok?
  {}

  /** Two calls show it: revoke the active version, then rotate; the compromised key reads as merely archived. */
  lemma RevocationCanBeLost(a: Address, h: seq<byte>, h': seq<byte>)
    requires !ZeroHash(h) && !ZeroHash(h')
    ensures var k := KeyRun(Keys(map[], map[]), [Installing([a], 0, a, ApiKeyHash, h),
                                                 Revoking([a], 1, a, ApiKeyHash, 1),
                                                 Rotating([a], 2, a, ApiKeyHash, h')]);
      GetVersion(k, ApiKeyHash, 1) == Ok(KeyRecord(ApiKeyHash, 1, h, a, 0, 2, Archived))
  {
    var calls := [Installing([a], 0, a, ApiKeyHash, h), Revoking([a], 1, a, ApiKeyHash, 1),
                  Rotating([a], 2, a, ApiKeyHash, h')];
    var k0 := Keys(map[], map[]);
    assert calls[..2][..1] == calls[..1] && calls[..1][..0] == [];
    assert KeyRun(k0, calls[..1]) == KeyStep(k0, calls[0]);
    assert KeyRun(k0, calls[..2]) == KeyStep(KeyStep(k0, calls[0]), calls[1]);
  }

  // ---------- every call, said once more ----------

  ghost predicate KeyAdmits(k: Keys, c: KeyCall) {
    match c
    case Installing(list, _, a, p, hash) => a in list && (exists b :: b in hash && b != 0) && p !in k.active
    case Rotating(list, _, a, p, hash) =>
      && a in list && (exists b :: b in hash && b != 0) && p in k.active
      && Slot(p, k.active[p]) in k.records && k.active[p] < 0xFFFF_FFFF
    case Revoking(list, _, a, p, v) => a in list && Slot(p, v) in k.records
    case Purging(list, a, p, v) => a in list && !(p in k.active && k.active[p] == v) && Slot(p, v) in k.records
  }

  /** Slots of other purposes, and records other than these, are as they were. */
  ghost predicate KeysKept(k: Keys, k': Keys, p: Purpose, slots: set<Slot>) {
    && (forall q :: q != p ==> (q in k'.active <==> q in k.active))
    && (forall q :: q != p && q in k.active ==> k'.active[q] == k.active[q])
    && (forall s :: s !in slots ==> (s in k'.records <==> s in k.records))
    && (forall s :: s !in slots && s in k.records ==> k'.records[s] == k.records[s])
  }

  /** The slot points at version `v`, an active key with this hash, installed just now by this administrator. */
  ghost predicate NewKey(k: Keys, p: Purpose, v: nat, hash: seq<byte>, admin: Address, now: nat) {
    && p in k.active && k.active[p] == v && Slot(p, v) in k.records
    && var r := k.records[Slot(p, v)];
    && r.purpose == p && r.version == v && r.hash == hash && r.status == Active
    && r.installedBy == admin && r.installedAt == now && r.archivedAt == 0
  }

  /** Key, hash and origin of a record stay; status and time of its end are these. */
  ghost predicate Ended(k: Keys, k': Keys, s: Slot, status: KeyStatus, now: nat) {
    && s in k.records && s in k'.records
    && k'.records[s] == k.records[s].(status := status, archivedAt := now)
  }

  ghost predicate KeyLeaves(k: Keys, c: KeyCall, k': Keys) {
    match c
    case Installing(_, now, a, p, hash) => NewKey(k', p, 1, hash, a, now) && KeysKept(k, k', p, {Slot(p, 1)})
    case Rotating(_, now, a, p, hash) =>
      && p in k.active
      && var v := k.active[p];
      && NewKey(k', p, v + 1, hash, a, now) && Ended(k, k', Slot(p, v), Archived, now)
      && KeysKept(k, k', p, {Slot(p, v), Slot(p, v + 1)})
    case Revoking(_, now, a, p, v) =>
      k'.active == k.active && Ended(k, k', Slot(p, v), Revoked, now) && KeysKept(k, k', p, {Slot(p, v)})
    case Purging(_, a, p, v) =>
      k'.active == k.active && Slot(p, v) !in k'.records && KeysKept(k, k', p, {Slot(p, v)})
  }

  /** Every call goes through exactly when it is admitted, and then leaves exactly this. */
  lemma StepIs(k: Keys, c: KeyCall)
    ensures if KeyAdmits(k, c) then KeyLeaves(k, c, KeyStep(k, c)) else KeyStep(k, c) == k
  {
    if c.Installing? || c.Rotating? { ZeroHashIs(c.hash); }
  }

  lemma ZeroHashIs(hash: seq<byte>)
    ensures ZeroHash(hash) <==> !exists b :: b in hash && b != 0
  {
    if b :| b in hash && b != 0 {
      var i :| 0 <= i < |hash| && hash[i] == b;
    }
    if i :| 0 <= i < |hash| && hash[i] != 0 { assert hash[i] in hash; }
  }

  /** After an accepted rotation the lookup returns the key given, active, under the next version; the one before keeps
      its hash and is archived. */
  lemma RotationInstalls(k: Keys, admins: seq<Address>, now: nat, a: Address, p: Purpose, hash: seq<byte>)
    requires KeyInv(k) && Rotate(k, admins, now, a, p, hash).Ok?
    ensures var k' := Rotate(k, admins, now, a, p, hash).value.0;
      && p in k.active
      && GetActive(k', p) == Ok(KeyRecord(p, k.active[p] + 1, hash, a, now, 0, Active))
      && GetVersion(k', p, k.active[p]).Ok?
      && GetVersion(k', p, k.active[p]).value.hash == GetActive(k, p).value.hash
      && GetVersion(k', p, k.active[p]).value.status == Archived
      && Rotate(k, admins, now, a, p, hash).value.1 == k.active[p] + 1
  {}

  /** The hash the latest accepted installation or rotation of a run gave for a purpose. */
  ghost function Latest(calls: seq<KeyCall>, p: Purpose): Option<seq<byte>> {
    if calls == [] then None
    else
      var init, c := calls[..|calls| - 1], calls[|calls| - 1];
      if (c.Installing? || c.Rotating?) && c.p == p && KeyAdmits(KeyRun(Keys(map[], map[]), init), c) then Some(c.hash)
      else Latest(init, p)
  }

  /** Along every run the active lookup answers with the key given last, and with none if none was. */
  lemma {:induction false} ActiveIsLatest(calls: seq<KeyCall>, p: Purpose)
    ensures var r := GetActive(KeyRun(Keys(map[], map[]), calls), p);
      if Latest(calls, p) == None then r == Err(NoActiveKey) else r.Ok? && r.value.hash == Latest(calls, p).value
  {
    if calls != [] {
      var init, c := calls[..|calls| - 1], calls[|calls| - 1];
      ActiveIsLatest(init, p);
      RunKeepsKeys(init);
      StepActive(KeyRun(Keys(map[], map[]), init), c, p);
    }
  }

  /** What a call may leave for the lookup of one purpose. */
  ghost predicate Answers(k: Keys, c: KeyCall, k': Keys, p: Purpose) {
    var r, r' := GetActive(k, p), GetActive(k', p);
    if (c.Installing? || c.Rotating?) && c.p == p && KeyAdmits(k, c) then r'.Ok? && r'.value.hash == c.hash
    else if r.Ok? then r'.Ok? && r'.value.hash == r.value.hash
    else r == r' == Err(NoActiveKey)
  }

  lemma OtherPurposeKeeps(k: Keys, k': Keys, q: Purpose, slots: set<Slot>, p: Purpose)
    requires p != q && KeysKept(k, k', q, slots) && forall s :: s in slots ==> s.purpose == q
    ensures GetActive(k', p) == GetActive(k, p)
  {
    if p in k.active { assert Slot(p, k.active[p]) !in slots; }
  }

  lemma SamePurposeAnswers(k: Keys, c: KeyCall, k': Keys, p: Purpose)
    requires KeyInv(k) && KeyAdmits(k, c) && KeyLeaves(k, c, k') && c.p == p
    ensures Answers(k, c, k', p)
  {
    match c
    case Installing(_, _, _, _, _) =>
    case Rotating(_, _, _, _, _) =>
    case Revoking(_, _, _, _, v) => assert Ended(k, k', Slot(p, v), Revoked, c.now);
    case Purging(_, _, _, v) => if p in k.active { assert Slot(p, k.active[p]) != Slot(p, v); }
  }

  lemma LeavesActive(k: Keys, c: KeyCall, k': Keys, p: Purpose)
    requires KeyInv(k) && KeyAdmits(k, c) && KeyLeaves(k, c, k')
    ensures Answers(k, c, k', p)
  {
    if c.p == p {
      SamePurposeAnswers(k, c, k', p);
    } else {
      match c
      case Installing(_, _, _, q, _) => OtherPurposeKeeps(k, k', q, {Slot(q, 1)}, p);
      case Rotating(_, _, _, q, _) => OtherPurposeKeeps(k, k', q, {Slot(q, k.active[q]), Slot(q, k.active[q] + 1)}, p);
      case Revoking(_, _, _, q, v) => OtherPurposeKeeps(k, k', q, {Slot(q, v)}, p);
      case Purging(_, _, q, v) => OtherPurposeKeeps(k, k', q, {Slot(q, v)}, p);
    }
  }

  lemma StepActive(k: Keys, c: KeyCall, p: Purpose)
    requires KeyInv(k)
    ensures Answers(k, c, KeyStep(k, c), p)
  {
    StepIs(k, c);
    if KeyAdmits(k, c) { LeavesActive(k, c, KeyStep(k, c), p); }
  }

  /** An error a refused call answers names a check that failed. */
  lemma RefusalsAre(k: Keys, admins: seq<Address>, now: nat, a: Address, p: Purpose, v: nat, hash: seq<byte>)
    ensures var r := Install(k, admins, now, a, p, hash);
      r.Err? ==> || (r.error == Unauthorized && a !in admins) || (r.error == ZeroKeyHash && ZeroHash(hash))
                 || (r.error == AlreadyExists && p in k.active)
    ensures var r := Rotate(k, admins, now, a, p, hash);
      r.Err? ==> || (r.error == Unauthorized && a !in admins) || (r.error == ZeroKeyHash && ZeroHash(hash))
                 || (r.error == NoActiveKey && p !in k.active)
                 || (r.error == VersionNotFound && p in k.active && Slot(p, k.active[p]) !in k.records)
                 || (r.error == Overflow && p in k.active && k.active[p] >= 0xFFFF_FFFF)
    ensures var r := Revoke(k, admins, now, a, p, v);
      r.Err? ==> (r.error == Unauthorized && a !in admins) || (r.error == VersionNotFound && Slot(p, v) !in k.records)
    ensures var r := Purge(k, admins, a, p, v);
      r.Err? ==> || (r.error == Unauthorized && a !in admins)
                 || (r.error == CannotPurgeActive && p in k.active && k.active[p] == v)
                 || (r.error == VersionNotFound && Slot(p, v) !in k.records)
    ensures GetVersion(k, p, v) == if Slot(p, v) in k.records then Ok(k.records[Slot(p, v)]) else Err(VersionNotFound)
  {}
}
