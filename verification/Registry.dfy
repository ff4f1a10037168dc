/** The API's operations as functions on the whole registry: the tables, the account cache and Redis.

    Each operation is one handler run to its end, with early returns.  `answered` parameters say how
    many Redis commands of a call the server answers before the connection fails; a failed call is
    logged and ignored, so the handler goes on. */
module Registry {
  import opened Wrappers
  import opened Schema
  import opened Keyspace
  import opened Commands
  import opened Cache

  datatype Sys = Sys(db: Db, cache: map<string, Id>, kv: map<Key, Value>)

  datatype Response = Created(id: Id) | Done | BadRequest | Missing | Conflict | ServerError

  function OnInsertError(e: DbError): Response {
    if e == Duplicate then Conflict else ServerError
  }

  datatype MasterRequest = MasterRequest(account: string, password: string, server: string)

  datatype FollowerRequest = FollowerRequest(account: string, password: string, server: string, multiplier: real)

  predicate MasterRequestOk(q: MasterRequest) {
    4 <= |q.account| <= 50 && 8 <= |q.password| && 0 < |q.server| <= 100
  }

  predicate FollowerRequestOk(q: FollowerRequest) {
    4 <= |q.account| <= 50 && 8 <= |q.password| && 0.01 <= q.multiplier <= 100.0
  }

  /** `id` is the generated ID, `hash` the password hash or its failure. */
  function CreateMaster(s: Sys, q: MasterRequest, id: Id, hash: Option<string>, answered: nat): (Sys, Response) {
    if !MasterRequestOk(q) then (s, BadRequest)
    else if hash.None? then (s, ServerError)
    else
      var m := Master(id, q.account, hash.value, q.server, false);
      match InsertMaster(s.db, m)
      case Failure(e) => (s, OnInsertError(e))
      case Success(db) =>
        (Sys(db, s.cache[m.account := m.id], Run(s.kv, RegisterMasterCmds(m), answered).data), Created(m.id))
  }

  function RegisterFollower(s: Sys, masterId: Id, q: FollowerRequest, id: Id, hash: Option<string>, answered: nat): (Sys, Response) {
    if !LiveMaster(s.db, masterId) then (s, Missing)
    else if !FollowerRequestOk(q) then (s, BadRequest)
    else if hash.None? then (s, ServerError)
    else
      var f := Follower(id, masterId, q.account, hash.value, q.server, Inactive, q.multiplier, false);
      match InsertFollower(s.db, f)
      case Failure(e) => (s, OnInsertError(e))
      case Success(db) =>
        (Sys(db, s.cache, Run(s.kv, RegisterCmds(masterId, id, FollowerRecord(masterId, f)), answered).data), Created(id))
  }

  /** StartFollowing and StopFollowing. */
  function SetFollowing(s: Sys, id: Id, status: Status, sub: nat, fast: nat): (Sys, Response) {
    match SelectFollower(s.db, id)
    case None => (s, Missing)
    case Some(f) =>
      match UpdateStatus(s.db, id, status)
      case Failure(_) => (s, Missing)
      case Success(db) =>
        var cs := SubscriptionCmds(f.masterId, f.account, status);
        (Sys(db, s.cache, Restatus(Run(s.kv, cs, sub).data, id, status, fast).data), Done)
  }

  function DeleteMaster(s: Sys, id: Id, sub: nat): (Sys, Response) {
    match SelectMaster(s.db, id)
    case None => (s, Missing)
    case Some(m) =>
      (Sys(SoftDeleteMaster(s.db, id), s.cache - {m.account}, Run(s.kv, ClearCmds(id), sub).data), Done)
  }

  /** The subscription is dropped only when the row that was read was active. */
  function DeleteFollower(s: Sys, id: Id, sub: nat, fast: nat): (Sys, Response) {
    match SelectFollower(s.db, id)
    case None => (s, Missing)
    case Some(f) =>
      match SoftDeleteFollower(s.db, id)
      case Failure(_) => (s, ServerError)
      case Success(db) =>
        var kv := if f.status == Active then Run(s.kv, UnsubscribeCmds(f.masterId, f.account), sub).data else s.kv;
        (Sys(db, s.cache, Unregister(kv, id, fast).data), Done)
  }

  // ---- events and runs ----

  datatype Event =
    | OnCreateMaster(mq: MasterRequest, id: Id, hash: Option<string>, fast: nat)
    | OnRegister(masterId: Id, fq: FollowerRequest, id: Id, hash: Option<string>, fast: nat)
    | OnSet(id: Id, status: Status, sub: nat, fast: nat)
    | OnDeleteMaster(id: Id, sub: nat)
    | OnDeleteFollower(id: Id, sub: nat, fast: nat)
    | OnSync(masterId: Id, rows: seq<Follower>, sub: nat)      // Service.SyncFollowers
    | OnStartup(order: seq<Id>, sub: nat)                      // the sync in cmd/api

  predicate ActiveUnder(f: Follower, m: Id) {
    f.masterId == m && f.status == Active && !f.deleted
  }

  /** Accounts of the master's active followers. */
  function ActiveAccounts(db: Db, m: Id): set<string> {
    set k | k in db.followers && ActiveUnder(db.followers[k], m) :: db.followers[k].account
  }

  /** Accounts of all the master's followers that are not deleted: what the startup sync writes. */
  function KnownAccounts(db: Db, m: Id): set<string> {
    set k | k in db.followers && db.followers[k].masterId == m && !db.followers[k].deleted :: db.followers[k].account
  }

  function MastersWithFollowers(db: Db): set<Id> {
    set k | k in db.followers && !db.followers[k].deleted :: db.followers[k].masterId
  }

  /** The groups that the startup sync writes. */
  function StartupGroups(db: Db): map<Id, set<string>> {
    map m | m in MastersWithFollowers(db) :: KnownAccounts(db, m)
  }

  /** A sync whose rows or masters are not what the query returned cannot happen and changes nothing. */
  function Step(s: Sys, e: Event): Sys {
    match e
    case OnCreateMaster(q, id, hash, fast) => CreateMaster(s, q, id, hash, fast).0
    case OnRegister(m, q, id, hash, fast) => RegisterFollower(s, m, q, id, hash, fast).0
    case OnSet(id, status, sub, fast) => SetFollowing(s, id, status, sub, fast).0
    case OnDeleteMaster(id, sub) => DeleteMaster(s, id, sub).0
    case OnDeleteFollower(id, sub, fast) => DeleteFollower(s, id, sub, fast).0
    case OnSync(m, rows, sub) =>
      if (set r | r in rows) != ActiveByMaster(s.db, m) then s
      else s.(kv := Run(s.kv, SyncCmds(m, rows), sub).data)
    case OnStartup(order, sub) =>
      if (set m | m in order) != MastersWithFollowers(s.db) then s
      else s.(kv := Pipe(s.kv, ReplaceCmds(StartupGroups(s.db), order), sub))
  }

  function RunEvents(s: Sys, es: seq<Event>): Sys
    decreases |es|
  {
    if es == [] then s else RunEvents(Step(s, es[0]), es[1..])
  }

  /** What a log of the failed Redis calls would show.
      lossy: masters whose set may miss an active account;
      dirty: masters whose set may differ from the active accounts;
      stale: followers whose fast-lookup entries may be off. */
  datatype Audit = Audit(lossy: set<Id>, dirty: set<Id>, stale: set<Id>)

  const CLEAN := Audit({}, {}, {})

  function AuditStep(s: Sys, e: Event, a: Audit): Audit {
    match e
    case OnCreateMaster(_, _, _, _) => a
    case OnRegister(_, _, id, _, fast) => if fast < 3 then a.(stale := a.stale + {id}) else a
    case OnSet(id, status, sub, fast) =>
      if !LiveFollower(s.db, id) then a
      else
        var m := s.db.followers[id].masterId;
        Audit(if sub < 1 && status == Active then a.lossy + {m} else a.lossy,
              if sub < 1 then a.dirty + {m} else a.dirty,
              if fast < 2 then a.stale + {id} else a.stale)
    case OnDeleteMaster(id, sub) =>
      if !LiveMaster(s.db, id) then a
      else if sub < 1 then a.(lossy := a.lossy - {id}, dirty := a.dirty + {id})
      else a.(lossy := a.lossy - {id}, dirty := a.dirty - {id})
    case OnDeleteFollower(id, sub, fast) =>
      if !LiveFollower(s.db, id) then a
      else
        var f := s.db.followers[id];
        a.(dirty := if f.status == Active && sub < 1 then a.dirty + {f.masterId} else a.dirty,
           stale := if fast < 4 then a.stale + {id} else a.stale)
    case OnSync(m, rows, sub) =>
      if (set r | r in rows) != ActiveByMaster(s.db, m) then a
      else if sub < 1 + |rows| then a.(lossy := a.lossy + {m}, dirty := a.dirty + {m})
      else a.(lossy := a.lossy - {m}, dirty := a.dirty - {m})
    case OnStartup(order, sub) =>
      var ms := set m | m in order;
      if ms != MastersWithFollowers(s.db) then a
      else if sub < 2 * |order| then a.(lossy := a.lossy + ms, dirty := a.dirty + ms)
      else a.(lossy := a.lossy - ms, dirty := a.dirty - ms + InactiveMasters(s.db))
  }

  /** Masters with a follower that is neither deleted nor active. */
  function InactiveMasters(db: Db): set<Id> {
    set k | k in db.followers && !db.followers[k].deleted && db.followers[k].status == Inactive :: db.followers[k].masterId
  }

  function AuditEvents(s: Sys, es: seq<Event>, a: Audit): Audit
    decreases |es|
  {
    if es == [] then a else AuditEvents(Step(s, es[0]), es[1..], AuditStep(s, es[0], a))
  }

  // ---- invariants ----

  function Subs(kv: map<Key, Value>, m: Id): set<string> {
    SetAt(kv, Subscribers(m))
  }

  ghost predicate SubsOk(db: Db, kv: map<Key, Value>, a: Audit) {
    && (forall m: Id {:trigger Subs(kv, m)} :: m !in a.lossy ==> ActiveAccounts(db, m) <= Subs(kv, m))
    && (forall m: Id {:trigger Subs(kv, m)} :: m !in a.dirty ==> ActiveAccounts(db, m) == Subs(kv, m))
  }

  /** The fast-lookup entries of one follower ID are those of its row, or none. */
  ghost predicate EntriesOk(db: Db, kv: map<Key, Value>, id: Id) {
    if LiveFollower(db, id) then
      var row := db.followers[id];
      && FollowerInfo(id) in kv && kv[FollowerInfo(id)].Record?
      && (var info := kv[FollowerInfo(id)].info;
          && info.masterId == row.masterId && info.account == row.account && info.server == row.server
          && (LiveMaster(db, row.masterId) ==> info.status == row.status))
      && FollowerMaster(id) in kv && kv[FollowerMaster(id)] == Text(row.masterId)
      && (forall m: Id :: id in SetAt(kv, FollowerSet(m)) <==> m == row.masterId)
    else
      && FollowerInfo(id) !in kv && FollowerMaster(id) !in kv
      && (forall m: Id :: id !in SetAt(kv, FollowerSet(m)))
  }

  ghost predicate AllEntriesOk(db: Db, kv: map<Key, Value>, stale: set<Id>) {
    forall id: Id :: id !in stale ==> EntriesOk(db, kv, id)
  }

  ghost predicate Inv(s: Sys, a: Audit) {
    && Wf(s.db) && Typed(s.kv)
    && CacheExact(s.db.masters, s.cache)
    && SubsOk(s.db, s.kv, a)
    && AllEntriesOk(s.db, s.kv, a.stale)
  }
}
