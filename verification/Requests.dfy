/** What each request answers and does, in terms of the rows, and what that means over every run. */
module Requests {
  import opened Wrappers
  import opened Schema
  import opened Keyspace
  import opened Commands
  import opened Registry
  import opened RegistryRuns

  // ---- which rows changed ----

  /** Every master row but that of `id` is as it was. */
  ghost predicate OtherMastersSame(db: Db, later: Db, id: Id) {
    forall k: Id :: k != id ==> (k in later.masters <==> k in db.masters) && (k in db.masters ==> later.masters[k] == db.masters[k])
  }

  ghost predicate OtherFollowersSame(db: Db, later: Db, id: Id) {
    forall k: Id :: k != id ==> (k in later.followers <==> k in db.followers) && (k in db.followers ==> later.followers[k] == db.followers[k])
  }

  /** Some row, live or deleted, has the ID or the account. */
  ghost predicate MasterTaken(db: Db, id: Id, account: string) {
    exists k <- db.masters :: k == id || db.masters[k].account == account
  }

  /** Some row, live or deleted, has the ID or follows the master with the account. */
  ghost predicate FollowerTaken(db: Db, id: Id, masterId: Id, account: string) {
    exists k <- db.followers :: k == id || (db.followers[k].masterId == masterId && db.followers[k].account == account)
  }

  ghost predicate MasterLives(db: Db, id: Id) {
    id in db.masters && !db.masters[id].deleted
  }

  ghost predicate FollowerLives(db: Db, id: Id) {
    id in db.followers && !db.followers[id].deleted
  }

  // ---- CreateMaster ----

  predicate MasterRequestFits(q: MasterRequest) {
    4 <= |q.account| && |q.account| <= 50 && |q.password| >= 8 && |q.server| >= 1 && |q.server| <= 100
  }

  /** The answer. */
  lemma CreateMasterAnswers(s: Sys, q: MasterRequest, id: Id, hash: Option<string>, n: nat)
    ensures var resp := CreateMaster(s, q, id, hash, n).1;
            var ready := MasterRequestFits(q) && hash.Some? && |id| <= 255;
            && (resp == BadRequest <==> !MasterRequestFits(q))
            && (resp == ServerError <==> MasterRequestFits(q) && (hash.None? || |id| > 255))
            && (resp == Conflict <==> ready && MasterTaken(s.db, id, q.account))
            && (resp == Created(id) <==> ready && !MasterTaken(s.db, id, q.account))
            && (resp.Created? ==> resp.id == id) && resp != Missing && resp != Done
  {
    MasterInsertAnswers(s.db, Master(id, q.account, if hash.Some? then hash.value else "", q.server, false));
  }

  lemma MasterInsertAnswers(db: Db, m: Master)
    ensures var fits := |m.id| <= 255 && 4 <= |m.account| <= 50 && |m.server| <= 100;
            && (InsertMaster(db, m) == Failure(Rejected) <==> !fits)
            && (InsertMaster(db, m) == Failure(Duplicate) <==> fits && MasterTaken(db, m.id, m.account))
            && (InsertMaster(db, m).Success? <==> fits && !MasterTaken(db, m.id, m.account))
  {
  }

  /** A created master is a new row with what was asked for; any other answer changes nothing. */
  lemma CreateMasterEffect(s: Sys, q: MasterRequest, id: Id, hash: Option<string>, n: nat)
    ensures var (t, resp) := CreateMaster(s, q, id, hash, n);
            && (resp == Created(id) <==> id !in s.db.masters && id in t.db.masters)
            && (resp == Created(id) ==>
                  var row := t.db.masters[id];
                  && row.id == id && row.account == q.account && row.server == q.server && !row.deleted
                  && hash == Some(row.passwordHash)
                  && OtherMastersSame(s.db, t.db, id) && t.db.followers == s.db.followers
                  && q.account in t.cache && t.cache[q.account] == id && t.cache - {q.account} == s.cache - {q.account})
            && (resp != Created(id) ==> t == s)
  {
    CreateMasterAnswers(s, q, id, hash, n);
  }

  // ---- RegisterFollower ----

  predicate FollowerRequestFits(q: FollowerRequest) {
    4 <= |q.account| && |q.account| <= 50 && |q.password| >= 8 && 0.01 <= q.multiplier && q.multiplier <= 100.0
  }

  lemma FollowerInsertAnswers(db: Db, f: Follower)
    ensures var fits := |f.id| <= 255 && 4 <= |f.account| <= 50 && |f.server| <= 100 && 0.01 <= f.multiplier <= 100.0;
            && (InsertFollower(db, f) == Failure(Duplicate) <==> fits && FollowerTaken(db, f.id, f.masterId, f.account))
            && (InsertFollower(db, f) == Failure(Rejected) <==>
                  !fits || (!FollowerTaken(db, f.id, f.masterId, f.account) && f.masterId !in db.masters))
            && (InsertFollower(db, f).Success? <==>
                  fits && !FollowerTaken(db, f.id, f.masterId, f.account) && f.masterId in db.masters)
  {
  }

  /** The answer: a master that is not there or deleted comes before a bad request. */
  lemma RegisterFollowerAnswers(s: Sys, m: Id, q: FollowerRequest, id: Id, hash: Option<string>, n: nat)
    ensures var resp := RegisterFollower(s, m, q, id, hash, n).1;
            var fits := |id| <= 255 && |q.server| <= 100;
            var ready := MasterLives(s.db, m) && FollowerRequestFits(q) && hash.Some? && fits;
            && (resp == Missing <==> !MasterLives(s.db, m))
            && (resp == BadRequest <==> MasterLives(s.db, m) && !FollowerRequestFits(q))
            && (resp == ServerError <==> MasterLives(s.db, m) && FollowerRequestFits(q) && (hash.None? || !fits))
            && (resp == Conflict <==> ready && FollowerTaken(s.db, id, m, q.account))
            && (resp == Created(id) <==> ready && !FollowerTaken(s.db, id, m, q.account))
            && (resp.Created? ==> resp.id == id) && resp != Done
  {
    FollowerInsertAnswers(s.db, Follower(id, m, q.account, if hash.Some? then hash.value else "", q.server, Inactive, q.multiplier, false));
  }

  /** A created follower is a new inactive row with what was asked for, under a live master; any other
      answer changes nothing. */
  lemma RegisterFollowerEffect(s: Sys, m: Id, q: FollowerRequest, id: Id, hash: Option<string>, n: nat)
    ensures var (t, resp) := RegisterFollower(s, m, q, id, hash, n);
            && (resp == Created(id) <==> id !in s.db.followers && id in t.db.followers)
            && (resp == Created(id) ==>
                  var row := t.db.followers[id];
                  && MasterLives(s.db, m)
                  && row.id == id && row.masterId == m && row.account == q.account && row.server == q.server
                  && hash == Some(row.passwordHash) && row.multiplier == q.multiplier
                  && row.status == Inactive && !row.deleted
                  && OtherFollowersSame(s.db, t.db, id) && t.db.masters == s.db.masters && t.cache == s.cache)
            && (resp != Created(id) ==> t == s)
  {
    RegisterFollowerAnswers(s, m, q, id, hash, n);
  }

  /** With its commands answered, the registration's record says what was asked for. */
  lemma RegisteredRecord(s: Sys, m: Id, q: FollowerRequest, id: Id, hash: Option<string>, n: nat)
    requires Typed(s.kv) && RegisterFollower(s, m, q, id, hash, n).1 == Created(id) && n >= 3
    ensures var kv := RegisterFollower(s, m, q, id, hash, n).0.kv;
            && FollowerInfo(id) in kv && kv[FollowerInfo(id)].Record?
            && var info := kv[FollowerInfo(id)].info;
               && info.masterId == m && info.account == q.account && info.server == q.server
               && info.multiplier == q.multiplier && info.status == Inactive
  {
    RegisterFollowerAnswers(s, m, q, id, hash, n);
    var f := Follower(id, m, q.account, hash.value, q.server, Inactive, q.multiplier, false);
    RegisterCall(s.kv, m, id, FollowerRecord(m, f), n);
  }

  // ---- StartFollowing, StopFollowing ----

  /** The row takes the status asked for and nothing else changes in the tables; a follower that is not there
      or deleted changes nothing at all. */
  lemma SetFollowingEffect(s: Sys, id: Id, status: Status, sub: nat, fast: nat)
    ensures var (t, resp) := SetFollowing(s, id, status, sub, fast);
            && resp == (if FollowerLives(s.db, id) then Done else Missing)
            && (resp == Missing ==> t == s)
            && (resp == Done ==>
                  && id in t.db.followers && t.db.followers[id].status == status
                  && t.db.followers[id].(status := s.db.followers[id].status) == s.db.followers[id]
                  && OtherFollowersSame(s.db, t.db, id) && t.db.masters == s.db.masters && t.cache == s.cache)
  {
  }

  // ---- DeleteMaster ----

  /** The master's row is marked, its followers that are not deleted become inactive, its account leaves the
      cache, and nothing else changes in tables and cache. */
  lemma DeleteMasterEffect(s: Sys, id: Id, sub: nat)
    ensures var (t, resp) := DeleteMaster(s, id, sub);
            && resp == (if MasterLives(s.db, id) then Done else Missing)
            && (resp == Missing ==> t == s)
            && (resp == Done ==>
                  && id in t.db.masters && t.db.masters[id].deleted
                  && t.db.masters[id].(deleted := false) == s.db.masters[id]
                  && OtherMastersSame(s.db, t.db, id)
                  && t.cache == s.cache - {s.db.masters[id].account}
                  && t.db.followers.Keys == s.db.followers.Keys
                  && forall k <- s.db.followers ::
                       if s.db.followers[k].masterId == id && !s.db.followers[k].deleted
                       then t.db.followers[k].status == Inactive
                            && t.db.followers[k].(status := s.db.followers[k].status) == s.db.followers[k]
                       else t.db.followers[k] == s.db.followers[k])
  {
  }

  // ---- DeleteFollower ----

  /** The row is marked and inactive, and nothing else changes in tables and cache. */
  lemma DeleteFollowerEffect(s: Sys, id: Id, sub: nat, fast: nat)
    ensures var (t, resp) := DeleteFollower(s, id, sub, fast);
            && resp == (if FollowerLives(s.db, id) then Done else Missing)
            && (resp == Missing ==> t == s)
            && (resp == Done ==>
                  && id in t.db.followers && t.db.followers[id].deleted && t.db.followers[id].status == Inactive
                  && t.db.followers[id].(deleted := false, status := s.db.followers[id].status) == s.db.followers[id]
                  && OtherFollowersSame(s.db, t.db, id) && t.db.masters == s.db.masters && t.cache == s.cache)
  {
  }

  // ---- over runs ----

  /** A follower row appears only by a registration under a live master. */
  lemma RowsAppearUnderLive(s: Sys, e: Event, id: Id)
    requires id !in s.db.followers && id in Step(s, e).db.followers
    ensures e.OnRegister? && e.id == id && MasterLives(s.db, e.masterId) && Step(s, e).db.followers[id].masterId == e.masterId
  {
    if e.OnRegister? {
      RegisterFollowerEffect(s, e.masterId, e.fq, e.id, e.hash, e.fast);
    }
  }

  lemma CreateExtends(s: Sys, q: MasterRequest, id: Id, hash: Option<string>, n: nat)
    requires Wf(s.db)
    ensures Extends(s.db, CreateMaster(s, q, id, hash, n).0.db)
  {
    ExtendsItself(s.db);
    if MasterRequestOk(q) && hash.Some? {
      var m := Master(id, q.account, hash.value, q.server, false);
      if InsertMaster(s.db, m).Success? { InsertMasterKeepsWf(s.db, m); }
    }
  }

  lemma RegisterExtends(s: Sys, m: Id, q: FollowerRequest, id: Id, hash: Option<string>, n: nat)
    requires Wf(s.db)
    ensures Extends(s.db, RegisterFollower(s, m, q, id, hash, n).0.db)
  {
    ExtendsItself(s.db);
    if LiveMaster(s.db, m) && FollowerRequestOk(q) && hash.Some? {
      var f := Follower(id, m, q.account, hash.value, q.server, Inactive, q.multiplier, false);
      if InsertFollower(s.db, f).Success? { InsertFollowerKeepsWf(s.db, f); }
    }
  }

  lemma SetExtends(s: Sys, id: Id, status: Status, sub: nat, fast: nat)
    requires Wf(s.db)
    ensures Extends(s.db, SetFollowing(s, id, status, sub, fast).0.db)
  {
    if LiveFollower(s.db, id) { UpdateStatusKeepsWf(s.db, id, status); } else { ExtendsItself(s.db); }
  }

  lemma DeleteMasterExtends(s: Sys, id: Id, sub: nat)
    requires Wf(s.db)
    ensures Extends(s.db, DeleteMaster(s, id, sub).0.db)
  {
    if LiveMaster(s.db, id) { SoftDeleteMasterKeepsWf(s.db, id); } else { ExtendsItself(s.db); }
  }

  lemma DeleteFollowerExtends(s: Sys, id: Id, sub: nat, fast: nat)
    requires Wf(s.db)
    ensures Extends(s.db, DeleteFollower(s, id, sub, fast).0.db)
  {
    if LiveFollower(s.db, id) { SoftDeleteFollowerKeepsWf(s.db, id); } else { ExtendsItself(s.db); }
  }

  lemma StepExtends(s: Sys, e: Event)
    requires Wf(s.db)
    ensures Extends(s.db, Step(s, e).db)
  {
    match e
    case OnCreateMaster(q, id, hash, n) => CreateExtends(s, q, id, hash, n);
    case OnRegister(m, q, id, hash, n) => RegisterExtends(s, m, q, id, hash, n);
    case OnSet(id, status, sub, fast) => SetExtends(s, id, status, sub, fast);
    case OnDeleteMaster(id, sub) => DeleteMasterExtends(s, id, sub);
    case OnDeleteFollower(id, sub, fast) => DeleteFollowerExtends(s, id, sub, fast);
    case _ => ExtendsItself(s.db);
  }

  ghost predicate MasterGone(db: Db, m: Id) {
    m in db.masters && db.masters[m].deleted
  }

  lemma {:induction false} GoneGainsNobody(s: Sys, es: seq<Event>, a: Audit, m: Id, id: Id)
    requires Inv(s, a) && MasterGone(s.db, m)
    ensures var t := RunEvents(s, es);
            MasterGone(t.db, m) && (id in t.db.followers && t.db.followers[id].masterId == m ==> id in s.db.followers && s.db.followers[id].masterId == m)
    decreases |es|
  {
    if es != [] {
      var s1 := Step(s, es[0]);
      StepExtends(s, es[0]);
      StepKeepsInv(s, es[0], a);
      GoneGainsNobody(s1, es[1..], AuditStep(s, es[0], a), m, id);
      if id in s1.db.followers && id !in s.db.followers { RowsAppearUnderLive(s, es[0], id); }
    }
  }

  /** Over every run: once a master's row is deleted it stays so, and no follower row is ever added under it. */
  lemma DeletedMasterGainsNobody(es: seq<Event>, more: seq<Event>, m: Id, id: Id)
    requires MasterGone(RunEvents(EMPTY, es).db, m)
    ensures var s := RunEvents(EMPTY, es);
            var t := RunEvents(s, more);
            && MasterGone(t.db, m)
            && (id in t.db.followers && t.db.followers[id].masterId == m ==> id in s.db.followers && s.db.followers[id].masterId == m)
  {
    ReachableInv(es);
    GoneGainsNobody(RunEvents(EMPTY, es), more, AuditEvents(EMPTY, es, CLEAN), m, id);
  }
}
