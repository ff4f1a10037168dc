/** What FastLookupStore.SyncFromDatabase repairs, and what it leaves behind. */
module WarmUp {
  import opened Wrappers
  import opened Schema
  import opened Keyspace
  import opened Commands
  import opened Registry
  import opened RegistryRuns
  import opened Footprint

  /** IDs of the rows that are not deleted. */
  function LiveIds(ms: seq<Master>): set<Id> {
    set m | m in ms && !m.deleted :: m.id
  }

  // ---- masters ----

  ghost predicate MastersOnly(kv: map<Key, Value>, later: map<Key, Value>) {
    forall k: Key :: !k.MasterInfo? && !k.ActiveMasters? ==> (k in later <==> k in kv) && (k in kv ==> later[k] == kv[k])
  }

  lemma OneMaster(kv: map<Key, Value>, m: Master)
    requires Typed(kv)
    ensures MastersWritten(kv, Pipe(kv, RegisterMasterCmds(m), 2), {m.id})
  {
    var put, add := Put(MasterInfo(m.id), Record(MasterRecord(m))), SAdd(ActiveMasters, {m.id});
    var mid := Apply(kv, put).data;
    ApplyFits(kv, put);
    ApplyFits(mid, add);
    assert [put, add][1..] == [add] && [add][1..] == [];
    assert Pipe(mid, [add], 1) == Apply(mid, add).data;
    assert Pipe(kv, [put, add], 2) == Pipe(mid, [add], 1);
  }

  ghost predicate MastersWritten(kv: map<Key, Value>, later: map<Key, Value>, ids: set<Id>) {
    Typed(later) && MastersOnly(kv, later) && SetAt(later, ActiveMasters) == SetAt(kv, ActiveMasters) + ids
  }

  lemma MastersWrittenTwice(kv: map<Key, Value>, mid: map<Key, Value>, later: map<Key, Value>, ids: set<Id>, more: set<Id>)
    requires MastersWritten(kv, mid, ids) && MastersWritten(mid, later, more)
    ensures MastersWritten(kv, later, ids + more)
  {
  }

  lemma LastLiveId(rest: seq<Master>, m: Master)
    ensures LiveIds(rest + [m]) == LiveIds(rest) + if m.deleted then {} else {m.id}
  {
  }

  lemma {:induction false} AllMasters(kv: map<Key, Value>, ms: seq<Master>)
    requires Typed(kv)
    ensures MastersWritten(kv, Pipe(kv, MasterWarmUp(ms), |MasterWarmUp(ms)|), LiveIds(ms))
  {
    if ms != [] {
      var rest, m := ms[..|ms| - 1], ms[|ms| - 1];
      assert ms == rest + [m];
      LastLiveId(rest, m);
      AllMasters(kv, rest);
      if m.deleted {
        assert MasterWarmUp(ms) == MasterWarmUp(rest);
      } else {
        var mid := Pipe(kv, MasterWarmUp(rest), |MasterWarmUp(rest)|);
        PipeSplit(kv, MasterWarmUp(rest), RegisterMasterCmds(m));
        OneMaster(mid, m);
        MastersWrittenTwice(kv, mid, Pipe(mid, RegisterMasterCmds(m), 2), LiveIds(rest), {m.id});
      }
    }
  }

  /** Both parts are worked off. */
  lemma PipeSplit(kv: map<Key, Value>, a: seq<Cmd<Key>>, b: seq<Cmd<Key>>)
    ensures Pipe(kv, a + b, |a + b|) == Pipe(Pipe(kv, a, |a|), b, |b|)
  {
    var n := |a| + |b|;
    PipeAppend(kv, a, b, n);
    PipeEnough(kv, a, n);
    assert |a + b| == n && (if n < |a| then 0 else n - |a|) == |b|;
  }

  lemma {:induction false} PipeEnough(kv: map<Key, Value>, cs: seq<Cmd<Key>>, n: nat)
    requires |cs| <= n
    ensures Pipe(kv, cs, n) == Pipe(kv, cs, |cs|)
    decreases |cs|
  {
    if cs != [] { PipeEnough(Apply(kv, cs[0]).data, cs[1..], n - 1); }
  }

  // ---- followers ----

  /** The warm-up of row `f` on what `kv` held about its ID. */
  ghost predicate Written(kv: map<Key, Value>, later: map<Key, Value>, f: Follower) {
    && FollowerInfo(f.id) in later && later[FollowerInfo(f.id)] == Record(FollowerRecord(f.masterId, f))
    && FollowerMaster(f.id) in later && later[FollowerMaster(f.id)] == Text(f.masterId)
    && (forall m: Id :: f.id in SetAt(later, FollowerSet(m)) <==> m == f.masterId || f.id in SetAt(kv, FollowerSet(m)))
  }

  ghost predicate Listed(fs: seq<Follower>, id: Id) {
    exists f <- fs :: !f.deleted && f.id == id
  }

  /** No two rows with one ID. */
  ghost predicate OneRowEach(fs: seq<Follower>) {
    forall f <- fs, g <- fs :: f.id == g.id ==> f == g
  }

  ghost predicate WarmAt(kv: map<Key, Value>, later: map<Key, Value>, fs: seq<Follower>, id: Id) {
    && (forall f <- fs :: !f.deleted && f.id == id ==> Written(kv, later, f))
    && (!Listed(fs, id) ==> KeysAgree(kv, later, id))
  }

  ghost predicate FollowersOnly(kv: map<Key, Value>, later: map<Key, Value>) {
    forall k: Key :: k.ActiveMasters? || k.MasterInfo? || k.Subscribers? ==> (k in later <==> k in kv) && (k in kv ==> later[k] == kv[k])
  }

  lemma OneFollower(kv: map<Key, Value>, f: Follower)
    requires Typed(kv)
    ensures var later := Pipe(kv, RegisterCmds(f.masterId, f.id, FollowerRecord(f.masterId, f)), 3);
            Typed(later) && TouchesOnly(kv, later, f.id) && Written(kv, later, f)
  {
    var info := FollowerRecord(f.masterId, f);
    PipeFits(kv, RegisterCmds(f.masterId, f.id, info), 3);
    RegisterCall(kv, f.masterId, f.id, info, 3);
  }

  /** One more row keeps what was written before: rows with other IDs are untouched, and writing the
      same row twice is writing it once. */
  lemma WarmStep(kv: map<Key, Value>, mid: map<Key, Value>, later: map<Key, Value>, rest: seq<Follower>, f: Follower, id: Id)
    requires WarmAt(kv, mid, rest, id) && OneRowEach(rest + [f]) && !f.deleted
    requires TouchesOnly(mid, later, f.id) && Written(mid, later, f)
    ensures WarmAt(kv, later, rest + [f], id)
  {
    var fs := rest + [f];
    if id != f.id {
      TouchedKeys(mid, later, f.id);
      forall g | g in fs && !g.deleted && g.id == id
        ensures Written(kv, later, g)
      {
        assert g in rest && Written(kv, mid, g);
      }
      if !Listed(fs, id) {
        assert forall g <- rest :: g in fs;
        KeysAgreeIsTransitive(kv, mid, later, id);
      }
    } else {
      assert f in fs && Listed(fs, id);
      if Listed(rest, id) {
        var g :| g in rest && !g.deleted && g.id == id;
        assert g in fs && g == f && Written(kv, mid, f);
      }
      assert Written(kv, later, f);
      assert forall g <- fs :: g.id == id ==> g == f;
    }
  }

  lemma {:induction false} AllFollowers(kv: map<Key, Value>, fs: seq<Follower>, id: Id)
    requires Typed(kv) && OneRowEach(fs)
    ensures var later := Pipe(kv, FollowerWarmUp(fs), |FollowerWarmUp(fs)|);
            Typed(later) && FollowersOnly(kv, later) && WarmAt(kv, later, fs, id)
    decreases |fs|
  {
    if fs != [] {
      var rest, f := fs[..|fs| - 1], fs[|fs| - 1];
      assert fs == rest + [f];
      AllFollowers(kv, rest, id);
      var mid := Pipe(kv, FollowerWarmUp(rest), |FollowerWarmUp(rest)|);
      if f.deleted {
        assert FollowerWarmUp(fs) == FollowerWarmUp(rest);
        SkipDeleted(kv, mid, rest, f, id);
      } else {
        var cs := RegisterCmds(f.masterId, f.id, FollowerRecord(f.masterId, f));
        PipeSplit(kv, FollowerWarmUp(rest), cs);
        OneFollower(mid, f);
        WarmStep(kv, mid, Pipe(mid, cs, 3), rest, f, id);
      }
    }
  }

  lemma SkipDeleted(kv: map<Key, Value>, later: map<Key, Value>, rest: seq<Follower>, f: Follower, id: Id)
    requires WarmAt(kv, later, rest, id) && f.deleted
    ensures WarmAt(kv, later, rest + [f], id)
  {
    assert forall g <- rest :: g in rest + [f];
  }

  // ---- the whole warm-up ----

  /** The lists hold every live row of the tables, and no row that is not there. */
  ghost predicate ListsRows(db: Db, fs: seq<Follower>) {
    && (forall f <- fs :: f.id in db.followers && db.followers[f.id] == f)
    && (forall k <- db.followers :: !db.followers[k].deleted ==> db.followers[k] in fs)
  }

  /** Nothing in the index that a warm-up would have to remove: no membership under another master,
      and nothing at all about a follower that does not exist. */
  ghost predicate NoLeftover(db: Db, kv: map<Key, Value>, id: Id) {
    if LiveFollower(db, id) then
      forall m: Id :: m != db.followers[id].masterId ==> id !in SetAt(kv, FollowerSet(m))
    else
      && FollowerInfo(id) !in kv && FollowerMaster(id) !in kv
      && (forall m: Id :: id !in SetAt(kv, FollowerSet(m)))
  }

  lemma WrittenIsOk(db: Db, kv: map<Key, Value>, later: map<Key, Value>, id: Id)
    requires LiveFollower(db, id) && db.followers[id].id == id && Written(kv, later, db.followers[id])
    ensures EntriesOk(db, later, id) <==> NoLeftover(db, kv, id)
  {
  }

  lemma UntouchedIsOk(db: Db, kv: map<Key, Value>, later: map<Key, Value>, id: Id)
    requires !LiveFollower(db, id) && KeysAgree(kv, later, id)
    ensures EntriesOk(db, later, id) <==> NoLeftover(db, kv, id)
  {
  }

  function AfterWarmUp(kv: map<Key, Value>, ms: seq<Master>, fs: seq<Follower>): map<Key, Value> {
    Pipe(kv, WarmUpCmds(ms, fs), |WarmUpCmds(ms, fs)|)
  }

  lemma WarmUpParts(kv: map<Key, Value>, ms: seq<Master>, fs: seq<Follower>) returns (mid: map<Key, Value>)
    requires Typed(kv)
    ensures Typed(mid) && MastersOnly(kv, mid) && SetAt(mid, ActiveMasters) == LiveIds(ms)
    ensures AfterWarmUp(kv, ms, fs) == Pipe(mid, FollowerWarmUp(fs), |FollowerWarmUp(fs)|)
  {
    var c: Cmd<Key> := Del(ActiveMasters);
    var cleared := Apply(kv, c).data;
    ApplyFits(kv, c);
    AllMasters(cleared, ms);
    mid := Pipe(cleared, MasterWarmUp(ms), |MasterWarmUp(ms)|);
    assert [c][1..] == [];
    assert Pipe(kv, [c], 1) == cleared && MastersWritten(cleared, mid, LiveIds(ms));
    PipeSplit(kv, [c], MasterWarmUp(ms));
    PipeSplit(kv, [c] + MasterWarmUp(ms), FollowerWarmUp(fs));
  }

  /** The master half and the subscriptions: exactly the listed masters are active, no subscription changes. */
  lemma WarmUpMasters(kv: map<Key, Value>, ms: seq<Master>, fs: seq<Follower>)
    requires Typed(kv) && OneRowEach(fs)
    ensures Typed(AfterWarmUp(kv, ms, fs))
    ensures SetAt(AfterWarmUp(kv, ms, fs), ActiveMasters) == LiveIds(ms)
    ensures forall m: Id :: Subs(AfterWarmUp(kv, ms, fs), m) == Subs(kv, m)
  {
    var mid := WarmUpParts(kv, ms, fs);
    AllFollowers(mid, fs, "");
  }

  /** The entries of one follower ID, listed or not. */
  lemma WarmUpEntries(kv: map<Key, Value>, ms: seq<Master>, fs: seq<Follower>, id: Id)
    requires Typed(kv) && OneRowEach(fs)
    ensures WarmAt(kv, AfterWarmUp(kv, ms, fs), fs, id)
  {
    var mid := WarmUpParts(kv, ms, fs);
    var later := AfterWarmUp(kv, ms, fs);
    AllFollowers(mid, fs, id);
    assert KeysAgree(kv, mid, id);
    if !Listed(fs, id) { KeysAgreeIsTransitive(kv, mid, later, id); }
  }

  lemma ListsOnce(db: Db, fs: seq<Follower>)
    requires ListsRows(db, fs)
    ensures OneRowEach(fs)
  {
  }

  /** From any contents a completed warm-up, which writes but never removes, leaves the entries of a
      follower ID right if and only if the index held no leftover about it. */
  lemma WarmUpRepairsExactly(db: Db, kv: map<Key, Value>, ms: seq<Master>, fs: seq<Follower>, id: Id)
    requires Wf(db) && Typed(kv) && ListsRows(db, fs)
    ensures EntriesOk(db, AfterWarmUp(kv, ms, fs), id) <==> NoLeftover(db, kv, id)
  {
    var later := AfterWarmUp(kv, ms, fs);
    ListsOnce(db, fs);
    WarmUpEntries(kv, ms, fs, id);
    if LiveFollower(db, id) {
      assert db.followers[id] in fs;
      WrittenIsOk(db, kv, later, id);
    } else {
      assert !Listed(fs, id);
      UntouchedIsOk(db, kv, later, id);
    }
  }

  // ---- over every run ----

  /** Whoever is a member of a master's set has a row, live or deleted, under that master. */
  ghost predicate MembersHaveRows(db: Db, kv: map<Key, Value>) {
    forall m: Id, id: Id :: id in SetAt(kv, FollowerSet(m)) ==> id in db.followers && db.followers[id].masterId == m
  }

  /** The command adds at most these (master, follower) memberships. */
  predicate AddsWithin(c: Cmd<Key>, adds: set<(Id, Id)>) {
    match c
    case SAdd(FollowerSet(m), ids) => forall id <- ids :: (m, id) in adds
    case Put(k, _) => !k.FollowerSet?
    case _ => true
  }

  lemma {:induction false} RunAddsWithin(kv: map<Key, Value>, cs: seq<Cmd<Key>>, n: nat, adds: set<(Id, Id)>)
    requires Typed(kv) && forall c <- cs :: CmdFits(c) && AddsWithin(c, adds)
    ensures forall m: Id, id: Id :: id in SetAt(Run(kv, cs, n).data, FollowerSet(m)) ==> (m, id) in adds || id in SetAt(kv, FollowerSet(m))
    decreases |cs|
  {
    if cs != [] && n != 0 {
      var kv1 := Apply(kv, cs[0]).data;
      ApplyFits(kv, cs[0]);
      RunAddsWithin(kv1, cs[1..], n - 1, adds);
      assert AddsWithin(cs[0], adds);
      assert forall m: Id, id: Id :: id in SetAt(kv1, FollowerSet(m)) ==> (m, id) in adds || id in SetAt(kv, FollowerSet(m));
    }
  }

  lemma RowsKeepMasters(s: Sys, e: Event)
    ensures forall id <- s.db.followers :: id in Step(s, e).db.followers
                                           && Step(s, e).db.followers[id].masterId == s.db.followers[id].masterId
  {
  }

  /** The memberships of the follower that the operation is about. */
  lemma SubjectMembers(s: Sys, e: Event, m: Id, id: Id)
    requires Typed(s.kv) && MembersHaveRows(s.db, s.kv) && SubjectOf(e) == Some(id)
    requires id in SetAt(Step(s, e).kv, FollowerSet(m))
    ensures id in Step(s, e).db.followers && Step(s, e).db.followers[id].masterId == m
  {
    RowsKeepMasters(s, e);
    if e.OnRegister? {
      RegisterMembers(s, e, m);
    } else if LiveFollower(s.db, id) {
      var f := s.db.followers[id];
      if e.OnSet? {
        SetMembers(s.kv, SubscriptionCmds(f.masterId, f.account, e.status), e, m);
      } else {
        DeleteMembers(s.kv, f, e, m);
      }
    }
  }

  lemma RegisterMembers(s: Sys, e: Event, m: Id)
    requires Typed(s.kv) && e.OnRegister?
    requires e.id in SetAt(Step(s, e).kv, FollowerSet(m))
    ensures e.id in SetAt(s.kv, FollowerSet(m)) || (e.id in Step(s, e).db.followers && Step(s, e).db.followers[e.id].masterId == m)
  {
    if e.hash.Some? {
      var f := Follower(e.id, e.masterId, e.fq.account, e.hash.value, e.fq.server, Inactive, e.fq.multiplier, false);
      RunAddsWithin(s.kv, RegisterCmds(e.masterId, e.id, FollowerRecord(e.masterId, f)), e.fast, {(e.masterId, e.id)});
    }
  }

  lemma SetMembers(kv: map<Key, Value>, cs: seq<Cmd<Key>>, e: Event, m: Id)
    requires Typed(kv) && e.OnSet? && |cs| == 1 && CmdFits(cs[0]) && cs[0].key.Subscribers?
    ensures SetAt(Restatus(Run(kv, cs, e.sub).data, e.id, e.status, e.fast).data, FollowerSet(m)) == SetAt(kv, FollowerSet(m))
  {
    assert cs == [cs[0]];
    SubscriptionCall(kv, cs[0], e.sub);
    RestatusCall(Run(kv, cs, e.sub).data, e.id, e.status, e.fast);
  }

  lemma DeleteMembers(kv: map<Key, Value>, f: Follower, e: Event, m: Id)
    requires Typed(kv) && e.OnDeleteFollower?
    ensures var mid := if f.status == Active then Run(kv, UnsubscribeCmds(f.masterId, f.account), e.sub).data else kv;
            e.id in SetAt(Unregister(mid, e.id, e.fast).data, FollowerSet(m)) ==> e.id in SetAt(kv, FollowerSet(m))
  {
    var mid := if f.status == Active then Run(kv, UnsubscribeCmds(f.masterId, f.account), e.sub).data else kv;
    SubscriptionCall(kv, SRem(Subscribers(f.masterId), f.account), e.sub);
    assert SetAt(mid, FollowerSet(m)) == SetAt(kv, FollowerSet(m));
    var k := FollowerMaster(e.id);
    if e.fast > 0 && k in mid && mid[k].Text? {
      RunAddsWithin(mid, UnregisterCmds(mid[k].text, e.id), e.fast - 1, {});
    }
  }

  lemma StepKeepsMembers(s: Sys, e: Event)
    requires Typed(s.kv) && MembersHaveRows(s.db, s.kv)
    ensures MembersHaveRows(Step(s, e).db, Step(s, e).kv)
  {
    RowsKeepMasters(s, e);
    forall m: Id, id: Id | id in SetAt(Step(s, e).kv, FollowerSet(m))
      ensures id in Step(s, e).db.followers && Step(s, e).db.followers[id].masterId == m
    {
      if SubjectOf(e) == Some(id) {
        SubjectMembers(s, e, m, id);
      } else {
        OtherFollowersUntouched(s, e, id);
        assert id in SetAt(s.kv, FollowerSet(m));
      }
    }
  }

  lemma {:induction false} RunKeepsMembers(s: Sys, es: seq<Event>, a: Audit)
    requires Inv(s, a) && MembersHaveRows(s.db, s.kv)
    ensures MembersHaveRows(RunEvents(s, es).db, RunEvents(s, es).kv)
    decreases |es|
  {
    if es != [] {
      StepKeepsMembers(s, es[0]);
      StepKeepsInv(s, es[0], a);
      RunKeepsMembers(Step(s, es[0]), es[1..], AuditStep(s, es[0], a));
    }
  }

  /** After every run, whichever Redis calls were cut, a completed warm-up makes the entries of every live
      follower right. */
  lemma WarmUpRepairsLive(es: seq<Event>, ms: seq<Master>, fs: seq<Follower>, id: Id)
    requires var s := RunEvents(EMPTY, es); ListsRows(s.db, fs) && LiveFollower(s.db, id)
    ensures var s := RunEvents(EMPTY, es); EntriesOk(s.db, AfterWarmUp(s.kv, ms, fs), id)
  {
    var s := RunEvents(EMPTY, es);
    ReachableInv([]);
    RunKeepsMembers(EMPTY, es, CLEAN);
    ReachableInv(es);
    assert NoLeftover(s.db, s.kv, id);
    WarmUpRepairsExactly(s.db, s.kv, ms, fs, id);
  }

  /** Of a follower that is gone a warm-up removes nothing: after a run its entries are as they were, so
      they are right exactly if nothing was left, as when none of its calls was cut. */
  lemma WarmUpKeepsLeftovers(es: seq<Event>, ms: seq<Master>, fs: seq<Follower>, id: Id)
    requires var s := RunEvents(EMPTY, es); ListsRows(s.db, fs) && !LiveFollower(s.db, id)
    ensures var s := RunEvents(EMPTY, es);
            var later := AfterWarmUp(s.kv, ms, fs);
            && KeysAgree(s.kv, later, id)
            && (id !in AuditEvents(EMPTY, es, CLEAN).stale ==> EntriesOk(s.db, later, id))
  {
    var s := RunEvents(EMPTY, es);
    ReachableInv(es);
    ListsOnce(s.db, fs);
    WarmUpEntries(s.kv, ms, fs, id);
    assert !Listed(fs, id);
    UntouchedIsOk(s.db, s.kv, AfterWarmUp(s.kv, ms, fs), id);
  }

  /** Deleting a follower whose calls were all answered, with the fast-lookup call cut at once, leaves its
      record, and no warm-up removes it. */
  lemma CutDeletionLeavesRecord(es: seq<Event>, id: Id, sub: nat, ms: seq<Master>, fs: seq<Follower>)
    requires LiveFollower(RunEvents(EMPTY, es).db, id) && id !in AuditEvents(EMPTY, es, CLEAN).stale
    requires ListsRows(Step(RunEvents(EMPTY, es), OnDeleteFollower(id, sub, 0)).db, fs)
    ensures var t := Step(RunEvents(EMPTY, es), OnDeleteFollower(id, sub, 0));
            && !LiveFollower(t.db, id)
            && FollowerInfo(id) in AfterWarmUp(t.kv, ms, fs)
            && !EntriesOk(t.db, AfterWarmUp(t.kv, ms, fs), id)
  {
    var s := RunEvents(EMPTY, es);
    var e := OnDeleteFollower(id, sub, 0);
    var t := Step(s, e);
    ReachableInv(es);
    assert EntriesOk(s.db, s.kv, id);
    var f := s.db.followers[id];
    SubscriptionCall(s.kv, SRem(Subscribers(f.masterId), f.account), sub);
    assert FollowerInfo(id) in t.kv;
    StepKeepsInv(s, e, AuditEvents(EMPTY, es, CLEAN));
    ListsOnce(t.db, fs);
    WarmUpEntries(t.kv, ms, fs, id);
    assert !Listed(fs, id);
  }

  lemma OneFollowerRegistered(q: MasterRequest, fq: FollowerRequest, m: Id, f: Id, hash: string) returns (es: seq<Event>)
    requires MasterRequestOk(q) && FollowerRequestOk(fq) && |fq.server| <= 100 && |m| <= 255 && |f| <= 255
    ensures LiveFollower(RunEvents(EMPTY, es).db, f) && f !in AuditEvents(EMPTY, es, CLEAN).stale
  {
    var e1, e2 := OnCreateMaster(q, m, Some(hash), 2), OnRegister(m, fq, f, Some(hash), 3);
    es := [e1, e2] + [];
    TwoEvents(EMPTY, e1, e2, []);
    assert Step(EMPTY, e1).db == Db(map[m := Master(m, q.account, hash, q.server, false)], map[]);
    AnsweredRunsAreClean(EMPTY, es, CLEAN);
  }

  /** Such a run takes three requests: create, register, and a deletion whose fast-lookup call is cut. */
  lemma LeftoverHappens(q: MasterRequest, fq: FollowerRequest, m: Id, f: Id, hash: string) returns (es: seq<Event>)
    requires MasterRequestOk(q) && FollowerRequestOk(fq) && |fq.server| <= 100 && |m| <= 255 && |f| <= 255
    ensures var t := Step(RunEvents(EMPTY, es), OnDeleteFollower(f, 1, 0));
            && !LiveFollower(t.db, f)
            && forall ms, fs :: ListsRows(t.db, fs) ==> FollowerInfo(f) in AfterWarmUp(t.kv, ms, fs)
  {
    es := OneFollowerRegistered(q, fq, m, f, hash);
    var t := Step(RunEvents(EMPTY, es), OnDeleteFollower(f, 1, 0));
    forall ms, fs | ListsRows(t.db, fs)
      ensures FollowerInfo(f) in AfterWarmUp(t.kv, ms, fs)
    {
      CutDeletionLeavesRecord(es, f, 1, ms, fs);
    }
  }

  /** During a run: entries that were right stay right, whatever the audit says about others. */
  lemma WarmUpKeepsRightEntries(s: Sys, a: Audit, ms: seq<Master>, fs: seq<Follower>, id: Id)
    requires Inv(s, a) && ListsRows(s.db, fs)
    ensures EntriesOk(s.db, s.kv, id) ==> EntriesOk(s.db, AfterWarmUp(s.kv, ms, fs), id)
    ensures id !in a.stale ==> EntriesOk(s.db, AfterWarmUp(s.kv, ms, fs), id)
  {
    WarmUpRepairsExactly(s.db, s.kv, ms, fs, id);
  }
}
