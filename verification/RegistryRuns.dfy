/** What every run of the API's operations keeps, and what the two routing paths return. */
module RegistryRuns {
  import opened Wrappers
  import opened Schema
  import opened Keyspace
  import opened Commands
  import opened Registry
  import opened Cache

  // ---- active accounts under one change ----

  lemma ActiveAfterWrite(db: Db, later: Db, id: Id, row: Follower)
    requires UniquePairs(later.followers) && later.followers == db.followers[id := row]
    requires id in db.followers ==> db.followers[id].masterId == row.masterId && db.followers[id].account == row.account
    ensures forall m: Id {:trigger ActiveAccounts(later, m)} :: m != row.masterId ==> ActiveAccounts(later, m) == ActiveAccounts(db, m)
    ensures ActiveAccounts(later, row.masterId) ==
            if ActiveUnder(row, row.masterId) then ActiveAccounts(db, row.masterId) + {row.account}
            else ActiveAccounts(db, row.masterId) - {row.account}
  {
    forall m: Id, x: string
      ensures x in ActiveAccounts(later, m) <==>
              if m == row.masterId && x == row.account then ActiveUnder(row, m) else x in ActiveAccounts(db, m)
    {
      if x in ActiveAccounts(later, m) {
        var k :| k in later.followers && ActiveUnder(later.followers[k], m) && later.followers[k].account == x;
        assert k != id ==> db.followers[k] == later.followers[k];
        assert id in later.followers;
      }
      if x in ActiveAccounts(db, m) {
        var k :| k in db.followers && ActiveUnder(db.followers[k], m) && db.followers[k].account == x;
        assert k in later.followers;
      }
      if m == row.masterId && x == row.account && ActiveUnder(row, m) {
        assert id in later.followers && later.followers[id] == row;
      }
    }
  }

  lemma ActiveAfterMasterDelete(db: Db, id: Id)
    requires Wf(db)
    ensures ActiveAccounts(SoftDeleteMaster(db, id), id) == {}
    ensures forall m: Id {:trigger ActiveAccounts(SoftDeleteMaster(db, id), m)} :: m != id ==>
              ActiveAccounts(SoftDeleteMaster(db, id), m) == ActiveAccounts(db, m)
  {
    var later := SoftDeleteMaster(db, id);
    forall m: Id | m != id
      ensures ActiveAccounts(later, m) == ActiveAccounts(db, m)
    {
      forall x
        ensures x in ActiveAccounts(later, m) <==> x in ActiveAccounts(db, m)
      {
        if x in ActiveAccounts(later, m) {
          var k :| k in later.followers && ActiveUnder(later.followers[k], m) && later.followers[k].account == x;
          assert k in db.followers && db.followers[k] == later.followers[k];
        }
        if x in ActiveAccounts(db, m) {
          var k :| k in db.followers && ActiveUnder(db.followers[k], m) && db.followers[k].account == x;
          assert k in later.followers && db.followers[k] == later.followers[k];
        }
      }
    }
  }

  // ---- commands under SameExcept ----

  lemma SubsElsewhere(kv: map<Key, Value>, later: map<Key, Value>, ks: set<Key>)
    requires SameExcept(kv, later, ks)
    ensures forall m: Id {:trigger Subs(later, m)} :: Subscribers(m) !in ks ==> Subs(later, m) == Subs(kv, m)
  {
  }

  lemma SubscriptionCall(kv: map<Key, Value>, c: Cmd<Key>, n: nat)
    requires Typed(kv) && CmdFits(c)
    ensures var later := Run(kv, [c], n).data;
            && Typed(later) && SameExcept(kv, later, {c.key})
            && (n == 0 ==> later == kv)
            && (n > 0 ==> later == Apply(kv, c).data)
  {
    RunOne(kv, c, n);
    RunFits(kv, [c], n);
    assert KeysOf([c]) == {c.key};
  }

  ghost predicate SubsOkAt(db: Db, kv: map<Key, Value>, a: Audit, m: Id) {
    && (m !in a.lossy ==> ActiveAccounts(db, m) <= Subs(kv, m))
    && (m !in a.dirty ==> ActiveAccounts(db, m) == Subs(kv, m))
  }

  /** Only one master's set or active accounts changed. */
  lemma SubsAtOne(db: Db, kv: map<Key, Value>, a: Audit, db2: Db, kv2: map<Key, Value>, a2: Audit, m: Id)
    requires SubsOk(db, kv, a)
    requires forall x: Id {:trigger Subs(kv2, x)} :: x != m ==>
               ActiveAccounts(db2, x) == ActiveAccounts(db, x) && Subs(kv2, x) == Subs(kv, x)
    requires a2.lossy - {m} == a.lossy - {m} && a2.dirty - {m} == a.dirty - {m}
    requires SubsOkAt(db2, kv2, a2, m)
    ensures SubsOk(db2, kv2, a2)
  {
    forall x: Id
      ensures x !in a2.lossy ==> ActiveAccounts(db2, x) <= Subs(kv2, x)
      ensures x !in a2.dirty ==> ActiveAccounts(db2, x) == Subs(kv2, x)
    {
      if x != m {
        assert x in a2.lossy - {m} <==> x in a.lossy - {m};
        assert x in a2.dirty - {m} <==> x in a.dirty - {m};
      }
    }
  }

  ghost predicate RowsAgree(db: Db, db2: Db, id: Id) {
    && (LiveFollower(db, id) <==> LiveFollower(db2, id))
    && (LiveFollower(db, id) ==>
          var row, row2 := db.followers[id], db2.followers[id];
          && row2.masterId == row.masterId && row2.account == row.account && row2.server == row.server
          && (LiveMaster(db2, row.masterId) ==> LiveMaster(db, row.masterId) && row2.status == row.status))
  }

  lemma EntriesFrame(db: Db, kv: map<Key, Value>, db2: Db, kv2: map<Key, Value>, id: Id)
    requires EntriesOk(db, kv, id) && RowsAgree(db, db2, id) && KeysAgree(kv, kv2, id)
    ensures EntriesOk(db2, kv2, id)
  {
  }

  /** Only one follower's row or entries changed. */
  lemma EntriesAtOne(db: Db, kv: map<Key, Value>, stale: set<Id>, db2: Db, kv2: map<Key, Value>, stale2: set<Id>, id: Id)
    requires AllEntriesOk(db, kv, stale) && stale <= stale2
    requires forall g: Id :: g != id ==> RowsAgree(db, db2, g) && KeysAgree(kv, kv2, g)
    requires id !in stale2 ==> EntriesOk(db2, kv2, id)
    ensures AllEntriesOk(db2, kv2, stale2)
  {
    forall g: Id | g !in stale2
      ensures EntriesOk(db2, kv2, g)
    {
      if g != id { EntriesFrame(db, kv, db2, kv2, g); }
    }
  }

  lemma RowsElsewhere(db: Db, db2: Db, id: Id, row: Follower)
    requires db2.masters == db.masters && db2.followers == db.followers[id := row]
    ensures forall g: Id :: g != id ==> RowsAgree(db, db2, g)
  {
  }

  // ---- fast-lookup calls ----

  lemma {:induction false} RunAbout(kv: map<Key, Value>, cs: seq<Cmd<Key>>, id: Id, n: nat)
    requires Typed(kv) && forall c <- cs :: CmdFits(c) && About(c, id)
    ensures Typed(Run(kv, cs, n).data) && TouchesOnly(kv, Run(kv, cs, n).data, id)
    decreases |cs|
  {
    if cs != [] && n != 0 {
      ApplyFits(kv, cs[0]);
      ApplyAbout(kv, cs[0], id);
      RunAbout(Apply(kv, cs[0]).data, cs[1..], id, n - 1);
    }
  }

  lemma RegisterCall(kv: map<Key, Value>, m: Id, id: Id, info: Info, n: nat)
    requires Typed(kv)
    ensures var later := Run(kv, RegisterCmds(m, id, info), n).data;
            && Typed(later) && TouchesOnly(kv, later, id)
            && (n >= 3 ==>
                  && FollowerInfo(id) in later && later[FollowerInfo(id)] == Record(info)
                  && FollowerMaster(id) in later && later[FollowerMaster(id)] == Text(m)
                  && forall m2: Id :: id in SetAt(later, FollowerSet(m2)) <==> m2 == m || id in SetAt(kv, FollowerSet(m2)))
  {
    var cs := RegisterCmds(m, id, info);
    RunAbout(kv, cs, id, n);
    if n >= 3 {
      RunThree(kv, cs[0], cs[1], cs[2], n);
      ApplyFits(kv, cs[0]);
      ApplyFits(Apply(kv, cs[0]).data, cs[1]);
      ApplyFits(Apply(Apply(kv, cs[0]).data, cs[1]).data, cs[2]);
    }
  }

  lemma UnregisterRun(kv: map<Key, Value>, m: Id, id: Id, n: nat)
    requires Typed(kv) && n >= 3
    ensures var later := Run(kv, UnregisterCmds(m, id), n).data;
            && FollowerInfo(id) !in later && FollowerMaster(id) !in later
            && forall x: Id :: id in SetAt(later, FollowerSet(x)) <==> x != m && id in SetAt(kv, FollowerSet(x))
  {
    var cs := UnregisterCmds(m, id);
    var kv1 := Apply(kv, cs[0]).data;
    var kv2 := Apply(kv1, cs[1]).data;
    RunThree(kv, cs[0], cs[1], cs[2], n);
    ApplyFits(kv, cs[0]);
    ApplyFits(kv1, cs[1]);
    ApplyFits(kv2, cs[2]);
  }

  lemma UnregisterCall(kv: map<Key, Value>, id: Id, n: nat)
    requires Typed(kv)
    ensures var later := Unregister(kv, id, n).data;
            && Typed(later) && TouchesOnly(kv, later, id)
            && (n >= 4 && FollowerMaster(id) in kv ==>
                  && FollowerInfo(id) !in later && FollowerMaster(id) !in later
                  && forall m: Id :: id in SetAt(later, FollowerSet(m)) <==>
                                     Text(m) != kv[FollowerMaster(id)] && id in SetAt(kv, FollowerSet(m)))
  {
    var k := FollowerMaster(id);
    if n > 0 && k in kv {
      var m := kv[k].text;
      var cs := UnregisterCmds(m, id);
      assert Typed(Run(kv, cs, n - 1).data) && TouchesOnly(kv, Run(kv, cs, n - 1).data, id) by { RunAbout(kv, cs, id, n - 1); }
      if n >= 4 { UnregisterRun(kv, m, id, n - 1); }
    }
  }

  lemma RestatusCall(kv: map<Key, Value>, id: Id, status: Status, n: nat)
    requires Typed(kv)
    ensures var later := Restatus(kv, id, status, n).data;
            var k := FollowerInfo(id);
            && Typed(later)
            && SameExcept(kv, later, {k})
            && (k in later <==> k in kv)
            && (n >= 2 && k in kv ==> later[k] == Record(kv[k].info.(status := status)))
  {
    var k := FollowerInfo(id);
    if n > 0 && k in kv {
      SubscriptionCall(kv, Put(k, Record(kv[k].info.(status := status))), n - 1);
    }
  }

  lemma SubsKept(db: Db, kv: map<Key, Value>, a: Audit, db2: Db, kv2: map<Key, Value>, ks: set<Key>)
    requires SubsOk(db, kv, a) && db2.followers == db.followers
    requires SameExcept(kv, kv2, ks) && forall k <- ks :: !k.Subscribers?
    ensures SubsOk(db2, kv2, a)
  {
    forall x: Id
      ensures ActiveAccounts(db2, x) == ActiveAccounts(db, x) && Subs(kv2, x) == Subs(kv, x)
    {
    }
  }

  lemma EntriesKept(db: Db, kv: map<Key, Value>, stale: set<Id>, db2: Db, kv2: map<Key, Value>, ks: set<Key>)
    requires AllEntriesOk(db, kv, stale)
    requires forall g: Id :: RowsAgree(db, db2, g)
    requires SameExcept(kv, kv2, ks) && forall k <- ks :: !k.FollowerInfo? && !k.FollowerMaster? && !k.FollowerSet?
    ensures AllEntriesOk(db2, kv2, stale)
  {
    forall g: Id
      ensures KeysAgree(kv, kv2, g)
    {
    }
    forall g: Id | g !in stale
      ensures EntriesOk(db2, kv2, g)
    {
      EntriesFrame(db, kv, db2, kv2, g);
    }
  }

  // ---- CreateMaster ----

  lemma NewMasterRows(db: Db, m: Master)
    requires Wf(db) && InsertMaster(db, m).Success?
    ensures forall g: Id :: RowsAgree(db, InsertMaster(db, m).value, g)
  {
  }

  lemma NewMasterCached(masters: map<Id, Master>, cache: map<string, Id>, m: Master)
    requires CacheExact(masters, cache) && m.id !in masters && !m.deleted
    requires forall k <- masters :: masters[k].account != m.account
    ensures CacheExact(masters[m.id := m], cache[m.account := m.id])
  {
  }

  lemma CreateMasterKeepsInv(s: Sys, q: MasterRequest, id: Id, hash: Option<string>, n: nat, a: Audit)
    requires Inv(s, a)
    ensures Inv(CreateMaster(s, q, id, hash, n).0, a)
  {
    if MasterRequestOk(q) && hash.Some? {
      var m := Master(id, q.account, hash.value, q.server, false);
      if InsertMaster(s.db, m).Success? {
        var db, cs := InsertMaster(s.db, m).value, RegisterMasterCmds(m);
        var kv := Run(s.kv, cs, n).data;
        assert CreateMaster(s, q, id, hash, n).0 == Sys(db, s.cache[m.account := m.id], kv);
        assert Wf(db) by { InsertMasterKeepsWf(s.db, m); }
        assert Typed(kv) && SameExcept(kv, s.kv, KeysOf(cs)) by { RunFits(s.kv, cs, n); }
        assert KeysOf(cs) == {MasterInfo(id), ActiveMasters};
        assert CacheExact(db.masters, s.cache[m.account := m.id]) by { NewMasterCached(s.db.masters, s.cache, m); }
        assert SubsOk(db, kv, a) by { SubsKept(s.db, s.kv, a, db, kv, KeysOf(cs)); }
        assert AllEntriesOk(db, kv, a.stale) by {
          NewMasterRows(s.db, m);
          EntriesKept(s.db, s.kv, a.stale, db, kv, KeysOf(cs));
        }
      }
    }
  }

  // ---- RegisterFollower ----

  lemma TouchedSubs(kv: map<Key, Value>, kv2: map<Key, Value>, id: Id)
    requires TouchesOnly(kv, kv2, id)
    ensures forall m: Id {:trigger Subs(kv2, m)} :: Subs(kv2, m) == Subs(kv, m)
  {
  }

  lemma RegisterKeepsInv(s: Sys, m: Id, q: FollowerRequest, id: Id, hash: Option<string>, n: nat, a: Audit)
    requires Inv(s, a)
    ensures Inv(RegisterFollower(s, m, q, id, hash, n).0, AuditStep(s, OnRegister(m, q, id, hash, n), a))
  {
    if LiveMaster(s.db, m) && FollowerRequestOk(q) && hash.Some? {
      var f := Follower(id, m, q.account, hash.value, q.server, Inactive, q.multiplier, false);
      var info := FollowerRecord(m, f);
      if InsertFollower(s.db, f).Success? {
        var db := InsertFollower(s.db, f).value;
        var kv := Run(s.kv, RegisterCmds(m, id, info), n).data;
        var a2 := AuditStep(s, OnRegister(m, q, id, hash, n), a);
        assert RegisterFollower(s, m, q, id, hash, n).0 == Sys(db, s.cache, kv);
        assert Wf(db) by { InsertFollowerKeepsWf(s.db, f); }
        assert Typed(kv) && TouchesOnly(s.kv, kv, id) by { RegisterCall(s.kv, m, id, info, n); }
        assert SubsOk(db, kv, a2) by { NewFollowerSubs(s.db, s.kv, f, kv, a, a2); }
        assert AllEntriesOk(db, kv, a2.stale) by { RegisterKeepsEntries(s.db, s.kv, f, n, a.stale, a2.stale); }
      }
    }
  }

  lemma RegisterKeepsEntries(db: Db, kv: map<Key, Value>, f: Follower, n: nat, stale: set<Id>, stale2: set<Id>)
    requires Typed(kv) && InsertFollower(db, f).Success? && !f.deleted && AllEntriesOk(db, kv, stale)
    requires stale2 == if n < 3 then stale + {f.id} else stale
    ensures AllEntriesOk(InsertFollower(db, f).value, Run(kv, RegisterCmds(f.masterId, f.id, FollowerRecord(f.masterId, f)), n).data, stale2)
  {
    var db2, info := InsertFollower(db, f).value, FollowerRecord(f.masterId, f);
    var kv2 := Run(kv, RegisterCmds(f.masterId, f.id, info), n).data;
    assert TouchesOnly(kv, kv2, f.id) by { RegisterCall(kv, f.masterId, f.id, info, n); }
    RowsElsewhere(db, db2, f.id, f);
    TouchedKeys(kv, kv2, f.id);
    if f.id !in stale2 { NewFollowerEntries(db, kv, f, info, n); }
    EntriesAtOne(db, kv, stale, db2, kv2, stale2, f.id);
  }

  lemma NewFollowerSubs(db: Db, kv: map<Key, Value>, f: Follower, kv2: map<Key, Value>, a: Audit, a2: Audit)
    requires Wf(db) && InsertFollower(db, f).Success? && f.status == Inactive && !f.deleted
    requires SubsOk(db, kv, a) && a2.lossy == a.lossy && a2.dirty == a.dirty
    requires TouchesOnly(kv, kv2, f.id)
    ensures SubsOk(InsertFollower(db, f).value, kv2, a2)
  {
    var db2 := InsertFollower(db, f).value;
    InsertFollowerKeepsWf(db, f);
    ActiveAfterWrite(db, db2, f.id, f);
    TouchedSubs(kv, kv2, f.id);
    assert f.account !in ActiveAccounts(db, f.masterId);
    assert SubsOkAt(db, kv, a, f.masterId);
    SubsAtOne(db, kv, a, db2, kv2, a2, f.masterId);
  }

  lemma NewFollowerEntries(db: Db, kv: map<Key, Value>, f: Follower, info: Info, n: nat)
    requires Typed(kv) && InsertFollower(db, f).Success? && !f.deleted && n >= 3
    requires info == FollowerRecord(f.masterId, f) && EntriesOk(db, kv, f.id)
    ensures EntriesOk(InsertFollower(db, f).value, Run(kv, RegisterCmds(f.masterId, f.id, info), n).data, f.id)
  {
    RegisterCall(kv, f.masterId, f.id, info, n);
  }

  // ---- StartFollowing, StopFollowing ----

  lemma SetKeepsSubs(db: Db, kv: map<Key, Value>, a: Audit, id: Id, status: Status, sub: nat, db2: Db, kv2: map<Key, Value>, a2: Audit)
    requires Wf(db) && Wf(db2) && Typed(kv) && SubsOk(db, kv, a) && LiveFollower(db, id)
    requires db2 == UpdateStatus(db, id, status).value
    requires var f := db.followers[id];
             && kv2 == Run(kv, SubscriptionCmds(f.masterId, f.account, status), sub).data
             && a2.lossy == (if sub < 1 && status == Active then a.lossy + {f.masterId} else a.lossy)
             && a2.dirty == (if sub < 1 then a.dirty + {f.masterId} else a.dirty)
    ensures Typed(kv2) && SubsOk(db2, kv2, a2)
    ensures SameExcept(kv, kv2, {Subscribers(db.followers[id].masterId)})
  {
    var f := db.followers[id];
    ActiveAfterWrite(db, db2, id, f.(status := status));
    var c := if status == Active then SAdd(Subscribers(f.masterId), {f.account}) else SRem(Subscribers(f.masterId), f.account);
    SubscriptionCall(kv, c, sub);
    SubsElsewhere(kv, kv2, {Subscribers(f.masterId)});
    assert SubsOkAt(db, kv, a, f.masterId);
    assert SubsOkAt(db2, kv2, a2, f.masterId) by { ApplyFits(kv, c); }
    SubsAtOne(db, kv, a, db2, kv2, a2, f.masterId);
  }

  lemma SetKeepsEntries(db: Db, kv: map<Key, Value>, id: Id, status: Status, m: Id, mid: map<Key, Value>, fast: nat, stale: set<Id>, stale2: set<Id>)
    requires Typed(mid) && LiveFollower(db, id) && AllEntriesOk(db, kv, stale)
    requires SameExcept(kv, mid, {Subscribers(m)})
    requires stale2 == if fast < 2 then stale + {id} else stale
    ensures AllEntriesOk(UpdateStatus(db, id, status).value, Restatus(mid, id, status, fast).data, stale2)
  {
    var db2, kv2 := UpdateStatus(db, id, status).value, Restatus(mid, id, status, fast).data;
    RestatusCall(mid, id, status, fast);
    RowsElsewhere(db, db2, id, db.followers[id].(status := status));
    KeysApart(kv, mid, {Subscribers(m)}, id);
    KeysApart(mid, kv2, {FollowerInfo(id)}, id);
    forall g: Id | g != id ensures KeysAgree(kv, kv2, g) { KeysAgreeIsTransitive(kv, mid, kv2, g); }
    if id !in stale2 {
      assert EntriesOk(db, kv, id);
      SetEntries(db, kv, id, status, mid, fast);
    }
    EntriesAtOne(db, kv, stale, db2, kv2, stale2, id);
  }

  /** Entries of the other followers under a change of keys that are not theirs. */
  lemma KeysApart(kv: map<Key, Value>, kv2: map<Key, Value>, ks: set<Key>, id: Id)
    requires SameExcept(kv, kv2, ks) && forall k <- ks :: k.Subscribers? || k == FollowerInfo(id)
    ensures forall g: Id :: g != id ==> KeysAgree(kv, kv2, g)
    ensures FollowerInfo(id) !in ks ==> KeysAgree(kv, kv2, id)
    ensures forall m: Id :: SetAt(kv2, FollowerSet(m)) == SetAt(kv, FollowerSet(m))
  {
  }

  lemma SetEntries(db: Db, kv: map<Key, Value>, id: Id, status: Status, mid: map<Key, Value>, fast: nat)
    requires Typed(mid) && LiveFollower(db, id) && EntriesOk(db, kv, id) && KeysAgree(kv, mid, id) && fast >= 2
    ensures EntriesOk(UpdateStatus(db, id, status).value, Restatus(mid, id, status, fast).data, id)
  {
    RestatusCall(mid, id, status, fast);
    KeysApart(mid, Restatus(mid, id, status, fast).data, {FollowerInfo(id)}, id);
  }

  lemma SetKeepsInv(s: Sys, id: Id, status: Status, sub: nat, fast: nat, a: Audit)
    requires Inv(s, a)
    ensures Inv(SetFollowing(s, id, status, sub, fast).0, AuditStep(s, OnSet(id, status, sub, fast), a))
  {
    if LiveFollower(s.db, id) {
      var f, db := s.db.followers[id], UpdateStatus(s.db, id, status).value;
      var cs := SubscriptionCmds(f.masterId, f.account, status);
      var mid := Run(s.kv, cs, sub).data;
      var kv := Restatus(mid, id, status, fast).data;
      var a2 := AuditStep(s, OnSet(id, status, sub, fast), a);
      assert SetFollowing(s, id, status, sub, fast).0 == Sys(db, s.cache, kv);
      assert Wf(db) by { UpdateStatusKeepsWf(s.db, id, status); }
      SetKeepsSubs(s.db, s.kv, a, id, status, sub, db, mid, a2);
      assert Typed(kv) && SameExcept(mid, kv, {FollowerInfo(id)}) by { RestatusCall(mid, id, status, fast); }
      assert SubsOk(db, kv, a2) by { SubsKept(db, mid, a2, db, kv, {FollowerInfo(id)}); }
      assert AllEntriesOk(db, kv, a2.stale) by {
        SetKeepsEntries(s.db, s.kv, id, status, f.masterId, mid, fast, a.stale, a2.stale);
      }
    }
  }

  // ---- DeleteMaster ----

  lemma MasterUncached(masters: map<Id, Master>, cache: map<string, Id>, id: Id)
    requires CacheExact(masters, cache) && UniqueAccounts(masters) && id in masters
    ensures CacheExact(masters[id := masters[id].(deleted := true)], cache - {masters[id].account})
  {
  }

  lemma DeletedMasterRows(db: Db, id: Id)
    requires Wf(db) && LiveMaster(db, id)
    ensures forall g: Id :: RowsAgree(db, SoftDeleteMaster(db, id), g)
  {
  }

  lemma DeleteMasterKeepsInv(s: Sys, id: Id, sub: nat, a: Audit)
    requires Inv(s, a)
    ensures Inv(DeleteMaster(s, id, sub).0, AuditStep(s, OnDeleteMaster(id, sub), a))
  {
    if LiveMaster(s.db, id) {
      var db, kv := SoftDeleteMaster(s.db, id), Run(s.kv, ClearCmds(id), sub).data;
      var a2 := AuditStep(s, OnDeleteMaster(id, sub), a);
      var cache := s.cache - {s.db.masters[id].account};
      assert DeleteMaster(s, id, sub).0 == Sys(db, cache, kv);
      assert Wf(db) by { SoftDeleteMasterKeepsWf(s.db, id); }
      assert CacheExact(db.masters, cache) by { MasterUncached(s.db.masters, s.cache, id); }
      SubscriptionCall(s.kv, Del(Subscribers(id)), sub);
      assert SubsOk(db, kv, a2) by {
        ActiveAfterMasterDelete(s.db, id);
        SubsElsewhere(s.kv, kv, {Subscribers(id)});
        SubsAtOne(s.db, s.kv, a, db, kv, a2, id);
      }
      assert AllEntriesOk(db, kv, a2.stale) by {
        DeletedMasterRows(s.db, id);
        EntriesKept(s.db, s.kv, a.stale, db, kv, {Subscribers(id)});
      }
    }
  }

  // ---- DeleteFollower ----

  lemma DeleteKeepsSubs(db: Db, kv: map<Key, Value>, a: Audit, id: Id, sub: nat, db2: Db, kv2: map<Key, Value>, a2: Audit)
    requires Wf(db) && Wf(db2) && Typed(kv) && SubsOk(db, kv, a) && LiveFollower(db, id)
    requires db2 == SoftDeleteFollower(db, id).value
    requires var f := db.followers[id];
             && kv2 == (if f.status == Active then Run(kv, UnsubscribeCmds(f.masterId, f.account), sub).data else kv)
             && a2.lossy == a.lossy
             && a2.dirty == (if f.status == Active && sub < 1 then a.dirty + {f.masterId} else a.dirty)
    ensures Typed(kv2) && SubsOk(db2, kv2, a2)
    ensures SameExcept(kv, kv2, {Subscribers(db.followers[id].masterId)})
  {
    var f := db.followers[id];
    assert f.status == Inactive ==> f.account !in ActiveAccounts(db, f.masterId);
    ActiveAfterWrite(db, db2, id, f.(deleted := true, status := Inactive));
    var c := SRem(Subscribers(f.masterId), f.account);
    SubscriptionCall(kv, c, sub);
    SubsElsewhere(kv, kv2, {Subscribers(f.masterId)});
    assert SubsOkAt(db, kv, a, f.masterId);
    assert SubsOkAt(db2, kv2, a2, f.masterId) by { ApplyFits(kv, c); }
    SubsAtOne(db, kv, a, db2, kv2, a2, f.masterId);
  }

  lemma DeleteKeepsEntries(db: Db, kv: map<Key, Value>, id: Id, m: Id, mid: map<Key, Value>, fast: nat, stale: set<Id>, stale2: set<Id>)
    requires Typed(mid) && LiveFollower(db, id) && AllEntriesOk(db, kv, stale)
    requires SameExcept(kv, mid, {Subscribers(m)})
    requires stale2 == if fast < 4 then stale + {id} else stale
    ensures AllEntriesOk(SoftDeleteFollower(db, id).value, Unregister(mid, id, fast).data, stale2)
  {
    var db2, kv2 := SoftDeleteFollower(db, id).value, Unregister(mid, id, fast).data;
    assert TouchesOnly(mid, kv2, id) by { UnregisterCall(mid, id, fast); }
    RowsElsewhere(db, db2, id, db.followers[id].(deleted := true, status := Inactive));
    KeysApart(kv, mid, {Subscribers(m)}, id);
    TouchedKeys(mid, kv2, id);
    forall g: Id | g != id ensures KeysAgree(kv, kv2, g) { KeysAgreeIsTransitive(kv, mid, kv2, g); }
    if id !in stale2 {
      assert EntriesOk(db, kv, id);
      DeleteEntries(db, kv, id, mid, fast);
    }
    EntriesAtOne(db, kv, stale, db2, kv2, stale2, id);
  }

  lemma DeleteEntries(db: Db, kv: map<Key, Value>, id: Id, mid: map<Key, Value>, fast: nat)
    requires Typed(mid) && LiveFollower(db, id) && EntriesOk(db, kv, id) && KeysAgree(kv, mid, id) && fast >= 4
    ensures EntriesOk(SoftDeleteFollower(db, id).value, Unregister(mid, id, fast).data, id)
  {
    UnregisterCall(mid, id, fast);
  }

  lemma DeleteFollowerKeepsInv(s: Sys, id: Id, sub: nat, fast: nat, a: Audit)
    requires Inv(s, a)
    ensures Inv(DeleteFollower(s, id, sub, fast).0, AuditStep(s, OnDeleteFollower(id, sub, fast), a))
  {
    if LiveFollower(s.db, id) {
      var f, db := s.db.followers[id], SoftDeleteFollower(s.db, id).value;
      var mid := if f.status == Active then Run(s.kv, UnsubscribeCmds(f.masterId, f.account), sub).data else s.kv;
      var kv := Unregister(mid, id, fast).data;
      var a2 := AuditStep(s, OnDeleteFollower(id, sub, fast), a);
      assert DeleteFollower(s, id, sub, fast).0 == Sys(db, s.cache, kv);
      assert Wf(db) by { SoftDeleteFollowerKeepsWf(s.db, id); }
      DeleteKeepsSubs(s.db, s.kv, a, id, sub, db, mid, a2);
      assert Typed(kv) && TouchesOnly(mid, kv, id) by { UnregisterCall(mid, id, fast); }
      assert SubsOk(db, kv, a2) by { TouchedSubs(mid, kv, id); }
      assert AllEntriesOk(db, kv, a2.stale) by {
        DeleteKeepsEntries(s.db, s.kv, id, f.masterId, mid, fast, a.stale, a2.stale);
      }
    }
  }

  // ---- SyncFollowers and the startup sync ----

  lemma ActiveRows(db: Db, m: Id, rows: seq<Follower>)
    requires (set r | r in rows) == ActiveByMaster(db, m)
    ensures AccountsOf(rows) == ActiveAccounts(db, m)
  {
    forall x
      ensures x in AccountsOf(rows) <==> x in ActiveAccounts(db, m)
    {
      if x in AccountsOf(rows) {
        var r :| r in rows && r.account == x;
        assert r in ActiveByMaster(db, m);
        var k :| k in db.followers && ActiveUnder(db.followers[k], m) && db.followers[k] == r;
      }
      if x in ActiveAccounts(db, m) {
        var k :| k in db.followers && ActiveUnder(db.followers[k], m) && db.followers[k].account == x;
        assert db.followers[k] in ActiveByMaster(db, m);
      }
    }
  }

  lemma SyncKeepsInv(s: Sys, m: Id, rows: seq<Follower>, n: nat, a: Audit)
    requires Inv(s, a) && (set r | r in rows) == ActiveByMaster(s.db, m)
    ensures Inv(s.(kv := Run(s.kv, SyncCmds(m, rows), n).data), AuditStep(s, OnSync(m, rows, n), a))
  {
    var kv, a2 := Run(s.kv, SyncCmds(m, rows), n).data, AuditStep(s, OnSync(m, rows, n), a);
    SyncCall(s.kv, m, rows, n);
    assert SubsOk(s.db, kv, a2) by {
      ActiveRows(s.db, m, rows);
      assert rows[..|rows|] == rows;
      SubsElsewhere(s.kv, kv, {Subscribers(m)});
      SubsAtOne(s.db, s.kv, a, s.db, kv, a2, m);
    }
    assert AllEntriesOk(s.db, kv, a2.stale) by {
      EntriesKept(s.db, s.kv, a.stale, s.db, kv, {Subscribers(m)});
    }
  }

  lemma StartupKeepsSubs(db: Db, kv: map<Key, Value>, kv2: map<Key, Value>, a: Audit, a2: Audit, ms: set<Id>, complete: bool)
    requires SubsOk(db, kv, a) && UniquePairs(db.followers)
    requires SameExcept(kv, kv2, set m | m in ms :: Subscribers(m))
    requires complete ==> forall m <- ms :: Subs(kv2, m) == KnownAccounts(db, m)
    requires a2.lossy == if complete then a.lossy - ms else a.lossy + ms
    requires a2.dirty == if complete then a.dirty - ms + InactiveMasters(db) else a.dirty + ms
    ensures SubsOk(db, kv2, a2)
  {
    forall m: Id
      ensures SubsOkAt(db, kv2, a2, m)
    {
      if m !in ms {
        assert Subs(kv2, m) == Subs(kv, m);
      } else if complete {
        KnownVersusActive(db, m);
      }
    }
    assert forall m: Id {:trigger Subs(kv2, m)} :: SubsOkAt(db, kv2, a2, m);
  }

  lemma {:induction false} StartupLength(groups: map<Id, set<string>>, order: seq<Id>)
    requires forall m <- order :: m in groups && groups[m] != {}
    ensures |ReplaceCmds(groups, order)| == 2 * |order|
  {
    if order != [] { StartupLength(groups, order[1..]); }
  }

  lemma KnownAccountsExist(db: Db, ms: set<Id>)
    requires ms <= MastersWithFollowers(db)
    ensures forall m <- ms :: KnownAccounts(db, m) != {}
  {
    forall m | m in ms
      ensures KnownAccounts(db, m) != {}
    {
      assert m in MastersWithFollowers(db);
      var k :| k in db.followers && !db.followers[k].deleted && db.followers[k].masterId == m;
      assert db.followers[k].account in KnownAccounts(db, m);
    }
  }

  lemma KnownVersusActive(db: Db, m: Id)
    requires UniquePairs(db.followers)
    ensures ActiveAccounts(db, m) <= KnownAccounts(db, m)
    ensures ActiveAccounts(db, m) == KnownAccounts(db, m) <==> m !in InactiveMasters(db)
  {
    if m in InactiveMasters(db) {
      var k :| k in db.followers && !db.followers[k].deleted && db.followers[k].status == Inactive && db.followers[k].masterId == m;
      assert db.followers[k].account in KnownAccounts(db, m);
      assert db.followers[k].account !in ActiveAccounts(db, m);
    }
  }

  lemma StartupCall(db: Db, kv: map<Key, Value>, order: seq<Id>, n: nat)
    requires (set m | m in order) == MastersWithFollowers(db)
    ensures var later := Pipe(kv, ReplaceCmds(StartupGroups(db), order), n);
            && SameExcept(kv, later, SubscriberKeys(order))
            && (Typed(kv) ==> Typed(later))
            && (n >= 2 * |order| ==> forall m <- order :: Subs(later, m) == KnownAccounts(db, m))
  {
    var groups := StartupGroups(db);
    KnownAccountsExist(db, set m | m in order);
    forall m | m in order
      ensures m in groups && groups[m] != {}
    {
      assert m in MastersWithFollowers(db);
    }
    ReplaceCall(kv, groups, order, n);
    StartupLength(groups, order);
    var later := Pipe(kv, ReplaceCmds(groups, order), n);
    if n >= 2 * |order| {
      forall m | m in order
        ensures Subs(later, m) == KnownAccounts(db, m)
      {
        assert HoldsGroup(later, m, groups[m]);
      }
    }
  }

  lemma StartupKeepsInv(s: Sys, order: seq<Id>, n: nat, a: Audit)
    requires Inv(s, a) && (set m | m in order) == MastersWithFollowers(s.db)
    ensures Inv(s.(kv := Pipe(s.kv, ReplaceCmds(StartupGroups(s.db), order), n)), AuditStep(s, OnStartup(order, n), a))
  {
    var kv, a2 := Pipe(s.kv, ReplaceCmds(StartupGroups(s.db), order), n), AuditStep(s, OnStartup(order, n), a);
    var ms := set m | m in order;
    StartupCall(s.db, s.kv, order, n);
    var ks := SubscriberKeys(order);
    assert ks == set m | m in ms :: Subscribers(m);
    assert SubsOk(s.db, kv, a2) by {
      StartupKeepsSubs(s.db, s.kv, kv, a, a2, ms, 2 * |order| <= n);
    }
    assert AllEntriesOk(s.db, kv, a2.stale) by {
      EntriesKept(s.db, s.kv, a.stale, s.db, kv, ks);
    }
  }

  // ---- every run ----

  lemma StepKeepsInv(s: Sys, e: Event, a: Audit)
    requires Inv(s, a)
    ensures Inv(Step(s, e), AuditStep(s, e, a))
  {
    match e
    case OnCreateMaster(q, id, hash, fast) => CreateMasterKeepsInv(s, q, id, hash, fast, a);
    case OnRegister(m, q, id, hash, fast) => RegisterKeepsInv(s, m, q, id, hash, fast, a);
    case OnSet(id, status, sub, fast) => SetKeepsInv(s, id, status, sub, fast, a);
    case OnDeleteMaster(id, sub) => DeleteMasterKeepsInv(s, id, sub, a);
    case OnDeleteFollower(id, sub, fast) => DeleteFollowerKeepsInv(s, id, sub, fast, a);
    case OnSync(m, rows, sub) =>
      if (set r | r in rows) == ActiveByMaster(s.db, m) { SyncKeepsInv(s, m, rows, sub, a); }
    case OnStartup(order, sub) =>
      if (set m | m in order) == MastersWithFollowers(s.db) { StartupKeepsInv(s, order, sub, a); }
  }

  lemma {:induction false} RunKeepsInv(s: Sys, es: seq<Event>, a: Audit)
    requires Inv(s, a)
    ensures Inv(RunEvents(s, es), AuditEvents(s, es, a))
    decreases |es|
  {
    if es != [] {
      StepKeepsInv(s, es[0], a);
      RunKeepsInv(Step(s, es[0]), es[1..], AuditStep(s, es[0], a));
    }
  }

  // ---- main results ----

  const EMPTY := Sys(Db(map[], map[]), map[], map[])

  lemma ReachableInv(es: seq<Event>)
    ensures Inv(RunEvents(EMPTY, es), AuditEvents(EMPTY, es, CLEAN))
  {
    assert Inv(EMPTY, CLEAN);
    RunKeepsInv(EMPTY, es, CLEAN);
  }

  /** Service.DistributeSignal up to the fan-out: the subscription set, then GetByAccountIDs. */
  function FastPath(s: Sys, m: Id): set<Follower> {
    ActiveByAccounts(s.db, Subs(s.kv, m))
  }

  /** What the tables alone say. */
  function SlowPath(s: Sys, m: Id): set<Follower> {
    ActiveByMaster(s.db, m)
  }

  /** No account on the list of `m` is followed actively under another master. */
  ghost predicate ListedOnlyHere(db: Db, listed: set<string>, m: Id) {
    forall k <- db.followers ::
      db.followers[k].account in listed && db.followers[k].status == Active && !db.followers[k].deleted
      ==> db.followers[k].masterId == m
  }

  lemma PathsAgreeExactly(s: Sys, m: Id)
    requires ActiveAccounts(s.db, m) <= Subs(s.kv, m)
    ensures SlowPath(s, m) <= FastPath(s, m)
    ensures FastPath(s, m) == SlowPath(s, m) <==> ListedOnlyHere(s.db, Subs(s.kv, m), m)
  {
    var db := s.db;
    forall f | f in SlowPath(s, m)
      ensures f in FastPath(s, m)
    {
      var k :| k in db.followers && ActiveUnder(db.followers[k], m) && db.followers[k] == f;
      assert f.account in ActiveAccounts(db, m);
    }
    if FastPath(s, m) == SlowPath(s, m) {
      forall k | k in db.followers && db.followers[k].account in Subs(s.kv, m)
                 && db.followers[k].status == Active && !db.followers[k].deleted
        ensures db.followers[k].masterId == m
      {
        assert db.followers[k] in FastPath(s, m);
      }
    }
    if ListedOnlyHere(db, Subs(s.kv, m), m) {
      forall f | f in FastPath(s, m)
        ensures f in SlowPath(s, m)
      {
      }
    }
  }

  /** Routing, over every run of the API from an empty system, with any Redis calls cut short.
      For a master none of whose additions was lost, the fast path reaches every active follower; it
      reaches no one else exactly when no listed account is active under another master; and when
      none of the master's calls was lost, "listed" is "active under this master". */
  lemma RoutingOverRuns(es: seq<Event>, m: Id)
    ensures var s, a := RunEvents(EMPTY, es), AuditEvents(EMPTY, es, CLEAN);
            && (m !in a.lossy ==>
                  && SlowPath(s, m) <= FastPath(s, m)
                  && (FastPath(s, m) == SlowPath(s, m) <==> ListedOnlyHere(s.db, Subs(s.kv, m), m)))
            && (m !in a.dirty ==>
                  && Subs(s.kv, m) == ActiveAccounts(s.db, m)
                  && SlowPath(s, m) <= FastPath(s, m)
                  && (FastPath(s, m) == SlowPath(s, m) <==> ListedOnlyHere(s.db, ActiveAccounts(s.db, m), m)))
  {
    ReachableInv(es);
    var s, a := RunEvents(EMPTY, es), AuditEvents(EMPTY, es, CLEAN);
    assert SubsOkAt(s.db, s.kv, a, m) by { assert Subs(s.kv, m) == Subs(s.kv, m); }
    if m !in a.lossy || m !in a.dirty {
      PathsAgreeExactly(s, m);
    }
  }

  /** The family of inputs on which the fast path over-delivers: an account that actively follows two
      masters receives, with the signals of one, an order sized for the other. */
  lemma SameAccountUnderTwoMasters(es: seq<Event>, m: Id, here: Id, there: Id)
    requires var s := RunEvents(EMPTY, es);
             && here in s.db.followers && there in s.db.followers
             && ActiveUnder(s.db.followers[here], m)
             && s.db.followers[there].masterId != m && ActiveUnder(s.db.followers[there], s.db.followers[there].masterId)
             && s.db.followers[there].account == s.db.followers[here].account
    ensures var s, a := RunEvents(EMPTY, es), AuditEvents(EMPTY, es, CLEAN);
            m !in a.lossy ==> s.db.followers[there] in FastPath(s, m) && s.db.followers[there] !in SlowPath(s, m)
  {
    ReachableInv(es);
    var s, a := RunEvents(EMPTY, es), AuditEvents(EMPTY, es, CLEAN);
    assert SubsOkAt(s.db, s.kv, a, m) by { assert Subs(s.kv, m) == Subs(s.kv, m); }
    assert s.db.followers[here].account in ActiveAccounts(s.db, m);
  }

  /** Every Redis command of the event is answered. */
  predicate Answered(e: Event) {
    match e
    case OnCreateMaster(_, _, _, fast) => fast >= 2
    case OnRegister(_, _, _, _, fast) => fast >= 3
    case OnSet(_, _, sub, fast) => sub >= 1 && fast >= 2
    case OnDeleteMaster(_, sub) => sub >= 1
    case OnDeleteFollower(_, sub, fast) => sub >= 1 && fast >= 4
    case OnSync(_, rows, sub) => sub >= 1 + |rows|
    case OnStartup(order, sub) => sub >= 2 * |order|
  }

  /** With Redis answering, nothing is ever lost or stale, and without a startup sync nothing is dirty. */
  lemma {:induction false} AnsweredRunsAreClean(s: Sys, es: seq<Event>, a: Audit)
    requires forall e <- es :: Answered(e)
    requires a.lossy == {} && a.stale == {}
    ensures var a2 := AuditEvents(s, es, a);
            && a2.lossy == {} && a2.stale == {}
            && (a.dirty == {} && (forall e <- es :: !e.OnStartup?) ==> a2.dirty == {})
    decreases |es|
  {
    if es != [] {
      assert Answered(es[0]);
      var a1 := AuditStep(s, es[0], a);
      assert a1.lossy == {} && a1.stale == {};
      assert a.dirty == {} && !es[0].OnStartup? ==> a1.dirty == {};
      AnsweredRunsAreClean(Step(s, es[0]), es[1..], a1);
    }
  }

  lemma TwoEvents(s: Sys, e: Event, f: Event, es: seq<Event>)
    ensures RunEvents(s, [e, f] + es) == RunEvents(Step(Step(s, e), f), es)
  {
    assert ([e, f] + es)[1..] == [f] + es && ([f] + es)[1..] == es;
  }

  function BothMasters(q1: MasterRequest, q2: MasterRequest, m1: Id, m2: Id, hash: string): map<Id, Master> {
    map[m1 := Master(m1, q1.account, hash, q1.server, false), m2 := Master(m2, q2.account, hash, q2.server, false)]
  }

  lemma TwoMastersCreated(q1: MasterRequest, q2: MasterRequest, m1: Id, m2: Id, hash: string)
    requires MasterRequestOk(q1) && MasterRequestOk(q2) && q1.account != q2.account
    requires m1 != m2 && |m1| <= 255 && |m2| <= 255
    ensures Step(Step(EMPTY, OnCreateMaster(q1, m1, Some(hash), 2)), OnCreateMaster(q2, m2, Some(hash), 2)).db
         == Db(BothMasters(q1, q2, m1, m2, hash), map[])
  {
    assert Step(EMPTY, OnCreateMaster(q1, m1, Some(hash), 2)).db == Db(map[m1 := Master(m1, q1.account, hash, q1.server, false)], map[]);
  }

  function BothFollowers(q: FollowerRequest, m1: Id, m2: Id, f1: Id, f2: Id, hash: string, status1: Status, status2: Status): map<Id, Follower> {
    map[f1 := Follower(f1, m1, q.account, hash, q.server, status1, q.multiplier, false),
        f2 := Follower(f2, m2, q.account, hash, q.server, status2, q.multiplier, false)]
  }

  lemma TwoFollowersRegistered(s: Sys, q: FollowerRequest, m1: Id, m2: Id, f1: Id, f2: Id, hash: string)
    requires LiveMaster(s.db, m1) && LiveMaster(s.db, m2) && m1 != m2 && s.db.followers == map[]
    requires FollowerRequestOk(q) && |q.server| <= 100 && f1 != f2 && |f1| <= 255 && |f2| <= 255
    ensures Step(Step(s, OnRegister(m1, q, f1, Some(hash), 3)), OnRegister(m2, q, f2, Some(hash), 3)).db
         == Db(s.db.masters, BothFollowers(q, m1, m2, f1, f2, hash, Inactive, Inactive))
  {
    assert Step(s, OnRegister(m1, q, f1, Some(hash), 3)).db
        == Db(s.db.masters, map[f1 := Follower(f1, m1, q.account, hash, q.server, Inactive, q.multiplier, false)]);
  }

  lemma SetRow(s: Sys, id: Id, status: Status)
    requires LiveFollower(s.db, id)
    ensures Step(s, OnSet(id, status, 1, 2)).db.followers == s.db.followers[id := s.db.followers[id].(status := status)]
  {
  }

  lemma BothStarted(q: FollowerRequest, m1: Id, m2: Id, f1: Id, f2: Id, hash: string)
    requires f1 != f2
    ensures var none := BothFollowers(q, m1, m2, f1, f2, hash, Inactive, Inactive);
            var one := none[f1 := none[f1].(status := Active)];
            && one == BothFollowers(q, m1, m2, f1, f2, hash, Active, Inactive)
            && one[f2 := one[f2].(status := Active)] == BothFollowers(q, m1, m2, f1, f2, hash, Active, Active)
  {
  }

  lemma TwoFollowersStarted(s: Sys, q: FollowerRequest, m1: Id, m2: Id, f1: Id, f2: Id, hash: string)
    requires f1 != f2 && s.db.followers == BothFollowers(q, m1, m2, f1, f2, hash, Inactive, Inactive)
    ensures Step(Step(s, OnSet(f1, Active, 1, 2)), OnSet(f2, Active, 1, 2)).db.followers
         == BothFollowers(q, m1, m2, f1, f2, hash, Active, Active)
  {
    var s1 := Step(s, OnSet(f1, Active, 1, 2));
    SetRow(s, f1, Active);
    BothStarted(q, m1, m2, f1, f2, hash);
    SetRow(s1, f2, Active);
  }

  lemma BothReceive(es: seq<Event>, q: FollowerRequest, m1: Id, m2: Id, f1: Id, f2: Id, hash: string)
    requires m1 != m2 && f1 != f2 && forall e <- es :: Answered(e)
    requires RunEvents(EMPTY, es).db.followers == BothFollowers(q, m1, m2, f1, f2, hash, Active, Active)
    ensures var s := RunEvents(EMPTY, es);
            s.db.followers[f2].masterId == m2 && s.db.followers[f2] in FastPath(s, m1) - SlowPath(s, m1)
  {
    AnsweredRunsAreClean(EMPTY, es, CLEAN);
    SameAccountUnderTwoMasters(es, m1, f1, f2);
  }

  lemma SixEvents(q1: MasterRequest, q2: MasterRequest, q: FollowerRequest, m1: Id, m2: Id, f1: Id, f2: Id, hash: string, es: seq<Event>)
    requires MasterRequestOk(q1) && MasterRequestOk(q2) && q1.account != q2.account
    requires m1 != m2 && |m1| <= 255 && |m2| <= 255
    requires FollowerRequestOk(q) && |q.server| <= 100 && f1 != f2 && |f1| <= 255 && |f2| <= 255
    requires es == [OnCreateMaster(q1, m1, Some(hash), 2), OnCreateMaster(q2, m2, Some(hash), 2)]
                 + ([OnRegister(m1, q, f1, Some(hash), 3), OnRegister(m2, q, f2, Some(hash), 3)]
                 + ([OnSet(f1, Active, 1, 2), OnSet(f2, Active, 1, 2)] + []))
    ensures RunEvents(EMPTY, es).db.followers == BothFollowers(q, m1, m2, f1, f2, hash, Active, Active)
  {
    var s2 := Step(Step(EMPTY, es[0]), es[1]);
    var s4 := Step(Step(s2, es[2]), es[3]);
    TwoEvents(EMPTY, es[0], es[1], [es[2], es[3]] + ([es[4], es[5]] + []));
    TwoEvents(s2, es[2], es[3], [es[4], es[5]] + []);
    TwoEvents(s4, es[4], es[5], []);
    TwoMastersCreated(q1, q2, m1, m2, hash);
    TwoFollowersRegistered(s2, q, m1, m2, f1, f2, hash);
    TwoFollowersStarted(s4, q, m1, m2, f1, f2, hash);
  }

  /** Such a run needs no failure at all: one account registers under two masters and starts both. */
  lemma OverDeliveryHappens(q1: MasterRequest, q2: MasterRequest, q: FollowerRequest, m1: Id, m2: Id, f1: Id, f2: Id, hash: string)
    returns (es: seq<Event>)
    requires MasterRequestOk(q1) && MasterRequestOk(q2) && q1.account != q2.account
    requires m1 != m2 && |m1| <= 255 && |m2| <= 255
    requires FollowerRequestOk(q) && |q.server| <= 100 && f1 != f2 && |f1| <= 255 && |f2| <= 255
    ensures forall e <- es :: Answered(e) && !e.OnStartup?
    ensures var s := RunEvents(EMPTY, es);
            && f2 in s.db.followers && s.db.followers[f2].masterId == m2
            && s.db.followers[f2] in FastPath(s, m1) - SlowPath(s, m1)
  {
    es := [OnCreateMaster(q1, m1, Some(hash), 2), OnCreateMaster(q2, m2, Some(hash), 2)]
        + ([OnRegister(m1, q, f1, Some(hash), 3), OnRegister(m2, q, f2, Some(hash), 3)]
        + ([OnSet(f1, Active, 1, 2), OnSet(f2, Active, 1, 2)] + []));
    SixEvents(q1, q2, q, m1, m2, f1, f2, hash, es);
    BothReceive(es, q, m1, m2, f1, f2, hash);
  }

  /** The startup sync lists every follower that is not deleted, so a master's list equals its active
      accounts afterwards exactly when it has no inactive follower. */
  lemma StartupListsInactiveToo(s: Sys, order: seq<Id>, n: nat, m: Id)
    requires Wf(s.db) && Typed(s.kv) && (set x | x in order) == MastersWithFollowers(s.db)
    requires 2 * |order| <= n && m in order
    ensures var t := Step(s, OnStartup(order, n));
            && Subs(t.kv, m) == KnownAccounts(t.db, m)
            && (Subs(t.kv, m) == ActiveAccounts(t.db, m) <==> m !in InactiveMasters(t.db))
  {
    StartupCall(s.db, s.kv, order, n);
    KnownVersusActive(s.db, m);
  }

  /** Fast lookup over every run: the entries of a follower whose own calls were all answered are those
      of its row while it exists, and nothing is left of it once it is deleted. */
  lemma FastLookupOverRuns(es: seq<Event>, id: Id)
    ensures var s, a := RunEvents(EMPTY, es), AuditEvents(EMPTY, es, CLEAN);
            id !in a.stale ==> EntriesOk(s.db, s.kv, id)
  {
    ReachableInv(es);
  }

  /** DeleteMaster deactivates the rows and leaves the records: the record of a follower shows the row's
      status afterwards if and only if the follower was inactive. */
  lemma MasterDeletionLeavesRecords(s: Sys, a: Audit, m: Id, sub: nat, id: Id)
    requires Inv(s, a) && LiveMaster(s.db, m) && id !in a.stale
    requires LiveFollower(s.db, id) && s.db.followers[id].masterId == m
    ensures var t := DeleteMaster(s, m, sub).0;
            && LiveFollower(t.db, id) && t.db.followers[id].status == Inactive
            && FollowerInfo(id) in t.kv && t.kv[FollowerInfo(id)].Record?
            && t.kv[FollowerInfo(id)].info.status == s.db.followers[id].status
            && (t.kv[FollowerInfo(id)].info.status == t.db.followers[id].status <==> s.db.followers[id].status == Inactive)
  {
    assert EntriesOk(s.db, s.kv, id);
    SubscriptionCall(s.kv, Del(Subscribers(m)), sub);
  }
}
