/** Reading the mirrors for a signal, and rebuilding them: distributor.Service and the startup sync. */
module Service {
  import opened Wrappers
  import opened Schema
  import opened Repository
  import opened Cache
  import opened Keyspace
  import opened Commands
  import opened Stores
  import opened Registry
  import opened RegistryRuns

  /** Peels the clear off a sync. */
  lemma FirstClear(data: map<string, Value>, m: Id, rows: seq<Follower>, n: nat)
    ensures var one := Run(data, EncodeAll(ClearCmds(m)), n);
            Run(data, EncodeAll(SyncCmds(m, rows)), n)
            == if one.ok && n > 0 then Run(one.data, EncodeAll(AddCmds(m, rows)), n - 1) else one
    ensures Run(data, EncodeAll(ClearCmds(m)), n).ok ==> n > 0
  {
    RunSingle(data, Del(Subscribers(m)), n);
    var cs := EncodeAll(SyncCmds(m, rows));
    assert cs[1..] == EncodeAll(AddCmds(m, rows));
    assert EncodeAll(ClearCmds(m)) == [cs[0]];
  }

  class DistributionService {
    const subStore: SubscriptionStore
    const followerRepo: FollowerRepository

    constructor (subStore: SubscriptionStore, followerRepo: FollowerRepository)
      ensures this.subStore == subStore && this.followerRepo == followerRepo
    {
      this.subStore, this.followerRepo := subStore, followerRepo;
    }

    /** Whom DistributeSignal (and distributeToFollowers in the TCP bridge) hands to the fan-out; None
        when Redis does not answer, or answers that the key holds no set. */
    method Recipients(masterId: Id, answered: bool) returns (r: Option<seq<Follower>>)
      ensures var k := Encode(Subscribers(masterId));
              r.Some? <==> answered && (k in subStore.client.data ==> subStore.client.data[k].Members?)
      ensures r.Some? ==> Enumerates(r.value, ActiveByAccounts(followerRepo.db.State(),
                            SetAt(subStore.client.data, Encode(Subscribers(masterId)))))
    {
      var accounts := subStore.GetFollowers(masterId, answered);
      if accounts.None? {
        return None;
      }
      if |accounts.value| == 0 {
        assert SetAt(subStore.client.data, Encode(Subscribers(masterId))) == {};
        return Some([]);
      }
      var rows := followerRepo.GetByAccountIDs(accounts.value);
      assert (set a | a in accounts.value) == SetAt(subStore.client.data, Encode(Subscribers(masterId)));
      r := Some(rows);
    }

    /** The bridge on a signal: only the signals of cached masters are handed on. */
    method Route(cache: MasterCache, account: string, answered: bool) returns (r: Option<seq<Follower>>)
      ensures account == "" || account !in cache.cache ==> r == Some([])
      ensures account != "" && account in cache.cache ==>
                var data, k := subStore.client.data, Encode(Subscribers(cache.cache[account]));
                && (r.Some? <==> answered && (k in data ==> data[k].Members?))
                && (r.Some? ==> Enumerates(r.value, ActiveByAccounts(followerRepo.db.State(), SetAt(data, k))))
    {
      if account == "" {
        return Some([]);
      }
      var masterId, found := cache.Get(account);
      if !found {
        return Some([]);
      }
      r := Recipients(masterId, answered);
    }

    /** Returns the rows it read.  The set is cleared even when there is nothing to add. */
    method SyncFollowers(masterId: Id, answered: nat) returns (rows: seq<Follower>, ok: bool)
      modifies subStore.client
      ensures Enumerates(rows, ActiveByMaster(followerRepo.db.State(), masterId))
      ensures var r := Run(old(subStore.client.data), EncodeAll(SyncCmds(masterId, rows)), answered);
              subStore.client.data == r.data && ok == r.ok
    {
      rows := followerRepo.GetActiveFollowersByMaster(masterId);
      FirstClear(subStore.client.data, masterId, rows, answered);
      ok := subStore.ClearMasterFollowers(masterId, answered);
      if !ok {
        return;
      }
      ok := subStore.AddAll(masterId, rows, answered - 1);
    }
  }

  /** cmd/api at startup: every follower that is not deleted, grouped by master, in one pipeline. */
  method SyncAtStartup(followerRepo: FollowerRepository, subStore: SubscriptionStore, answered: nat)
    returns (order: seq<Id>, ok: bool)
    modifies subStore.client
    ensures (set m | m in order) == MastersWithFollowers(followerRepo.db.State())
    ensures subStore.client.data ==
            Pipe(old(subStore.client.data), EncodeAll(ReplaceCmds(StartupGroups(followerRepo.db.State()), order)), answered)
    ensures ok == PipeOk(old(subStore.client.data), EncodeAll(ReplaceCmds(StartupGroups(followerRepo.db.State()), order)), answered)
  {
    var rows := followerRepo.GetAll();
    var groups := GroupByMaster(rows);
    GroupsAtStartup(followerRepo.db.State(), rows);
    assert groups.Keys == AsSets(groups).Keys;
    order, ok := subStore.SyncFromFollowerList(groups, answered);
  }

  lemma GroupsAtStartup(db: Db, rows: seq<Follower>)
    requires Enumerates(rows, NotDeleted(db))
    ensures GroupsOf(rows) == StartupGroups(db)
  {
    forall m
      ensures m in MastersOf(rows) <==> m in MastersWithFollowers(db)
      ensures AccountsUnder(rows, m) == KnownAccounts(db, m)
    {
      KnownRows(db, rows, m);
    }
  }

  lemma KnownRows(db: Db, rows: seq<Follower>, m: Id)
    requires Enumerates(rows, NotDeleted(db))
    ensures m in MastersOf(rows) <==> m in MastersWithFollowers(db)
    ensures AccountsUnder(rows, m) == KnownAccounts(db, m)
  {
    forall k | k in db.followers && !db.followers[k].deleted
      ensures db.followers[k] in rows
    {
      assert db.followers[k] in NotDeleted(db);
    }
    forall f | f in rows
      ensures exists k <- db.followers :: db.followers[k] == f && !f.deleted
    {
      assert f in NotDeleted(db);
    }
    forall x
      ensures x in AccountsUnder(rows, m) <==> x in KnownAccounts(db, m)
    {
    }
  }

  /** The recipients that the flat store gives are those of the fast path. */
  lemma RecipientsAreFastPath(db: Db, cache: map<string, Id>, flat: map<string, Value>, kv: map<Key, Value>, m: Id)
    requires Refines(flat, kv) && ColonFree(m)
    ensures ActiveByAccounts(db, SetAt(flat, Encode(Subscribers(m)))) == FastPath(Sys(db, cache, kv), m)
  {
    ReadRefines(flat, kv, Subscribers(m));
  }

  /** Repair: whatever the set held before, a completed sync leaves exactly the active accounts, one
      that was cut after the clear leaves some of them, and no other key is touched. */
  lemma SyncRepairs(db: Db, kv: map<Key, Value>, m: Id, rows: seq<Follower>, n: nat)
    requires Typed(kv) && Enumerates(rows, ActiveByMaster(db, m))
    ensures var r := Run(kv, SyncCmds(m, rows), n);
            && (r.ok ==> Subs(r.data, m) == ActiveAccounts(db, m))
            && (n > 0 ==> Subs(r.data, m) <= ActiveAccounts(db, m))
            && (n == 0 ==> r.data == kv)
            && (forall k: Key :: k != Subscribers(m) ==> (k in r.data <==> k in kv) && (k in kv ==> r.data[k] == kv[k]))
  {
    SyncCall(kv, m, rows, n);
    assert (set r | r in rows) == ActiveByMaster(db, m);
    ActiveRows(db, m, rows);
    assert rows[..|rows|] == rows;
  }
}
