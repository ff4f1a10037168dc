/** The API server: its handlers step by step over the database, the account cache and one flat
    Redis keyspace, proved against the operations of `Registry`. */
module Handlers {
  import opened Wrappers
  import opened Schema
  import opened Repository
  import opened Cache
  import opened Keyspace
  import opened Commands
  import opened Stores
  import opened FastLookup
  import opened Registry

  /** Every stored ID came out of `generateID`. */
  ghost predicate IdsGenerated(db: Db) {
    && (forall k <- db.masters :: Generated("m", k) && db.masters[k].id == k)
    && (forall k <- db.followers :: Generated("f", k) && db.followers[k].id == k && Generated("m", db.followers[k].masterId))
  }

  predicate TextSound(k: Key, v: Value) {
    k.FollowerMaster? && v.Text? ==> Sound(FollowerSet(v.text))
  }

  ghost predicate TextsSound(kv: map<Key, Value>) {
    forall k <- kv :: TextSound(k, kv[k])
  }

  lemma {:induction false} RunTexts(kv: map<Key, Value>, cs: seq<Cmd<Key>>, n: nat)
    requires TextsSound(kv) && forall c <- cs :: c.Put? ==> TextSound(c.key, c.value)
    ensures TextsSound(Run(kv, cs, n).data)
    decreases |cs|
  {
    if cs != [] && n != 0 {
      assert TextsSound(Apply(kv, cs[0]).data);
      if Apply(kv, cs[0]).ok { RunTexts(Apply(kv, cs[0]).data, cs[1..], n - 1); }
    }
  }

  /** The flat store stands for the families `kv`, and the mappings in it name usable IDs. */
  ghost predicate Simulates(flat: map<string, Value>, kv: map<Key, Value>) {
    Refines(flat, kv) && TextsSound(kv)
  }

  predicate CmdSound(c: Cmd<Key>) {
    Sound(c.key) && (c.Put? ==> TextSound(c.key, c.value))
  }

  lemma RunSimulates(flat: map<string, Value>, kv: map<Key, Value>, cs: seq<Cmd<Key>>, n: nat)
    requires Simulates(flat, kv) && forall c <- cs :: CmdSound(c)
    ensures Simulates(Run(flat, EncodeAll(cs), n).data, Run(kv, cs, n).data)
  {
    RunRefines(flat, kv, cs, n);
    RunTexts(kv, cs, n);
  }

  lemma RegisterSimulates(flat: map<string, Value>, kv: map<Key, Value>, masterId: Id, id: Id, info: Info, n: nat)
    requires Simulates(flat, kv) && Generated("m", masterId) && Generated("f", id)
    ensures Simulates(Run(flat, EncodeAll(RegisterCmds(masterId, id, info)), n).data, Run(kv, RegisterCmds(masterId, id, info), n).data)
  {
    GeneratedKeysAreSound(masterId);
    GeneratedKeysAreSound(id);
    assert Sound(FollowerInfo(id)) && Sound(FollowerSet(masterId)) && Sound(FollowerMaster(id));
    RunSimulates(flat, kv, RegisterCmds(masterId, id, info), n);
  }

  lemma RegisterMasterSimulates(flat: map<string, Value>, kv: map<Key, Value>, m: Master, n: nat)
    requires Simulates(flat, kv) && Generated("m", m.id)
    ensures Simulates(Run(flat, EncodeAll(RegisterMasterCmds(m)), n).data, Run(kv, RegisterMasterCmds(m), n).data)
  {
    GeneratedKeysAreSound(m.id);
    assert Sound(MasterInfo(m.id)) && Sound(ActiveMasters);
    RunSimulates(flat, kv, RegisterMasterCmds(m), n);
  }

  lemma SubscriptionSimulates(flat: map<string, Value>, kv: map<Key, Value>, cs: seq<Cmd<Key>>, masterId: Id, n: nat)
    requires Simulates(flat, kv) && Generated("m", masterId)
    requires forall c <- cs :: c.key == Subscribers(masterId) && !c.Put?
    ensures Simulates(Run(flat, EncodeAll(cs), n).data, Run(kv, cs, n).data)
  {
    GeneratedKeysAreSound(masterId);
    assert Sound(Subscribers(masterId));
    RunSimulates(flat, kv, cs, n);
  }

  lemma RestatusSimulates(flat: map<string, Value>, kv: map<Key, Value>, id: Id, status: Status, n: nat)
    requires Simulates(flat, kv) && Generated("f", id)
    ensures Simulates(RestatusFlat(flat, id, status, n).data, Restatus(kv, id, status, n).data)
  {
    GeneratedKeysAreSound(id);
    RestatusRefines(flat, kv, id, status, n);
    var k := FollowerInfo(id);
    if n > 0 && k in kv && kv[k].Record? {
      RunTexts(kv, [Put(k, Record(kv[k].info.(status := status)))], n - 1);
    }
  }

  lemma UnregisterTexts(kv: map<Key, Value>, id: Id, n: nat)
    requires TextsSound(kv)
    ensures TextsSound(Unregister(kv, id, n).data)
  {
    var k := FollowerMaster(id);
    if n > 0 && k in kv && kv[k].Text? {
      RunTexts(kv, UnregisterCmds(kv[k].text, id), n - 1);
    }
  }

  lemma UnregisterSimulates(flat: map<string, Value>, kv: map<Key, Value>, id: Id, n: nat)
    requires Simulates(flat, kv) && Generated("f", id)
    ensures Simulates(UnregisterFlat(flat, id, n).data, Unregister(kv, id, n).data)
  {
    assert ColonFree(id) by { GeneratedKeysAreSound(id); }
    assert FollowerMaster(id) in kv ==> TextSound(FollowerMaster(id), kv[FollowerMaster(id)]);
    UnregisterRefines(flat, kv, id, n);
    UnregisterTexts(kv, id, n);
  }

  class Server {
    const db: Database
    const masterCache: MasterCache
    const redis: RedisServer
    const subStore: SubscriptionStore
    const fastLookup: FastLookupStore
    const masterRepo: MasterRepository
    const followerRepo: FollowerRepository
    /** The six key families that the flat keyspace stands for. */
    ghost var kv: map<Key, Value>

    ghost predicate Valid()
      reads this, db, redis
    {
      && masterRepo.db == db && followerRepo.db == db
      && subStore.client == redis && fastLookup.client == redis
      && IdsGenerated(db.State())
      && Simulates(redis.data, kv)
    }

    ghost function State(): Sys
      reads this, db, masterCache
    {
      Sys(db.State(), masterCache.cache, kv)
    }

    constructor (db: Database, masterCache: MasterCache, redis: RedisServer)
      requires db.State() == Db(map[], map[]) && masterCache.cache == map[] && redis.data == map[]
      ensures Valid() && State() == Sys(Db(map[], map[]), map[], map[])
      ensures this.db == db && this.masterCache == masterCache && this.redis == redis
    {
      this.db, this.masterCache, this.redis := db, masterCache, redis;
      subStore := new SubscriptionStore(redis);
      fastLookup := new FastLookupStore(redis);
      masterRepo := new MasterRepository(db);
      followerRepo := new FollowerRepository(db);
      kv := map[];
    }

    method CreateMaster(q: MasterRequest, id: Id, hash: Option<string>, answered: nat) returns (resp: Response)
      requires Valid() && Generated("m", id)
      modifies this, db, masterCache, redis
      ensures Valid() && (State(), resp) == Registry.CreateMaster(old(State()), q, id, hash, answered)
    {
      if |q.account| < 4 || |q.account| > 50 {
        return BadRequest;
      }
      if |q.password| < 8 {
        return BadRequest;
      }
      if |q.server| == 0 || |q.server| > 100 {
        return BadRequest;
      }
      if hash.None? {
        return ServerError;
      }
      var master := Master(id, q.account, hash.value, q.server, false);
      var err := masterRepo.Create(master);
      if err.Some? {
        return OnInsertError(err.value);
      }
      masterCache.Set(master.account, master.id);
      RegisterMasterSimulates(redis.data, kv, master, answered);
      kv := Run(kv, RegisterMasterCmds(master), answered).data;
      var _ := fastLookup.RegisterMaster(master, answered);
      resp := Created(master.id);
    }

    method RegisterFollower(masterId: Id, q: FollowerRequest, id: Id, hash: Option<string>, answered: nat) returns (resp: Response)
      requires Valid() && Generated("f", id)
      modifies this, db, redis
      ensures Valid() && (State(), resp) == Registry.RegisterFollower(old(State()), masterId, q, id, hash, answered)
    {
      var exists_ := masterRepo.Exists(masterId);
      if !exists_ {
        return Missing;
      }
      if |q.account| < 4 || |q.account| > 50 {
        return BadRequest;
      }
      if |q.password| < 8 {
        return BadRequest;
      }
      if q.multiplier < 0.01 || q.multiplier > 100.0 {
        return BadRequest;
      }
      if hash.None? {
        return ServerError;
      }
      var follower := Follower(id, masterId, q.account, hash.value, q.server, Inactive, q.multiplier, false);
      var err := followerRepo.Create(follower);
      if err.Some? {
        return OnInsertError(err.value);
      }
      RegisterSimulates(redis.data, kv, masterId, id, FollowerRecord(masterId, follower), answered);
      kv := Run(kv, RegisterCmds(masterId, id, FollowerRecord(masterId, follower)), answered).data;
      var _ := fastLookup.RegisterFollower(masterId, follower, answered);
      resp := Created(id);
    }

    method SetSubscription(masterId: Id, account: string, status: Status, sub: nat)
      requires Valid() && Generated("m", masterId)
      modifies this`kv, redis
      ensures Valid()
      ensures kv == Run(old(kv), SubscriptionCmds(masterId, account, status), sub).data
    {
      ghost var cs := SubscriptionCmds(masterId, account, status);
      SubscriptionSimulates(redis.data, kv, cs, masterId, sub);
      kv := Run(kv, cs, sub).data;
      if status == Active {
        var _ := subStore.AddFollower(masterId, account, sub);
      } else {
        var _ := subStore.RemoveFollower(masterId, account, sub);
      }
    }

    method MarkStatus(id: Id, status: Status, fast: nat)
      requires Valid() && Generated("f", id)
      modifies this`kv, redis
      ensures Valid() && kv == Restatus(old(kv), id, status, fast).data
    {
      RestatusSimulates(redis.data, kv, id, status, fast);
      kv := Restatus(kv, id, status, fast).data;
      var _ := fastLookup.UpdateFollowerStatus(id, status, fast);
    }

    method Forget(id: Id, fast: nat)
      requires Valid() && Generated("f", id)
      modifies this`kv, redis
      ensures Valid() && kv == Unregister(old(kv), id, fast).data
    {
      UnregisterSimulates(redis.data, kv, id, fast);
      kv := Unregister(kv, id, fast).data;
      var _ := fastLookup.UnregisterFollower(id, fast);
    }

    /** StartFollowing (`Active`) and StopFollowing (`Inactive`). */
    method SetFollowing(id: Id, status: Status, sub: nat, fast: nat) returns (resp: Response)
      requires Valid()
      modifies this, db, redis
      ensures Valid() && (State(), resp) == Registry.SetFollowing(old(State()), id, status, sub, fast)
    {
      var found := followerRepo.GetByID(id);
      if found.Failure? {
        return Missing;
      }
      var follower := found.value;
      var err := followerRepo.UpdateStatus(id, status);
      if err.Some? {
        return Missing;
      }
      assert IdsGenerated(db.State()) && Generated("m", follower.masterId);
      SetSubscription(follower.masterId, follower.account, status, sub);
      MarkStatus(id, status, fast);
      resp := Done;
    }

    method DeleteMaster(id: Id, sub: nat) returns (resp: Response)
      requires Valid()
      modifies this, db, masterCache, redis
      ensures Valid() && (State(), resp) == Registry.DeleteMaster(old(State()), id, sub)
    {
      var found := masterRepo.GetByID(id);
      if found.Failure? {
        return Missing;
      }
      var _ := masterRepo.SoftDelete(id);
      masterCache.Delete(found.value.account);
      SubscriptionSimulates(redis.data, kv, ClearCmds(id), id, sub);
      kv := Run(kv, ClearCmds(id), sub).data;
      var _ := subStore.ClearMasterFollowers(id, sub);
      resp := Done;
    }

    method DeleteFollower(id: Id, sub: nat, fast: nat) returns (resp: Response)
      requires Valid()
      modifies this, db, redis
      ensures Valid() && (State(), resp) == Registry.DeleteFollower(old(State()), id, sub, fast)
    {
      var found := followerRepo.GetByID(id);
      if found.Failure? {
        return Missing;
      }
      var follower := found.value;
      var err := followerRepo.SoftDelete(id);
      if err.Some? {
        return ServerError;
      }
      assert IdsGenerated(db.State()) && Generated("m", follower.masterId);
      if follower.status == Active {
        SetSubscription(follower.masterId, follower.account, Inactive, sub);
      }
      Forget(id, fast);
      resp := Done;
    }
  }
}
