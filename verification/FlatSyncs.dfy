/** The syncs on the flat store: each does what its event does in the runs of `RegistryRuns`, or what
    `WarmUp` says of it. */
module FlatSyncs {
  import opened Schema
  import opened Repository
  import opened Keyspace
  import opened Commands
  import opened Registry
  import opened RegistryRuns
  import opened Handlers
  import opened Service
  import opened WarmUp

  // ---- the keys are usable ----

  lemma {:induction false} AddsAreSound(m: Id, rows: seq<Follower>)
    requires Generated("m", m)
    ensures forall c <- AddCmds(m, rows) :: c.key == Subscribers(m) && !c.Put?
  {
    if rows != [] { AddsAreSound(m, rows[1..]); }
  }

  lemma {:induction false} ReplacesAreSound(groups: map<Id, set<string>>, order: seq<Id>)
    requires forall m <- order :: m in groups && Generated("m", m)
    ensures forall c <- ReplaceCmds(groups, order) :: CmdSound(c)
  {
    if order != [] {
      GeneratedKeysAreSound(order[0]);
      assert Sound(Subscribers(order[0]));
      ReplacesAreSound(groups, order[1..]);
    }
  }

  lemma {:induction false} MasterWarmUpIsSound(ms: seq<Master>)
    requires forall m <- ms :: Generated("m", m.id)
    ensures forall c <- MasterWarmUp(ms) :: CmdSound(c)
  {
    if ms != [] {
      var m := ms[|ms| - 1];
      GeneratedKeysAreSound(m.id);
      assert Sound(MasterInfo(m.id)) && Sound(ActiveMasters);
      MasterWarmUpIsSound(ms[..|ms| - 1]);
    }
  }

  lemma {:induction false} FollowerWarmUpIsSound(fs: seq<Follower>)
    requires forall f <- fs :: Generated("f", f.id) && Generated("m", f.masterId)
    ensures forall c <- FollowerWarmUp(fs) :: CmdSound(c)
  {
    if fs != [] {
      var f := fs[|fs| - 1];
      GeneratedKeysAreSound(f.id);
      GeneratedKeysAreSound(f.masterId);
      assert Sound(FollowerInfo(f.id)) && Sound(FollowerSet(f.masterId)) && Sound(FollowerMaster(f.id));
      FollowerWarmUpIsSound(fs[..|fs| - 1]);
    }
  }

  lemma {:induction false} PipeTexts(kv: map<Key, Value>, cs: seq<Cmd<Key>>, n: nat)
    requires TextsSound(kv) && forall c <- cs :: c.Put? ==> TextSound(c.key, c.value)
    ensures TextsSound(Pipe(kv, cs, n))
    decreases |cs|
  {
    if cs != [] && n != 0 {
      assert TextsSound(Apply(kv, cs[0]).data);
      PipeTexts(Apply(kv, cs[0]).data, cs[1..], n - 1);
    }
  }

  lemma PipeSimulates(flat: map<string, Value>, kv: map<Key, Value>, cs: seq<Cmd<Key>>, n: nat)
    requires Simulates(flat, kv) && forall c <- cs :: CmdSound(c)
    ensures Simulates(Pipe(flat, EncodeAll(cs), n), Pipe(kv, cs, n))
    ensures PipeOk(flat, EncodeAll(cs), n) == PipeOk(kv, cs, n)
  {
    PipeRefines(flat, kv, cs, n);
    PipeTexts(kv, cs, n);
  }

  // ---- each sync ----

  lemma SyncRefinesStep(flat: map<string, Value>, s: Sys, m: Id, rows: seq<Follower>, n: nat)
    requires Simulates(flat, s.kv) && Generated("m", m) && Enumerates(rows, ActiveByMaster(s.db, m))
    ensures var r := Run(flat, EncodeAll(SyncCmds(m, rows)), n);
            && Simulates(r.data, Step(s, OnSync(m, rows, n)).kv)
            && (Typed(s.kv) ==> (r.ok <==> 1 + |rows| <= n))
  {
    AddsAreSound(m, rows);
    SubscriptionSimulates(flat, s.kv, SyncCmds(m, rows), m, n);
    assert (set r | r in rows) == ActiveByMaster(s.db, m);
    GeneratedKeysAreSound(m);
    assert Sound(Subscribers(m));
    RunRefines(flat, s.kv, SyncCmds(m, rows), n);
    if Typed(s.kv) { SyncCall(s.kv, m, rows, n); }
  }

  lemma GroupsGenerated(db: Db, order: seq<Id>)
    requires IdsGenerated(db) && (set m | m in order) == MastersWithFollowers(db)
    ensures forall m <- order :: m in StartupGroups(db) && Generated("m", m) && KnownAccounts(db, m) != {}
  {
    KnownAccountsExist(db, set m | m in order);
    forall m | m in order
      ensures m in StartupGroups(db) && Generated("m", m) && KnownAccounts(db, m) != {}
    {
      assert m in set x | x in order;
    }
  }

  /** A sync is about Redis alone. */
  lemma SyncsKeepTables(s: Sys, e: Event)
    requires e.OnSync? || e.OnStartup?
    ensures Step(s, e) == s.(kv := Step(s, e).kv)
  {
  }

  lemma StartupRefinesStep(flat: map<string, Value>, s: Sys, order: seq<Id>, n: nat)
    requires Simulates(flat, s.kv) && IdsGenerated(s.db)
    requires (set m | m in order) == MastersWithFollowers(s.db)
    ensures Simulates(Pipe(flat, EncodeAll(ReplaceCmds(StartupGroups(s.db), order)), n), Step(s, OnStartup(order, n)).kv)
  {
    GroupsGenerated(s.db, order);
    ReplacesAreSound(StartupGroups(s.db), order);
    PipeSimulates(flat, s.kv, ReplaceCmds(StartupGroups(s.db), order), n);
  }

  lemma StartupSucceeds(flat: map<string, Value>, kv: map<Key, Value>, db: Db, order: seq<Id>, n: nat)
    requires Simulates(flat, kv) && Typed(kv) && IdsGenerated(db)
    requires (set m | m in order) == MastersWithFollowers(db)
    ensures PipeOk(flat, EncodeAll(ReplaceCmds(StartupGroups(db), order)), n) <==> 2 * |order| <= n
  {
    var groups := StartupGroups(db);
    GroupsGenerated(db, order);
    ReplacesAreSound(groups, order);
    PipeSimulates(flat, kv, ReplaceCmds(groups, order), n);
    StartupLength(groups, order);
    ReplacesFit(groups, order);
    PipeFits(kv, ReplaceCmds(groups, order), n);
  }

  lemma {:induction false} ReplacesFit(groups: map<Id, set<string>>, order: seq<Id>)
    requires forall m <- order :: m in groups
    ensures forall c <- ReplaceCmds(groups, order) :: CmdFits(c)
  {
    if order != [] { ReplacesFit(groups, order[1..]); }
  }

  lemma {:induction false} MasterWarmUpFits(ms: seq<Master>)
    ensures forall c <- MasterWarmUp(ms) :: CmdFits(c)
  {
    if ms != [] { MasterWarmUpFits(ms[..|ms| - 1]); }
  }

  lemma {:induction false} FollowerWarmUpFits(fs: seq<Follower>)
    ensures forall c <- FollowerWarmUp(fs) :: CmdFits(c)
  {
    if fs != [] { FollowerWarmUpFits(fs[..|fs| - 1]); }
  }

  lemma WarmUpRefines(flat: map<string, Value>, kv: map<Key, Value>, ms: seq<Master>, fs: seq<Follower>, n: nat)
    requires Simulates(flat, kv) && (forall m <- ms :: Generated("m", m.id))
    requires forall f <- fs :: Generated("f", f.id) && Generated("m", f.masterId)
    ensures var cs := WarmUpCmds(ms, fs);
            && Simulates(Pipe(flat, EncodeAll(cs), n), Pipe(kv, cs, n))
            && (|cs| <= n ==> Simulates(Pipe(flat, EncodeAll(cs), n), AfterWarmUp(kv, ms, fs)))
            && (Typed(kv) ==> (PipeOk(flat, EncodeAll(cs), n) <==> |cs| <= n))
  {
    var cs := WarmUpCmds(ms, fs);
    MasterWarmUpIsSound(ms);
    FollowerWarmUpIsSound(fs);
    assert Sound(ActiveMasters);
    PipeSimulates(flat, kv, cs, n);
    if |cs| <= n { PipeEnough(kv, cs, n); }
    if Typed(kv) {
      MasterWarmUpFits(ms);
      FollowerWarmUpFits(fs);
      PipeFits(kv, cs, n);
    }
  }

  // ---- beside a server ----

  /** The sync that cmd/api performs before it serves: on the server's state it is the event `OnStartup`. */
  method StartupSync(server: Server, answered: nat) returns (order: seq<Id>, ok: bool)
    requires server.Valid()
    modifies server`kv, server.redis
    ensures server.Valid() && server.State() == Step(old(server.State()), OnStartup(order, answered))
    ensures Typed(old(server.kv)) ==> (ok <==> 2 * |order| <= answered)
  {
    ghost var s := server.State();
    ghost var flat := server.redis.data;
    order, ok := SyncAtStartup(server.followerRepo, server.subStore, answered);
    StartupRefinesStep(flat, s, order, answered);
    SyncsKeepTables(s, OnStartup(order, answered));
    if Typed(s.kv) { StartupSucceeds(flat, s.kv, s.db, order, answered); }
    server.kv := Step(s, OnStartup(order, answered)).kv;
  }

  /** The service's sync of one master: on the server's state it is the event `OnSync`. */
  method SyncOne(server: Server, masterId: Id, answered: nat) returns (rows: seq<Follower>, ok: bool)
    requires server.Valid() && Generated("m", masterId)
    modifies server`kv, server.redis
    ensures server.Valid() && server.State() == Step(old(server.State()), OnSync(masterId, rows, answered))
    ensures Typed(old(server.kv)) ==> (ok <==> 1 + |rows| <= answered)
  {
    ghost var s := server.State();
    ghost var flat := server.redis.data;
    var service := new DistributionService(server.subStore, server.followerRepo);
    rows, ok := service.SyncFollowers(masterId, answered);
    SyncRefinesStep(flat, s, masterId, rows, answered);
    SyncsKeepTables(s, OnSync(masterId, rows, answered));
    server.kv := Step(s, OnSync(masterId, rows, answered)).kv;
  }

  /** A warm-up of the fast lookup from lists of the server's rows. */
  method WarmUpAll(server: Server, masters: seq<Master>, followers: seq<Follower>, answered: nat) returns (ok: bool)
    requires server.Valid()
    requires forall m <- masters :: m.id in server.State().db.masters
    requires ListsRows(server.State().db, followers)
    modifies server`kv, server.redis
    ensures server.Valid() && server.State().db == old(server.State()).db && server.State().cache == old(server.State()).cache
    ensures server.kv == Pipe(old(server.kv), WarmUpCmds(masters, followers), answered)
    ensures Typed(old(server.kv)) ==> (ok <==> |WarmUpCmds(masters, followers)| <= answered)
    ensures ok && Typed(old(server.kv)) ==> server.kv == AfterWarmUp(old(server.kv), masters, followers)
  {
    WarmUpRefines(server.redis.data, server.kv, masters, followers, answered);
    if |WarmUpCmds(masters, followers)| <= answered { PipeEnough(server.kv, WarmUpCmds(masters, followers), answered); }
    ok := server.fastLookup.SyncFromDatabase(masters, followers, answered);
    server.kv := Pipe(server.kv, WarmUpCmds(masters, followers), answered);
  }
}
