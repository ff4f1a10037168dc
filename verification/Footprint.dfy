/** What a single operation can change in the fast lookup: the entries of one follower or of one master. */
module Footprint {
  import opened Wrappers
  import opened Schema
  import opened Keyspace
  import opened Commands
  import opened Registry
  import opened RegistryRuns

  /** The follower whose entries the operation may change. */
  function SubjectOf(e: Event): Option<Id> {
    match e
    case OnRegister(_, _, id, _, _) => Some(id)
    case OnSet(id, _, _, _) => Some(id)
    case OnDeleteFollower(id, _, _) => Some(id)
    case _ => None
  }

  predicate SameAt(kv: map<Key, Value>, later: map<Key, Value>, k: Key) {
    (k in later <==> k in kv) && (k in kv ==> later[k] == kv[k])
  }

  /** Differs at most in the subscription sets and in the entries of follower `id`. */
  ghost predicate Around(kv: map<Key, Value>, later: map<Key, Value>, id: Option<Id>) {
    && SameAt(kv, later, ActiveMasters)
    && (forall m: Id :: SameAt(kv, later, MasterInfo(m)))
    && (forall g: Id :: Some(g) != id ==> KeysAgree(kv, later, g))
  }

  lemma TouchIsAround(kv: map<Key, Value>, later: map<Key, Value>, id: Id)
    requires TouchesOnly(kv, later, id)
    ensures Around(kv, later, Some(id))
  {
    TouchedKeys(kv, later, id);
  }

  lemma SubscriptionsAreAround(kv: map<Key, Value>, later: map<Key, Value>, ks: set<Key>, id: Option<Id>)
    requires SameExcept(kv, later, ks) && forall k <- ks :: k.Subscribers?
    ensures Around(kv, later, id)
  {
    forall g: Id
      ensures KeysAgree(kv, later, g)
    {
    }
  }

  lemma RecordIsAround(kv: map<Key, Value>, later: map<Key, Value>, id: Id)
    requires SameExcept(kv, later, {FollowerInfo(id)})
    ensures Around(kv, later, Some(id))
  {
    KeysApart(kv, later, {FollowerInfo(id)}, id);
  }

  lemma AroundTwice(kv: map<Key, Value>, mid: map<Key, Value>, later: map<Key, Value>, id: Option<Id>)
    requires Around(kv, mid, id) && Around(mid, later, id)
    ensures Around(kv, later, id)
  {
    forall g: Id | Some(g) != id
      ensures KeysAgree(kv, later, g)
    {
      KeysAgreeIsTransitive(kv, mid, later, g);
    }
    forall m: Id
      ensures SameAt(kv, later, MasterInfo(m))
    {
      assert SameAt(kv, mid, MasterInfo(m)) && SameAt(mid, later, MasterInfo(m));
    }
  }

  lemma NothingIsAround(kv: map<Key, Value>, id: Option<Id>)
    ensures Around(kv, kv, id)
  {
  }

  lemma RegisterFootprint(s: Sys, e: Event)
    requires Typed(s.kv) && e.OnRegister?
    ensures Around(s.kv, Step(s, e).kv, Some(e.id))
  {
    NothingIsAround(s.kv, Some(e.id));
    if e.hash.Some? {
      var f := Follower(e.id, e.masterId, e.fq.account, e.hash.value, e.fq.server, Inactive, e.fq.multiplier, false);
      var info := FollowerRecord(e.masterId, f);
      RegisterCall(s.kv, e.masterId, e.id, info, e.fast);
      TouchIsAround(s.kv, Run(s.kv, RegisterCmds(e.masterId, e.id, info), e.fast).data, e.id);
    }
  }

  lemma SetFootprint(s: Sys, e: Event)
    requires Typed(s.kv) && e.OnSet?
    ensures Around(s.kv, Step(s, e).kv, Some(e.id))
  {
    NothingIsAround(s.kv, Some(e.id));
    if LiveFollower(s.db, e.id) {
      var f := s.db.followers[e.id];
      var cs := SubscriptionCmds(f.masterId, f.account, e.status);
      var mid := Run(s.kv, cs, e.sub).data;
      assert cs == [cs[0]];
      SubscriptionCall(s.kv, cs[0], e.sub);
      SubscriptionsAreAround(s.kv, mid, {Subscribers(f.masterId)}, Some(e.id));
      RestatusCall(mid, e.id, e.status, e.fast);
      RecordIsAround(mid, Restatus(mid, e.id, e.status, e.fast).data, e.id);
      AroundTwice(s.kv, mid, Restatus(mid, e.id, e.status, e.fast).data, Some(e.id));
    }
  }

  lemma DeleteFootprint(s: Sys, e: Event)
    requires Typed(s.kv) && e.OnDeleteFollower?
    ensures Around(s.kv, Step(s, e).kv, Some(e.id))
  {
    NothingIsAround(s.kv, Some(e.id));
    if LiveFollower(s.db, e.id) {
      var f := s.db.followers[e.id];
      var mid := if f.status == Active then Run(s.kv, UnsubscribeCmds(f.masterId, f.account), e.sub).data else s.kv;
      SubscriptionCall(s.kv, SRem(Subscribers(f.masterId), f.account), e.sub);
      SubscriptionsAreAround(s.kv, mid, {Subscribers(f.masterId)}, Some(e.id));
      UnregisterCall(mid, e.id, e.fast);
      TouchIsAround(mid, Unregister(mid, e.id, e.fast).data, e.id);
      AroundTwice(s.kv, mid, Unregister(mid, e.id, e.fast).data, Some(e.id));
    }
  }

  lemma SyncFootprint(s: Sys, e: Event)
    requires Typed(s.kv) && (e.OnDeleteMaster? || e.OnSync? || e.OnStartup?)
    ensures Around(s.kv, Step(s, e).kv, None)
  {
    NothingIsAround(s.kv, None);
    match e
    case OnDeleteMaster(id, sub) =>
      SubscriptionCall(s.kv, Del(Subscribers(id)), sub);
      SubscriptionsAreAround(s.kv, Run(s.kv, ClearCmds(id), sub).data, {Subscribers(id)}, None);
    case OnSync(m, rows, sub) =>
      SyncCall(s.kv, m, rows, sub);
      SubscriptionsAreAround(s.kv, Run(s.kv, SyncCmds(m, rows), sub).data, {Subscribers(m)}, None);
    case OnStartup(order, sub) =>
      if (set m | m in order) == MastersWithFollowers(s.db) {
        StartupCall(s.db, s.kv, order, sub);
        SubscriptionsAreAround(s.kv, Step(s, e).kv, SubscriberKeys(order), None);
      }
  }

  /** Every operation but CreateMaster leaves the masters' half and the other followers' entries alone. */
  lemma StepFootprint(s: Sys, e: Event)
    requires Typed(s.kv) && !e.OnCreateMaster?
    ensures Around(s.kv, Step(s, e).kv, SubjectOf(e))
  {
    if e.OnRegister? {
      RegisterFootprint(s, e);
    } else if e.OnSet? {
      SetFootprint(s, e);
    } else if e.OnDeleteFollower? {
      DeleteFootprint(s, e);
    } else {
      SyncFootprint(s, e);
    }
  }

  lemma CreateMasterFootprint(s: Sys, e: Event, g: Id)
    requires Typed(s.kv) && e.OnCreateMaster?
    ensures KeysAgree(s.kv, Step(s, e).kv, g)
  {
    if e.hash.Some? {
      var cs := RegisterMasterCmds(Master(e.id, e.mq.account, e.hash.value, e.mq.server, false));
      RunFits(s.kv, cs, e.fast);
      assert KeysOf(cs) == {MasterInfo(e.id), ActiveMasters};
    }
  }

  /** Every operation leaves the entries of the followers that it is not about alone. */
  lemma OtherFollowersUntouched(s: Sys, e: Event, g: Id)
    requires Typed(s.kv) && SubjectOf(e) != Some(g)
    ensures KeysAgree(s.kv, Step(s, e).kv, g)
  {
    if e.OnCreateMaster? { CreateMasterFootprint(s, e, g); } else { StepFootprint(s, e); }
  }
}
