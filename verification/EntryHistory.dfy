/** The fast-lookup entries of a follower over every run, however its calls were cut: they are determined by
    how many commands of its registration and of its deletion Redis answered. */
module EntryHistory {
  import opened Wrappers
  import opened Schema
  import opened Keyspace
  import opened Commands
  import opened Registry
  import opened RegistryRuns
  import opened Footprint
  import opened WarmUp

  /** How many commands were answered for the follower's registration, and for its deletion. */
  datatype History = History(registered: map<Id, nat>, deleted: map<Id, nat>)

  const BLANK := History(map[], map[])

  function HistoryStep(s: Sys, e: Event, h: History): History {
    match e
    case OnRegister(_, _, id, _, fast) =>
      if id !in s.db.followers && id in Step(s, e).db.followers then h.(registered := h.registered[id := fast]) else h
    case OnDeleteFollower(id, _, fast) =>
      if LiveFollower(s.db, id) then h.(deleted := h.deleted[id := fast]) else h
    case _ => h
  }

  function HistoryOf(s: Sys, es: seq<Event>, h: History): History
    decreases |es|
  {
    if es == [] then h else HistoryOf(Step(s, es[0]), es[1..], HistoryStep(s, es[0], h))
  }

  /** The entries of one ID: its record, its membership in the set of `m` alone, its mapping to `m`. */
  ghost predicate EntriesAre(kv: map<Key, Value>, id: Id, m: Id, record: bool, member: bool, mapping: bool) {
    && (FollowerInfo(id) in kv <==> record)
    && (forall x: Id :: id in SetAt(kv, FollowerSet(x)) <==> x == m && member)
    && (FollowerMaster(id) in kv <==> mapping)
    && (mapping ==> kv[FollowerMaster(id)] == Text(m))
  }

  /** A registration answered `n` commands and then a deletion answered `d`: the deletion reads the mapping
      first, and removes membership, mapping and record in this order. */
  ghost predicate EntriesAfter(kv: map<Key, Value>, id: Id, m: Id, n: nat, d: nat) {
    EntriesAre(kv, id, m, n >= 1 && (n < 3 || d < 4), n >= 2 && (n < 3 || d < 2), n >= 3 && d < 3)
  }

  /** Commands answered for the deletion; none while the row lives. */
  function DeletedWith(db: Db, h: History, id: Id): nat {
    if LiveFollower(db, id) || id !in h.deleted then 0 else h.deleted[id]
  }

  ghost predicate HistoryOk(s: Sys, h: History, id: Id) {
    if id in s.db.followers then
      id in h.registered && EntriesAfter(s.kv, id, s.db.followers[id].masterId, h.registered[id], DeletedWith(s.db, h, id))
    else
      EntriesAre(s.kv, id, id, false, false, false)
  }

  ghost predicate HistoryInv(s: Sys, h: History) {
    Typed(s.kv) && forall id: Id :: HistoryOk(s, h, id)
  }

  // ---- single calls, cut anywhere ----

  lemma RegisterOne(kv: map<Key, Value>, m: Id, id: Id, info: Info)
    requires Typed(kv) && EntriesAre(kv, id, m, false, false, false)
    ensures var a := Put(FollowerInfo(id), Record(info));
            Typed(Apply(kv, a).data) && EntriesAre(Apply(kv, a).data, id, m, true, false, false)
  {
    ApplyFits(kv, Put(FollowerInfo(id), Record(info)));
  }

  lemma RegisterTwo(kv: map<Key, Value>, m: Id, id: Id)
    requires Typed(kv) && EntriesAre(kv, id, m, true, false, false)
    ensures var b := SAdd(FollowerSet(m), {id});
            Typed(Apply(kv, b).data) && Apply(kv, b).ok && EntriesAre(Apply(kv, b).data, id, m, true, true, false)
  {
    ApplyFits(kv, SAdd(FollowerSet(m), {id}));
  }

  lemma RegisterThree(kv: map<Key, Value>, m: Id, id: Id)
    requires Typed(kv) && EntriesAre(kv, id, m, true, true, false)
    ensures var c := Put(FollowerMaster(id), Text(m));
            Typed(Apply(kv, c).data) && EntriesAre(Apply(kv, c).data, id, m, true, true, true)
  {
    ApplyFits(kv, Put(FollowerMaster(id), Text(m)));
  }

  /** A run of three commands, one after the other. */
  lemma RunSteps(kv: map<Key, Value>, a: Cmd<Key>, b: Cmd<Key>, c: Cmd<Key>, n: nat)
    requires Apply(kv, a).ok && Apply(Apply(kv, a).data, b).ok
    ensures var kv1 := Apply(kv, a).data;
            var kv2 := Apply(kv1, b).data;
            Run(kv, [a, b, c], n).data == if n == 0 then kv else if n == 1 then kv1 else if n == 2 then kv2 else Apply(kv2, c).data
  {
    var kv1 := Apply(kv, a).data;
    var kv2 := Apply(kv1, b).data;
    assert [a, b, c][1..] == [b, c] && [b, c][1..] == [c] && [c][1..] == [];
    if n > 0 { assert Run(kv, [a, b, c], n) == Run(kv1, [b, c], n - 1); }
    if n > 1 { assert Run(kv1, [b, c], n - 1) == Run(kv2, [c], n - 2); }
    if n > 2 { assert Run(kv2, [c], n - 2).data == Apply(kv2, c).data; }
  }

  lemma RegisterCut(kv: map<Key, Value>, m: Id, id: Id, info: Info, n: nat)
    requires Typed(kv) && EntriesAre(kv, id, m, false, false, false)
    ensures EntriesAfter(Run(kv, RegisterCmds(m, id, info), n).data, id, m, n, 0)
  {
    var a, b, c := Put(FollowerInfo(id), Record(info)), SAdd(FollowerSet(m), {id}), Put(FollowerMaster(id), Text(m));
    RegisterOne(kv, m, id, info);
    RegisterTwo(Apply(kv, a).data, m, id);
    RegisterThree(Apply(Apply(kv, a).data, b).data, m, id);
    RunSteps(kv, a, b, c, n);
  }

  lemma UnregisterOne(kv: map<Key, Value>, m: Id, id: Id)
    requires Typed(kv) && EntriesAre(kv, id, m, true, true, true)
    ensures var a := SRem(FollowerSet(m), id);
            Typed(Apply(kv, a).data) && Apply(kv, a).ok && EntriesAre(Apply(kv, a).data, id, m, true, false, true)
  {
    ApplyFits(kv, SRem(FollowerSet(m), id));
  }

  lemma UnregisterTwo(kv: map<Key, Value>, m: Id, id: Id)
    requires Typed(kv) && EntriesAre(kv, id, m, true, false, true)
    ensures var b := Del(FollowerMaster(id));
            Typed(Apply(kv, b).data) && EntriesAre(Apply(kv, b).data, id, m, true, false, false)
  {
    ApplyFits(kv, Del(FollowerMaster(id)));
  }

  lemma UnregisterThree(kv: map<Key, Value>, m: Id, id: Id)
    requires Typed(kv) && EntriesAre(kv, id, m, true, false, false)
    ensures EntriesAre(Apply(kv, Del(FollowerInfo(id))).data, id, m, false, false, false)
  {
    ApplyFits(kv, Del(FollowerInfo(id)));
  }

  lemma UnregisterCut(kv: map<Key, Value>, m: Id, id: Id, n: nat, d: nat)
    requires Typed(kv) && EntriesAfter(kv, id, m, n, 0)
    ensures EntriesAfter(Unregister(kv, id, d).data, id, m, n, d)
  {
    if n >= 3 && d > 0 {
      var a, b, c := SRem(FollowerSet(m), id), Del(FollowerMaster(id)), Del(FollowerInfo(id));
      assert Unregister(kv, id, d) == Run(kv, UnregisterCmds(m, id), d - 1);
      UnregisterOne(kv, m, id);
      UnregisterTwo(Apply(kv, a).data, m, id);
      UnregisterThree(Apply(Apply(kv, a).data, b).data, m, id);
      RunSteps(kv, a, b, c, d - 1);
    }
  }

  lemma EntriesKeptBy(kv: map<Key, Value>, later: map<Key, Value>, id: Id, m: Id, n: nat, d: nat)
    requires EntriesAfter(kv, id, m, n, d) && KeysAgree(kv, later, id)
    ensures EntriesAfter(later, id, m, n, d)
  {
  }

  lemma SetKeepsPresence(kv: map<Key, Value>, cs: seq<Cmd<Key>>, id: Id, status: Status, sub: nat, fast: nat, m: Id, n: nat)
    requires Typed(kv) && |cs| == 1 && CmdFits(cs[0]) && cs[0].key.Subscribers? && EntriesAfter(kv, id, m, n, 0)
    ensures EntriesAfter(Restatus(Run(kv, cs, sub).data, id, status, fast).data, id, m, n, 0)
  {
    assert cs == [cs[0]];
    SubscriptionCall(kv, cs[0], sub);
    RestatusCall(Run(kv, cs, sub).data, id, status, fast);
  }

  // ---- every operation ----

  lemma RegisterKeepsHistory(s: Sys, e: Event, h: History)
    requires HistoryInv(s, h) && e.OnRegister?
    ensures HistoryOk(Step(s, e), HistoryStep(s, e, h), e.id)
  {
    assert HistoryOk(s, h, e.id);
    if LiveMaster(s.db, e.masterId) && FollowerRequestOk(e.fq) && e.hash.Some? {
      var f := Follower(e.id, e.masterId, e.fq.account, e.hash.value, e.fq.server, Inactive, e.fq.multiplier, false);
      if InsertFollower(s.db, f).Success? {
        RegisterCut(s.kv, e.masterId, e.id, FollowerRecord(e.masterId, f), e.fast);
      }
    }
  }

  lemma SetKeepsHistory(s: Sys, e: Event, h: History)
    requires HistoryInv(s, h) && e.OnSet?
    ensures HistoryOk(Step(s, e), HistoryStep(s, e, h), e.id)
  {
    assert HistoryOk(s, h, e.id);
    if LiveFollower(s.db, e.id) {
      var f := s.db.followers[e.id];
      SetKeepsPresence(s.kv, SubscriptionCmds(f.masterId, f.account, e.status), e.id, e.status, e.sub, e.fast, f.masterId, h.registered[e.id]);
    }
  }

  lemma DeleteKeepsHistory(s: Sys, e: Event, h: History)
    requires HistoryInv(s, h) && e.OnDeleteFollower?
    ensures HistoryOk(Step(s, e), HistoryStep(s, e, h), e.id)
  {
    assert HistoryOk(s, h, e.id);
    if LiveFollower(s.db, e.id) {
      var f, n := s.db.followers[e.id], h.registered[e.id];
      var mid := if f.status == Active then Run(s.kv, UnsubscribeCmds(f.masterId, f.account), e.sub).data else s.kv;
      SubscriptionCall(s.kv, SRem(Subscribers(f.masterId), f.account), e.sub);
      SubscriptionsAreAround(s.kv, mid, {Subscribers(f.masterId)}, None);
      EntriesKeptBy(s.kv, mid, e.id, f.masterId, n, 0);
      UnregisterCut(mid, f.masterId, e.id, n, e.fast);
    }
  }

  /** Rows that the operation is not about keep their master and their existence. */
  lemma OtherRowsLive(s: Sys, e: Event, id: Id)
    requires SubjectOf(e) != Some(id)
    ensures id in Step(s, e).db.followers <==> id in s.db.followers
    ensures id in s.db.followers ==>
              && Step(s, e).db.followers[id].masterId == s.db.followers[id].masterId
              && Step(s, e).db.followers[id].deleted == s.db.followers[id].deleted
  {
  }

  lemma OtherHistory(s: Sys, e: Event, h: History, id: Id)
    requires SubjectOf(e) != Some(id)
    ensures var t := HistoryStep(s, e, h);
            && (id in t.registered <==> id in h.registered) && (id in h.registered ==> t.registered[id] == h.registered[id])
            && (id in t.deleted <==> id in h.deleted) && (id in h.deleted ==> t.deleted[id] == h.deleted[id])
  {
  }

  lemma OthersKeepHistory(s: Sys, e: Event, h: History, id: Id)
    requires HistoryInv(s, h) && SubjectOf(e) != Some(id)
    ensures HistoryOk(Step(s, e), HistoryStep(s, e, h), id)
  {
    assert HistoryOk(s, h, id);
    OtherRowsLive(s, e, id);
    OtherHistory(s, e, h, id);
    OtherFollowersUntouched(s, e, id);
  }

  lemma StepKeepsHistory(s: Sys, e: Event, h: History, a: Audit)
    requires Inv(s, a) && HistoryInv(s, h)
    ensures HistoryInv(Step(s, e), HistoryStep(s, e, h))
  {
    StepKeepsInv(s, e, a);
    forall id: Id
      ensures HistoryOk(Step(s, e), HistoryStep(s, e, h), id)
    {
      if SubjectOf(e) != Some(id) {
        OthersKeepHistory(s, e, h, id);
      } else if e.OnRegister? {
        RegisterKeepsHistory(s, e, h);
      } else if e.OnSet? {
        SetKeepsHistory(s, e, h);
      } else {
        DeleteKeepsHistory(s, e, h);
      }
    }
  }

  lemma {:induction false} RunKeepsHistory(s: Sys, es: seq<Event>, h: History, a: Audit)
    requires Inv(s, a) && HistoryInv(s, h)
    ensures HistoryInv(RunEvents(s, es), HistoryOf(s, es, h))
    decreases |es|
  {
    if es != [] {
      StepKeepsHistory(s, es[0], h, a);
      StepKeepsInv(s, es[0], a);
      RunKeepsHistory(Step(s, es[0]), es[1..], HistoryStep(s, es[0], h), AuditStep(s, es[0], a));
    }
  }

  // ---- main results ----

  /** Over every run, whichever calls were cut: the record, the memberships and the mapping of a follower are
      those that the answered commands of its registration and deletion leave; an unknown ID has none. */
  lemma EntriesExactly(es: seq<Event>, id: Id)
    ensures HistoryOk(RunEvents(EMPTY, es), HistoryOf(EMPTY, es, BLANK), id)
  {
    ReachableInv([]);
    RunKeepsHistory(EMPTY, es, BLANK, CLEAN);
  }

  /** Nothing is left of a deleted follower if and only if no command of its registration was answered, or
      all of them and all of its deletion. */
  lemma DeletedIsGoneExactly(es: seq<Event>, id: Id)
    requires var s := RunEvents(EMPTY, es); id in s.db.followers && s.db.followers[id].deleted
    ensures var s, h := RunEvents(EMPTY, es), HistoryOf(EMPTY, es, BLANK);
            && id in h.registered
            && (EntriesOk(s.db, s.kv, id) <==> h.registered[id] == 0 || (h.registered[id] >= 3 && DeletedWith(s.db, h, id) >= 4))
  {
    EntriesExactly(es, id);
  }

  /** A registration cut after its first or second command leaves a record that a deletion with every command
      answered cannot remove, since the mapping that it reads is missing. */
  lemma CutRegistrationOutlivesDeletion(q: MasterRequest, fq: FollowerRequest, m: Id, f: Id, hash: string, n: nat)
    returns (es: seq<Event>)
    requires MasterRequestOk(q) && FollowerRequestOk(fq) && |fq.server| <= 100 && |m| <= 255 && |f| <= 255 && 1 <= n <= 2
    ensures es == [OnCreateMaster(q, m, Some(hash), 2), OnRegister(m, fq, f, Some(hash), n), OnDeleteFollower(f, 1, 4)]
    ensures var s := RunEvents(EMPTY, es);
            f in s.db.followers && s.db.followers[f].deleted && FollowerInfo(f) in s.kv
  {
    var e1, e2, e3 := OnCreateMaster(q, m, Some(hash), 2), OnRegister(m, fq, f, Some(hash), n), OnDeleteFollower(f, 1, 4);
    es := [e1, e2, e3];
    var s1 := Step(EMPTY, e1);
    assert s1.db == Db(map[m := Master(m, q.account, hash, q.server, false)], map[]);
    var s2 := Step(s1, e2);
    var row := Follower(f, m, fq.account, hash, fq.server, Inactive, fq.multiplier, false);
    assert s2.db.followers == map[f := row];
    ThreeEvents(EMPTY, e1, e2, e3);
    EntriesExactly(es, f);
    HistoryOfThree(EMPTY, e1, e2, e3);
  }

  lemma ThreeEvents(s: Sys, e: Event, f: Event, g: Event)
    ensures RunEvents(s, [e, f, g]) == Step(Step(Step(s, e), f), g)
  {
    assert [e, f, g] == [e, f] + [g];
    TwoEvents(s, e, f, [g]);
    assert [g][1..] == [];
  }

  lemma HistoryOfThree(s: Sys, e: Event, f: Event, g: Event)
    ensures HistoryOf(s, [e, f, g], BLANK)
         == HistoryStep(Step(Step(s, e), f), g, HistoryStep(Step(s, e), f, HistoryStep(s, e, BLANK)))
  {
    var h1 := HistoryStep(s, e, BLANK);
    var h2 := HistoryStep(Step(s, e), f, h1);
    assert [e, f, g][1..] == [f, g] && [f, g][1..] == [g] && [g][1..] == [];
    assert HistoryOf(s, [e, f, g], BLANK) == HistoryOf(Step(s, e), [f, g], h1);
    assert HistoryOf(Step(s, e), [f, g], h1) == HistoryOf(Step(Step(s, e), f), [g], h2);
    assert HistoryOf(Step(Step(s, e), f), [g], h2) == HistoryStep(Step(Step(s, e), f), g, h2);
  }
}
