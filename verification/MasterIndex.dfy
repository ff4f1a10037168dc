/** The master half of the fast lookup: records and the set of active masters, over every run. */
module MasterIndex {
  import opened Wrappers
  import opened Schema
  import opened Keyspace
  import opened Commands
  import opened Registry
  import opened RegistryRuns
  import opened Footprint

  /** Masters whose registration was cut. */
  function CutMasters(es: seq<Event>): set<Id> {
    set e | e in es && e.OnCreateMaster? && e.fast < 2 :: e.id
  }

  /** The record and the membership are there exactly when the row is, deleted or not. */
  predicate MasterListed(db: Db, kv: map<Key, Value>, id: Id) {
    && (id in SetAt(kv, ActiveMasters) <==> id in db.masters)
    && (MasterInfo(id) in kv <==> id in db.masters)
    && (id in db.masters ==> kv[MasterInfo(id)].Record? && ShowsMaster(kv[MasterInfo(id)].info, db.masters[id]))
  }

  /** The record names the row's ID, account and server, and calls the master active. */
  predicate ShowsMaster(info: Info, m: Master) {
    && info.masterId == m.id && info.account == m.account && info.server == m.server
    && info.status == Active && info.multiplier == 0.0
  }

  ghost predicate AllListed(s: Sys, cut: set<Id>) {
    forall id: Id :: id !in cut ==> MasterListed(s.db, s.kv, id)
  }

  predicate SameMaster(m: Master, n: Master) {
    m.id == n.id && m.account == n.account && m.server == n.server
  }

  /** Nothing that the index shows about masters changed. */
  ghost predicate MastersKept(s: Sys, t: Sys) {
    && t.db.masters.Keys == s.db.masters.Keys
    && (forall k <- s.db.masters :: SameMaster(t.db.masters[k], s.db.masters[k]))
    && SameAt(s.kv, t.kv, ActiveMasters)
    && (forall id: Id :: SameAt(s.kv, t.kv, MasterInfo(id)))
  }

  lemma KeptStaysListed(s: Sys, t: Sys, cut: set<Id>)
    requires AllListed(s, cut) && MastersKept(s, t)
    ensures AllListed(t, cut)
  {
    forall id: Id | id !in cut
      ensures MasterListed(t.db, t.kv, id)
    {
      assert MasterListed(s.db, s.kv, id) && SameAt(s.kv, t.kv, MasterInfo(id));
    }
  }

  lemma OthersKeepRows(s: Sys, e: Event)
    requires !e.OnCreateMaster?
    ensures Step(s, e).db.masters.Keys == s.db.masters.Keys
    ensures forall k <- s.db.masters :: SameMaster(Step(s, e).db.masters[k], s.db.masters[k])
  {
  }

  /** Every operation but CreateMaster leaves what the index shows about masters alone, DeleteMaster included. */
  lemma OthersKeepMasters(s: Sys, e: Event)
    requires Typed(s.kv) && !e.OnCreateMaster?
    ensures MastersKept(s, Step(s, e))
  {
    OthersKeepRows(s, e);
    StepFootprint(s, e);
  }

  lemma RegisterMasterCall(kv: map<Key, Value>, m: Master, n: nat)
    requires Typed(kv)
    ensures var later := Run(kv, RegisterMasterCmds(m), n).data;
            && (forall id: Id :: id != m.id ==>
                  && (id in SetAt(later, ActiveMasters) <==> id in SetAt(kv, ActiveMasters))
                  && (MasterInfo(id) in later <==> MasterInfo(id) in kv)
                  && (MasterInfo(id) in kv ==> later[MasterInfo(id)] == kv[MasterInfo(id)]))
            && (n >= 2 ==>
                  && m.id in SetAt(later, ActiveMasters)
                  && MasterInfo(m.id) in later && later[MasterInfo(m.id)].Record? && ShowsMaster(later[MasterInfo(m.id)].info, m))
  {
    var put, add := Put(MasterInfo(m.id), Record(MasterRecord(m))), SAdd(ActiveMasters, {m.id});
    var mid := Apply(kv, put).data;
    ApplyFits(kv, put);
    ApplyFits(mid, add);
    assert [put, add][1..] == [add];
    if n > 0 {
      assert Run(kv, [put, add], n) == Run(mid, [add], n - 1);
      RunOne(mid, add, n - 1);
    }
  }

  lemma CreateKeepsListed(s: Sys, q: MasterRequest, id: Id, hash: Option<string>, n: nat, a: Audit, cut: set<Id>)
    requires Inv(s, a) && AllListed(s, cut)
    ensures AllListed(CreateMaster(s, q, id, hash, n).0, if n < 2 then cut + {id} else cut)
  {
    if MasterRequestOk(q) && hash.Some? {
      var m := Master(id, q.account, hash.value, q.server, false);
      if InsertMaster(s.db, m).Success? {
        RegisterMasterCall(s.kv, m, n);
        var t := CreateMaster(s, q, id, hash, n).0;
        forall g: Id | g !in if n < 2 then cut + {id} else cut
          ensures MasterListed(t.db, t.kv, g)
        {
          assert MasterListed(s.db, s.kv, g);
        }
      }
    }
  }

  lemma CutNext(es: seq<Event>, cut: set<Id>)
    requires es != []
    ensures var e := es[0];
            cut + CutMasters(es) == (if e.OnCreateMaster? && e.fast < 2 then cut + {e.id} else cut) + CutMasters(es[1..])
  {
    assert es == [es[0]] + es[1..];
    assert CutMasters(es) == (if es[0].OnCreateMaster? && es[0].fast < 2 then {es[0].id} else {}) + CutMasters(es[1..]);
  }

  lemma {:induction false} RunKeepsListed(s: Sys, es: seq<Event>, a: Audit, cut: set<Id>)
    requires Inv(s, a) && AllListed(s, cut)
    ensures AllListed(RunEvents(s, es), cut + CutMasters(es))
    decreases |es|
  {
    if es == [] {
      assert cut + CutMasters(es) == cut;
    } else {
      var e := es[0];
      var cut1 := if e.OnCreateMaster? && e.fast < 2 then cut + {e.id} else cut;
      StepKeepsInv(s, e, a);
      if e.OnCreateMaster? {
        CreateKeepsListed(s, e.mq, e.id, e.hash, e.fast, a, cut);
      } else {
        OthersKeepMasters(s, e);
        KeptStaysListed(s, Step(s, e), cut);
      }
      RunKeepsListed(Step(s, e), es[1..], AuditStep(s, e, a), cut1);
      CutNext(es, cut);
    }
  }

  /** Over every run: a master whose registration was not cut has its record and is in the set of active
      masters exactly when its row exists, deleted or not; other IDs have neither. */
  lemma MasterIndexOverRuns(es: seq<Event>, id: Id)
    ensures id !in CutMasters(es) ==> MasterListed(RunEvents(EMPTY, es).db, RunEvents(EMPTY, es).kv, id)
  {
    ReachableInv(es);
    assert Inv(EMPTY, CLEAN) by { ReachableInv([]); }
    RunKeepsListed(EMPTY, es, CLEAN, {});
  }

  /** So the set of active masters is the set of live masters if and only if none was ever deleted. */
  lemma ActiveMastersExactly(es: seq<Event>)
    requires CutMasters(es) == {}
    ensures var s := RunEvents(EMPTY, es);
            (forall id: Id :: id in SetAt(s.kv, ActiveMasters) <==> LiveMaster(s.db, id))
            <==> (forall id <- s.db.masters :: !s.db.masters[id].deleted)
  {
    var s := RunEvents(EMPTY, es);
    forall id: Id
      ensures id in SetAt(s.kv, ActiveMasters) <==> id in s.db.masters
    {
      MasterIndexOverRuns(es, id);
    }
  }
}
