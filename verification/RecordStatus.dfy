/** Whether a follower's fast-lookup record shows the status of its row, over every run. */
module RecordStatus {
  import opened Wrappers
  import opened Schema
  import opened Keyspace
  import opened Commands
  import opened Registry
  import opened RegistryRuns
  import opened Footprint

  predicate StatusRight(s: Sys, id: Id)
    requires id in s.db.followers
  {
    var k := FollowerInfo(id);
    k in s.kv && s.kv[k].Record? && s.kv[k].info.status == s.db.followers[id].status
  }

  /** Followers that were active when their master was deleted and have not been started or stopped since. */
  function OutdatedStep(s: Sys, e: Event, o: set<Id>): set<Id> {
    match e
    case OnDeleteMaster(m, _) =>
      if LiveMaster(s.db, m) then o + set k | k in s.db.followers && ActiveUnder(s.db.followers[k], m) else o
    case OnSet(id, _, _, _) => o - {id}
    case _ => o
  }

  function Outdated(s: Sys, es: seq<Event>, o: set<Id>): set<Id>
    decreases |es|
  {
    if es == [] then o else Outdated(Step(s, es[0]), es[1..], OutdatedStep(s, es[0], o))
  }

  ghost predicate StatusOk(s: Sys, a: Audit, o: set<Id>) {
    && o <= s.db.followers.Keys
    && forall id <- s.db.followers :: !s.db.followers[id].deleted && id !in a.stale ==> (StatusRight(s, id) <==> id !in o)
  }

  /** The row keeps its status and its existence. */
  predicate RowKept(s: Sys, t: Sys, id: Id) {
    id in s.db.followers && id in t.db.followers
    && t.db.followers[id].status == s.db.followers[id].status
    && t.db.followers[id].deleted == s.db.followers[id].deleted
  }

  lemma StatusKept(s: Sys, t: Sys, id: Id)
    requires KeysAgree(s.kv, t.kv, id) && RowKept(s, t, id)
    ensures StatusRight(t, id) <==> StatusRight(s, id)
  {
  }

  lemma AuditGrows(s: Sys, e: Event, a: Audit)
    ensures a.stale <= AuditStep(s, e, a).stale
  {
  }

  lemma RowsPersist(s: Sys, e: Event)
    ensures s.db.followers.Keys <= Step(s, e).db.followers.Keys
  {
  }

  /** Rows that the operation is not about, and whose master it does not delete. */
  lemma OtherRowsKept(s: Sys, e: Event, id: Id)
    requires id in Step(s, e).db.followers && SubjectOf(e) != Some(id)
    requires e.OnDeleteMaster? ==> !(LiveMaster(s.db, e.id) && id in s.db.followers && ActiveUnder(s.db.followers[id], e.id))
    ensures RowKept(s, Step(s, e), id)
  {
  }

  /** A deletion of its master makes an active row inactive and leaves the record active. */
  lemma MasterDeleted(s: Sys, e: Event, a: Audit, id: Id)
    requires Inv(s, a) && e.OnDeleteMaster? && LiveMaster(s.db, e.id) && id !in a.stale
    requires id in s.db.followers && ActiveUnder(s.db.followers[id], e.id)
    ensures id in Step(s, e).db.followers && !StatusRight(Step(s, e), id)
  {
    MasterDeletionLeavesRecords(s, a, e.id, e.sub, id);
  }

  lemma SetRight(s: Sys, e: Event, a: Audit)
    requires Inv(s, a) && e.OnSet? && LiveFollower(s.db, e.id) && e.id !in AuditStep(s, e, a).stale
    ensures StatusRight(Step(s, e), e.id)
  {
    var f := s.db.followers[e.id];
    var cs := SubscriptionCmds(f.masterId, f.account, e.status);
    assert EntriesOk(s.db, s.kv, e.id);
    assert cs == [cs[0]];
    SubscriptionCall(s.kv, cs[0], e.sub);
    RestatusCall(Run(s.kv, cs, e.sub).data, e.id, e.status, e.fast);
  }

  lemma RegisteredRight(s: Sys, e: Event, a: Audit)
    requires Inv(s, a) && e.OnRegister? && e.id !in s.db.followers && e.id in Step(s, e).db.followers
    requires e.id !in AuditStep(s, e, a).stale
    ensures StatusRight(Step(s, e), e.id)
  {
    StepKeepsInv(s, e, a);
    assert EntriesOk(Step(s, e).db, Step(s, e).kv, e.id);
  }

  /** The follower that the operation is about. */
  lemma SubjectRight(s: Sys, e: Event, a: Audit, o: set<Id>, id: Id)
    requires Inv(s, a) && StatusOk(s, a, o) && SubjectOf(e) == Some(id)
    requires LiveFollower(Step(s, e).db, id) && id !in AuditStep(s, e, a).stale
    ensures StatusRight(Step(s, e), id) <==> id !in OutdatedStep(s, e, o)
  {
    AuditGrows(s, e, a);
    if e.OnSet? {
      if LiveFollower(s.db, id) { SetRight(s, e, a); }
    } else if e.OnRegister? {
      if id !in s.db.followers { RegisteredRight(s, e, a); } else { assert Step(s, e) == s; }
    }
  }

  lemma StepKeepsStatusAt(s: Sys, e: Event, a: Audit, o: set<Id>, id: Id)
    requires Inv(s, a) && StatusOk(s, a, o)
    requires LiveFollower(Step(s, e).db, id) && id !in AuditStep(s, e, a).stale
    ensures StatusRight(Step(s, e), id) <==> id !in OutdatedStep(s, e, o)
  {
    AuditGrows(s, e, a);
    if SubjectOf(e) == Some(id) {
      SubjectRight(s, e, a, o, id);
    } else if e.OnDeleteMaster? && LiveMaster(s.db, e.id) && id in s.db.followers && ActiveUnder(s.db.followers[id], e.id) {
      MasterDeleted(s, e, a, id);
    } else {
      OtherRowsKept(s, e, id);
      OtherFollowersUntouched(s, e, id);
      StatusKept(s, Step(s, e), id);
    }
  }

  lemma StepKeepsStatus(s: Sys, e: Event, a: Audit, o: set<Id>)
    requires Inv(s, a) && StatusOk(s, a, o)
    ensures StatusOk(Step(s, e), AuditStep(s, e, a), OutdatedStep(s, e, o))
  {
    RowsPersist(s, e);
    assert OutdatedStep(s, e, o) <= s.db.followers.Keys;
    forall id | LiveFollower(Step(s, e).db, id) && id !in AuditStep(s, e, a).stale
      ensures StatusRight(Step(s, e), id) <==> id !in OutdatedStep(s, e, o)
    {
      StepKeepsStatusAt(s, e, a, o, id);
    }
  }

  lemma {:induction false} RunKeepsStatus(s: Sys, es: seq<Event>, a: Audit, o: set<Id>)
    requires Inv(s, a) && StatusOk(s, a, o)
    ensures StatusOk(RunEvents(s, es), AuditEvents(s, es, a), Outdated(s, es, o))
    decreases |es|
  {
    if es != [] {
      StepKeepsStatus(s, es[0], a, o);
      StepKeepsInv(s, es[0], a);
      RunKeepsStatus(Step(s, es[0]), es[1..], AuditStep(s, es[0], a), OutdatedStep(s, es[0], o));
    }
  }

  /** Over every run: the record of a follower none of whose calls was cut shows the status of its row if
      and only if the follower was not active when its master was deleted, or was started or stopped since. */
  lemma RecordStatusExactly(es: seq<Event>, id: Id)
    requires LiveFollower(RunEvents(EMPTY, es).db, id) && id !in AuditEvents(EMPTY, es, CLEAN).stale
    ensures StatusRight(RunEvents(EMPTY, es), id) <==> id !in Outdated(EMPTY, es, {})
  {
    ReachableInv([]);
    RunKeepsStatus(EMPTY, es, CLEAN, {});
  }
}
