/** Concurrent requests on the account cache: any number of CreateMaster, DeleteMaster and LoadFromDB
    calls, interleaved one SQL statement or one cache operation at a time.  LoadFromDB holds the cache
    lock from before its query until its last row. */
module CacheProtocol {
  import opened Wrappers
  import opened Schema
  import opened Cache

  /** Creating: the row is inserted, the cache not yet set.  Deleting: the row was read; `gone` once the
      transaction has committed.  Loading holds the lock; `pending` are the rows still to come. */
  datatype Op =
    | Creating(id: Id, account: string)
    | Deleting(id: Id, account: string, gone: bool)
    | Waiting
    | Filling(pending: set<Id>)

  /** `complete`: the last load, if any, read all its rows.  `early` are the IDs that a delete request
      named while the request that created them had not yet set the cache, that is, before any client
      could have been told the ID.  `leftover` are the IDs whose entry was set when their row was already
      deleted, and neither an eviction nor a reload has come since. */
  datatype State = State(
    masters: map<Id, Master>, cache: map<string, Id>, ops: map<nat, Op>,
    lock: Option<nat>, complete: bool, early: set<Id>, leftover: set<Id>)

  datatype Step =
    | Insert(op: nat, m: Master)
    | SetEntry(op: nat)
    | Read(op: nat, id: Id)
    | Remove(op: nat)
    | RemoveFails(op: nat)
    | Evict(op: nat)
    | Lock(op: nat)
    | Query(op: nat)
    | QueryFails(op: nat)
    | Row(op: nat, id: Id)
    | Finish(op: nat)
    | Break(op: nat)

  predicate Enabled(s: State, e: Step) {
    match e
    case Insert(p, _) => p !in s.ops
    case SetEntry(p) => p in s.ops && s.ops[p].Creating? && s.lock.None?
    case Read(p, _) => p !in s.ops
    case Remove(p) => p in s.ops && s.ops[p].Deleting? && !s.ops[p].gone
    case RemoveFails(p) => p in s.ops && s.ops[p].Deleting? && !s.ops[p].gone
    case Evict(p) => p in s.ops && s.ops[p].Deleting? && s.ops[p].gone && s.lock.None?
    case Lock(p) => p !in s.ops && s.lock.None?
    case Query(p) => p in s.ops && s.ops[p].Waiting?
    case QueryFails(p) => p in s.ops && s.ops[p].Waiting?
    case Row(p, id) => p in s.ops && s.ops[p].Filling? && id in s.ops[p].pending && id in s.masters
    case Finish(p) => p in s.ops && s.ops[p].Filling? && s.ops[p].pending == {}
    case Break(p) => p in s.ops && s.ops[p].Filling?
  }

  predicate Live(s: State, id: Id) {
    id in s.masters && !s.masters[id].deleted
  }

  predicate CreatingNow(s: State, id: Id) {
    exists p <- s.ops :: s.ops[p].Creating? && s.ops[p].id == id
  }

  predicate DeletingNow(s: State, id: Id) {
    exists p <- s.ops :: s.ops[p].Deleting? && s.ops[p].id == id
  }

  predicate GoneNow(s: State, id: Id) {
    exists p <- s.ops :: s.ops[p].Deleting? && s.ops[p].id == id && s.ops[p].gone
  }

  function Next(s: State, e: Step): State
    requires Enabled(s, e)
  {
    match e
    case Insert(p, m) =>
      var r := InsertMaster(Db(s.masters, map[]), m);
      if r.Failure? then s
      else s.(masters := r.value.masters, ops := s.ops[p := Creating(m.id, m.account)])
    case SetEntry(p) =>
      s.(cache := s.cache[s.ops[p].account := s.ops[p].id], ops := s.ops - {p},
         leftover := if Live(s, s.ops[p].id) then s.leftover else s.leftover + {s.ops[p].id})
    case Read(p, id) =>
      if !Live(s, id) then s
      else s.(ops := s.ops[p := Deleting(id, s.masters[id].account, false)],
              early := if CreatingNow(s, id) then s.early + {id} else s.early)
    case Remove(p) =>
      s.(masters := SoftDeleteMaster(Db(s.masters, map[]), s.ops[p].id).masters,
         ops := s.ops[p := s.ops[p].(gone := true)])
    case RemoveFails(p) => s.(ops := s.ops - {p})
    case Evict(p) => s.(cache := s.cache - {s.ops[p].account}, ops := s.ops - {p}, leftover := s.leftover - {s.ops[p].id})
    case Lock(p) => s.(lock := Some(p), ops := s.ops[p := Waiting])
    case Query(p) =>
      s.(cache := map[], ops := s.ops[p := Filling(set k | k in s.masters && !s.masters[k].deleted)], leftover := {})
    case QueryFails(p) => s.(lock := None, ops := s.ops - {p})
    case Row(p, id) => s.(cache := s.cache[s.masters[id].account := id], ops := s.ops[p := Filling(s.ops[p].pending - {id})])
    case Finish(p) => s.(lock := None, complete := true, ops := s.ops - {p})
    case Break(p) => s.(lock := None, complete := false, ops := s.ops - {p})
  }

  // ---- invariant ----

  /** Rows listed by a load in progress. */
  predicate Coming(s: State, id: Id) {
    exists p <- s.ops :: s.ops[p].Filling? && id in s.ops[p].pending
  }

  predicate LoadRunning(s: State) {
    exists p <- s.ops :: s.ops[p].Filling?
  }

  ghost predicate OpOk(s: State, p: nat)
    requires p in s.ops
  {
    match s.ops[p]
    case Creating(id, account) => id in s.masters && s.masters[id].account == account
    case Deleting(id, account, gone) =>
      id in s.masters && s.masters[id].account == account && (gone ==> s.masters[id].deleted)
    case Waiting => s.lock == Some(p)
    case Filling(pending) =>
      && s.lock == Some(p)
      && forall id <- pending :: id in s.masters && (s.masters[id].deleted ==> GoneNow(s, id))
  }

  ghost predicate OpsOk(s: State) {
    && (forall p <- s.ops :: OpOk(s, p))
    && (forall p <- s.ops, q <- s.ops :: s.ops[p].Creating? && s.ops[q].Creating? && s.ops[p].id == s.ops[q].id ==> p == q)
    && (s.lock.Some? ==> s.lock.value in s.ops && (s.ops[s.lock.value].Waiting? || s.ops[s.lock.value].Filling?))
  }

  /** A row that is being created is deleted, or read for deletion, only early. */
  ghost predicate EarlyOk(s: State) {
    forall id: Id :: CreatingNow(s, id) && (DeletingNow(s, id) || !Live(s, id)) ==> id in s.early
  }

  /** Every entry names a row with its account, which is live, or whose delete is about to evict the
      entry, or for which the entry was set too late. */
  ghost predicate EntriesOk(s: State) {
    forall a <- s.cache ::
      var id := s.cache[a];
      id in s.masters && s.masters[id].account == a && (!s.masters[id].deleted || GoneNow(s, id) || id in s.leftover)
  }

  /** What was set too late is still there, for a deleted row, and was deleted early. */
  ghost predicate LeftoverOk(s: State) {
    forall id <- s.leftover ::
      && id in s.masters && s.masters[id].deleted && id in s.early
      && s.masters[id].account in s.cache && s.cache[s.masters[id].account] == id
  }

  /** Every live master has its entry, unless its creation is about to set it or a load is about to add it. */
  ghost predicate LiveCovered(s: State) {
    s.complete || LoadRunning(s) ==>
      forall id <- s.masters :: !s.masters[id].deleted ==>
        || (s.masters[id].account in s.cache && s.cache[s.masters[id].account] == id)
        || CreatingNow(s, id)
        || Coming(s, id)
  }

  ghost predicate Inv(s: State) {
    UniqueAccounts(s.masters) && OpsOk(s) && EarlyOk(s) && EntriesOk(s) && LiveCovered(s) && LeftoverOk(s)
  }

  // ---- one operation changes ----

  predicate CreatingBy(s: State, p: nat, id: Id) {
    p in s.ops && s.ops[p].Creating? && s.ops[p].id == id
  }

  predicate DeletingBy(s: State, p: nat, id: Id) {
    p in s.ops && s.ops[p].Deleting? && s.ops[p].id == id
  }

  predicate GoneBy(s: State, p: nat, id: Id) {
    p in s.ops && s.ops[p].Deleting? && s.ops[p].id == id && s.ops[p].gone
  }

  predicate ComingBy(s: State, p: nat, id: Id) {
    p in s.ops && s.ops[p].Filling? && id in s.ops[p].pending
  }

  ghost predicate OthersSame(s: State, t: State, p: nat) {
    forall q: nat :: q != p ==> (q in s.ops <==> q in t.ops) && (q in s.ops ==> t.ops[q] == s.ops[q])
  }

  lemma NowIsBy(s: State, id: Id)
    ensures CreatingNow(s, id) <==> exists p: nat :: CreatingBy(s, p, id)
    ensures DeletingNow(s, id) <==> exists p: nat :: DeletingBy(s, p, id)
    ensures GoneNow(s, id) <==> exists p: nat :: GoneBy(s, p, id)
    ensures Coming(s, id) <==> exists p: nat :: ComingBy(s, p, id)
  {
    if CreatingNow(s, id) {
      var p :| p in s.ops && s.ops[p].Creating? && s.ops[p].id == id;
      assert CreatingBy(s, p, id);
    }
    if DeletingNow(s, id) {
      var p :| p in s.ops && s.ops[p].Deleting? && s.ops[p].id == id;
      assert DeletingBy(s, p, id);
    }
    if GoneNow(s, id) {
      var p :| p in s.ops && s.ops[p].Deleting? && s.ops[p].id == id && s.ops[p].gone;
      assert GoneBy(s, p, id);
    }
    if Coming(s, id) {
      var p :| p in s.ops && s.ops[p].Filling? && id in s.ops[p].pending;
      assert ComingBy(s, p, id);
    }
  }

  /** Only operation `p` changed, so only what `p` itself does can differ. */
  lemma AtOne(s: State, t: State, p: nat, id: Id)
    requires OthersSame(s, t, p)
    ensures CreatingNow(s, id) ==> CreatingNow(t, id) || CreatingBy(s, p, id)
    ensures DeletingNow(s, id) ==> DeletingNow(t, id) || DeletingBy(s, p, id)
    ensures GoneNow(s, id) ==> GoneNow(t, id) || GoneBy(s, p, id)
    ensures Coming(s, id) ==> Coming(t, id) || ComingBy(s, p, id)
    ensures CreatingBy(s, p, id) ==> CreatingNow(s, id)
    ensures DeletingBy(s, p, id) ==> DeletingNow(s, id)
    ensures GoneBy(s, p, id) ==> GoneNow(s, id) && DeletingNow(s, id)
    ensures ComingBy(s, p, id) ==> Coming(s, id)
  {
    NowIsBy(s, id);
    NowIsBy(t, id);
    forall q: nat | q != p
      ensures CreatingBy(s, q, id) <==> CreatingBy(t, q, id)
      ensures DeletingBy(s, q, id) <==> DeletingBy(t, q, id)
      ensures GoneBy(s, q, id) <==> GoneBy(t, q, id)
      ensures ComingBy(s, q, id) <==> ComingBy(t, q, id)
    {
    }
  }

  // ---- steps ----

  /** An operation that did not change is still right while deletions in progress stay in progress. */
  lemma OpFrame(s: State, t: State, q: nat)
    requires q in s.ops && q in t.ops && t.ops[q] == s.ops[q] && OpOk(s, q)
    requires forall id <- s.masters :: id in t.masters && t.masters[id] == s.masters[id]
    requires s.lock == Some(q) ==> t.lock == s.lock
    requires forall id: Id :: GoneNow(s, id) ==> GoneNow(t, id)
    ensures OpOk(t, q)
  {
  }

  lemma InsertNows(s: State, p: nat, m: Master, id: Id)
    requires Enabled(s, Insert(p, m)) && InsertMaster(Db(s.masters, map[]), m).Success?
    ensures var t := Next(s, Insert(p, m));
            && (CreatingNow(t, id) <==> CreatingNow(s, id) || id == m.id)
            && (DeletingNow(t, id) <==> DeletingNow(s, id))
            && (GoneNow(t, id) <==> GoneNow(s, id))
            && (Coming(t, id) <==> Coming(s, id))
  {
    var t := Next(s, Insert(p, m));
    AtOne(s, t, p, id);
    AtOne(t, s, p, id);
    assert id == m.id ==> CreatingBy(t, p, id);
  }

  lemma InsertKeepsOps(s: State, p: nat, m: Master)
    requires OpsOk(s) && Enabled(s, Insert(p, m)) && InsertMaster(Db(s.masters, map[]), m).Success?
    ensures OpsOk(Next(s, Insert(p, m))) && !DeletingNow(s, m.id)
  {
    var t := Next(s, Insert(p, m));
    forall id: Id
      ensures GoneNow(s, id) ==> GoneNow(t, id)
    {
      InsertNows(s, p, m, id);
    }
    forall q | q in t.ops
      ensures OpOk(t, q)
    {
      if q != p {
        assert OpOk(s, q);
        OpFrame(s, t, q);
      }
    }
    forall q | q in s.ops
      ensures !s.ops[q].Deleting? || s.ops[q].id != m.id
      ensures !s.ops[q].Creating? || s.ops[q].id != m.id
    {
      assert OpOk(s, q);
    }
  }

  lemma InsertKeepsEarly(s: State, p: nat, m: Master)
    requires OpsOk(s) && EarlyOk(s) && Enabled(s, Insert(p, m)) && InsertMaster(Db(s.masters, map[]), m).Success?
    ensures EarlyOk(Next(s, Insert(p, m)))
  {
    var t := Next(s, Insert(p, m));
    InsertKeepsOps(s, p, m);
    forall id: Id
      ensures CreatingNow(t, id) && (DeletingNow(t, id) || !Live(t, id)) ==> id in t.early
    {
      InsertNows(s, p, m, id);
    }
  }

  lemma InsertKeepsEntries(s: State, p: nat, m: Master)
    requires EntriesOk(s) && LeftoverOk(s) && Enabled(s, Insert(p, m)) && InsertMaster(Db(s.masters, map[]), m).Success?
    ensures EntriesOk(Next(s, Insert(p, m))) && LeftoverOk(Next(s, Insert(p, m)))
  {
    var t := Next(s, Insert(p, m));
    forall a | a in t.cache
      ensures var id := t.cache[a];
              id in t.masters && t.masters[id].account == a && (!t.masters[id].deleted || GoneNow(t, id) || id in t.leftover)
    {
      InsertNows(s, p, m, t.cache[a]);
    }
  }

  lemma InsertKeepsInv(s: State, p: nat, m: Master)
    requires Inv(s) && Enabled(s, Insert(p, m))
    ensures Inv(Next(s, Insert(p, m)))
  {
    if InsertMaster(Db(s.masters, map[]), m).Success? {
      InsertKeepsOps(s, p, m);
      InsertKeepsEarly(s, p, m);
      InsertKeepsEntries(s, p, m);
      InsertKeepsCover(s, p, m);
    }
  }

  lemma InsertKeepsCover(s: State, p: nat, m: Master)
    requires LiveCovered(s) && Enabled(s, Insert(p, m)) && InsertMaster(Db(s.masters, map[]), m).Success?
    ensures LiveCovered(Next(s, Insert(p, m)))
  {
    var t := Next(s, Insert(p, m));
    assert LoadRunning(t) ==> LoadRunning(s);
    forall id: Id
      ensures CreatingNow(t, id) <==> CreatingNow(s, id) || id == m.id
      ensures Coming(t, id) <==> Coming(s, id)
    {
      InsertNows(s, p, m, id);
    }
  }

  lemma SetEntryKeepsInv(s: State, p: nat)
    requires Inv(s) && Enabled(s, SetEntry(p))
    ensures Inv(Next(s, SetEntry(p)))
  {
    var t, op := Next(s, SetEntry(p)), s.ops[p];
    assert OpOk(s, p);
    assert CreatingBy(s, p, op.id);
    forall id: Id
      ensures CreatingNow(s, id) <==> CreatingNow(t, id) || id == op.id
      ensures DeletingNow(t, id) <==> DeletingNow(s, id)
      ensures GoneNow(t, id) <==> GoneNow(s, id)
      ensures Coming(t, id) <==> Coming(s, id)
    {
      AtOne(s, t, p, id);
      AtOne(t, s, p, id);
    }
    forall q | q in t.ops
      ensures OpOk(t, q)
    {
      assert OpOk(s, q);
    }
  }

  lemma ReadKeepsInv(s: State, p: nat, id: Id)
    requires Inv(s) && Enabled(s, Read(p, id))
    ensures Inv(Next(s, Read(p, id)))
  {
    var t := Next(s, Read(p, id));
    if Live(s, id) {
      forall i: Id
        ensures CreatingNow(t, i) <==> CreatingNow(s, i)
        ensures DeletingNow(t, i) ==> DeletingNow(s, i) || i == id
        ensures GoneNow(t, i) <==> GoneNow(s, i)
        ensures Coming(t, i) <==> Coming(s, i)
      {
        AtOne(s, t, p, i);
        AtOne(t, s, p, i);
      }
      forall q | q in t.ops
        ensures OpOk(t, q)
      {
        assert q in s.ops ==> OpOk(s, q);
      }
    }
  }

  lemma RemoveNows(s: State, p: nat, id: Id)
    requires Enabled(s, Remove(p))
    ensures var t := Next(s, Remove(p));
            && (CreatingNow(t, id) <==> CreatingNow(s, id))
            && (DeletingNow(t, id) <==> DeletingNow(s, id))
            && (GoneNow(t, id) <==> GoneNow(s, id) || id == s.ops[p].id)
            && (Coming(t, id) <==> Coming(s, id))
  {
    var t := Next(s, Remove(p));
    AtOne(s, t, p, id);
    AtOne(t, s, p, id);
    assert DeletingBy(s, p, id) <==> id == s.ops[p].id;
    assert GoneBy(t, p, id) <==> id == s.ops[p].id;
  }

  lemma RemoveKeepsOps(s: State, p: nat)
    requires OpsOk(s) && Enabled(s, Remove(p))
    ensures OpsOk(Next(s, Remove(p)))
  {
    var t := Next(s, Remove(p));
    assert OpOk(s, p);
    forall q | q in t.ops
      ensures OpOk(t, q)
    {
      assert OpOk(s, q);
      if t.ops[q].Filling? {
        forall id | id in t.ops[q].pending
          ensures id in t.masters && (t.masters[id].deleted ==> GoneNow(t, id))
        {
          RemoveNows(s, p, id);
        }
      }
    }
  }

  lemma RemoveKeepsEarly(s: State, p: nat)
    requires OpsOk(s) && EarlyOk(s) && Enabled(s, Remove(p))
    ensures EarlyOk(Next(s, Remove(p)))
  {
    var t := Next(s, Remove(p));
    forall id: Id
      ensures CreatingNow(t, id) && (DeletingNow(t, id) || !Live(t, id)) ==> id in t.early
    {
      RemoveNows(s, p, id);
      AtOne(s, s, p, id);
      assert OpOk(s, p);
    }
  }

  lemma RemoveKeepsEntries(s: State, p: nat)
    requires EntriesOk(s) && Enabled(s, Remove(p))
    ensures EntriesOk(Next(s, Remove(p)))
  {
    var t := Next(s, Remove(p));
    forall a | a in t.cache
      ensures var id := t.cache[a];
              id in t.masters && t.masters[id].account == a && (!t.masters[id].deleted || GoneNow(t, id) || id in t.leftover)
    {
      RemoveNows(s, p, t.cache[a]);
    }
  }

  lemma RemoveKeepsCover(s: State, p: nat)
    requires LiveCovered(s) && Enabled(s, Remove(p))
    ensures LiveCovered(Next(s, Remove(p)))
  {
    var t := Next(s, Remove(p));
    forall id | id in t.masters
      ensures (CreatingNow(t, id) <==> CreatingNow(s, id)) && (Coming(t, id) <==> Coming(s, id))
    {
      RemoveNows(s, p, id);
    }
    assert LoadRunning(t) ==> LoadRunning(s);
  }

  lemma RemoveKeepsInv(s: State, p: nat)
    requires Inv(s) && Enabled(s, Remove(p))
    ensures Inv(Next(s, Remove(p)))
  {
    RemoveKeepsOps(s, p);
    RemoveKeepsEarly(s, p);
    RemoveKeepsEntries(s, p);
    RemoveKeepsCover(s, p);
  }

  /** An aborted delete, or one whose entry is evicted, leaves the operations. */
  lemma EvictNows(s: State, p: nat, id: Id)
    requires Enabled(s, Evict(p))
    ensures var t := Next(s, Evict(p));
            && (CreatingNow(t, id) <==> CreatingNow(s, id))
            && (DeletingNow(t, id) ==> DeletingNow(s, id))
            && (GoneNow(s, id) ==> GoneNow(t, id) || id == s.ops[p].id)
            && (Coming(t, id) <==> Coming(s, id))
  {
    AtOne(s, Next(s, Evict(p)), p, id);
    AtOne(Next(s, Evict(p)), s, p, id);
  }

  lemma EvictKeepsOps(s: State, p: nat)
    requires OpsOk(s) && Enabled(s, Evict(p))
    ensures OpsOk(Next(s, Evict(p)))
  {
    var t := Next(s, Evict(p));
    forall q | q in t.ops
      ensures OpOk(t, q)
    {
      assert OpOk(s, q);
    }
  }

  lemma EvictKeepsInv(s: State, p: nat)
    requires Inv(s) && Enabled(s, Evict(p))
    ensures Inv(Next(s, Evict(p)))
  {
    var t := Next(s, Evict(p));
    assert OpOk(s, p);
    EvictKeepsOps(s, p);
    forall id: Id
      ensures CreatingNow(t, id) <==> CreatingNow(s, id)
      ensures DeletingNow(t, id) ==> DeletingNow(s, id)
      ensures GoneNow(s, id) ==> GoneNow(t, id) || id == s.ops[p].id
      ensures Coming(t, id) <==> Coming(s, id)
    {
      EvictNows(s, p, id);
    }
  }

  lemma RemoveFailsKeepsInv(s: State, p: nat)
    requires Inv(s) && Enabled(s, RemoveFails(p))
    ensures Inv(Next(s, RemoveFails(p)))
  {
    var t := Next(s, RemoveFails(p));
    forall id: Id
      ensures CreatingNow(t, id) <==> CreatingNow(s, id)
      ensures DeletingNow(t, id) ==> DeletingNow(s, id)
      ensures GoneNow(s, id) <==> GoneNow(t, id)
      ensures Coming(t, id) <==> Coming(s, id)
    {
      AtOne(s, t, p, id);
      AtOne(t, s, p, id);
    }
    forall q | q in t.ops
      ensures OpOk(t, q)
    {
      assert OpOk(s, q);
    }
  }

  /** The steps of a load that neither read nor write rows or entries. */
  lemma LoadEdgeNows(s: State, e: Step, id: Id)
    requires Enabled(s, e) && (e.Lock? || e.QueryFails? || e.Finish? || e.Break?)
    ensures var t := Next(s, e);
            && (CreatingNow(t, id) <==> CreatingNow(s, id))
            && (DeletingNow(t, id) <==> DeletingNow(s, id))
            && (GoneNow(t, id) <==> GoneNow(s, id))
            && (!e.Break? ==> (Coming(t, id) <==> Coming(s, id)))
  {
    AtOne(s, Next(s, e), e.op, id);
    AtOne(Next(s, e), s, e.op, id);
  }

  lemma LoadEdgeKeepsOps(s: State, e: Step)
    requires OpsOk(s) && Enabled(s, e) && (e.Lock? || e.QueryFails? || e.Finish? || e.Break?)
    ensures OpsOk(Next(s, e))
  {
    var t := Next(s, e);
    OneLoad(s);
    forall id: Id
      ensures GoneNow(s, id) ==> GoneNow(t, id)
    {
      LoadEdgeNows(s, e, id);
    }
    forall q | q in t.ops
      ensures OpOk(t, q)
    {
      if q in s.ops {
        assert OpOk(s, q);
        if q != e.op { OpFrame(s, t, q); }
      }
    }
  }

  lemma LoadEdgeKeepsInv(s: State, e: Step)
    requires Inv(s) && Enabled(s, e) && (e.Lock? || e.QueryFails? || e.Finish? || e.Break?)
    ensures Inv(Next(s, e))
  {
    var t := Next(s, e);
    LoadEdgeKeepsOps(s, e);
    forall id: Id
      ensures CreatingNow(t, id) <==> CreatingNow(s, id)
      ensures DeletingNow(t, id) <==> DeletingNow(s, id)
      ensures GoneNow(t, id) <==> GoneNow(s, id)
      ensures !e.Break? ==> (Coming(t, id) <==> Coming(s, id))
    {
      LoadEdgeNows(s, e, id);
    }
    OneLoad(s);
    OneLoad(t);
  }

  lemma OneLoad(s: State)
    requires OpsOk(s)
    ensures forall p <- s.ops :: s.ops[p].Filling? || s.ops[p].Waiting? ==> s.lock == Some(p)
    ensures LoadRunning(s) <==> s.lock.Some? && s.ops[s.lock.value].Filling?
  {
    forall p | p in s.ops
      ensures s.ops[p].Filling? || s.ops[p].Waiting? ==> s.lock == Some(p)
    {
      assert OpOk(s, p);
    }
  }

  lemma QueryKeepsInv(s: State, p: nat)
    requires Inv(s) && Enabled(s, Query(p))
    ensures Inv(Next(s, Query(p)))
  {
    var t := Next(s, Query(p));
    assert OpOk(s, p);
    forall id: Id
      ensures CreatingNow(t, id) <==> CreatingNow(s, id)
      ensures DeletingNow(t, id) <==> DeletingNow(s, id)
      ensures GoneNow(t, id) <==> GoneNow(s, id)
      ensures Live(s, id) ==> Coming(t, id)
    {
      AtOne(s, t, p, id);
      AtOne(t, s, p, id);
      assert Live(s, id) ==> ComingBy(t, p, id);
    }
    forall q | q in t.ops
      ensures OpOk(t, q)
    {
      assert OpOk(s, q);
    }
  }

  lemma RowNows(s: State, p: nat, id: Id, i: Id)
    requires Enabled(s, Row(p, id))
    ensures var t := Next(s, Row(p, id));
            && (CreatingNow(t, i) <==> CreatingNow(s, i))
            && (DeletingNow(t, i) <==> DeletingNow(s, i))
            && (GoneNow(t, i) <==> GoneNow(s, i))
            && (Coming(s, i) ==> Coming(t, i) || i == id)
  {
    var t := Next(s, Row(p, id));
    AtOne(s, t, p, i);
    AtOne(t, s, p, i);
    if i != id && ComingBy(s, p, i) { assert ComingBy(t, p, i); }
  }

  lemma RowKeepsOps(s: State, p: nat, id: Id)
    requires OpsOk(s) && Enabled(s, Row(p, id))
    ensures OpsOk(Next(s, Row(p, id)))
  {
    var t := Next(s, Row(p, id));
    forall i: Id
      ensures GoneNow(s, i) ==> GoneNow(t, i)
    {
      RowNows(s, p, id, i);
    }
    forall q | q in t.ops
      ensures OpOk(t, q)
    {
      assert OpOk(s, q);
      if q != p { OpFrame(s, t, q); }
    }
  }

  lemma RowKeepsInv(s: State, p: nat, id: Id)
    requires Inv(s) && Enabled(s, Row(p, id))
    ensures Inv(Next(s, Row(p, id)))
  {
    var t := Next(s, Row(p, id));
    RowKeepsOps(s, p, id);
    assert OpOk(s, p);
    forall i: Id
      ensures CreatingNow(t, i) <==> CreatingNow(s, i)
      ensures DeletingNow(t, i) <==> DeletingNow(s, i)
      ensures GoneNow(t, i) <==> GoneNow(s, i)
      ensures Coming(s, i) ==> Coming(t, i) || i == id
    {
      RowNows(s, p, id, i);
    }
    assert LoadRunning(s);
  }

  lemma StepKeepsInv(s: State, e: Step)
    requires Inv(s) && Enabled(s, e)
    ensures Inv(Next(s, e))
  {
    match e
    case Insert(p, m) => InsertKeepsInv(s, p, m);
    case SetEntry(p) => SetEntryKeepsInv(s, p);
    case Read(p, id) => ReadKeepsInv(s, p, id);
    case Remove(p) => RemoveKeepsInv(s, p);
    case RemoveFails(p) => RemoveFailsKeepsInv(s, p);
    case Evict(p) => EvictKeepsInv(s, p);
    case Query(p) => QueryKeepsInv(s, p);
    case Row(p, id) => RowKeepsInv(s, p, id);
    case _ => LoadEdgeKeepsInv(s, e);
  }

  // ---- every schedule ----

  ghost predicate Schedule(s: State, es: seq<Step>)
    decreases |es|
  {
    es == [] || (Enabled(s, es[0]) && Schedule(Next(s, es[0]), es[1..]))
  }

  ghost function After(s: State, es: seq<Step>): State
    requires Schedule(s, es)
    decreases |es|
  {
    if es == [] then s else After(Next(s, es[0]), es[1..])
  }

  lemma {:induction false} ScheduleKeepsInv(s: State, es: seq<Step>)
    requires Inv(s) && Schedule(s, es)
    ensures Inv(After(s, es))
    decreases |es|
  {
    if es != [] {
      StepKeepsInv(s, es[0]);
      ScheduleKeepsInv(Next(s, es[0]), es[1..]);
    }
  }

  /** A server that has loaded its cache and serves no request yet. */
  ghost predicate Started(s: State) {
    && UniqueAccounts(s.masters) && CacheExact(s.masters, s.cache)
    && s.ops == map[] && s.lock == None && s.complete && s.early == {} && s.leftover == {}
  }

  /** Under every interleaving: entries name rows with their account, dead ones only until the pending
      eviction or if they were set too late; live masters are cached, or about to be. */
  lemma CacheUnderConcurrency(s: State, es: seq<Step>)
    requires Started(s) && Schedule(s, es)
    ensures EntriesOk(After(s, es)) && LiveCovered(After(s, es))
  {
    ScheduleKeepsInv(s, es);
  }

  /** With nothing in flight after a complete load, the entries of deleted masters are exactly those that
      were set too late and neither evicted nor reloaded; so the cache is the map of the live masters if and
      only if there are none, in particular when no delete came early. */
  lemma CacheAtRest(s: State, es: seq<Step>)
    requires Started(s) && Schedule(s, es)
    ensures var t := After(s, es);
            t.ops == map[] && t.complete ==>
              && (forall a <- t.cache :: !Live(t, t.cache[a]) <==> t.cache[a] in t.leftover)
              && (CacheExact(t.masters, t.cache) <==> t.leftover == {})
              && (t.early == {} ==> CacheExact(t.masters, t.cache))
  {
    ScheduleKeepsInv(s, es);
    var t := After(s, es);
    if id :| id in t.leftover {
      assert t.masters[id].account in t.cache;
    }
  }

  lemma Prepend(s: State, e: Step, es: seq<Step>)
    requires Enabled(s, e) && Schedule(Next(s, e), es)
    ensures Schedule(s, [e] + es) && After(s, [e] + es) == After(Next(s, e), es)
  {
    assert ([e] + es)[1..] == es;
  }

  /** The delete evicts, then the entry is set. */
  lemma SetTooLate(s: State, m: Master)
    requires s.ops == map[0 := Creating(m.id, m.account), 1 := Deleting(m.id, m.account, true)]
    requires s.lock == None && s.complete && !Live(s, m.id)
    ensures Schedule(s, [Evict(1)] + ([SetEntry(0)] + []))
    ensures var t := After(s, [Evict(1)] + ([SetEntry(0)] + []));
            t.ops == map[] && t.complete && m.account in t.cache && t.cache[m.account] == m.id && !Live(t, m.id)
  {
    var s1 := Next(s, Evict(1));
    assert s1.ops == map[0 := Creating(m.id, m.account)];
    var s2 := Next(s1, SetEntry(0));
    assert s2.ops == map[];
    Prepend(s1, SetEntry(0), []);
    Prepend(s, Evict(1), [SetEntry(0)] + []);
  }

  lemma DeletedAtOnce(s: State, m: Master) returns (t: State)
    requires Started(s) && InsertMaster(Db(s.masters, map[]), m).Success?
    ensures Enabled(s, Insert(0, m)) && Enabled(Next(s, Insert(0, m)), Read(1, m.id))
    ensures Enabled(Next(Next(s, Insert(0, m)), Read(1, m.id)), Remove(1))
    ensures t == Next(Next(Next(s, Insert(0, m)), Read(1, m.id)), Remove(1))
    ensures t.ops == map[0 := Creating(m.id, m.account), 1 := Deleting(m.id, m.account, true)]
    ensures t.lock == None && t.complete && !Live(t, m.id)
  {
    var s1 := Next(s, Insert(0, m));
    assert s1.ops == map[0 := Creating(m.id, m.account)] && Live(s1, m.id);
    var s2 := Next(s1, Read(1, m.id));
    assert s2.ops == map[0 := Creating(m.id, m.account), 1 := Deleting(m.id, m.account, false)];
    t := Next(s2, Remove(1));
    assert t.ops == map[0 := Creating(m.id, m.account), 1 := Deleting(m.id, m.account, true)];
  }

  /** Why the ID must not be known early: a delete that runs entirely between the insert and the cache
      update of the request creating the master leaves an entry for a deleted master until the next reload. */
  lemma EarlyDeleteLeavesEntry(s: State, m: Master) returns (es: seq<Step>)
    requires Started(s) && InsertMaster(Db(s.masters, map[]), m).Success?
    ensures Schedule(s, es)
    ensures var t := After(s, es);
            t.ops == map[] && t.complete && m.account in t.cache && t.cache[m.account] == m.id && !Live(t, m.id)
  {
    var t := DeletedAtOnce(s, m);
    SetTooLate(t, m);
    var tail := [Evict(1)] + ([SetEntry(0)] + []);
    var s1 := Next(s, Insert(0, m));
    var s2 := Next(s1, Read(1, m.id));
    Prepend(s2, Remove(1), tail);
    Prepend(s1, Read(1, m.id), [Remove(1)] + tail);
    Prepend(s, Insert(0, m), [Read(1, m.id)] + ([Remove(1)] + tail));
    es := [Insert(0, m)] + ([Read(1, m.id)] + ([Remove(1)] + tail));
  }
}
