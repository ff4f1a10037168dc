/** The status in a follower's fast-lookup record against the status of its row, under every interleaving of
    registrations, starts, stops and deletions, one SQL statement or one Redis command at a time. */
module StatusProtocol {
  import opened Schema
  import opened Keyspace
  import opened Commands
  import opened Registry

  /** A start or stop has read the row, has written it, or has fetched the record and put its status in. */
  datatype Stage = Read | Written | Got(info: Info)

  /** A registration has inserted the row and has yet to set the record. */
  datatype Op =
    | Registering(id: Id, info: Info)
    | Setting(id: Id, status: Status, stage: Stage)

  /** `records` are the values under follower:{id}; `lost` the IDs one of whose requests was cut. */
  datatype State = State(db: Db, records: map<Id, Info>, ops: map<nat, Op>, lost: set<Id>)

  datatype Step =
    | NewMaster(master: Master)
    | Insert(op: nat, follower: Follower)
    | Publish(op: nat)                             // SET of the registration
    | Begin(op: nat, id: Id, status: Status)       // SELECT of the row
    | Write(op: nat)                               // UPDATE of the row
    | Fetch(op: nat)
    | Store(op: nat)                                 // SET of the status update
    | DeleteMaster(masterId: Id)
    | DeleteRow(id: Id)
    | Forget(id: Id)                               // DEL of an unregistration, which follows the row's deletion
    | Cut(op: nat)

  predicate Enabled(s: State, e: Step) {
    match e
    case NewMaster(_) => true
    case Insert(p, f) => p !in s.ops && f.status == Inactive
    case Publish(p) => p in s.ops && s.ops[p].Registering?
    case Begin(p, _, _) => p !in s.ops
    case Write(p) => p in s.ops && s.ops[p].Setting? && s.ops[p].stage == Read
    case Fetch(p) => p in s.ops && s.ops[p].Setting? && s.ops[p].stage == Written
    case Store(p) => p in s.ops && s.ops[p].Setting? && s.ops[p].stage.Got?
    case DeleteMaster(_) => true
    case DeleteRow(_) => true
    case Forget(id) => id in s.db.followers && s.db.followers[id].deleted
    case Cut(p) => p in s.ops
  }

  /** A statement that finds no live row, and a fetch that finds no record, end the request. */
  function Next(s: State, e: Step): State
    requires Enabled(s, e)
  {
    match e
    case NewMaster(m) => s.(db := Commit(InsertMaster(s.db, m), s.db))
    case Insert(p, f) =>
      var r := InsertFollower(s.db, f);
      if r.Failure? then s
      else s.(db := r.value, ops := s.ops[p := Registering(f.id, FollowerRecord(f.masterId, f))])
    case Publish(p) => s.(records := s.records[s.ops[p].id := s.ops[p].info], ops := s.ops - {p})
    case Begin(p, id, status) => if LiveFollower(s.db, id) then s.(ops := s.ops[p := Setting(id, status, Read)]) else s
    case Write(p) =>
      var op := s.ops[p];
      if !LiveFollower(s.db, op.id) then s.(ops := s.ops - {p})
      else s.(db := UpdateStatus(s.db, op.id, op.status).value, ops := s.ops[p := Setting(op.id, op.status, Written)])
    case Fetch(p) =>
      var op := s.ops[p];
      if op.id !in s.records then s.(ops := s.ops - {p})
      else s.(ops := s.ops[p := Setting(op.id, op.status, Got(s.records[op.id].(status := op.status)))])
    case Store(p) => s.(records := s.records[s.ops[p].id := s.ops[p].stage.info], ops := s.ops - {p})
    case DeleteMaster(m) => s.(db := SoftDeleteMaster(s.db, m))
    case DeleteRow(id) => s.(db := Commit(SoftDeleteFollower(s.db, id), s.db))
    case Forget(id) => s.(records := s.records - {id})
    case Cut(p) => s.(ops := s.ops - {p}, lost := s.lost + {s.ops[p].id})
  }

  predicate Differs(s: State, id: Id, status: Status) {
    id in s.db.followers && s.db.followers[id].status != status
  }

  /** Followers whose record was last set to another status than their row then had, or showed an active
      status when their master's deletion deactivated the row. */
  function OutdatedStep(s: State, e: Step, o: set<Id>): set<Id>
    requires Enabled(s, e)
  {
    match e
    case Publish(p) => if Differs(s, s.ops[p].id, s.ops[p].info.status) then o + {s.ops[p].id} else o - {s.ops[p].id}
    case Store(p) => if Differs(s, s.ops[p].id, s.ops[p].stage.info.status) then o + {s.ops[p].id} else o - {s.ops[p].id}
    case DeleteMaster(m) =>
      (set id | id in o && !(LiveFollower(s.db, id) && s.db.followers[id].masterId == m))
      + (set id | id in s.records && LiveFollower(s.db, id) && s.db.followers[id].masterId == m && s.records[id].status == Active)
    case _ => o
  }

  // ---- invariant ----

  predicate PendingBy(s: State, p: nat, id: Id) {
    p in s.ops && s.ops[p].id == id && (s.ops[p].Setting? ==> s.ops[p].stage != Read)
  }

  predicate RegisteringBy(s: State, p: nat, id: Id) {
    p in s.ops && s.ops[p].id == id && s.ops[p].Registering?
  }

  ghost predicate PendingNow(s: State, id: Id) {
    exists p: nat :: PendingBy(s, p, id)
  }

  ghost predicate RegisteringNow(s: State, id: Id) {
    exists p: nat :: RegisteringBy(s, p, id)
  }

  /** A live row has its record unless its registration is under way; and the record shows its status,
      unless a request on it is under way, exactly if it is not outdated. */
  ghost predicate RowOk(s: State, o: set<Id>, id: Id) {
    LiveFollower(s.db, id) && id !in s.lost ==>
      && (id in s.records || RegisteringNow(s, id))
      && (PendingNow(s, id) || (id in s.records && (s.records[id].status == s.db.followers[id].status <==> id !in o)))
  }

  ghost predicate RowsOk(s: State, o: set<Id>) {
    forall id: Id :: RowOk(s, o, id)
  }

  /** Apart from status and multiplier the information is the row's. */
  predicate InfoOk(db: Db, id: Id, info: Info) {
    && id in db.followers
    && info.masterId == db.followers[id].masterId && info.account == db.followers[id].account
    && info.server == db.followers[id].server
  }

  ghost predicate InfosOk(s: State) {
    && (forall id <- s.records :: InfoOk(s.db, id, s.records[id]))
    && (forall p <- s.ops :: match s.ops[p]
          case Registering(id, info) => InfoOk(s.db, id, info)
          case Setting(id, _, Got(info)) => InfoOk(s.db, id, info)
          case _ => true)
  }

  ghost predicate OthersSame(s: State, t: State, p: nat) {
    forall q: nat :: q != p ==> (q in s.ops <==> q in t.ops) && (q in s.ops ==> t.ops[q] == s.ops[q])
  }

  lemma AtOne(s: State, t: State, p: nat, id: Id)
    requires OthersSame(s, t, p)
    ensures PendingNow(s, id) ==> PendingNow(t, id) || PendingBy(s, p, id)
    ensures RegisteringNow(s, id) ==> RegisteringNow(t, id) || RegisteringBy(s, p, id)
    ensures RegisteringNow(s, id) ==> PendingNow(s, id)
  {
    forall q: nat
      ensures q != p ==> (PendingBy(s, q, id) <==> PendingBy(t, q, id)) && (RegisteringBy(s, q, id) <==> RegisteringBy(t, q, id))
      ensures RegisteringBy(s, q, id) ==> PendingBy(s, q, id)
    {
    }
  }

  /** A follower that the step did not touch. */
  lemma RowFrame(s: State, t: State, p: nat, o: set<Id>, o2: set<Id>, id: Id)
    requires OthersSame(s, t, p) && RowOk(s, o, id) && s.lost <= t.lost && (id in o2 <==> id in o)
    requires LiveFollower(t.db, id) ==> LiveFollower(s.db, id) && t.db.followers[id].status == s.db.followers[id].status
    requires (id in t.records <==> id in s.records) && (id in s.records ==> t.records[id] == s.records[id])
    requires PendingBy(s, p, id) ==> PendingBy(t, p, id)
    requires RegisteringBy(s, p, id) ==> RegisteringBy(t, p, id)
    requires PendingBy(t, p, id) ==> PendingBy(s, p, id) || LiveFollower(t.db, id)
    ensures RowOk(t, o2, id)
  {
    AtOne(s, t, p, id);
    if PendingBy(t, p, id) { assert PendingNow(t, id); }
    if RegisteringBy(t, p, id) { assert RegisteringNow(t, id); }
  }

  // ---- steps on the request's own follower ----

  lemma SetRecordOwn(s: State, e: Step, o: set<Id>)
    requires RowsOk(s, o) && Enabled(s, e) && (e.Publish? || e.Store?)
    ensures RowOk(Next(s, e), OutdatedStep(s, e, o), s.ops[e.op].id)
  {
  }

  lemma WriteOwn(s: State, p: nat, o: set<Id>)
    requires RowsOk(s, o) && Enabled(s, Write(p))
    ensures RowOk(Next(s, Write(p)), o, s.ops[p].id)
  {
    var t, id := Next(s, Write(p)), s.ops[p].id;
    if LiveFollower(s.db, id) {
      assert RowOk(s, o, id);
      AtOne(s, t, p, id);
      assert PendingBy(t, p, id);
    }
  }

  lemma GetOwn(s: State, p: nat, o: set<Id>)
    requires RowsOk(s, o) && Enabled(s, Fetch(p))
    ensures RowOk(Next(s, Fetch(p)), o, s.ops[p].id)
  {
    var t, id := Next(s, Fetch(p)), s.ops[p].id;
    assert RowOk(s, o, id);
    AtOne(s, t, p, id);
    AtOne(t, s, p, id);
    assert id in s.records ==> PendingBy(t, p, id);
  }

  lemma InsertOwn(s: State, p: nat, f: Follower, o: set<Id>)
    requires RowsOk(s, o) && Enabled(s, Insert(p, f)) && InsertFollower(s.db, f).Success?
    ensures RowOk(Next(s, Insert(p, f)), o, f.id)
  {
    var t := Next(s, Insert(p, f));
    assert PendingBy(t, p, f.id) && RegisteringBy(t, p, f.id);
  }

  lemma DeleteMasterRow(s: State, m: Id, o: set<Id>, id: Id)
    requires RowsOk(s, o)
    ensures RowOk(Next(s, DeleteMaster(m)), OutdatedStep(s, DeleteMaster(m), o), id)
  {
    var t := Next(s, DeleteMaster(m));
    assert RowOk(s, o, id);
    SameOps(s, t, id);
  }

  lemma SameOps(s: State, t: State, id: Id)
    requires t.ops == s.ops
    ensures PendingNow(t, id) <==> PendingNow(s, id)
    ensures RegisteringNow(t, id) <==> RegisteringNow(s, id)
  {
    forall q: nat
      ensures PendingBy(t, q, id) <==> PendingBy(s, q, id)
      ensures RegisteringBy(t, q, id) <==> RegisteringBy(s, q, id)
    {
    }
  }

  /** Steps of no request. */
  lemma LooseRow(s: State, e: Step, o: set<Id>, id: Id)
    requires RowsOk(s, o) && Enabled(s, e) && (e.NewMaster? || e.DeleteRow? || e.Forget?)
    ensures RowOk(Next(s, e), o, id)
  {
    assert RowOk(s, o, id);
    SameOps(s, Next(s, e), id);
  }

  // ---- steps on others ----

  /** Whom a request's step is about. */
  function Subject(s: State, e: Step): Id
    requires Enabled(s, e) && !e.NewMaster? && !e.DeleteMaster? && !e.DeleteRow? && !e.Forget?
  {
    match e
    case Insert(_, f) => f.id
    case Begin(_, id, _) => id
    case Publish(p) => s.ops[p].id
    case Write(p) => s.ops[p].id
    case Fetch(p) => s.ops[p].id
    case Store(p) => s.ops[p].id
    case Cut(p) => s.ops[p].id
  }

  lemma OtherUntouched(s: State, e: Step, o: set<Id>, id: Id)
    requires Enabled(s, e) && !e.NewMaster? && !e.DeleteMaster? && !e.DeleteRow? && !e.Forget? && id != Subject(s, e)
    ensures var t := Next(s, e);
            && OthersSame(s, t, e.op) && s.lost <= t.lost && (id in OutdatedStep(s, e, o) <==> id in o)
            && (LiveFollower(t.db, id) ==> LiveFollower(s.db, id) && t.db.followers[id].status == s.db.followers[id].status)
            && (id in t.records <==> id in s.records) && (id in s.records ==> t.records[id] == s.records[id])
            && !PendingBy(s, e.op, id) && !RegisteringBy(s, e.op, id) && !PendingBy(t, e.op, id)
  {
  }

  lemma BeginOrCutOwn(s: State, e: Step, o: set<Id>)
    requires RowsOk(s, o) && Enabled(s, e) && (e.Begin? || e.Cut?)
    ensures RowOk(Next(s, e), o, Subject(s, e))
  {
    var t, id := Next(s, e), Subject(s, e);
    assert RowOk(s, o, id);
    AtOne(s, t, e.op, id);
    AtOne(t, s, e.op, id);
  }

  lemma OwnRow(s: State, e: Step, o: set<Id>)
    requires RowsOk(s, o) && Enabled(s, e) && !e.NewMaster? && !e.DeleteMaster? && !e.DeleteRow? && !e.Forget?
    ensures RowOk(Next(s, e), OutdatedStep(s, e, o), Subject(s, e))
  {
    match e
    case Insert(p, f) =>
      if InsertFollower(s.db, f).Success? { InsertOwn(s, p, f, o); } else { assert RowOk(s, o, f.id); }
    case Write(p) => WriteOwn(s, p, o);
    case Fetch(p) => GetOwn(s, p, o);
    case Publish(_) => SetRecordOwn(s, e, o);
    case Store(_) => SetRecordOwn(s, e, o);
    case _ => BeginOrCutOwn(s, e, o);
  }

  lemma StepRow(s: State, e: Step, o: set<Id>, id: Id)
    requires RowsOk(s, o) && Enabled(s, e)
    ensures RowOk(Next(s, e), OutdatedStep(s, e, o), id)
  {
    if e.DeleteMaster? {
      DeleteMasterRow(s, e.masterId, o, id);
    } else if e.NewMaster? || e.DeleteRow? || e.Forget? {
      LooseRow(s, e, o, id);
    } else if id == Subject(s, e) {
      OwnRow(s, e, o);
    } else {
      assert RowOk(s, o, id);
      OtherUntouched(s, e, o, id);
      RowFrame(s, Next(s, e), e.op, o, OutdatedStep(s, e, o), id);
    }
  }

  // ---- the rest of the record ----

  /** Rows keep what a record shows of them, apart from the status. */
  lemma InfosPersist(s: State, e: Step, id: Id, info: Info)
    requires Enabled(s, e) && InfoOk(s.db, id, info)
    ensures InfoOk(Next(s, e).db, id, info)
  {
  }

  lemma StepKeepsInfos(s: State, e: Step)
    requires InfosOk(s) && Enabled(s, e)
    ensures InfosOk(Next(s, e))
  {
    var t := Next(s, e);
    forall id | id in t.records
      ensures InfoOk(t.db, id, t.records[id])
    {
      InfosPersist(s, e, id, t.records[id]);
    }
    forall p | p in t.ops && (t.ops[p].Registering? || t.ops[p].stage.Got?)
      ensures InfoOk(t.db, t.ops[p].id, if t.ops[p].Registering? then t.ops[p].info else t.ops[p].stage.info)
    {
      if p in s.ops && t.ops[p] == s.ops[p] {
        InfosPersist(s, e, t.ops[p].id, if t.ops[p].Registering? then t.ops[p].info else t.ops[p].stage.info);
      }
    }
  }

  // ---- every schedule ----

  ghost predicate Schedule(s: State, es: seq<Step>)
    decreases |es|
  {
    es == [] || (Enabled(s, es[0]) && Schedule(Next(s, es[0]), es[1..]))
  }

  ghost function After(s: State, es: seq<Step>): State
    requires Schedule(s, es)
    decreases |es|
  {
    if es == [] then s else After(Next(s, es[0]), es[1..])
  }

  ghost function Outdated(s: State, es: seq<Step>, o: set<Id>): set<Id>
    requires Schedule(s, es)
    decreases |es|
  {
    if es == [] then o else Outdated(Next(s, es[0]), es[1..], OutdatedStep(s, es[0], o))
  }

  const EMPTY := State(Db(map[], map[]), map[], map[], {})

  lemma {:induction false} ScheduleKeepsStatus(s: State, es: seq<Step>, o: set<Id>)
    requires RowsOk(s, o) && InfosOk(s) && Schedule(s, es)
    ensures RowsOk(After(s, es), Outdated(s, es, o)) && InfosOk(After(s, es))
    decreases |es|
  {
    if es != [] {
      forall id: Id
        ensures RowOk(Next(s, es[0]), OutdatedStep(s, es[0], o), id)
      {
        StepRow(s, es[0], o, id);
      }
      StepKeepsInfos(s, es[0]);
      ScheduleKeepsStatus(Next(s, es[0]), es[1..], OutdatedStep(s, es[0], o));
    }
  }

  /** Under every interleaving: a live follower on which no request is in flight and none was cut has a record
      with its master, account and server, and it shows its status if and only if it is not outdated. */
  lemma StatusAtRestExactly(es: seq<Step>, id: Id)
    requires Schedule(EMPTY, es)
    ensures var s := After(EMPTY, es);
            LiveFollower(s.db, id) && id !in s.lost && (forall p <- s.ops :: s.ops[p].id != id) ==>
              && id in s.records && InfoOk(s.db, id, s.records[id])
              && (s.records[id].status == s.db.followers[id].status <==> id !in Outdated(EMPTY, es, {}))
  {
    assert RowsOk(EMPTY, {}) && InfosOk(EMPTY);
    ScheduleKeepsStatus(EMPTY, es, {});
    assert RowOk(After(EMPTY, es), Outdated(EMPTY, es, {}), id);
  }

  // ---- a start beside a stop ----

  lemma Prepend(s: State, e: Step, es: seq<Step>)
    requires Enabled(s, e) && Schedule(Next(s, e), es)
    ensures Schedule(s, [e] + es) && After(s, [e] + es) == After(Next(s, e), es)
  {
    assert ([e] + es)[1..] == es;
  }

  /** Both have written, the stop last; then the stop updates the record, then the start does. */
  lemma LateUpdate(s: State, id: Id) returns (es: seq<Step>)
    requires id in s.records && s.ops == map[0 := Setting(id, Active, Written), 1 := Setting(id, Inactive, Written)]
    ensures Schedule(s, es)
    ensures var t := After(s, es); t.ops == map[] && t.db == s.db && t.lost == s.lost && id in t.records && t.records[id].status == Active
  {
    var s1 := Next(s, Fetch(1));
    assert s1.ops == map[0 := Setting(id, Active, Written), 1 := Setting(id, Inactive, Got(s.records[id].(status := Inactive)))];
    var s2 := Next(s1, Store(1));
    assert s2.ops == map[0 := Setting(id, Active, Written)];
    var s3 := Next(s2, Fetch(0));
    assert s3.ops == map[0 := Setting(id, Active, Got(s2.records[id].(status := Active)))];
    var s4 := Next(s3, Store(0));
    assert s4.ops == map[];
    Prepend(s3, Store(0), []);
    Prepend(s2, Fetch(0), [Store(0)] + []);
    Prepend(s1, Store(1), [Fetch(0)] + ([Store(0)] + []));
    Prepend(s, Fetch(1), [Store(1)] + ([Fetch(0)] + ([Store(0)] + [])));
    es := [Fetch(1)] + ([Store(1)] + ([Fetch(0)] + ([Store(0)] + [])));
  }

  lemma BothWrite(s: State, id: Id) returns (t: State)
    requires s.ops == map[] && LiveFollower(s.db, id)
    ensures Enabled(s, Begin(0, id, Active)) && Enabled(Next(s, Begin(0, id, Active)), Begin(1, id, Inactive))
    ensures var s2 := Next(Next(s, Begin(0, id, Active)), Begin(1, id, Inactive));
            Enabled(s2, Write(0)) && Enabled(Next(s2, Write(0)), Write(1)) && t == Next(Next(s2, Write(0)), Write(1))
    ensures t.ops == map[0 := Setting(id, Active, Written), 1 := Setting(id, Inactive, Written)]
    ensures t.records == s.records && t.lost == s.lost && LiveFollower(t.db, id) && t.db.followers[id].status == Inactive
  {
    var s1 := Next(s, Begin(0, id, Active));
    assert s1.ops == map[0 := Setting(id, Active, Read)];
    var s2 := Next(s1, Begin(1, id, Inactive));
    assert s2.ops == map[0 := Setting(id, Active, Read), 1 := Setting(id, Inactive, Read)];
    var s3 := Next(s2, Write(0));
    assert s3.ops == map[0 := Setting(id, Active, Written), 1 := Setting(id, Inactive, Read)];
    t := Next(s3, Write(1));
    assert t.ops == map[0 := Setting(id, Active, Written), 1 := Setting(id, Inactive, Written)];
  }

  /** From every state at rest: the stop writes the row last, the start the record, and the record of an
      inactive follower says active although both requests complete. */
  lemma StartBesideStop(s: State, id: Id) returns (es: seq<Step>)
    requires s.ops == map[] && LiveFollower(s.db, id) && id in s.records
    ensures Schedule(s, es)
    ensures var t := After(s, es);
            && t.ops == map[] && t.lost == s.lost && LiveFollower(t.db, id) && t.db.followers[id].status == Inactive
            && id in t.records && t.records[id].status == Active
  {
    var t := BothWrite(s, id);
    var tail := LateUpdate(t, id);
    var s1 := Next(s, Begin(0, id, Active));
    var s2 := Next(s1, Begin(1, id, Inactive));
    Prepend(Next(s2, Write(0)), Write(1), tail);
    Prepend(s2, Write(0), [Write(1)] + tail);
    Prepend(s1, Begin(1, id, Inactive), [Write(0)] + ([Write(1)] + tail));
    Prepend(s, Begin(0, id, Active), [Begin(1, id, Inactive)] + ([Write(0)] + ([Write(1)] + tail)));
    es := [Begin(0, id, Active)] + ([Begin(1, id, Inactive)] + ([Write(0)] + ([Write(1)] + tail)));
  }
}
