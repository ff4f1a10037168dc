/** The subscription sets under every interleaving whatever: exactly when a set at rest is the active
    accounts, and whom a signal reaches meanwhile. */
module SubscriptionHistory {
  import opened Schema
  import opened Keyspace
  import opened Commands
  import opened Registry
  import opened SubscriptionProtocol

  /** Followers whose last subscription command, or missing command, went against the row: a start or stop
      whose command came after the row was rewritten to another status, a clear that came after a start, and a
      deletion that had read an inactive row and met a listed account. */
  function CrossedStep(s: State, e: Step, o: set<Id>): set<Id>
    requires Enabled(s, e)
  {
    match e
    case Command(p) =>
      (match s.ops[p]
       case Setting(id, _, _, status, _) =>
         if id in s.db.followers && s.db.followers[id].status != status then o + {id} else o - {id}
       case Dropping(id, _, _, _, _) => o - {id}
       case Clearing(m, _) =>
         (set id | id in o && id in s.db.followers && s.db.followers[id].masterId != m)
         + (set id | id in s.db.followers && ActiveUnder(s.db.followers[id], m)))
    case Write(p) =>
      var op := s.ops[p];
      if op.Dropping? && !op.wasActive && LiveFollower(s.db, op.id)
      then if Listed(s, s.db.followers[op.id]) then o + {op.id} else o - {op.id}
      else o
    case _ => o
  }

  ghost function Crossed(s: State, es: seq<Step>, o: set<Id>): set<Id>
    requires Schedule(s, es)
    decreases |es|
  {
    if es == [] then o else Crossed(Next(s, es[0]), es[1..], CrossedStep(s, es[0], o))
  }

  // ---- invariant ----

  /** A request that has written and whose command bears on follower `id` of master `m`. */
  predicate PendingBy(s: State, p: nat, id: Id, m: Id) {
    p in s.ops && Written(s.ops[p]) && if s.ops[p].Clearing? then s.ops[p].masterId == m else s.ops[p].id == id
  }

  ghost predicate PendingNow(s: State, id: Id, m: Id) {
    exists p: nat :: PendingBy(s, p, id, m)
  }

  /** The set shows the row. */
  predicate Shown(s: State, f: Follower) {
    Listed(s, f) <==> f.status == Active
  }

  ghost predicate RowOk(s: State, o: set<Id>, id: Id)
    requires id in s.db.followers
  {
    var f := s.db.followers[id];
    f.masterId in s.lost || PendingNow(s, id, f.masterId) || (Shown(s, f) <==> id !in o)
  }

  ghost predicate OpFits(s: State, op: Op) {
    op.Clearing? || (
      && op.id in s.db.followers
      && s.db.followers[op.id].masterId == op.masterId && s.db.followers[op.id].account == op.account
      && (op.Dropping? && op.gone ==> s.db.followers[op.id].deleted))
  }

  ghost predicate OpsFit(s: State) {
    forall p <- s.ops :: OpFits(s, s.ops[p])
  }

  ghost predicate RowsOk(s: State, o: set<Id>) {
    o <= s.db.followers.Keys && forall id <- s.db.followers :: RowOk(s, o, id)
  }

  ghost predicate HistoryInv(s: State, o: set<Id>) {
    Wf(s.db) && Typed(s.kv) && OpsFit(s) && MembersHaveRows(s) && RowsOk(s, o)
  }

  // ---- one operation changes ----

  lemma PendingAtOne(s: State, t: State, p: nat, id: Id, m: Id)
    requires OthersSame(s, t, p)
    ensures PendingNow(s, id, m) ==> PendingNow(t, id, m) || PendingBy(s, p, id, m)
  {
    forall q: nat | q != p
      ensures PendingBy(s, q, id, m) <==> PendingBy(t, q, id, m)
    {
    }
  }

  /** A row that the step left alone, with what is pending on it. */
  lemma RowFrame(s: State, t: State, p: nat, o: set<Id>, o2: set<Id>, id: Id)
    requires OthersSame(s, t, p) && id in s.db.followers && id in t.db.followers && RowOk(s, o, id)
    requires t.db.followers[id] == s.db.followers[id] && s.lost <= t.lost && (id in o2 <==> id in o)
    requires Listed(t, s.db.followers[id]) <==> Listed(s, s.db.followers[id])
    requires !PendingBy(s, p, id, s.db.followers[id].masterId) || s.db.followers[id].masterId in t.lost
    requires !PendingBy(t, p, id, s.db.followers[id].masterId) || PendingBy(s, p, id, s.db.followers[id].masterId)
    ensures RowOk(t, o2, id)
  {
    PendingAtOne(s, t, p, id, s.db.followers[id].masterId);
    PendingAtOne(t, s, p, id, s.db.followers[id].masterId);
  }

  lemma FitFrame(s: State, t: State, op: Op)
    requires OpFits(s, op) && Extends(s.db, t.db)
    ensures OpFits(t, op)
  {
  }

  // ---- tables ----

  lemma StepTables(s: State, e: Step)
    requires Wf(s.db) && Enabled(s, e)
    ensures Wf(Next(s, e).db) && Extends(s.db, Next(s, e).db)
  {
    ExtendsItself(s.db);
    match e
    case NewMaster(m) => StatementKeepsWf(s.db, AddMaster(m));
    case NewFollower(f) => StatementKeepsWf(s.db, AddFollower(f));
    case Write(p) =>
      if s.ops[p].Clearing? { SoftDeleteMasterKeepsWf(s.db, s.ops[p].masterId); } else { WriteKeepsTables(s, p); }
    case _ =>
  }

  lemma StepOps(s: State, e: Step)
    requires Wf(s.db) && OpsFit(s) && Enabled(s, e)
    ensures OpsFit(Next(s, e))
  {
    StepTables(s, e);
    var t := Next(s, e);
    forall q | q in t.ops
      ensures OpFits(t, t.ops[q])
    {
      if q in s.ops && t.ops[q] == s.ops[q] {
        FitFrame(s, t, s.ops[q]);
      } else {
        ChangedOp(s, e, q);
      }
    }
  }

  lemma ChangedByWrite(s: State, p: nat)
    requires Wf(s.db) && OpsFit(s) && Enabled(s, Write(p)) && p in Next(s, Write(p)).ops
    ensures OpFits(Next(s, Write(p)), Next(s, Write(p)).ops[p])
  {
    StepTables(s, Write(p));
    assert OpFits(s, s.ops[p]);
  }

  lemma ChangedByRead(s: State, e: Step)
    requires Enabled(s, e) && (e.ReadSet? || e.ReadDrop? || e.ReadClear?) && e.op in Next(s, e).ops
    ensures OpFits(Next(s, e), Next(s, e).ops[e.op])
  {
  }

  lemma WhoChanged(s: State, e: Step, q: nat)
    requires Enabled(s, e) && q in Next(s, e).ops && (q !in s.ops || Next(s, e).ops[q] != s.ops[q])
    ensures (e.Write? || e.ReadSet? || e.ReadDrop? || e.ReadClear?) && e.op == q
  {
  }

  lemma ChangedOp(s: State, e: Step, q: nat)
    requires Wf(s.db) && OpsFit(s) && Enabled(s, e) && q in Next(s, e).ops
    requires q !in s.ops || Next(s, e).ops[q] != s.ops[q]
    ensures OpFits(Next(s, e), Next(s, e).ops[q])
  {
    WhoChanged(s, e, q);
    if e.Write? { ChangedByWrite(s, q); } else { ChangedByRead(s, e); }
  }

  lemma OnlyCommandsChangeSets(s: State, e: Step)
    requires Enabled(s, e) && !e.Command?
    ensures Next(s, e).kv == s.kv
  {
  }

  lemma StepMembers(s: State, e: Step)
    requires Wf(s.db) && Typed(s.kv) && OpsFit(s) && MembersHaveRows(s) && Enabled(s, e)
    ensures Typed(Next(s, e).kv) && MembersHaveRows(Next(s, e))
  {
    if e.Command? {
      CommandAddsRows(s, e.op);
    } else {
      StepTables(s, e);
      OnlyCommandsChangeSets(s, e);
      WriteMembers(s, Next(s, e));
    }
  }

  lemma CommandAddsRows(s: State, p: nat)
    requires Typed(s.kv) && OpsFit(s) && MembersHaveRows(s) && Enabled(s, Command(p))
    ensures Typed(Next(s, Command(p)).kv) && MembersHaveRows(Next(s, Command(p)))
  {
    var t := Next(s, Command(p));
    assert OpFits(s, s.ops[p]);
    CommandSets(s, p, "");
    forall m: Id, x: string | x in Subs(t.kv, m)
      ensures HasRow(t.db, m, x)
    {
      CommandSets(s, p, m);
      if x in Subs(s.kv, m) { assert HasRow(s.db, m, x); }
    }
  }

  // ---- rows: insertions, reads, cuts ----

  lemma NewMasterRow(s: State, e: Step, o: set<Id>, id: Id)
    requires HistoryInv(s, o) && e.NewMaster? && id in s.db.followers
    ensures id in Next(s, e).db.followers && RowOk(Next(s, e), o, id)
  {
    assert RowOk(s, o, id);
    SamePending(s, Next(s, e), id, s.db.followers[id].masterId);
  }

  lemma SamePending(s: State, t: State, id: Id, m: Id)
    requires t.ops == s.ops
    ensures PendingNow(t, id, m) <==> PendingNow(s, id, m)
  {
    forall p: nat
      ensures PendingBy(s, p, id, m) <==> PendingBy(t, p, id, m)
    {
    }
  }

  lemma NewFollowerShown(s: State, f: Follower, o: set<Id>, id: Id)
    requires HistoryInv(s, o) && f.status == Inactive && InsertFollower(s.db, f).Success?
    requires id in Next(s, NewFollower(f)).db.followers
    ensures RowOk(Next(s, NewFollower(f)), o, id)
  {
    var t := Next(s, NewFollower(f));
    SamePending(s, t, id, t.db.followers[id].masterId);
    if id != f.id {
      assert RowOk(s, o, id);
    } else {
      assert !HasRow(s.db, f.masterId, f.account);
      assert f.account !in Subs(s.kv, f.masterId);
    }
  }

  lemma ReadRow(s: State, e: Step, o: set<Id>, id: Id)
    requires HistoryInv(s, o) && Enabled(s, e) && (e.ReadSet? || e.ReadDrop? || e.ReadClear?) && id in s.db.followers
    ensures RowOk(Next(s, e), o, id)
  {
    assert RowOk(s, o, id);
    ReadBegins(s, e);
    RowFrame(s, Next(s, e), e.op, o, o, id);
  }

  lemma CutRow(s: State, p: nat, o: set<Id>, id: Id)
    requires HistoryInv(s, o) && Enabled(s, Cut(p)) && id in s.db.followers
    ensures RowOk(Next(s, Cut(p)), o, id)
  {
    assert RowOk(s, o, id) && OpFits(s, s.ops[p]);
    RowFrame(s, Next(s, Cut(p)), p, o, o, id);
  }

  // ---- rows: statements ----

  lemma WritePends(s: State, p: nat, id: Id, m: Id)
    requires Enabled(s, Write(p)) && p in Next(s, Write(p)).ops
    requires if s.ops[p].Clearing? then s.ops[p].masterId == m else s.ops[p].id == id
    ensures PendingNow(Next(s, Write(p)), id, m)
  {
    assert PendingBy(Next(s, Write(p)), p, id, m);
  }

  /** The row that a start, stop or deletion writes. */
  lemma WriteOwnRow(s: State, p: nat, o: set<Id>)
    requires HistoryInv(s, o) && Enabled(s, Write(p)) && !s.ops[p].Clearing?
    requires s.ops[p].id in s.db.followers && s.ops[p].id in Next(s, Write(p)).db.followers
    ensures RowOk(Next(s, Write(p)), CrossedStep(s, Write(p), o), s.ops[p].id)
  {
    var t, op := Next(s, Write(p)), s.ops[p];
    assert OpFits(s, op) && RowOk(s, o, op.id);
    if p in t.ops {
      WritePends(s, p, op.id, op.masterId);
    } else if !LiveFollower(s.db, op.id) {
      WriteApartOps(s, p);
      RowFrame(s, t, p, o, o, op.id);
    } else {
      QuietDrop(s, p, o);
    }
  }

  /** A deletion that read an inactive row sends no command. */
  lemma QuietDrop(s: State, p: nat, o: set<Id>)
    requires HistoryInv(s, o) && Enabled(s, Write(p)) && s.ops[p].Dropping? && !s.ops[p].wasActive
    requires LiveFollower(s.db, s.ops[p].id) && s.ops[p].id in Next(s, Write(p)).db.followers
    ensures RowOk(Next(s, Write(p)), CrossedStep(s, Write(p), o), s.ops[p].id)
  {
  }

  lemma WriteApartOps(s: State, p: nat)
    requires Enabled(s, Write(p))
    ensures OthersSame(s, Next(s, Write(p)), p)
  {
  }

  lemma WriteIsElsewhere(s: State, p: nat, o: set<Id>, id: Id, m: Id)
    requires Enabled(s, Write(p)) && !s.ops[p].Clearing? && id != s.ops[p].id
    ensures var t := Next(s, Write(p));
            && t.kv == s.kv && t.lost == s.lost && (id in CrossedStep(s, Write(p), o) <==> id in o)
            && !PendingBy(s, p, id, m) && !PendingBy(t, p, id, m)
  {
  }

  lemma WriteOtherRow(s: State, p: nat, o: set<Id>, id: Id)
    requires HistoryInv(s, o) && Enabled(s, Write(p)) && !s.ops[p].Clearing? && id in s.db.followers && id != s.ops[p].id
    ensures id in Next(s, Write(p)).db.followers && RowOk(Next(s, Write(p)), CrossedStep(s, Write(p), o), id)
  {
    var t := Next(s, Write(p));
    assert RowOk(s, o, id);
    WriteKeepsTables(s, p);
    WriteApartOps(s, p);
    WriteIsElsewhere(s, p, o, id, s.db.followers[id].masterId);
    RowFrame(s, t, p, o, CrossedStep(s, Write(p), o), id);
  }

  lemma WriteClearRow(s: State, p: nat, o: set<Id>, id: Id)
    requires HistoryInv(s, o) && Enabled(s, Write(p)) && s.ops[p].Clearing? && id in s.db.followers
    ensures id in Next(s, Write(p)).db.followers && RowOk(Next(s, Write(p)), o, id)
  {
    var t, m := Next(s, Write(p)), s.db.followers[id].masterId;
    assert RowOk(s, o, id);
    if m == s.ops[p].masterId {
      WritePends(s, p, id, m);
    } else {
      WriteApartOps(s, p);
      RowFrame(s, t, p, o, o, id);
    }
  }

  // ---- rows: commands ----

  lemma CommandOwnRow(s: State, p: nat, o: set<Id>)
    requires HistoryInv(s, o) && Enabled(s, Command(p)) && !s.ops[p].Clearing? && s.ops[p].id in s.db.followers
    ensures RowOk(Next(s, Command(p)), CrossedStep(s, Command(p), o), s.ops[p].id)
  {
    var op := s.ops[p];
    assert OpFits(s, op);
    CommandSets(s, p, op.masterId);
  }

  lemma CommandClearedRow(s: State, p: nat, o: set<Id>, id: Id)
    requires HistoryInv(s, o) && Enabled(s, Command(p)) && s.ops[p].Clearing?
    requires id in s.db.followers && s.db.followers[id].masterId == s.ops[p].masterId
    ensures RowOk(Next(s, Command(p)), CrossedStep(s, Command(p), o), id)
  {
    CommandSets(s, p, s.ops[p].masterId);
  }

  lemma CommandOtherRow(s: State, p: nat, o: set<Id>, id: Id)
    requires HistoryInv(s, o) && Enabled(s, Command(p)) && id in s.db.followers
    requires if s.ops[p].Clearing? then s.db.followers[id].masterId != s.ops[p].masterId else id != s.ops[p].id
    ensures RowOk(Next(s, Command(p)), CrossedStep(s, Command(p), o), id)
  {
    var t, op, f := Next(s, Command(p)), s.ops[p], s.db.followers[id];
    assert OpFits(s, op) && RowOk(s, o, id);
    CommandSets(s, p, f.masterId);
    if !op.Clearing? { OtherAccount(s.db, op.id, id); }
    RowFrame(s, t, p, o, CrossedStep(s, Command(p), o), id);
  }

  lemma StepRow(s: State, e: Step, o: set<Id>, id: Id)
    requires HistoryInv(s, o) && Enabled(s, e) && id in Next(s, e).db.followers
    ensures RowOk(Next(s, e), CrossedStep(s, e, o), id)
  {
    match e
    case NewMaster(_) => NewMasterRow(s, e, o, id);
    case NewFollower(f) =>
      if InsertFollower(s.db, f).Success? { NewFollowerShown(s, f, o, id); } else { assert RowOk(s, o, id); }
    case Cut(p) => CutRow(s, p, o, id);
    case Write(p) =>
      StepTables(s, e);
      if s.ops[p].Clearing? { WriteClearRow(s, p, o, id); }
      else if id == s.ops[p].id { WriteOwnRow(s, p, o); }
      else { WriteKeepsTables(s, p); WriteOtherRow(s, p, o, id); }
    case Command(p) => CommandRow(s, p, o, id);
    case _ => ReadRow(s, e, o, id);
  }

  lemma CommandRow(s: State, p: nat, o: set<Id>, id: Id)
    requires HistoryInv(s, o) && Enabled(s, Command(p)) && id in s.db.followers
    ensures RowOk(Next(s, Command(p)), CrossedStep(s, Command(p), o), id)
  {
    if s.ops[p].Clearing? && s.db.followers[id].masterId == s.ops[p].masterId {
      CommandClearedRow(s, p, o, id);
    } else if !s.ops[p].Clearing? && s.ops[p].id == id {
      CommandOwnRow(s, p, o);
    } else {
      CommandOtherRow(s, p, o, id);
    }
  }

  lemma CrossedHasRows(s: State, e: Step, o: set<Id>)
    requires Wf(s.db) && OpsFit(s) && Enabled(s, e) && o <= s.db.followers.Keys
    ensures CrossedStep(s, e, o) <= Next(s, e).db.followers.Keys
  {
    StepTables(s, e);
    if e.Command? { assert OpFits(s, s.ops[e.op]); }
  }

  lemma StepKeepsHistory(s: State, e: Step, o: set<Id>)
    requires HistoryInv(s, o) && Enabled(s, e)
    ensures HistoryInv(Next(s, e), CrossedStep(s, e, o))
  {
    StepTables(s, e);
    StepOps(s, e);
    StepMembers(s, e);
    CrossedHasRows(s, e, o);
    forall id | id in Next(s, e).db.followers
      ensures RowOk(Next(s, e), CrossedStep(s, e, o), id)
    {
      StepRow(s, e, o, id);
    }
  }

  // ---- every schedule ----

  lemma {:induction false} ScheduleKeepsHistory(s: State, es: seq<Step>, o: set<Id>)
    requires HistoryInv(s, o) && Schedule(s, es)
    ensures HistoryInv(After(s, es), Crossed(s, es, o)) && Extends(s.db, After(s, es).db)
    decreases |es|
  {
    if es == [] {
      ExtendsItself(s.db);
    } else {
      StepTables(s, es[0]);
      StepKeepsHistory(s, es[0], o);
      ScheduleKeepsHistory(Next(s, es[0]), es[1..], CrossedStep(s, es[0], o));
      ExtendsIsTransitive(s.db, Next(s, es[0]).db, After(s, es).db);
    }
  }

  lemma ShownRow(s: State, o: set<Id>, id: Id)
    requires HistoryInv(s, o) && id in s.db.followers && s.db.followers[id].masterId !in s.lost
    requires forall p <- s.ops :: s.ops[p].masterId != s.db.followers[id].masterId
    ensures Shown(s, s.db.followers[id]) <==> id !in o
  {
    assert RowOk(s, o, id);
    forall p: nat
      ensures !PendingBy(s, p, id, s.db.followers[id].masterId)
    {
      assert p in s.ops ==> OpFits(s, s.ops[p]);
    }
  }

  lemma AllShown(s: State, m: Id)
    requires MembersHaveRows(s) && Wf(s.db)
    requires forall id <- s.db.followers :: s.db.followers[id].masterId == m ==> Shown(s, s.db.followers[id])
    ensures Subs(s.kv, m) == ActiveAccounts(s.db, m)
  {
    forall x
      ensures x in Subs(s.kv, m) <==> x in ActiveAccounts(s.db, m)
    {
      if x in Subs(s.kv, m) {
        assert HasRow(s.db, m, x);
        var k :| k in s.db.followers && s.db.followers[k].masterId == m && s.db.followers[k].account == x;
        assert Shown(s, s.db.followers[k]);
      }
      if x in ActiveAccounts(s.db, m) {
        var k :| k in s.db.followers && ActiveUnder(s.db.followers[k], m) && s.db.followers[k].account == x;
        assert Shown(s, s.db.followers[k]);
      }
    }
  }

  lemma SetShows(s: State, m: Id, id: Id)
    requires Wf(s.db) && Subs(s.kv, m) == ActiveAccounts(s.db, m) && id in s.db.followers && s.db.followers[id].masterId == m
    ensures Shown(s, s.db.followers[id])
  {
    var f := s.db.followers[id];
    if f.account in ActiveAccounts(s.db, m) {
      var k :| k in s.db.followers && ActiveUnder(s.db.followers[k], m) && s.db.followers[k].account == f.account;
      assert k == id;
    }
  }

  /** Under every interleaving whatever, whenever no request on a master's side is in flight and none was
      cut: its set is exactly its active accounts if and only if none of its followers is crossed. */
  lemma SetsAtRestExactly(es: seq<Step>, m: Id)
    requires Schedule(EMPTY, es)
    ensures var s := After(EMPTY, es);
            m !in s.lost && (forall p <- s.ops :: s.ops[p].masterId != m) ==>
              (Subs(s.kv, m) == ActiveAccounts(s.db, m)
               <==> forall id <- s.db.followers :: s.db.followers[id].masterId == m ==> id !in Crossed(EMPTY, es, {}))
  {
    assert HistoryInv(EMPTY, {});
    ScheduleKeepsHistory(EMPTY, es, {});
    var s, o := After(EMPTY, es), Crossed(EMPTY, es, {});
    if m !in s.lost && forall p <- s.ops :: s.ops[p].masterId != m {
      forall id | id in s.db.followers && s.db.followers[id].masterId == m
        ensures Shown(s, s.db.followers[id]) <==> id !in o
      {
        ShownRow(s, o, id);
      }
      if Subs(s.kv, m) == ActiveAccounts(s.db, m) {
        forall id | id in s.db.followers && s.db.followers[id].masterId == m
          ensures id !in o
        {
          SetShows(s, m, id);
        }
      }
      if forall id <- s.db.followers :: s.db.followers[id].masterId == m ==> id !in o {
        AllShown(s, m);
      }
    }
  }

  // ---- a signal beside the requests ----

  /** A signal for `m` that reads the set at one moment and selects the rows at a later one. */
  function Selected(read: State, selected: State, m: Id): set<Follower> {
    ActiveByAccounts(selected.db, Subs(read.kv, m))
  }

  /** Whatever goes on in between: only rows active at the second moment are selected, and a follower of the
      master is selected if and only if it was listed at the first moment and is active at the second. */
  lemma SelectedExactly(es: seq<Step>, more: seq<Step>, m: Id, id: Id)
    requires Schedule(EMPTY, es) && Schedule(After(EMPTY, es), more)
    requires var s := After(EMPTY, es); id in s.db.followers && s.db.followers[id].masterId == m
    ensures var s, t := After(EMPTY, es), After(After(EMPTY, es), more);
            && (forall f <- Selected(s, t, m) :: f.status == Active && !f.deleted)
            && id in t.db.followers
            && (t.db.followers[id] in Selected(s, t, m) <==> Listed(s, s.db.followers[id]) && t.db.followers[id].status == Active)
  {
    assert HistoryInv(EMPTY, {});
    ScheduleKeepsHistory(EMPTY, es, {});
    ScheduleKeepsHistory(After(EMPTY, es), more, Crossed(EMPTY, es, {}));
  }

  /** So a follower on which nothing was outstanding when the set was read is selected if and only if it is
      active at the selection and was, unless crossed, active at the reading. */
  lemma SettledIsSelected(es: seq<Step>, more: seq<Step>, m: Id, id: Id)
    requires Schedule(EMPTY, es) && Schedule(After(EMPTY, es), more)
    requires var s := After(EMPTY, es);
             && id in s.db.followers && s.db.followers[id].masterId == m && m !in s.lost && !PendingNow(s, id, m)
    ensures var s, t := After(EMPTY, es), After(After(EMPTY, es), more);
            && id in t.db.followers
            && (t.db.followers[id] in Selected(s, t, m)
                <==> t.db.followers[id].status == Active && (s.db.followers[id].status == Active <==> id !in Crossed(EMPTY, es, {})))
  {
    SelectedExactly(es, more, m, id);
    assert HistoryInv(EMPTY, {});
    ScheduleKeepsHistory(EMPTY, es, {});
    assert RowOk(After(EMPTY, es), Crossed(EMPTY, es, {}), id);
  }
}
