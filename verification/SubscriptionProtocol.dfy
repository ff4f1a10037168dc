/** Concurrent requests on the subscription sets: any number of StartFollowing, StopFollowing,
    DeleteFollower and DeleteMaster requests and of insertions, interleaved one SQL statement or one Redis
    command at a time, each of which may be cut at any point. */
module SubscriptionProtocol {
  import opened Schema
  import opened Keyspace
  import opened Commands
  import opened Registry

  /** A request between its read and its end.  `written` and `gone`: its statement has committed. */
  datatype Op =
    | Setting(id: Id, masterId: Id, account: string, status: Status, written: bool)
    | Dropping(id: Id, masterId: Id, account: string, wasActive: bool, gone: bool)
    | Clearing(masterId: Id, gone: bool)

  /** `lost` are the masters one of whose requests was cut. */
  datatype State = State(db: Db, kv: map<Key, Value>, ops: map<nat, Op>, lost: set<Id>)

  datatype Step =
    | NewMaster(master: Master)
    | NewFollower(follower: Follower)
    | ReadSet(op: nat, id: Id, status: Status)
    | ReadDrop(op: nat, id: Id)
    | ReadClear(op: nat, masterId: Id)
    | Write(op: nat)
    | Command(op: nat)
    | Cut(op: nat)

  predicate Written(op: Op) {
    match op
    case Setting(_, _, _, _, written) => written
    case Dropping(_, _, _, _, gone) => gone
    case Clearing(_, gone) => gone
  }

  predicate Enabled(s: State, e: Step) {
    match e
    case NewMaster(_) => true
    case NewFollower(f) => f.status == Inactive
    case ReadSet(p, _, _) => p !in s.ops
    case ReadDrop(p, _) => p !in s.ops
    case ReadClear(p, _) => p !in s.ops
    case Write(p) => p in s.ops && !Written(s.ops[p])
    case Command(p) => p in s.ops && Written(s.ops[p])
    case Cut(p) => p in s.ops
  }

  function CommandOf(op: Op): Cmd<Key> {
    match op
    case Setting(_, m, x, Active, _) => SAdd(Subscribers(m), {x})
    case Setting(_, m, x, Inactive, _) => SRem(Subscribers(m), x)
    case Dropping(_, m, x, _, _) => SRem(Subscribers(m), x)
    case Clearing(m, _) => Del(Subscribers(m))
  }

  /** A statement that finds no live row ends the request; so does the deletion of a follower that was
      read as inactive, which sends no command. */
  function AfterWrite(s: State, p: nat): State
    requires Enabled(s, Write(p))
  {
    match s.ops[p]
    case Setting(id, m, x, status, _) =>
      if LiveFollower(s.db, id)
      then s.(db := UpdateStatus(s.db, id, status).value, ops := s.ops[p := Setting(id, m, x, status, true)])
      else s.(ops := s.ops - {p})
    case Dropping(id, m, x, wasActive, _) =>
      if !LiveFollower(s.db, id) then s.(ops := s.ops - {p})
      else if wasActive then s.(db := SoftDeleteFollower(s.db, id).value, ops := s.ops[p := Dropping(id, m, x, true, true)])
      else s.(db := SoftDeleteFollower(s.db, id).value, ops := s.ops - {p})
    case Clearing(m, _) => s.(db := SoftDeleteMaster(s.db, m), ops := s.ops[p := Clearing(m, true)])
  }

  function Next(s: State, e: Step): State
    requires Enabled(s, e)
  {
    match e
    case NewMaster(m) => s.(db := Commit(InsertMaster(s.db, m), s.db))
    case NewFollower(f) => s.(db := Commit(InsertFollower(s.db, f), s.db))
    case ReadSet(p, id, status) =>
      if !LiveFollower(s.db, id) then s
      else s.(ops := s.ops[p := Setting(id, s.db.followers[id].masterId, s.db.followers[id].account, status, false)])
    case ReadDrop(p, id) =>
      if !LiveFollower(s.db, id) then s
      else
        var f := s.db.followers[id];
        s.(ops := s.ops[p := Dropping(id, f.masterId, f.account, f.status == Active, false)])
    case ReadClear(p, m) => if !LiveMaster(s.db, m) then s else s.(ops := s.ops[p := Clearing(m, false)])
    case Write(p) => AfterWrite(s, p)
    case Command(p) => s.(kv := Apply(s.kv, CommandOf(s.ops[p])).data, ops := s.ops - {p})
    case Cut(p) => s.(ops := s.ops - {p}, lost := s.lost + {s.ops[p].masterId})
  }

  // ---- who may run beside whom ----

  predicate Starts(op: Op) {
    op.Setting? && op.status == Active
  }

  /** The request can make the follower `id` of master `m` inactive. */
  predicate Ends(op: Op, id: Id, m: Id) {
    match op
    case Setting(k, _, _, status, _) => k == id && status == Inactive
    case Dropping(k, _, _, _, _) => k == id
    case Clearing(x, _) => x == m
  }

  predicate NoEnd(s: State, id: Id, m: Id) {
    forall p <- s.ops :: !Ends(s.ops[p], id, m)
  }

  predicate NoStart(s: State, id: Id) {
    forall p <- s.ops :: Starts(s.ops[p]) ==> s.ops[p].id != id
  }

  predicate NoStartUnder(s: State, m: Id) {
    forall p <- s.ops :: Starts(s.ops[p]) ==> s.ops[p].masterId != m
  }

  /** No start of a follower runs beside a stop or deletion of it or the deletion of its master.  All other
      requests may run beside each other. */
  predicate Calm(s: State, e: Step) {
    match e
    case ReadSet(_, id, status) =>
      LiveFollower(s.db, id) ==> if status == Inactive then NoStart(s, id) else NoEnd(s, id, s.db.followers[id].masterId)
    case ReadDrop(_, id) => LiveFollower(s.db, id) ==> NoStart(s, id)
    case ReadClear(_, m) => LiveMaster(s.db, m) ==> NoStartUnder(s, m)
    case _ => true
  }

  // ---- invariant ----

  predicate WrittenBy(s: State, p: nat, id: Id, status: Status) {
    p in s.ops && s.ops[p].Setting? && s.ops[p].id == id && s.ops[p].status == status && s.ops[p].written
  }

  predicate GoneBy(s: State, p: nat, id: Id) {
    p in s.ops && s.ops[p].Dropping? && s.ops[p].id == id && s.ops[p].gone
  }

  predicate ClearedBy(s: State, p: nat, m: Id) {
    p in s.ops && s.ops[p].Clearing? && s.ops[p].masterId == m && s.ops[p].gone
  }

  ghost predicate WrittenNow(s: State, id: Id, status: Status) {
    exists p: nat :: WrittenBy(s, p, id, status)
  }

  ghost predicate GoneNow(s: State, id: Id) {
    exists p: nat :: GoneBy(s, p, id)
  }

  ghost predicate ClearedNow(s: State, m: Id) {
    exists p: nat :: ClearedBy(s, p, m)
  }

  predicate Listed(s: State, f: Follower) {
    f.account in Subs(s.kv, f.masterId)
  }

  /** A row and its master's set differ only while the command that will settle it is outstanding. */
  ghost predicate FollowerOk(s: State, id: Id)
    requires id in s.db.followers
  {
    var f := s.db.followers[id];
    if ClearedNow(s, f.masterId) then f.status == Inactive
    else f.masterId !in s.lost ==>
      && (Listed(s, f) && f.status == Inactive ==> WrittenNow(s, id, Inactive) || GoneNow(s, id))
      && (f.status == Active && !Listed(s, f) ==> WrittenNow(s, id, Active))
  }

  ghost predicate OpOk(s: State, op: Op) {
    op.Clearing? || (
      && op.id in s.db.followers
      && s.db.followers[op.id].masterId == op.masterId && s.db.followers[op.id].account == op.account
      && match op
         case Setting(id, _, _, status, written) => written ==> s.db.followers[id].status == status
         case Dropping(id, m, _, wasActive, gone) =>
           if gone then s.db.followers[id].deleted
           else m !in s.lost && !ClearedNow(s, m) && Listed(s, s.db.followers[id]) ==> wasActive || WrittenNow(s, id, Inactive))
  }

  ghost predicate Apart(s: State) {
    forall p <- s.ops, q <- s.ops :: Starts(s.ops[p]) ==> !Ends(s.ops[q], s.ops[p].id, s.ops[p].masterId)
  }

  ghost predicate HasRow(db: Db, m: Id, x: string) {
    exists k <- db.followers :: db.followers[k].masterId == m && db.followers[k].account == x
  }

  ghost predicate MembersHaveRows(s: State) {
    forall m: Id, x: string :: x in Subs(s.kv, m) ==> HasRow(s.db, m, x)
  }

  ghost predicate FollowersOk(s: State) {
    forall id <- s.db.followers :: FollowerOk(s, id)
  }

  ghost predicate OpsOk(s: State) {
    forall p <- s.ops :: OpOk(s, s.ops[p])
  }

  ghost predicate Inv(s: State) {
    Wf(s.db) && Typed(s.kv) && Apart(s) && OpsOk(s) && FollowersOk(s) && MembersHaveRows(s)
  }

  // ---- one operation changes ----

  ghost predicate OthersSame(s: State, t: State, p: nat) {
    forall q: nat :: q != p ==> (q in s.ops <==> q in t.ops) && (q in s.ops ==> t.ops[q] == s.ops[q])
  }

  lemma AtOne(s: State, t: State, p: nat, id: Id, m: Id)
    requires OthersSame(s, t, p)
    ensures WrittenNow(s, id, Active) ==> WrittenNow(t, id, Active) || WrittenBy(s, p, id, Active)
    ensures WrittenNow(s, id, Inactive) ==> WrittenNow(t, id, Inactive) || WrittenBy(s, p, id, Inactive)
    ensures GoneNow(s, id) ==> GoneNow(t, id) || GoneBy(s, p, id)
    ensures ClearedNow(s, m) ==> ClearedNow(t, m) || ClearedBy(s, p, m)
  {
    forall q: nat | q != p
      ensures WrittenBy(s, q, id, Active) <==> WrittenBy(t, q, id, Active)
      ensures WrittenBy(s, q, id, Inactive) <==> WrittenBy(t, q, id, Inactive)
      ensures GoneBy(s, q, id) <==> GoneBy(t, q, id)
      ensures ClearedBy(s, q, m) <==> ClearedBy(t, q, m)
    {
    }
  }

  /** Nothing that the promises about follower `id` speak of changed. */
  ghost predicate SameFor(s: State, t: State, id: Id)
    requires id in s.db.followers
  {
    && id in t.db.followers && t.db.followers[id] == s.db.followers[id]
    && (Listed(t, s.db.followers[id]) <==> Listed(s, s.db.followers[id]))
    && s.lost <= t.lost
  }

  lemma FollowerFrame(s: State, t: State, p: nat, id: Id)
    requires OthersSame(s, t, p) && id in s.db.followers && FollowerOk(s, id) && SameFor(s, t, id)
    requires p in s.ops && !s.ops[p].Clearing? ==> s.ops[p].id != id
    requires !ClearedBy(s, p, s.db.followers[id].masterId) && !ClearedBy(t, p, s.db.followers[id].masterId)
    ensures FollowerOk(t, id)
  {
    AtOne(s, t, p, id, s.db.followers[id].masterId);
    AtOne(t, s, p, id, s.db.followers[id].masterId);
  }

  lemma OpFrame(s: State, t: State, p: nat, op: Op)
    requires OthersSame(s, t, p) && OpOk(s, op)
    requires !op.Clearing? && op.id in s.db.followers ==> SameFor(s, t, op.id)
    requires !ClearedBy(s, p, op.masterId) && (!op.Clearing? ==> !WrittenBy(s, p, op.id, Inactive))
    ensures OpOk(t, op)
  {
    if !op.Clearing? { AtOne(s, t, p, op.id, op.masterId); }
  }

  /** While a start is in flight nothing that could end it is, and the other way round. */
  lemma NoneAgainst(s: State, p: nat, id: Id)
    requires Apart(s) && OpsOk(s) && p in s.ops && id in s.db.followers
    ensures Starts(s.ops[p]) && s.ops[p].id == id ==>
              !GoneNow(s, id) && !WrittenNow(s, id, Inactive) && !ClearedNow(s, s.db.followers[id].masterId)
    ensures Ends(s.ops[p], id, s.db.followers[id].masterId) ==> !WrittenNow(s, id, Active)
  {
    var m := s.db.followers[id].masterId;
    assert OpOk(s, s.ops[p]);
    if Starts(s.ops[p]) && s.ops[p].id == id {
      assert forall q <- s.ops :: !Ends(s.ops[q], id, m);
    }
    if Ends(s.ops[p], id, m) {
      forall q: nat
        ensures !WrittenBy(s, q, id, Active)
      {
        assert q in s.ops ==> OpOk(s, s.ops[q]);
        assert q in s.ops && Starts(s.ops[q]) ==> !Ends(s.ops[p], s.ops[q].id, s.ops[q].masterId);
      }
    }
  }

  /** The follower that the request is about; the empty ID for a master's. */
  function Whom(op: Op): Id {
    if op.Clearing? then "" else op.id
  }

  // ---- insertions ----

  lemma SameOpsNow(s: State, t: State, id: Id, m: Id)
    requires t.ops == s.ops
    ensures WrittenNow(t, id, Active) <==> WrittenNow(s, id, Active)
    ensures WrittenNow(t, id, Inactive) <==> WrittenNow(s, id, Inactive)
    ensures GoneNow(t, id) <==> GoneNow(s, id)
    ensures ClearedNow(t, m) <==> ClearedNow(s, m)
  {
    forall q: nat
      ensures WrittenBy(s, q, id, Active) <==> WrittenBy(t, q, id, Active)
      ensures WrittenBy(s, q, id, Inactive) <==> WrittenBy(t, q, id, Inactive)
      ensures GoneBy(s, q, id) <==> GoneBy(t, q, id)
      ensures ClearedBy(s, q, m) <==> ClearedBy(t, q, m)
    {
    }
  }

  lemma NewMasterKeepsInv(s: State, m: Master)
    requires Inv(s)
    ensures Inv(Next(s, NewMaster(m)))
  {
    var t := Next(s, NewMaster(m));
    StatementKeepsWf(s.db, AddMaster(m));
    forall id | id in t.db.followers
      ensures FollowerOk(t, id)
    {
      assert FollowerOk(s, id);
      SameOpsNow(s, t, id, s.db.followers[id].masterId);
    }
    forall p | p in t.ops
      ensures OpOk(t, t.ops[p])
    {
      assert OpOk(s, s.ops[p]);
      SameOpsNow(s, t, Whom(s.ops[p]), s.ops[p].masterId);
    }
    forall x: Id, y: string | y in Subs(t.kv, x)
      ensures HasRow(t.db, x, y)
    {
      assert HasRow(s.db, x, y);
    }
  }

  lemma RowsStay(db: Db, later: Db, m: Id, x: string)
    requires HasRow(db, m, x) && Extends(db, later)
    ensures HasRow(later, m, x)
  {
    var k :| k in db.followers && db.followers[k].masterId == m && db.followers[k].account == x;
    assert k in later.followers;
  }

  lemma NewFollowerRow(s: State, f: Follower, id: Id)
    requires Inv(s) && f.status == Inactive && InsertFollower(s.db, f).Success?
    requires id in Next(s, NewFollower(f)).db.followers
    ensures FollowerOk(Next(s, NewFollower(f)), id)
  {
    var t := Next(s, NewFollower(f));
    SameOpsNow(s, t, id, t.db.followers[id].masterId);
    if id != f.id {
      assert FollowerOk(s, id);
    } else {
      assert !HasRow(s.db, f.masterId, f.account);
      assert f.account !in Subs(s.kv, f.masterId);
    }
  }

  lemma NewFollowerKeepsInv(s: State, f: Follower)
    requires Inv(s) && f.status == Inactive
    ensures Inv(Next(s, NewFollower(f)))
  {
    var t := Next(s, NewFollower(f));
    if InsertFollower(s.db, f).Success? {
      assert Wf(t.db) && Extends(s.db, t.db) by { InsertFollowerKeepsWf(s.db, f); }
      assert FollowersOk(t) by {
        forall id | id in t.db.followers ensures FollowerOk(t, id) { NewFollowerRow(s, f, id); }
      }
      assert OpsOk(t) by {
        forall p | p in t.ops
          ensures OpOk(t, t.ops[p])
        {
          assert OpOk(s, s.ops[p]);
          SameOpsNow(s, t, Whom(s.ops[p]), s.ops[p].masterId);
        }
      }
      WriteMembers(s, t);
    }
  }

  // ---- reads ----

  /** A read adds at most a request that has not written. */
  ghost predicate Begun(s: State, t: State, p: nat) {
    && t.db == s.db && t.kv == s.kv && t.lost == s.lost && OthersSame(s, t, p)
    && p !in s.ops && (p in t.ops ==> !Written(t.ops[p]))
  }

  lemma ReadBegins(s: State, e: Step)
    requires Enabled(s, e) && (e.ReadSet? || e.ReadDrop? || e.ReadClear?)
    ensures Begun(s, Next(s, e), e.op)
  {
  }

  lemma BegunFollower(s: State, t: State, p: nat, id: Id)
    requires Begun(s, t, p) && id in s.db.followers && FollowerOk(s, id)
    ensures FollowerOk(t, id)
  {
    FollowerFrame(s, t, p, id);
  }

  lemma BegunOp(s: State, t: State, p: nat, op: Op)
    requires Begun(s, t, p) && OpOk(s, op)
    ensures OpOk(t, op)
  {
    OpFrame(s, t, p, op);
  }

  lemma ReadKeepsApart(s: State, e: Step)
    requires Apart(s) && OpsOk(s) && Enabled(s, e) && Calm(s, e) && (e.ReadSet? || e.ReadDrop? || e.ReadClear?)
    ensures Apart(Next(s, e))
  {
  }

  lemma ReadKeepsInv(s: State, e: Step)
    requires Inv(s) && Enabled(s, e) && Calm(s, e) && (e.ReadSet? || e.ReadDrop? || e.ReadClear?)
    ensures Inv(Next(s, e))
  {
    var t := Next(s, e);
    ReadKeepsApart(s, e);
    ReadBegins(s, e);
    assert FollowersOk(t) by {
      forall id | id in t.db.followers ensures FollowerOk(t, id) { BegunFollower(s, t, e.op, id); }
    }
    assert OpsOk(t) by {
      forall p | p in t.ops
        ensures OpOk(t, t.ops[p])
      {
        if p in s.ops { BegunOp(s, t, e.op, s.ops[p]); } else if e.ReadDrop? { ReadDropOk(s, p, e.id); }
      }
    }
  }

  lemma LiveIsNotGone(s: State, id: Id)
    requires OpsOk(s) && LiveFollower(s.db, id)
    ensures !GoneNow(s, id)
  {
    forall q: nat
      ensures !GoneBy(s, q, id)
    {
      assert q in s.ops ==> OpOk(s, s.ops[q]);
    }
  }

  lemma ReadDropOk(s: State, p: nat, id: Id)
    requires Inv(s) && Enabled(s, ReadDrop(p, id)) && NoStart(s, id) && LiveFollower(s.db, id)
    ensures OpOk(Next(s, ReadDrop(p, id)), Next(s, ReadDrop(p, id)).ops[p])
  {
    var t, m := Next(s, ReadDrop(p, id)), s.db.followers[id].masterId;
    assert FollowerOk(s, id);
    LiveIsNotGone(s, id);
    AtOne(s, t, p, id, m);
  }

  // ---- statements ----

  /** The row of `op` was rewritten; the others were not. */
  lemma WriteFollowers(s: State, t: State, p: nat, id: Id)
    requires Inv(s) && p in s.ops && !s.ops[p].Clearing? && OthersSame(s, t, p)
    requires t.kv == s.kv && t.lost == s.lost && id in s.db.followers && id != s.ops[p].id
    requires id in t.db.followers && t.db.followers[id] == s.db.followers[id]
    requires p in t.ops ==> !t.ops[p].Clearing?
    ensures FollowerOk(t, id)
  {
    assert FollowerOk(s, id);
    FollowerFrame(s, t, p, id);
  }

  lemma WriteOps(s: State, p: nat, q: nat)
    requires Inv(s) && Enabled(s, Write(p)) && !s.ops[p].Clearing? && q in s.ops && q != p
    ensures OpOk(Next(s, Write(p)), s.ops[q])
  {
    var t, op := Next(s, Write(p)), s.ops[q];
    assert OpOk(s, op) && OpOk(s, s.ops[p]);
    if !op.Clearing? {
      AtOne(s, t, p, op.id, op.masterId);
      if op.id == s.ops[p].id && s.ops[p].Setting? && LiveFollower(s.db, op.id) {
        WriteBesideSame(s, p, q);
      }
    }
  }

  /** A start or stop beside another request on the same follower. */
  lemma WriteBesideSame(s: State, p: nat, q: nat)
    requires Inv(s) && Enabled(s, Write(p)) && s.ops[p].Setting? && LiveFollower(s.db, s.ops[p].id)
    requires q in s.ops && q != p && !s.ops[q].Clearing? && s.ops[q].id == s.ops[p].id
    ensures OpOk(Next(s, Write(p)), s.ops[q])
  {
    var t, id := Next(s, Write(p)), s.ops[p].id;
    assert OpOk(s, s.ops[q]) && OpOk(s, s.ops[p]);
    assert WrittenBy(t, p, id, s.ops[p].status);
    assert s.ops[q].Setting? ==> s.ops[q].status == s.ops[p].status;
    assert s.ops[q].Dropping? ==> s.ops[p].status == Inactive;
  }

  lemma WriteMembers(s: State, t: State)
    requires MembersHaveRows(s) && t.kv == s.kv && Extends(s.db, t.db)
    ensures MembersHaveRows(t)
  {
    forall m: Id, x: string | x in Subs(t.kv, m)
      ensures HasRow(t.db, m, x)
    {
      RowsStay(s.db, t.db, m, x);
    }
  }

  lemma WriteSetOwn(s: State, p: nat)
    requires Inv(s) && Enabled(s, Write(p)) && s.ops[p].Setting? && LiveFollower(s.db, s.ops[p].id)
    ensures var t, id := Next(s, Write(p)), s.ops[p].id;
            id in t.db.followers && FollowerOk(t, id) && OpOk(t, t.ops[p])
  {
    var t, id, m := Next(s, Write(p)), s.ops[p].id, s.ops[p].masterId;
    assert OpOk(s, s.ops[p]) && FollowerOk(s, id);
    NoneAgainst(s, p, id);
    AtOne(t, s, p, id, m);
    assert WrittenBy(t, p, id, s.ops[p].status);
  }

  lemma WriteDropOwn(s: State, p: nat)
    requires Inv(s) && Enabled(s, Write(p)) && s.ops[p].Dropping? && LiveFollower(s.db, s.ops[p].id)
    ensures var t, id := Next(s, Write(p)), s.ops[p].id;
            id in t.db.followers && FollowerOk(t, id) && (p in t.ops ==> OpOk(t, t.ops[p]))
  {
    var t, id, m := Next(s, Write(p)), s.ops[p].id, s.ops[p].masterId;
    assert OpOk(s, s.ops[p]) && FollowerOk(s, id);
    NoneAgainst(s, p, id);
    AtOne(t, s, p, id, m);
    AtOne(s, t, p, id, m);
    assert s.ops[p].wasActive ==> GoneBy(t, p, id);
  }

  /** The request finds no row and ends. */
  lemma WriteMissing(s: State, p: nat)
    requires Inv(s) && Enabled(s, Write(p)) && !s.ops[p].Clearing? && !LiveFollower(s.db, s.ops[p].id)
    ensures FollowerOk(Next(s, Write(p)), s.ops[p].id)
  {
    var t, id, m := Next(s, Write(p)), s.ops[p].id, s.ops[p].masterId;
    assert OpOk(s, s.ops[p]) && FollowerOk(s, id);
    AtOne(t, s, p, id, m);
    AtOne(s, t, p, id, m);
  }

  /** The tables after a start, stop or deletion of a follower: one row rewritten, or none. */
  ghost predicate OneRowWritten(db: Db, later: Db, id: Id) {
    && Wf(later) && Extends(db, later) && later.followers.Keys == db.followers.Keys
    && (forall k <- db.followers :: k != id ==> later.followers[k] == db.followers[k])
  }

  lemma SetWritesOne(db: Db, id: Id, status: Status)
    requires Wf(db) && LiveFollower(db, id)
    ensures OneRowWritten(db, UpdateStatus(db, id, status).value, id)
  {
    UpdateStatusKeepsWf(db, id, status);
  }

  lemma DropWritesOne(db: Db, id: Id)
    requires Wf(db) && LiveFollower(db, id)
    ensures OneRowWritten(db, SoftDeleteFollower(db, id).value, id)
  {
    SoftDeleteFollowerKeepsWf(db, id);
  }

  lemma WriteKeepsTables(s: State, p: nat)
    requires Wf(s.db) && Enabled(s, Write(p)) && !s.ops[p].Clearing?
    ensures OneRowWritten(s.db, Next(s, Write(p)).db, s.ops[p].id)
    ensures !LiveFollower(s.db, s.ops[p].id) ==> Next(s, Write(p)).db == s.db
  {
    var op := s.ops[p];
    if !LiveFollower(s.db, op.id) {
      ExtendsItself(s.db);
    } else if op.Setting? {
      SetWritesOne(s.db, op.id, op.status);
    } else {
      DropWritesOne(s.db, op.id);
    }
  }

  lemma WriteApart(s: State, p: nat)
    requires Apart(s) && Enabled(s, Write(p))
    ensures Apart(Next(s, Write(p))) && OthersSame(s, Next(s, Write(p)), p)
    ensures p in Next(s, Write(p)).ops ==> (Next(s, Write(p)).ops[p].Clearing? <==> s.ops[p].Clearing?)
  {
  }

  lemma WriteKeepsInv(s: State, p: nat)
    requires Inv(s) && Enabled(s, Write(p)) && !s.ops[p].Clearing?
    ensures Inv(Next(s, Write(p)))
  {
    var t, id := Next(s, Write(p)), s.ops[p].id;
    WriteKeepsTables(s, p);
    WriteApart(s, p);
    assert OpOk(s, s.ops[p]);
    if !LiveFollower(s.db, id) {
      WriteMissing(s, p);
    } else if s.ops[p].Setting? {
      WriteSetOwn(s, p);
    } else {
      WriteDropOwn(s, p);
    }
    assert FollowersOk(t) by {
      forall k | k in t.db.followers
        ensures FollowerOk(t, k)
      {
        if k != id { WriteFollowers(s, t, p, k); }
      }
    }
    assert OpsOk(t) by {
      forall q | q in t.ops
        ensures OpOk(t, t.ops[q])
      {
        if q != p { WriteOps(s, p, q); }
      }
    }
    WriteMembers(s, t);
  }

  lemma WriteClearFollower(s: State, p: nat, id: Id)
    requires Inv(s) && Enabled(s, Write(p)) && s.ops[p].Clearing? && id in s.db.followers
    ensures id in Next(s, Write(p)).db.followers && FollowerOk(Next(s, Write(p)), id)
  {
    var t, m := Next(s, Write(p)), s.db.followers[id].masterId;
    assert FollowerOk(s, id);
    if m == s.ops[p].masterId {
      assert ClearedBy(t, p, m);
    } else {
      FollowerFrame(s, t, p, id);
    }
  }

  lemma WriteClearOp(s: State, p: nat, q: nat)
    requires Inv(s) && Enabled(s, Write(p)) && s.ops[p].Clearing? && q in s.ops && q != p
    ensures OpOk(Next(s, Write(p)), s.ops[q])
  {
    var t, op := Next(s, Write(p)), s.ops[q];
    assert OpOk(s, op);
    if op.Dropping? {
      AtOne(s, t, p, op.id, op.masterId);
      assert op.masterId == s.ops[p].masterId ==> ClearedBy(t, p, op.masterId);
    }
  }

  lemma WriteClearKeepsInv(s: State, p: nat)
    requires Inv(s) && Enabled(s, Write(p)) && s.ops[p].Clearing?
    ensures Inv(Next(s, Write(p)))
  {
    var t := Next(s, Write(p));
    SoftDeleteMasterKeepsWf(s.db, s.ops[p].masterId);
    WriteApart(s, p);
    assert t.db.followers.Keys == s.db.followers.Keys;
    assert FollowersOk(t) by {
      forall id | id in t.db.followers ensures FollowerOk(t, id) { WriteClearFollower(s, p, id); }
    }
    assert OpsOk(t) by {
      forall q | q in t.ops
        ensures OpOk(t, t.ops[q])
      {
        if q != p { WriteClearOp(s, p, q); }
      }
    }
    WriteMembers(s, t);
  }

  // ---- commands ----

  /** The set of master `m` after the command. */
  function SetAfter(kv: map<Key, Value>, op: Op, m: Id): set<string> {
    if m != op.masterId then Subs(kv, m)
    else match op
      case Setting(_, _, x, Active, _) => Subs(kv, m) + {x}
      case Setting(_, _, x, Inactive, _) => Subs(kv, m) - {x}
      case Dropping(_, _, x, _, _) => Subs(kv, m) - {x}
      case Clearing(_, _) => {}
  }

  lemma CommandSets(s: State, p: nat, m: Id)
    requires Typed(s.kv) && Enabled(s, Command(p))
    ensures Typed(Next(s, Command(p)).kv)
    ensures Subs(Next(s, Command(p)).kv, m) == SetAfter(s.kv, s.ops[p], m)
  {
    ApplyFits(s.kv, CommandOf(s.ops[p]));
  }

  /** What the command does to the membership of each row of the tables. */
  lemma CommandLists(s: State, p: nat, id: Id)
    requires Inv(s) && Enabled(s, Command(p)) && id in s.db.followers
    ensures var t, f, op := Next(s, Command(p)), s.db.followers[id], s.ops[p];
            (Listed(t, f) <==>
                  match op
                  case Setting(k, _, _, status, _) => if k == id then status == Active else Listed(s, f)
                  case Dropping(k, _, _, _, _) => if k == id then false else Listed(s, f)
                  case Clearing(m, _) => f.masterId != m && Listed(s, f))
  {
    var op, f := s.ops[p], s.db.followers[id];
    assert OpOk(s, op);
    CommandSets(s, p, f.masterId);
    if !op.Clearing? && op.id != id {
      OtherAccount(s.db, op.id, id);
    }
  }

  lemma OtherAccount(db: Db, id: Id, other: Id)
    requires UniquePairs(db.followers) && id in db.followers && other in db.followers && id != other
    ensures db.followers[id].masterId == db.followers[other].masterId ==> db.followers[id].account != db.followers[other].account
  {
  }

  lemma CommandFollower(s: State, p: nat, id: Id)
    requires Inv(s) && Enabled(s, Command(p)) && id in s.db.followers
    ensures FollowerOk(Next(s, Command(p)), id)
  {
    var t, op := Next(s, Command(p)), s.ops[p];
    var m := s.db.followers[id].masterId;
    assert OpOk(s, op) && FollowerOk(s, id);
    CommandLists(s, p, id);
    AtOne(s, t, p, id, m);
    AtOne(t, s, p, id, m);
    if !op.Clearing? && op.id == id {
      NoneAgainst(s, p, id);
    } else if op.Clearing? && op.masterId == m {
      assert ClearedBy(s, p, m);
    }
  }

  lemma CommandOp(s: State, p: nat, q: nat)
    requires Inv(s) && Enabled(s, Command(p)) && q in s.ops && q != p
    ensures OpOk(Next(s, Command(p)), s.ops[q])
  {
    var t, op := Next(s, Command(p)), s.ops[q];
    assert OpOk(s, op);
    if !op.Clearing? {
      CommandLists(s, p, op.id);
      AtOne(s, t, p, op.id, op.masterId);
    }
  }

  lemma CommandMembers(s: State, p: nat)
    requires Inv(s) && Enabled(s, Command(p))
    ensures MembersHaveRows(Next(s, Command(p)))
  {
    var t := Next(s, Command(p));
    assert OpOk(s, s.ops[p]);
    forall m: Id, x: string | x in Subs(t.kv, m)
      ensures HasRow(t.db, m, x)
    {
      CommandSets(s, p, m);
      if x in Subs(s.kv, m) { assert HasRow(s.db, m, x); }
    }
  }

  lemma CommandKeepsInv(s: State, p: nat)
    requires Inv(s) && Enabled(s, Command(p))
    ensures Inv(Next(s, Command(p)))
  {
    var t := Next(s, Command(p));
    ApplyFits(s.kv, CommandOf(s.ops[p]));
    forall id | id in t.db.followers
      ensures FollowerOk(t, id)
    {
      CommandFollower(s, p, id);
    }
    forall q | q in t.ops
      ensures OpOk(t, t.ops[q])
    {
      CommandOp(s, p, q);
    }
    CommandMembers(s, p);
  }

  lemma CutKeepsInv(s: State, p: nat)
    requires Inv(s) && Enabled(s, Cut(p))
    ensures Inv(Next(s, Cut(p)))
  {
    var t := Next(s, Cut(p));
    forall id | id in t.db.followers
      ensures FollowerOk(t, id)
    {
      var m := s.db.followers[id].masterId;
      assert FollowerOk(s, id) && OpOk(s, s.ops[p]);
      AtOne(s, t, p, id, m);
      AtOne(t, s, p, id, m);
    }
    forall q | q in t.ops
      ensures OpOk(t, t.ops[q])
    {
      assert OpOk(s, s.ops[q]) && OpOk(s, s.ops[p]);
      AtOne(s, t, p, Whom(s.ops[q]), s.ops[q].masterId);
    }
  }

  lemma StepKeepsInv(s: State, e: Step)
    requires Inv(s) && Enabled(s, e) && Calm(s, e)
    ensures Inv(Next(s, e))
  {
    match e
    case NewMaster(m) => NewMasterKeepsInv(s, m);
    case NewFollower(f) => NewFollowerKeepsInv(s, f);
    case Write(p) =>
      if s.ops[p].Clearing? { WriteClearKeepsInv(s, p); } else { WriteKeepsInv(s, p); }
    case Command(p) => CommandKeepsInv(s, p);
    case Cut(p) => CutKeepsInv(s, p);
    case _ => ReadKeepsInv(s, e);
  }

  // ---- every schedule ----

  ghost predicate Schedule(s: State, es: seq<Step>)
    decreases |es|
  {
    es == [] || (Enabled(s, es[0]) && Schedule(Next(s, es[0]), es[1..]))
  }

  ghost function After(s: State, es: seq<Step>): State
    requires Schedule(s, es)
    decreases |es|
  {
    if es == [] then s else After(Next(s, es[0]), es[1..])
  }

  ghost predicate AllCalm(s: State, es: seq<Step>)
    requires Schedule(s, es)
    decreases |es|
  {
    es == [] || (Calm(s, es[0]) && AllCalm(Next(s, es[0]), es[1..]))
  }

  const EMPTY := State(Db(map[], map[]), map[], map[], {})

  lemma {:induction false} ScheduleKeepsInv(s: State, es: seq<Step>)
    requires Inv(s) && Schedule(s, es) && AllCalm(s, es)
    ensures Inv(After(s, es))
    decreases |es|
  {
    if es != [] {
      StepKeepsInv(s, es[0]);
      ScheduleKeepsInv(Next(s, es[0]), es[1..]);
    }
  }

  lemma SettledSet(s: State, m: Id)
    requires Inv(s) && m !in s.lost && forall p <- s.ops :: s.ops[p].masterId != m
    ensures Subs(s.kv, m) == ActiveAccounts(s.db, m)
  {
    forall id | id in s.db.followers && s.db.followers[id].masterId == m
      ensures Listed(s, s.db.followers[id]) <==> ActiveUnder(s.db.followers[id], m)
    {
      assert FollowerOk(s, id);
      assert forall p <- s.ops :: OpOk(s, s.ops[p]);
    }
    forall x
      ensures x in Subs(s.kv, m) <==> x in ActiveAccounts(s.db, m)
    {
      if x in Subs(s.kv, m) {
        assert HasRow(s.db, m, x);
        var k :| k in s.db.followers && s.db.followers[k].masterId == m && s.db.followers[k].account == x;
        assert Listed(s, s.db.followers[k]);
      }
      if x in ActiveAccounts(s.db, m) {
        var k :| k in s.db.followers && ActiveUnder(s.db.followers[k], m) && s.db.followers[k].account == x;
        assert Listed(s, s.db.followers[k]);
      }
    }
  }

  /** Under every interleaving in which no start of a follower runs beside a stop or deletion of it or the
      deletion of its master: whenever no request on a master's side is in flight and
      none was cut, its set is exactly its active accounts. */
  lemma SetsAtRest(es: seq<Step>, m: Id)
    requires Schedule(EMPTY, es) && AllCalm(EMPTY, es)
    ensures var s := After(EMPTY, es);
            m !in s.lost && (forall p <- s.ops :: s.ops[p].masterId != m) ==> Subs(s.kv, m) == ActiveAccounts(s.db, m)
  {
    assert Inv(EMPTY);
    ScheduleKeepsInv(EMPTY, es);
    var s := After(EMPTY, es);
    if m !in s.lost && forall p <- s.ops :: s.ops[p].masterId != m { SettledSet(s, m); }
  }

  // ---- why the requests must be apart ----

  lemma Prepend(s: State, e: Step, es: seq<Step>)
    requires Enabled(s, e) && Schedule(Next(s, e), es)
    ensures Schedule(s, [e] + es) && After(s, [e] + es) == After(Next(s, e), es)
  {
    assert ([e] + es)[1..] == es;
  }

  /** Two requests have written; the start sends its command last. */
  lemma LateCommand(s: State, id: Id, m: Id, x: string, other: Op) returns (es: seq<Step>)
    requires Typed(s.kv) && UniquePairs(s.db.followers)
    requires id in s.db.followers && s.db.followers[id].masterId == m && s.db.followers[id].account == x
    requires s.db.followers[id].status == Inactive
    requires Written(other) && s.ops == map[0 := Setting(id, m, x, Active, true), 1 := other]
    ensures Schedule(s, es)
    ensures var t := After(s, es);
            t.ops == map[] && t.lost == s.lost && x in Subs(t.kv, m) && x !in ActiveAccounts(t.db, m)
  {
    ApplyFits(s.kv, CommandOf(other));
    var s1 := Next(s, Command(1));
    assert s1.ops == map[0 := Setting(id, m, x, Active, true)];
    LastCommand(s1, id, m, x);
    es := [Command(1)] + ([Command(0)] + []);
    Prepend(s, Command(1), [Command(0)] + []);
  }

  lemma TwoReads(s: State, e1: Step, e2: Step, w1: Step, w2: Step, tail: seq<Step>)
    requires Enabled(s, e1) && Enabled(Next(s, e1), e2)
    requires Enabled(Next(Next(s, e1), e2), w1) && Enabled(Next(Next(Next(s, e1), e2), w1), w2)
    requires Schedule(Next(Next(Next(Next(s, e1), e2), w1), w2), tail)
    ensures var es := [e1] + ([e2] + ([w1] + ([w2] + tail)));
            Schedule(s, es) && After(s, es) == After(Next(Next(Next(Next(s, e1), e2), w1), w2), tail)
  {
    var s1 := Next(s, e1);
    var s2 := Next(s1, e2);
    var s3 := Next(s2, w1);
    Prepend(s3, w2, tail);
    Prepend(s2, w1, [w2] + tail);
    Prepend(s1, e2, [w1] + ([w2] + tail));
    Prepend(s, e1, [e2] + ([w1] + ([w2] + tail)));
  }

  /** The first request, a start, has read its row. */
  function StartRead(s: State, id: Id): State
    requires id in s.db.followers
  {
    var f := s.db.followers[id];
    s.(ops := map[0 := Setting(id, f.masterId, f.account, Active, false)])
  }

  /** Both requests have read; then the start has written. */
  function BothRead(s: State, id: Id, other: Op): State
    requires id in s.db.followers
  {
    var f := s.db.followers[id];
    s.(ops := map[0 := Setting(id, f.masterId, f.account, Active, false), 1 := other])
  }

  function StartWritten(s: State, id: Id, other: Op): State
    requires LiveFollower(s.db, id)
  {
    var f := s.db.followers[id];
    s.(db := UpdateStatus(s.db, id, Active).value, ops := map[0 := Setting(id, f.masterId, f.account, Active, true), 1 := other])
  }

  lemma StartReads(s: State, id: Id)
    requires s.ops == map[] && LiveFollower(s.db, id)
    ensures Next(s, ReadSet(0, id, Active)) == StartRead(s, id)
  {
  }

  lemma StartWrites(s: State, id: Id, other: Op)
    requires LiveFollower(s.db, id)
    ensures Enabled(BothRead(s, id, other), Write(0))
    ensures Next(BothRead(s, id, other), Write(0)) == StartWritten(s, id, other)
  {
    var t := BothRead(s, id, other);
    var f := s.db.followers[id];
    assert t.ops[0 := Setting(id, f.masterId, f.account, Active, true)] == StartWritten(s, id, other).ops;
  }

  lemma StopReads(s: State, id: Id)
    requires LiveFollower(s.db, id)
    ensures var f := s.db.followers[id];
            Next(StartRead(s, id), ReadSet(1, id, Inactive)) == BothRead(s, id, Setting(id, f.masterId, f.account, Inactive, false))
  {
  }

  /** The row that was started and then deactivated again. */
  predicate BackToInactive(db: Db, later: Db, id: Id)
    requires id in db.followers
  {
    id in later.followers && later.followers[id] == db.followers[id].(status := Inactive)
  }

  lemma StoppedRow(db: Db, id: Id)
    requires Wf(db) && LiveFollower(db, id)
    ensures var later := UpdateStatus(UpdateStatus(db, id, Active).value, id, Inactive).value;
            UniquePairs(later.followers) && BackToInactive(db, later, id)
  {
    UpdateStatusKeepsWf(db, id, Active);
    UpdateStatusKeepsWf(UpdateStatus(db, id, Active).value, id, Inactive);
  }

  lemma DeactivatedRow(db: Db, id: Id)
    requires Wf(db) && LiveFollower(db, id)
    ensures var later := SoftDeleteMaster(UpdateStatus(db, id, Active).value, db.followers[id].masterId);
            UniquePairs(later.followers) && BackToInactive(db, later, id)
  {
    UpdateStatusKeepsWf(db, id, Active);
    SoftDeleteMasterKeepsWf(UpdateStatus(db, id, Active).value, db.followers[id].masterId);
  }

  lemma StopWrites(s: State, id: Id) returns (t: State)
    requires Wf(s.db) && LiveFollower(s.db, id)
    ensures var f := s.db.followers[id];
            var s3 := StartWritten(s, id, Setting(id, f.masterId, f.account, Inactive, false));
            && Enabled(s3, Write(1)) && t == Next(s3, Write(1))
            && t.ops == map[0 := Setting(id, f.masterId, f.account, Active, true), 1 := Setting(id, f.masterId, f.account, Inactive, true)]
            && t.kv == s.kv && t.lost == s.lost && UniquePairs(t.db.followers)
            && BackToInactive(s.db, t.db, id)
  {
    var f := s.db.followers[id];
    var s3 := StartWritten(s, id, Setting(id, f.masterId, f.account, Inactive, false));
    StoppedRow(s.db, id);
    t := Next(s3, Write(1));
  }

  /** A start beside a stop of the same follower: the stop writes last and the start sends its command
      last, and the account of an inactive row stays listed although both requests complete. */
  lemma StartBesideStop(s: State, id: Id) returns (es: seq<Step>)
    requires Inv(s) && s.ops == map[] && LiveFollower(s.db, id)
    ensures Schedule(s, es)
    ensures var t, f := After(s, es), s.db.followers[id];
            t.ops == map[] && t.lost == s.lost && f.account in Subs(t.kv, f.masterId) && f.account !in ActiveAccounts(t.db, f.masterId)
  {
    var f := s.db.followers[id];
    StartReads(s, id);
    StopReads(s, id);
    StartWrites(s, id, Setting(id, f.masterId, f.account, Inactive, false));
    var t := StopWrites(s, id);
    var tail := LateCommand(t, id, f.masterId, f.account, Setting(id, f.masterId, f.account, Inactive, true));
    TwoReads(s, ReadSet(0, id, Active), ReadSet(1, id, Inactive), Write(0), Write(1), tail);
    es := [ReadSet(0, id, Active)] + ([ReadSet(1, id, Inactive)] + ([Write(0)] + ([Write(1)] + tail)));
  }

  lemma DropReads(s: State, id: Id)
    requires LiveFollower(s.db, id) && s.db.followers[id].status == Inactive
    ensures var f := s.db.followers[id];
            Next(StartRead(s, id), ReadDrop(1, id)) == BothRead(s, id, Dropping(id, f.masterId, f.account, false, false))
  {
  }

  /** The deletion read an inactive row, so it ends with its statement. */
  lemma DropWrites(s: State, id: Id) returns (t: State)
    requires Wf(s.db) && LiveFollower(s.db, id)
    ensures var f := s.db.followers[id];
            var s3 := StartWritten(s, id, Dropping(id, f.masterId, f.account, false, false));
            && Enabled(s3, Write(1)) && t == Next(s3, Write(1))
            && t.ops == map[0 := Setting(id, f.masterId, f.account, Active, true)]
            && t.kv == s.kv && t.lost == s.lost && UniquePairs(t.db.followers)
            && id in t.db.followers && t.db.followers[id] == f.(status := Inactive, deleted := true)
  {
    var f := s.db.followers[id];
    var s3 := StartWritten(s, id, Dropping(id, f.masterId, f.account, false, false));
    DroppedRow(s.db, id);
    t := Next(s3, Write(1));
    assert t.ops == map[0 := Setting(id, f.masterId, f.account, Active, true)];
  }

  lemma LastCommand(s: State, id: Id, m: Id, x: string)
    requires Typed(s.kv) && UniquePairs(s.db.followers)
    requires id in s.db.followers && s.db.followers[id].masterId == m && s.db.followers[id].account == x
    requires s.db.followers[id].status == Inactive
    requires s.ops == map[0 := Setting(id, m, x, Active, true)]
    ensures Schedule(s, [Command(0)] + [])
    ensures var t := After(s, [Command(0)] + []);
            t.ops == map[] && t.lost == s.lost && x in Subs(t.kv, m) && x !in ActiveAccounts(t.db, m)
  {
    ApplyFits(s.kv, SAdd(Subscribers(m), {x}));
    assert Next(s, Command(0)).ops == map[];
    Prepend(s, Command(0), []);
  }

  lemma StartBesideDropInactive(s: State, id: Id) returns (es: seq<Step>)
    requires Inv(s) && s.ops == map[] && LiveFollower(s.db, id) && s.db.followers[id].status == Inactive
    ensures Schedule(s, es)
    ensures var t, f := After(s, es), s.db.followers[id];
            t.ops == map[] && t.lost == s.lost && f.account in Subs(t.kv, f.masterId) && f.account !in ActiveAccounts(t.db, f.masterId)
  {
    var f := s.db.followers[id];
    StartReads(s, id);
    DropReads(s, id);
    StartWrites(s, id, Dropping(id, f.masterId, f.account, false, false));
    var t := DropWrites(s, id);
    LastCommand(t, id, f.masterId, f.account);
    TwoReads(s, ReadSet(0, id, Active), ReadDrop(1, id), Write(0), Write(1), [Command(0)] + []);
    es := [ReadSet(0, id, Active)] + ([ReadDrop(1, id)] + ([Write(0)] + ([Write(1)] + ([Command(0)] + []))));
  }

  lemma ActiveDropReads(s: State, id: Id)
    requires LiveFollower(s.db, id) && s.db.followers[id].status == Active
    ensures var f := s.db.followers[id];
            Next(StartRead(s, id), ReadDrop(1, id)) == BothRead(s, id, Dropping(id, f.masterId, f.account, true, false))
  {
  }

  lemma DroppedRow(db: Db, id: Id)
    requires Wf(db) && LiveFollower(db, id)
    ensures var later := SoftDeleteFollower(UpdateStatus(db, id, Active).value, id).value;
            && UniquePairs(later.followers) && id in later.followers
            && later.followers[id] == db.followers[id].(status := Inactive, deleted := true)
  {
    UpdateStatusKeepsWf(db, id, Active);
    SoftDeleteFollowerKeepsWf(UpdateStatus(db, id, Active).value, id);
  }

  lemma ActiveDropWrites(s: State, id: Id) returns (t: State)
    requires Wf(s.db) && LiveFollower(s.db, id)
    ensures var f := s.db.followers[id];
            var s3 := StartWritten(s, id, Dropping(id, f.masterId, f.account, true, false));
            && Enabled(s3, Write(1)) && t == Next(s3, Write(1))
            && t.ops == map[0 := Setting(id, f.masterId, f.account, Active, true), 1 := Dropping(id, f.masterId, f.account, true, true)]
            && t.kv == s.kv && t.lost == s.lost && UniquePairs(t.db.followers)
            && id in t.db.followers && t.db.followers[id] == f.(status := Inactive, deleted := true)
  {
    var f := s.db.followers[id];
    var s3 := StartWritten(s, id, Dropping(id, f.masterId, f.account, true, false));
    DroppedRow(s.db, id);
    t := Next(s3, Write(1));
  }

  lemma StartBesideDropActive(s: State, id: Id) returns (es: seq<Step>)
    requires Inv(s) && s.ops == map[] && LiveFollower(s.db, id) && s.db.followers[id].status == Active
    ensures Schedule(s, es)
    ensures var t, f := After(s, es), s.db.followers[id];
            t.ops == map[] && t.lost == s.lost && f.account in Subs(t.kv, f.masterId) && f.account !in ActiveAccounts(t.db, f.masterId)
  {
    var f := s.db.followers[id];
    StartReads(s, id);
    ActiveDropReads(s, id);
    StartWrites(s, id, Dropping(id, f.masterId, f.account, true, false));
    var t := ActiveDropWrites(s, id);
    var tail := LateCommand(t, id, f.masterId, f.account, Dropping(id, f.masterId, f.account, true, true));
    TwoReads(s, ReadSet(0, id, Active), ReadDrop(1, id), Write(0), Write(1), tail);
    es := [ReadSet(0, id, Active)] + ([ReadDrop(1, id)] + ([Write(0)] + ([Write(1)] + tail)));
  }

  /** A start of a follower beside its deletion, whether the follower was active or not. */
  lemma StartBesideDrop(s: State, id: Id) returns (es: seq<Step>)
    requires Inv(s) && s.ops == map[] && LiveFollower(s.db, id)
    ensures Schedule(s, es)
    ensures var t, f := After(s, es), s.db.followers[id];
            t.ops == map[] && t.lost == s.lost && f.account in Subs(t.kv, f.masterId) && f.account !in ActiveAccounts(t.db, f.masterId)
  {
    if s.db.followers[id].status == Active {
      es := StartBesideDropActive(s, id);
    } else {
      es := StartBesideDropInactive(s, id);
    }
  }

  lemma DeletionReads(s: State, id: Id)
    requires LiveFollower(s.db, id) && LiveMaster(s.db, s.db.followers[id].masterId)
    ensures var m := s.db.followers[id].masterId;
            Next(StartRead(s, id), ReadClear(1, m)) == BothRead(s, id, Clearing(m, false))
  {
  }

  lemma DeletionWrites(s: State, id: Id) returns (t: State)
    requires Wf(s.db) && LiveFollower(s.db, id)
    ensures var f := s.db.followers[id];
            var s3 := StartWritten(s, id, Clearing(f.masterId, false));
            && Enabled(s3, Write(1)) && t == Next(s3, Write(1))
            && t.ops == map[0 := Setting(id, f.masterId, f.account, Active, true), 1 := Clearing(f.masterId, true)]
            && t.kv == s.kv && t.lost == s.lost && UniquePairs(t.db.followers)
            && BackToInactive(s.db, t.db, id)
  {
    var f := s.db.followers[id];
    var s3 := StartWritten(s, id, Clearing(f.masterId, false));
    DeactivatedRow(s.db, id);
    t := Next(s3, Write(1));
  }

  /** Likewise a start beside the deletion of the master. */
  lemma StartBesideDeletion(s: State, id: Id) returns (es: seq<Step>)
    requires Inv(s) && s.ops == map[] && LiveFollower(s.db, id) && LiveMaster(s.db, s.db.followers[id].masterId)
    ensures Schedule(s, es)
    ensures var t, f := After(s, es), s.db.followers[id];
            t.ops == map[] && t.lost == s.lost && f.account in Subs(t.kv, f.masterId) && f.account !in ActiveAccounts(t.db, f.masterId)
  {
    var f := s.db.followers[id];
    StartReads(s, id);
    DeletionReads(s, id);
    StartWrites(s, id, Clearing(f.masterId, false));
    var t := DeletionWrites(s, id);
    var tail := LateCommand(t, id, f.masterId, f.account, Clearing(f.masterId, true));
    TwoReads(s, ReadSet(0, id, Active), ReadClear(1, f.masterId), Write(0), Write(1), tail);
    es := [ReadSet(0, id, Active)] + ([ReadClear(1, f.masterId)] + ([Write(0)] + ([Write(1)] + tail)));
  }
}
