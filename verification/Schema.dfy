/** The SQL tables and the statements that the repositories send to them.

    A table is a map from primary key to row.  Every statement is atomic; `SoftDeleteMaster`
    is the two-statement transaction.  Rows are never removed: deletion sets `deleted`. */
module Schema {
  import opened Wrappers

  type Id = string

  datatype Status = Active | Inactive

  datatype Master = Master(id: Id, account: string, passwordHash: string, server: string, deleted: bool)

  datatype Follower = Follower(
    id: Id, masterId: Id, account: string, passwordHash: string, server: string,
    status: Status, multiplier: real, deleted: bool)

  datatype Db = Db(masters: map<Id, Master>, followers: map<Id, Follower>)

  datatype DbError = Duplicate | Rejected | NotFound

  // ---- column constraints ----

  predicate MasterRowOk(m: Master) {
    |m.id| <= 255 && 4 <= |m.account| <= 50 && |m.server| <= 100
  }

  predicate FollowerRowOk(f: Follower) {
    |f.id| <= 255 && 4 <= |f.account| <= 50 && |f.server| <= 100 && 0.01 <= f.multiplier <= 100.0
  }

  ghost predicate UniqueAccounts(masters: map<Id, Master>) {
    forall j <- masters, k <- masters :: masters[j].account == masters[k].account ==> j == k
  }

  ghost predicate UniquePairs(followers: map<Id, Follower>) {
    forall j <- followers, k <- followers ::
      followers[j].masterId == followers[k].masterId && followers[j].account == followers[k].account ==> j == k
  }

  /** PRIMARY KEY, UNIQUE, FOREIGN KEY and CHECK constraints; they cover soft-deleted rows too. */
  ghost predicate Constraints(db: Db) {
    && (forall k <- db.masters :: db.masters[k].id == k && MasterRowOk(db.masters[k]))
    && (forall k <- db.followers :: db.followers[k].id == k && FollowerRowOk(db.followers[k]))
    && (forall k <- db.followers :: db.followers[k].masterId in db.masters)
    && UniqueAccounts(db.masters) && UniquePairs(db.followers)
  }

  /** Not a constraint of the schema, but kept by every statement. */
  ghost predicate DeletedAreInactive(db: Db) {
    forall k <- db.followers :: db.followers[k].deleted ==> db.followers[k].status == Inactive
  }

  ghost predicate Wf(db: Db) {
    Constraints(db) && DeletedAreInactive(db)
  }

  // ---- statements ----

  predicate LiveMaster(db: Db, id: Id) {
    id in db.masters && !db.masters[id].deleted
  }

  predicate LiveFollower(db: Db, id: Id) {
    id in db.followers && !db.followers[id].deleted
  }

  /** INSERT INTO masters.  Column checks come before the unique indexes. */
  function InsertMaster(db: Db, m: Master): Result<Db, DbError> {
    if !MasterRowOk(m) then Failure(Rejected)
    else if m.id in db.masters || (exists k <- db.masters :: db.masters[k].account == m.account) then Failure(Duplicate)
    else Success(db.(masters := db.masters[m.id := m.(deleted := false)]))
  }

  /** INSERT INTO followers. */
  function InsertFollower(db: Db, f: Follower): Result<Db, DbError> {
    if !FollowerRowOk(f) then Failure(Rejected)
    else if f.id in db.followers
            || (exists k <- db.followers ::
                  db.followers[k].masterId == f.masterId && db.followers[k].account == f.account) then Failure(Duplicate)
    else if f.masterId !in db.masters then Failure(Rejected)
    else Success(db.(followers := db.followers[f.id := f.(deleted := false)]))
  }

  function SelectMaster(db: Db, id: Id): Option<Master> {
    if LiveMaster(db, id) then Some(db.masters[id]) else None
  }

  function SelectFollower(db: Db, id: Id): Option<Follower> {
    if LiveFollower(db, id) then Some(db.followers[id]) else None
  }

  function UpdateStatus(db: Db, id: Id, status: Status): Result<Db, DbError> {
    if LiveFollower(db, id)
    then Success(db.(followers := db.followers[id := db.followers[id].(status := status)]))
    else Failure(NotFound)
  }

  function SoftDeleteFollower(db: Db, id: Id): Result<Db, DbError> {
    if LiveFollower(db, id)
    then Success(db.(followers := db.followers[id := db.followers[id].(deleted := true, status := Inactive)]))
    else Failure(NotFound)
  }

  function Deactivated(f: Follower, masterId: Id): Follower {
    if f.masterId == masterId && !f.deleted then f.(status := Inactive) else f
  }

  /** The transaction: deactivate the master's followers, then mark the master.  It succeeds even
      when no live master has this ID. */
  function SoftDeleteMaster(db: Db, id: Id): Db {
    Db(if LiveMaster(db, id) then db.masters[id := db.masters[id].(deleted := true)] else db.masters,
       map k | k in db.followers :: Deactivated(db.followers[k], id))
  }

  /** WHERE master_id = $1 AND status = 'active' AND deleted_at IS NULL */
  function ActiveByMaster(db: Db, masterId: Id): set<Follower> {
    set k | k in db.followers && db.followers[k].masterId == masterId
            && db.followers[k].status == Active && !db.followers[k].deleted :: db.followers[k]
  }

  /** WHERE account_id IN (...) AND status = 'active' AND deleted_at IS NULL: no filter on the master. */
  function ActiveByAccounts(db: Db, accounts: set<string>): set<Follower> {
    set k | k in db.followers && db.followers[k].account in accounts
            && db.followers[k].status == Active && !db.followers[k].deleted :: db.followers[k]
  }

  /** WHERE deleted_at IS NULL */
  function NotDeleted(db: Db): set<Follower> {
    set k | k in db.followers && !db.followers[k].deleted :: db.followers[k]
  }

  // ---- runs of statements ----

  /** The statements that change a row.  Selects leave the tables alone. */
  datatype Statement =
    | AddMaster(master: Master)
    | AddFollower(follower: Follower)
    | SetStatus(id: Id, status: Status)
    | DropFollower(id: Id)
    | DropMaster(id: Id)

  function Commit(r: Result<Db, DbError>, db: Db): Db {
    if r.Success? then r.value else db
  }

  function Execute(db: Db, s: Statement): Db {
    match s
    case AddMaster(m) => Commit(InsertMaster(db, m), db)
    case AddFollower(f) => Commit(InsertFollower(db, f), db)
    case SetStatus(id, status) => Commit(UpdateStatus(db, id, status), db)
    case DropFollower(id) => Commit(SoftDeleteFollower(db, id), db)
    case DropMaster(id) => SoftDeleteMaster(db, id)
  }

  function ExecuteAll(db: Db, ss: seq<Statement>): Db
    decreases |ss|
  {
    if ss == [] then db else ExecuteAll(Execute(db, ss[0]), ss[1..])
  }

  /** What no statement takes back: a row keeps its identity for ever, a deleted row never changes. */
  ghost predicate Extends(db: Db, later: Db) {
    && (forall k <- db.masters ::
          && k in later.masters
          && later.masters[k].account == db.masters[k].account
          && (db.masters[k].deleted ==> later.masters[k] == db.masters[k]))
    && (forall k <- db.followers ::
          && k in later.followers
          && later.followers[k].masterId == db.followers[k].masterId
          && later.followers[k].account == db.followers[k].account
          && (db.followers[k].deleted ==> later.followers[k] == db.followers[k]))
  }

  lemma InsertMasterKeepsWf(db: Db, m: Master)
    requires Wf(db) && InsertMaster(db, m).Success?
    ensures Wf(InsertMaster(db, m).value) && Extends(db, InsertMaster(db, m).value)
  {
  }

  lemma FreshPairKeepsUnique(fs: map<Id, Follower>, f: Follower)
    requires UniquePairs(fs) && f.id !in fs
    requires forall k <- fs :: !(fs[k].masterId == f.masterId && fs[k].account == f.account)
    ensures UniquePairs(fs[f.id := f])
  {
  }

  lemma InsertFollowerKeepsWf(db: Db, f: Follower)
    requires Wf(db) && InsertFollower(db, f).Success?
    ensures Wf(InsertFollower(db, f).value) && Extends(db, InsertFollower(db, f).value)
  {
    var e := InsertFollower(db, f).value;
    var row := f.(deleted := false);
    assert UniquePairs(e.followers) by { FreshPairKeepsUnique(db.followers, row); }
    forall k <- e.followers
      ensures e.followers[k].id == k && FollowerRowOk(e.followers[k]) && e.followers[k].masterId in e.masters
    {
      assert k != f.id ==> k in db.followers;
    }
  }

  /** What UPDATE may do to a follower row. */
  predicate Rewritten(f: Follower, g: Follower) {
    && g == f.(status := g.status, deleted := g.deleted)
    && (f.deleted ==> g == f)
    && (g.deleted ==> g.status == Inactive)
  }

  ghost predicate AllRewritten(fs: map<Id, Follower>, gs: map<Id, Follower>) {
    gs.Keys == fs.Keys && forall k <- fs :: Rewritten(fs[k], gs[k])
  }

  lemma RewrittenPairsStayUnique(fs: map<Id, Follower>, gs: map<Id, Follower>)
    requires UniquePairs(fs) && AllRewritten(fs, gs)
    ensures UniquePairs(gs)
  {
  }

  lemma RewriteKeepsWf(db: Db, gs: map<Id, Follower>)
    requires Wf(db) && AllRewritten(db.followers, gs)
    ensures Wf(db.(followers := gs)) && Extends(db, db.(followers := gs))
  {
    RewrittenPairsStayUnique(db.followers, gs);
    forall k <- gs
      ensures gs[k].id == k && FollowerRowOk(gs[k]) && gs[k].masterId in db.masters
      ensures gs[k].deleted ==> gs[k].status == Inactive
    {
      assert Rewritten(db.followers[k], gs[k]);
    }
  }

  lemma UpdateStatusKeepsWf(db: Db, id: Id, status: Status)
    requires Wf(db) && LiveFollower(db, id)
    ensures Wf(UpdateStatus(db, id, status).value) && Extends(db, UpdateStatus(db, id, status).value)
  {
    RewriteKeepsWf(db, db.followers[id := db.followers[id].(status := status)]);
  }

  lemma SoftDeleteFollowerKeepsWf(db: Db, id: Id)
    requires Wf(db) && LiveFollower(db, id)
    ensures Wf(SoftDeleteFollower(db, id).value) && Extends(db, SoftDeleteFollower(db, id).value)
  {
    RewriteKeepsWf(db, db.followers[id := db.followers[id].(deleted := true, status := Inactive)]);
  }

  lemma MarkMasterKeepsWf(db: Db, id: Id)
    requires Wf(db) && LiveMaster(db, id)
    ensures var e := db.(masters := db.masters[id := db.masters[id].(deleted := true)]);
            Wf(e) && Extends(db, e)
  {
  }

  lemma ExtendsItself(db: Db)
    ensures Extends(db, db)
  {
  }

  lemma ExtendsIsTransitive(a: Db, b: Db, c: Db)
    requires Extends(a, b) && Extends(b, c)
    ensures Extends(a, c)
  {
  }

  lemma SoftDeleteMasterKeepsWf(db: Db, id: Id)
    requires Wf(db)
    ensures Wf(SoftDeleteMaster(db, id)) && Extends(db, SoftDeleteMaster(db, id))
  {
    var gs := map k | k in db.followers :: Deactivated(db.followers[k], id);
    RewriteKeepsWf(db, gs);
    if LiveMaster(db, id) {
      MarkMasterKeepsWf(db.(followers := gs), id);
      ExtendsIsTransitive(db, db.(followers := gs), SoftDeleteMaster(db, id));
    }
  }

  lemma StatementKeepsWf(db: Db, s: Statement)
    requires Wf(db)
    ensures Wf(Execute(db, s)) && Extends(db, Execute(db, s))
  {
    match s
    case AddMaster(m) => if InsertMaster(db, m).Success? { InsertMasterKeepsWf(db, m); }
    case AddFollower(f) => if InsertFollower(db, f).Success? { InsertFollowerKeepsWf(db, f); }
    case SetStatus(id, status) => if LiveFollower(db, id) { UpdateStatusKeepsWf(db, id, status); }
    case DropFollower(id) => if LiveFollower(db, id) { SoftDeleteFollowerKeepsWf(db, id); }
    case DropMaster(id) => SoftDeleteMasterKeepsWf(db, id);
  }

  /** However the statements of any number of concurrent requests interleave, the tables stay
      well-formed and every row persists. */
  lemma {:induction false} StatementsExtend(db: Db, ss: seq<Statement>)
    requires Wf(db)
    ensures Wf(ExecuteAll(db, ss)) && Extends(db, ExecuteAll(db, ss))
    decreases |ss|
  {
    if ss != [] {
      StatementKeepsWf(db, ss[0]);
      StatementsExtend(Execute(db, ss[0]), ss[1..]);
      ExtendsIsTransitive(db, Execute(db, ss[0]), ExecuteAll(db, ss));
    }
  }

  /** A soft-deleted follower stays as it is, is never selected as a recipient again, and its
      (master, account) pair can never be inserted again under any row ID. */
  lemma {:induction false} DeletionIsPermanent(db: Db, ss: seq<Statement>, id: Id, accounts: set<string>, again: Follower)
    requires Wf(db) && id in db.followers && db.followers[id].deleted
    ensures var e := ExecuteAll(db, ss);
            && id in e.followers && e.followers[id] == db.followers[id] && e.followers[id].status == Inactive
            && (forall f <- ActiveByAccounts(e, accounts) :: f.id != id)
            && (again.masterId == db.followers[id].masterId && again.account == db.followers[id].account
                ==> InsertFollower(e, again).Failure?)
  {
    StatementsExtend(db, ss);
  }

  /** An account can register as master exactly when no row, live or deleted, ever held it. */
  lemma MasterInsertable(db: Db, ss: seq<Statement>, m: Master)
    requires Wf(db) && MasterRowOk(m) && m.id !in ExecuteAll(db, ss).masters
    ensures InsertMaster(ExecuteAll(db, ss), m).Success?
            <==> (forall k <- ExecuteAll(db, ss).masters :: ExecuteAll(db, ss).masters[k].account != m.account)
    ensures (exists k <- db.masters :: db.masters[k].account == m.account) ==> InsertMaster(ExecuteAll(db, ss), m) == Failure(Duplicate)
  {
    StatementsExtend(db, ss);
    if k :| k in db.masters && db.masters[k].account == m.account {
      assert k in ExecuteAll(db, ss).masters;
    }
  }
}
