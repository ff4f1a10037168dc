/** The repositories: one object per table over a shared database, sending the statements of
    `Schema` and collecting result sets row by row. */
module Repository {
  import opened Wrappers
  import opened Schema

  class Database {
    var masters: map<Id, Master>
    var followers: map<Id, Follower>

    ghost function State(): Db
      reads this
    {
      Db(masters, followers)
    }

    constructor (initial: Db)
      ensures State() == initial
    {
      masters, followers := initial.masters, initial.followers;
    }
  }

  /** `xs` lists every element of `s` once, in any order: what a result set without ORDER BY promises. */
  ghost predicate Enumerates<T>(xs: seq<T>, s: set<T>) {
    && (forall x <- xs :: x in s)
    && (forall x <- s :: x in xs)
    && (forall i, j :: 0 <= i < j < |xs| ==> xs[i] != xs[j])
  }

  lemma EnumeratesNext<T>(xs: seq<T>, done: set<T>, x: T)
    requires Enumerates(xs, done) && x !in done
    ensures Enumerates(xs + [x], done + {x})
  {
  }

  /** A result set, fetched row by row in an order of the server's choosing. */
  method FetchAll(result: set<Follower>) returns (rows: seq<Follower>)
    ensures Enumerates(rows, result)
  {
    rows := [];
    var pending := result;
    while pending != {}
      invariant pending <= result
      invariant Enumerates(rows, result - pending)
    {
      var row :| row in pending;
      pending := pending - {row};
      rows := rows + [row];
    }
  }

  /** The values that `Create` writes back into its argument before it inserts. */
  function WithDefaults(f: Follower): Follower {
    if f.multiplier == 0.0 then f.(multiplier := 1.0) else f
  }

  /** A multiplier of zero is stored as one, any other as it is; nothing else is filled in. */
  lemma DefaultMultiplier(db: Db, f: Follower)
    requires InsertFollower(db, WithDefaults(f)).Success?
    ensures var row := InsertFollower(db, WithDefaults(f)).value.followers[f.id];
            row == f.(multiplier := if f.multiplier == 0.0 then 1.0 else f.multiplier, deleted := false)
  {
  }

  class FollowerRepository {
    const db: Database

    constructor (db: Database)
      ensures this.db == db
    {
      this.db := db;
    }

    method Create(follower: Follower) returns (err: Option<DbError>)
      modifies db
      ensures var r := InsertFollower(old(db.State()), WithDefaults(follower));
              && db.State() == Commit(r, old(db.State()))
              && err == (if r.Success? then None else Some(r.error))
    {
      var row := follower;
      if row.multiplier == 0.0 {
        row := row.(multiplier := 1.0);
      }
      var r := InsertFollower(Db(db.masters, db.followers), row);
      if r.Failure? {
        return Some(r.error);
      }
      db.followers := r.value.followers;
      err := None;
    }

    method GetByID(id: Id) returns (r: Result<Follower, DbError>)
      ensures r == match SelectFollower(db.State(), id) { case Some(f) => Success(f) case None => Failure(NotFound) }
    {
      if id in db.followers && !db.followers[id].deleted {
        return Success(db.followers[id]);
      }
      r := Failure(NotFound);
    }

    method UpdateStatus(id: Id, status: Status) returns (err: Option<DbError>)
      modifies db
      ensures var r := Schema.UpdateStatus(old(db.State()), id, status);
              && db.State() == Commit(r, old(db.State()))
              && err == (if r.Success? then None else Some(NotFound))
    {
      var matched := set k | k in db.followers && k == id && !db.followers[k].deleted;
      assert matched == if LiveFollower(db.State(), id) then {id} else {};
      db.followers := map k | k in db.followers ::
                        if k in matched then db.followers[k].(status := status) else db.followers[k];
      err := if matched == {} then Some(NotFound) else None;
    }

    method SoftDelete(id: Id) returns (err: Option<DbError>)
      modifies db
      ensures var r := SoftDeleteFollower(old(db.State()), id);
              && db.State() == Commit(r, old(db.State()))
              && err == (if r.Success? then None else Some(NotFound))
    {
      var matched := set k | k in db.followers && k == id && !db.followers[k].deleted;
      assert matched == if LiveFollower(db.State(), id) then {id} else {};
      db.followers := map k | k in db.followers ::
                        if k in matched then db.followers[k].(deleted := true, status := Inactive) else db.followers[k];
      err := if matched == {} then Some(NotFound) else None;
    }

    method GetActiveFollowersByMaster(masterId: Id) returns (rows: seq<Follower>)
      ensures Enumerates(rows, ActiveByMaster(db.State(), masterId))
    {
      rows := FetchAll(ActiveByMaster(Db(db.masters, db.followers), masterId));
    }

    /** An empty list of accounts returns before any query is built. */
    method GetByAccountIDs(accounts: seq<string>) returns (rows: seq<Follower>)
      ensures Enumerates(rows, ActiveByAccounts(db.State(), set a | a in accounts))
    {
      if |accounts| == 0 {
        return [];
      }
      var args: set<string> := {};
      for i := 0 to |accounts|
        invariant args == set a | a in accounts[..i]
      {
        args := args + {accounts[i]};
      }
      assert accounts[..|accounts|] == accounts;
      rows := FetchAll(ActiveByAccounts(Db(db.masters, db.followers), args));
    }

    method GetAll() returns (rows: seq<Follower>)
      ensures Enumerates(rows, NotDeleted(db.State()))
    {
      rows := FetchAll(NotDeleted(Db(db.masters, db.followers)));
    }
  }

  class MasterRepository {
    const db: Database

    constructor (db: Database)
      ensures this.db == db
    {
      this.db := db;
    }

    method Create(master: Master) returns (err: Option<DbError>)
      modifies db
      ensures var r := InsertMaster(old(db.State()), master);
              && db.State() == Commit(r, old(db.State()))
              && err == (if r.Success? then None else Some(r.error))
    {
      var r := InsertMaster(Db(db.masters, db.followers), master);
      if r.Failure? {
        return Some(r.error);
      }
      db.masters := r.value.masters;
      err := None;
    }

    method GetByID(id: Id) returns (r: Result<Master, DbError>)
      ensures r == match SelectMaster(db.State(), id) { case Some(m) => Success(m) case None => Failure(NotFound) }
    {
      if id in db.masters && !db.masters[id].deleted {
        return Success(db.masters[id]);
      }
      r := Failure(NotFound);
    }

    method Exists(id: Id) returns (found: bool)
      ensures found <==> LiveMaster(db.State(), id)
    {
      found := id in db.masters && !db.masters[id].deleted;
    }

    /** Both updates of the transaction, followers first. */
    method SoftDelete(id: Id) returns (affected: nat)
      modifies db
      ensures db.State() == SoftDeleteMaster(old(db.State()), id)
      ensures affected == |set k | k in old(db.followers) && old(db.followers)[k].masterId == id && !old(db.followers)[k].deleted|
    {
      var matched := set k | k in db.followers && db.followers[k].masterId == id && !db.followers[k].deleted;
      affected := |matched|;
      db.followers := map k | k in db.followers ::
                        if k in matched then db.followers[k].(status := Inactive) else db.followers[k];
      db.masters := map k | k in db.masters ::
                      if k == id && !db.masters[k].deleted then db.masters[k].(deleted := true) else db.masters[k];
    }
  }
}
