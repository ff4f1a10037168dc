/** The in-process cache of master accounts. */
module Cache {
  import opened Schema
  import opened Repository

  /** The cache is the account-to-ID map of the live masters. */
  ghost predicate CacheExact(masters: map<Id, Master>, cache: map<string, Id>) {
    && (forall a <- cache :: cache[a] in masters && !masters[cache[a]].deleted && masters[cache[a]].account == a)
    && (forall k <- masters :: !masters[k].deleted ==> masters[k].account in cache && cache[masters[k].account] == k)
  }

  class MasterCache {
    var cache: map<string, Id>

    constructor ()
      ensures cache == map[]
    {
      cache := map[];
    }

    method Get(account: string) returns (id: Id, found: bool)
      ensures found <==> account in cache
      ensures id == if found then cache[account] else ""
    {
      found := account in cache;
      id := if found then cache[account] else "";
    }

    method Set(account: string, id: Id)
      modifies this
      ensures cache == old(cache)[account := id]
    {
      cache := cache[account := id];
    }

    method Delete(account: string)
      modifies this
      ensures cache == old(cache) - {account}
    {
      cache := cache - {account};
    }

    /** `answered`: the query succeeds; `readable`: how many rows can be scanned before the connection
        fails.  A failed query leaves the cache as it was; a failed scan leaves a sound but
        incomplete cache; a full scan makes it exact. */
    method LoadFromDB(db: Database, answered: bool, readable: nat) returns (ok: bool)
      requires UniqueAccounts(db.masters)
      modifies this
      ensures !answered ==> !ok && cache == old(cache)
      ensures answered ==> forall a <- cache ::
                cache[a] in db.masters && !db.masters[cache[a]].deleted && db.masters[cache[a]].account == a
      ensures ok ==> CacheExact(db.masters, cache)
      ensures ok <==> answered && |set k | k in db.masters && !db.masters[k].deleted| <= readable
    {
      if !answered {
        return false;
      }
      var live := set k | k in db.masters && !db.masters[k].deleted;
      var pending, budget := live, readable;
      cache := map[];
      while pending != {}
        invariant pending <= live && |pending| - budget == |live| - readable
        invariant forall a <- cache :: cache[a] in live && db.masters[cache[a]].account == a
        invariant forall k <- live - pending :: db.masters[k].account in cache && cache[db.masters[k].account] == k
      {
        if budget == 0 {
          return false;
        }
        var id :| id in pending;
        pending, budget := pending - {id}, budget - 1;
        cache := cache[db.masters[id].account := id];
      }
      ok := true;
    }
  }
}
