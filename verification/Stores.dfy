/** The two Redis stores, as objects that send commands on flat keys to one server. */
module Stores {
  import opened Wrappers
  import opened Schema
  import opened Keyspace
  import opened Commands
  import opened Repository

  class RedisServer {
    var data: map<string, Value>

    constructor ()
      ensures data == map[]
    {
      data := map[];
    }

    /** One round trip. */
    method Do(c: Cmd<string>, answered: bool) returns (ok: bool)
      modifies this
      ensures data == if answered then Apply(old(data), c).data else old(data)
      ensures ok == (answered && Apply(old(data), c).ok)
    {
      if !answered {
        return false;
      }
      var r := Apply(data, c);
      data, ok := r.data, r.ok;
    }

    /** A pipeline of which the first `answered` commands are worked off. */
    method Exec(cs: seq<Cmd<string>>, answered: nat) returns (ok: bool)
      modifies this
      ensures data == Pipe(old(data), cs, answered)
      ensures ok == PipeOk(old(data), cs, answered)
    {
      ok := true;
      var i := 0;
      while i < |cs| && i < answered
        invariant 0 <= i <= |cs| && i <= answered
        invariant Pipe(data, cs[i..], answered - i) == Pipe(old(data), cs, answered)
        invariant (ok && PipeOk(data, cs[i..], answered - i)) == PipeOk(old(data), cs, answered)
      {
        assert cs[i..][1..] == cs[i + 1..];
        var r := Apply(data, cs[i]);
        data, ok := r.data, ok && r.ok;
        i := i + 1;
      }
      ok := ok && |cs| <= answered;
    }
  }

  /** Grouped input of a bulk sync, as sets: SADD forgets order and repetition. */
  function AsSets(groups: map<Id, seq<string>>): map<Id, set<string>> {
    map m | m in groups :: (set a | a in groups[m])
  }

  /** The accounts listed for master `m`. */
  function AccountsUnder(rows: seq<Follower>, m: Id): set<string> {
    set f | f in rows && f.masterId == m :: f.account
  }

  function MastersOf(rows: seq<Follower>): set<Id> {
    set f | f in rows :: f.masterId
  }

  function GroupsOf(rows: seq<Follower>): map<Id, set<string>> {
    map m | m in MastersOf(rows) :: AccountsUnder(rows, m)
  }

  class SubscriptionStore {
    const client: RedisServer

    constructor (client: RedisServer)
      ensures this.client == client
    {
      this.client := client;
    }

    method AddFollower(masterId: Id, account: string, answered: nat) returns (ok: bool)
      modifies client
      ensures var r := Run(old(client.data), EncodeAll(SubscribeCmds(masterId, account)), answered);
              client.data == r.data && ok == r.ok
    {
      RunSingle(client.data, SAdd(Subscribers(masterId), {account}), answered);
      ok := client.Do(SAdd(SUBSCRIBE_KEY_PREFIX + masterId, {account}), answered > 0);
    }

    method RemoveFollower(masterId: Id, account: string, answered: nat) returns (ok: bool)
      modifies client
      ensures var r := Run(old(client.data), EncodeAll(UnsubscribeCmds(masterId, account)), answered);
              client.data == r.data && ok == r.ok
    {
      RunSingle(client.data, SRem(Subscribers(masterId), account), answered);
      ok := client.Do(SRem(SUBSCRIBE_KEY_PREFIX + masterId, account), answered > 0);
    }

    method ClearMasterFollowers(masterId: Id, answered: nat) returns (ok: bool)
      modifies client
      ensures var r := Run(old(client.data), EncodeAll(ClearCmds(masterId)), answered);
              client.data == r.data && ok == r.ok
    {
      RunSingle(client.data, Del(Subscribers(masterId)), answered);
      ok := client.Do(Del(SUBSCRIBE_KEY_PREFIX + masterId), answered > 0);
    }

    /** SMEMBERS: a missing key is an empty set, a key of another type an error. */
    method GetFollowers(masterId: Id, answered: bool) returns (r: Option<seq<string>>)
      ensures var k := Encode(Subscribers(masterId));
              match r
              case None => !answered || (k in client.data && !client.data[k].Members?)
              case Some(xs) => answered && (k in client.data ==> client.data[k].Members?) && Enumerates(xs, SetAt(client.data, k))
    {
      var k := SUBSCRIBE_KEY_PREFIX + masterId;
      if !answered || (k in client.data && !client.data[k].Members?) {
        return None;
      }
      var xs, pending := [], SetAt(client.data, k);
      while pending != {}
        invariant pending <= SetAt(client.data, k)
        invariant Enumerates(xs, SetAt(client.data, k) - pending)
      {
        var x :| x in pending;
        pending, xs := pending - {x}, xs + [x];
      }
      r := Some(xs);
    }

    /** Every key that matches the pattern, with the prefix cut off; None when Redis does not answer. */
    method GetAllMasterKeys(answered: bool) returns (r: Option<seq<Id>>)
      ensures match r
              case None => !answered
              case Some(ids) => answered && Enumerates(ids, SubscribedMasters(client.data))
    {
      if !answered {
        return None;
      }
      var ids: seq<Id> := [];
      var pending := set s | s in client.data && SUBSCRIBE_KEY_PREFIX <= s;
      ghost var done := map s | s in client.data && s !in pending :: client.data[s];
      assert SubscribedMasters(done) == {};
      while pending != {}
        invariant pending <= set s | s in client.data && SUBSCRIBE_KEY_PREFIX <= s
        invariant done == map s | s in client.data && s !in pending :: client.data[s]
        invariant Enumerates(ids, SubscribedMasters(done))
      {
        var s :| s in pending;
        NextSubscribed(done, s, client.data[s]);
        EnumeratesNext(ids, SubscribedMasters(done), s[|SUBSCRIBE_KEY_PREFIX|..]);
        pending, ids, done := pending - {s}, ids + [s[|SUBSCRIBE_KEY_PREFIX|..]], done[s := client.data[s]];
      }
      assert done == client.data;
      r := Some(ids);
    }

    /** One after the other, giving up at the first error. */
    method AddAll(masterId: Id, rows: seq<Follower>, answered: nat) returns (ok: bool)
      modifies client
      ensures var r := Run(old(client.data), EncodeAll(AddCmds(masterId, rows)), answered);
              client.data == r.data && ok == r.ok
    {
      ok := true;
      assert rows[0..] == rows;
      for i := 0 to |rows|
        invariant i <= answered && ok
        invariant Run(client.data, EncodeAll(AddCmds(masterId, rows[i..])), answered - i)
               == Run(old(client.data), EncodeAll(AddCmds(masterId, rows)), answered)
      {
        NextAdd(client.data, masterId, rows, i, answered - i);
        ok := AddFollower(masterId, rows[i].account, answered - i);
        if !ok {
          return;
        }
      }
      assert rows[|rows|..] == [];
    }

    /** Returns the order in which the map was ranged over. */
    method SyncFromFollowerList(groups: map<Id, seq<string>>, answered: nat) returns (order: seq<Id>, ok: bool)
      modifies client
      ensures Enumerates(order, groups.Keys)
      ensures client.data == Pipe(old(client.data), EncodeAll(ReplaceCmds(AsSets(groups), order)), answered)
      ensures ok == PipeOk(old(client.data), EncodeAll(ReplaceCmds(AsSets(groups), order)), answered)
    {
      var pipe: seq<Cmd<string>> := [];
      order := [];
      var pending := groups.Keys;
      while pending != {}
        invariant pending <= groups.Keys
        invariant Enumerates(order, groups.Keys - pending)
        invariant pipe == EncodeAll(ReplaceCmds(AsSets(groups), order))
        invariant client.data == old(client.data)
      {
        var m :| m in pending;
        var key := SUBSCRIBE_KEY_PREFIX + m;
        var one := [Del(key)];
        if |groups[m]| > 0 {
          one := one + [SAdd(key, set a | a in groups[m])];
        }
        ReplaceSnoc(AsSets(groups), order, m);
        OneGroupEncoded(m, groups[m], one);
        pending, order, pipe := pending - {m}, order + [m], pipe + one;
      }
      ok := client.Exec(pipe, answered);
    }

    /** Groups the rows by master first; each group keeps the order and repetition of the input. */
    method SyncFromFollowers(rows: seq<Follower>, answered: nat) returns (order: seq<Id>, ok: bool)
      modifies client
      ensures Enumerates(order, MastersOf(rows))
      ensures client.data == Pipe(old(client.data), EncodeAll(ReplaceCmds(GroupsOf(rows), order)), answered)
      ensures ok == PipeOk(old(client.data), EncodeAll(ReplaceCmds(GroupsOf(rows), order)), answered)
    {
      var groups := GroupByMaster(rows);
      assert groups.Keys == AsSets(groups).Keys == MastersOf(rows);
      order, ok := SyncFromFollowerList(groups, answered);
    }
  }

  /** The grouping loop of SyncFromFollowers and of the startup sync. */
  method GroupByMaster(rows: seq<Follower>) returns (groups: map<Id, seq<string>>)
    ensures AsSets(groups) == GroupsOf(rows)
  {
    groups := map[];
    for i := 0 to |rows|
      invariant groups.Keys == MastersOf(rows[..i])
      invariant forall m <- groups :: (set a | a in groups[m]) == AccountsUnder(rows[..i], m)
    {
      var f := rows[i];
      var before := if f.masterId in groups then groups[f.masterId] else [];
      assert rows[..i + 1] == rows[..i] + [f];
      assert f.masterId !in groups ==> AccountsUnder(rows[..i], f.masterId) == {};
      groups := groups[f.masterId := before + [f.account]];
      forall m | m in groups
        ensures (set a | a in groups[m]) == AccountsUnder(rows[..i + 1], m)
      {
        assert AccountsUnder(rows[..i + 1], m) == AccountsUnder(rows[..i], m) + if m == f.masterId then {f.account} else {};
      }
    }
    assert rows[..|rows|] == rows;
  }

  lemma RunSingle(data: map<string, Value>, c: Cmd<Key>, answered: nat)
    ensures EncodeAll([c]) == [EncodeCmd(c)]
    ensures Run(data, EncodeAll([c]), answered) ==
            if answered == 0 then Reply(data, false) else Apply(data, EncodeCmd(c))
  {
    assert EncodeAll([c]) == [EncodeCmd(c)];
    assert [EncodeCmd(c)][1..] == [];
  }

  lemma NextSubscribed(done: map<string, Value>, s: string, v: Value)
    requires SUBSCRIBE_KEY_PREFIX <= s && s !in done
    ensures SubscribedMasters(done[s := v]) == SubscribedMasters(done) + {s[|SUBSCRIBE_KEY_PREFIX|..]}
    ensures s[|SUBSCRIBE_KEY_PREFIX|..] !in SubscribedMasters(done)
  {
    var m := s[|SUBSCRIBE_KEY_PREFIX|..];
    forall x | x in done && SUBSCRIBE_KEY_PREFIX <= x
      ensures x[|SUBSCRIBE_KEY_PREFIX|..] != m
    {
      assert x == SUBSCRIBE_KEY_PREFIX + x[|SUBSCRIBE_KEY_PREFIX|..] && s == SUBSCRIBE_KEY_PREFIX + m;
    }
  }

  /** Peels the next addition off a sync. */
  lemma NextAdd(data: map<string, Value>, m: Id, rows: seq<Follower>, i: nat, n: nat)
    requires i < |rows|
    ensures var one := Run(data, EncodeAll(SubscribeCmds(m, rows[i].account)), n);
            Run(data, EncodeAll(AddCmds(m, rows[i..])), n)
            == if one.ok && n > 0 then Run(one.data, EncodeAll(AddCmds(m, rows[i + 1..])), n - 1) else one
    ensures Run(data, EncodeAll(SubscribeCmds(m, rows[i].account)), n).ok ==> n > 0
  {
    RunSingle(data, SAdd(Subscribers(m), {rows[i].account}), n);
    var cs := EncodeAll(AddCmds(m, rows[i..]));
    assert rows[i..][1..] == rows[i + 1..] && rows[i..][0] == rows[i];
    assert cs[1..] == EncodeAll(AddCmds(m, rows[i + 1..]));
    assert EncodeAll(SubscribeCmds(m, rows[i].account)) == [cs[0]];
  }

  lemma OneGroupEncoded(m: Id, group: seq<string>, one: seq<Cmd<string>>)
    requires var key := Encode(Subscribers(m));
             one == [Del(key)] + if |group| > 0 then [SAdd(key, set a | a in group)] else []
    ensures one == EncodeAll(ReplaceOne(m, set a | a in group))
  {
    var members := set a | a in group;
    if |group| > 0 {
      assert group[0] in members;
      assert ReplaceOne(m, members) == [Del(Subscribers(m)), SAdd(Subscribers(m), members)];
    } else {
      assert members == {};
      assert ReplaceOne(m, members) == [Del(Subscribers(m))];
    }
  }

  lemma {:induction false} ReplaceSnoc(groups: map<Id, set<string>>, order: seq<Id>, m: Id)
    requires m in groups && forall x <- order :: x in groups
    ensures ReplaceCmds(groups, order + [m]) == ReplaceCmds(groups, order) + ReplaceOne(m, groups[m])
  {
    if order == [] {
      assert [m][1..] == [];
    } else {
      assert (order + [m])[1..] == order[1..] + [m];
      ReplaceSnoc(groups, order[1..], m);
    }
  }
}
