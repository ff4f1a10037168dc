/** BroadcastToFollowers: look each follower up, group the active ones by master, publish once per master. */
module Broadcast {
  import opened Wrappers
  import opened Schema
  import opened Repository
  import opened Keyspace
  import opened FastLookup

  /** The master that follower number `i` counts for: its record was read (the lookup was not lost) and is
      active. */
  function MasterFor(data: map<string, Value>, ids: seq<Id>, lost: set<nat>, i: nat): Option<Id>
    requires i < |ids|
  {
    var k := Encode(FollowerInfo(ids[i]));
    if i !in lost && k in data && data[k].Record? && data[k].info.status == Active
    then Some(data[k].info.masterId) else None
  }

  /** The followers among the first `n` that count for master `m`, in input order, with repetitions. */
  function GroupOf(data: map<string, Value>, ids: seq<Id>, lost: set<nat>, m: Id, n: nat): seq<Id>
    requires n <= |ids|
  {
    if n == 0 then []
    else GroupOf(data, ids, lost, m, n - 1) + if MasterFor(data, ids, lost, n - 1) == Some(m) then [ids[n - 1]] else []
  }

  /** The positions, among the first `n`, of the followers that count. */
  function Counted(data: map<string, Value>, ids: seq<Id>, lost: set<nat>, n: nat): set<nat>
    requires n <= |ids|
  {
    set i: nat | i < n && MasterFor(data, ids, lost, i).Some?
  }

  /** The masters that some follower counts for. */
  function Targets(data: map<string, Value>, ids: seq<Id>, lost: set<nat>): set<Id> {
    set i | i in Counted(data, ids, lost, |ids|) :: MasterFor(data, ids, lost, i).value
  }

  /** Follower number `i` was looked up with success, and its record is active and names master `m`. */
  predicate LooksActiveUnder(data: map<string, Value>, ids: seq<Id>, lost: set<nat>, i: nat, m: Id) {
    && i < |ids| && i !in lost
    && ("follower:" + ids[i]) in data && data["follower:" + ids[i]].Record?
    && data["follower:" + ids[i]].info.status == Active && data["follower:" + ids[i]].info.masterId == m
  }

  /** A master is published to if and only if some listed follower looks active under it. */
  lemma TargetsByRecords(data: map<string, Value>, ids: seq<Id>, lost: set<nat>, m: Id)
    ensures m in Targets(data, ids, lost) <==> exists i: nat :: LooksActiveUnder(data, ids, lost, i, m)
  {
    forall i: nat | i < |ids|
      ensures MasterFor(data, ids, lost, i) == Some(m) <==> LooksActiveUnder(data, ids, lost, i, m)
    {
      assert "follower" + ":" + ids[i] == "follower:" + ids[i];
    }
    if m in Targets(data, ids, lost) {
      var i :| i in Counted(data, ids, lost, |ids|) && MasterFor(data, ids, lost, i).value == m;
      assert LooksActiveUnder(data, ids, lost, i, m);
    }
    if i: nat :| LooksActiveUnder(data, ids, lost, i, m) {
      assert i in Counted(data, ids, lost, |ids|);
    }
  }

  /** And the group of a master lists, in input order, the followers that look active under it. */
  lemma GroupByRecords(data: map<string, Value>, ids: seq<Id>, lost: set<nat>, m: Id, n: nat)
    requires 0 < n <= |ids|
    ensures GroupOf(data, ids, lost, m, 0) == []
    ensures GroupOf(data, ids, lost, m, n)
         == GroupOf(data, ids, lost, m, n - 1) + if LooksActiveUnder(data, ids, lost, n - 1, m) then [ids[n - 1]] else []
  {
    assert "follower" + ":" + ids[n - 1] == "follower:" + ids[n - 1];
  }

  class SignalBroadcaster {
    const lookup: FastLookupStore
    /** Masters to whose channel a publish was attempted, in order. */
    var attempts: seq<Id>

    constructor (lookup: FastLookupStore)
      ensures this.lookup == lookup && attempts == []
    {
      this.lookup, attempts := lookup, [];
    }

    /** `lost` are the positions whose lookup gets no reply.  Returns the grouping it built.  A failed
        publish is logged and the next master is tried, so exactly one publish is attempted for each
        distinct master of the followers that count. */
    method BroadcastToFollowers(ids: seq<Id>, lost: set<nat>) returns (groups: map<Id, seq<Id>>)
      modifies this
      ensures groups.Keys == Targets(lookup.client.data, ids, lost)
      ensures forall m <- groups :: groups[m] == GroupOf(lookup.client.data, ids, lost, m, |ids|)
      ensures |attempts| >= |old(attempts)| && attempts[..|old(attempts)|] == old(attempts)
      ensures Enumerates(attempts[|old(attempts)|..], Targets(lookup.client.data, ids, lost))
    {
      ghost var data := lookup.client.data;
      groups := map[];
      for i := 0 to |ids|
        invariant groups.Keys == set j | j in Counted(data, ids, lost, i) :: MasterFor(data, ids, lost, j).value
        invariant forall m <- groups :: groups[m] == GroupOf(data, ids, lost, m, i)
        invariant forall m: Id {:trigger GroupOf(data, ids, lost, m, i)} :: m !in groups ==> GroupOf(data, ids, lost, m, i) == []
        invariant lookup.client.data == data && attempts == old(attempts)
      {
        var info := lookup.GetFollowerInfo(ids[i], i !in lost);
        if info.Some? && info.value.status == Active {
          var m := info.value.masterId;
          assert MasterFor(data, ids, lost, i) == Some(m);
          assert m !in groups ==> GroupOf(data, ids, lost, m, i) == [];
          groups := groups[m := (if m in groups then groups[m] else []) + [ids[i]]];
        } else {
          assert MasterFor(data, ids, lost, i) == None;
        }
      }
      var pending := groups.Keys;
      ghost var tried: seq<Id> := [];
      while pending != {}
        invariant pending <= groups.Keys && lookup.client.data == data
        invariant attempts == old(attempts) + tried && Enumerates(tried, groups.Keys - pending)
      {
        var m :| m in pending;
        EnumeratesNext(tried, groups.Keys - pending, m);
        assert groups.Keys - (pending - {m}) == (groups.Keys - pending) + {m};
        pending, attempts, tried := pending - {m}, attempts + [m], tried + [m];
      }
      assert attempts[|old(attempts)|..] == tried && groups.Keys - {} == groups.Keys;
    }
  }

  /** The followers that count among the first `n`, with repetitions. */
  function CountedIds(data: map<string, Value>, ids: seq<Id>, lost: set<nat>, n: nat): multiset<Id>
    requires n <= |ids|
  {
    if n == 0 then multiset{}
    else CountedIds(data, ids, lost, n - 1) + if MasterFor(data, ids, lost, n - 1).Some? then multiset{ids[n - 1]} else multiset{}
  }

  /** The members of the groups of the masters `ms`, together. */
  function GroupsTogether(data: map<string, Value>, ids: seq<Id>, lost: set<nat>, ms: seq<Id>, n: nat): multiset<Id>
    requires n <= |ids|
  {
    if ms == [] then multiset{} else multiset(GroupOf(data, ids, lost, ms[0], n)) + GroupsTogether(data, ids, lost, ms[1..], n)
  }

  /** The groups of the distinct masters `ms` partition the followers that count: together they hold each of
      them as often as it was listed, and nothing else. */
  lemma {:induction false} GroupsPartition(data: map<string, Value>, ids: seq<Id>, lost: set<nat>, ms: seq<Id>, n: nat)
    requires n <= |ids| && forall i, j :: 0 <= i < j < |ms| ==> ms[i] != ms[j]
    requires forall i: nat :: i < n && MasterFor(data, ids, lost, i).Some? ==> MasterFor(data, ids, lost, i).value in ms
    ensures GroupsTogether(data, ids, lost, ms, n) == CountedIds(data, ids, lost, n)
  {
    if n == 0 {
      NoGroups(data, ids, lost, ms);
    } else {
      calc {
        GroupsTogether(data, ids, lost, ms, n);
        { OneMore(data, ids, lost, ms, n); }
        GroupsTogether(data, ids, lost, ms, n - 1) + Added(data, ids, lost, ms, n);
        { GroupsPartition(data, ids, lost, ms, n - 1); }
        CountedIds(data, ids, lost, n - 1) + Added(data, ids, lost, ms, n);
        { CountedNext(data, ids, lost, ms, n); }
        CountedIds(data, ids, lost, n);
      }
    }
  }

  lemma {:induction false} NoGroups(data: map<string, Value>, ids: seq<Id>, lost: set<nat>, ms: seq<Id>)
    ensures GroupsTogether(data, ids, lost, ms, 0) == multiset{}
  {
    if ms != [] { NoGroups(data, ids, lost, ms[1..]); }
  }

  /** What follower number `n - 1` contributes to the groups of these masters. */
  function Added(data: map<string, Value>, ids: seq<Id>, lost: set<nat>, ms: seq<Id>, n: nat): multiset<Id>
    requires 0 < n <= |ids|
  {
    var m := MasterFor(data, ids, lost, n - 1);
    if m.Some? && m.value in ms then multiset{ids[n - 1]} else multiset{}
  }

  lemma CountedNext(data: map<string, Value>, ids: seq<Id>, lost: set<nat>, ms: seq<Id>, n: nat)
    requires 0 < n <= |ids|
    requires MasterFor(data, ids, lost, n - 1).Some? ==> MasterFor(data, ids, lost, n - 1).value in ms
    ensures CountedIds(data, ids, lost, n) == CountedIds(data, ids, lost, n - 1) + Added(data, ids, lost, ms, n)
  {
  }

  lemma GroupNext(data: map<string, Value>, ids: seq<Id>, lost: set<nat>, m: Id, n: nat)
    requires 0 < n <= |ids|
    ensures multiset(GroupOf(data, ids, lost, m, n)) == multiset(GroupOf(data, ids, lost, m, n - 1)) + Added(data, ids, lost, [m], n)
  {
  }

  lemma AddedSplits(data: map<string, Value>, ids: seq<Id>, lost: set<nat>, ms: seq<Id>, n: nat)
    requires 0 < n <= |ids| && ms != [] && forall i, j :: 0 <= i < j < |ms| ==> ms[i] != ms[j]
    ensures Added(data, ids, lost, ms, n) == Added(data, ids, lost, [ms[0]], n) + Added(data, ids, lost, ms[1..], n)
  {
    assert ms == [ms[0]] + ms[1..];
    assert ms[0] !in ms[1..];
  }

  lemma Regroup(a: multiset<Id>, x: multiset<Id>, b: multiset<Id>, y: multiset<Id>)
    ensures (a + x) + (b + y) == (a + b) + (x + y)
  {
  }

  lemma {:induction false} OneMore(data: map<string, Value>, ids: seq<Id>, lost: set<nat>, ms: seq<Id>, n: nat)
    requires 0 < n <= |ids| && forall i, j :: 0 <= i < j < |ms| ==> ms[i] != ms[j]
    ensures GroupsTogether(data, ids, lost, ms, n) == GroupsTogether(data, ids, lost, ms, n - 1) + Added(data, ids, lost, ms, n)
  {
    if ms != [] {
      OneMore(data, ids, lost, ms[1..], n);
      GroupNext(data, ids, lost, ms[0], n);
      AddedSplits(data, ids, lost, ms, n);
      Regroup(multiset(GroupOf(data, ids, lost, ms[0], n - 1)), Added(data, ids, lost, [ms[0]], n),
              GroupsTogether(data, ids, lost, ms[1..], n - 1), Added(data, ids, lost, ms[1..], n));
    }
  }

  /** In particular the groups behind the publishes of one broadcast. */
  lemma TargetsCover(data: map<string, Value>, ids: seq<Id>, lost: set<nat>, attempts: seq<Id>)
    requires Enumerates(attempts, Targets(data, ids, lost))
    ensures GroupsTogether(data, ids, lost, attempts, |ids|) == CountedIds(data, ids, lost, |ids|)
  {
    forall i: nat | i < |ids| && MasterFor(data, ids, lost, i).Some?
      ensures MasterFor(data, ids, lost, i).value in attempts
    {
      assert i in Counted(data, ids, lost, |ids|);
    }
    GroupsPartition(data, ids, lost, attempts, |ids|);
  }
}
