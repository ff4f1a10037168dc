/** The command sequences of the two stores, and what complete and interrupted sequences do. */
module Commands {
  import opened Wrappers
  import opened Schema
  import opened Keyspace

  // ---- SubscriptionStore ----

  function SubscribeCmds(masterId: Id, account: string): seq<Cmd<Key>> {
    [SAdd(Subscribers(masterId), {account})]
  }

  function UnsubscribeCmds(masterId: Id, account: string): seq<Cmd<Key>> {
    [SRem(Subscribers(masterId), account)]
  }

  function ClearCmds(masterId: Id): seq<Cmd<Key>> {
    [Del(Subscribers(masterId))]
  }

  function AddCmds(masterId: Id, rows: seq<Follower>): seq<Cmd<Key>> {
    if rows == [] then [] else SubscribeCmds(masterId, rows[0].account) + AddCmds(masterId, rows[1..])
  }

  /** The subscription call that goes with a new status. */
  function SubscriptionCmds(masterId: Id, account: string, status: Status): seq<Cmd<Key>> {
    if status == Active then SubscribeCmds(masterId, account) else UnsubscribeCmds(masterId, account)
  }

  /** Service.SyncFollowers: clear and re-add, one command per row. */
  function SyncCmds(masterId: Id, rows: seq<Follower>): seq<Cmd<Key>> {
    ClearCmds(masterId) + AddCmds(masterId, rows)
  }

  /** One master of a bulk sync: delete the set, then add the new members, if any. */
  function ReplaceOne(m: Id, group: set<string>): seq<Cmd<Key>> {
    [Del(Subscribers(m))] + if group == {} then [] else [SAdd(Subscribers(m), group)]
  }

  /** The pipeline of a bulk sync, in the order the map of groups was ranged over. */
  function ReplaceCmds(groups: map<Id, set<string>>, order: seq<Id>): seq<Cmd<Key>>
    requires forall m <- order :: m in groups
  {
    if order == [] then [] else ReplaceOne(order[0], groups[order[0]]) + ReplaceCmds(groups, order[1..])
  }

  // ---- FastLookupStore ----

  function MasterRecord(m: Master): Info {
    Info(m.id, m.account, m.server, 0.0, Active)
  }

  function FollowerRecord(masterId: Id, f: Follower): Info {
    Info(masterId, f.account, f.server, f.multiplier, f.status)
  }

  function RegisterMasterCmds(m: Master): seq<Cmd<Key>> {
    [Put(MasterInfo(m.id), Record(MasterRecord(m))), SAdd(ActiveMasters, {m.id})]
  }

  function RegisterCmds(masterId: Id, id: Id, info: Info): seq<Cmd<Key>> {
    [Put(FollowerInfo(id), Record(info)), SAdd(FollowerSet(masterId), {id}), Put(FollowerMaster(id), Text(masterId))]
  }

  function UnregisterCmds(masterId: Id, id: Id): seq<Cmd<Key>> {
    [SRem(FollowerSet(masterId), id), Del(FollowerMaster(id)), Del(FollowerInfo(id))]
  }

  /** UnregisterFollower: the read of the mapping is its first command. */
  function Unregister(kv: map<Key, Value>, id: Id, answered: nat): Reply<Key> {
    var k := FollowerMaster(id);
    if answered == 0 || k !in kv || !kv[k].Text? then Reply(kv, false)
    else Run(kv, UnregisterCmds(kv[k].text, id), answered - 1)
  }

  /** UpdateFollowerStatus: read the record, write it back with the new status. */
  function Restatus(kv: map<Key, Value>, id: Id, status: Status, answered: nat): Reply<Key> {
    var k := FollowerInfo(id);
    if answered == 0 || k !in kv || !kv[k].Record? then Reply(kv, false)
    else Run(kv, [Put(k, Record(kv[k].info.(status := status)))], answered - 1)
  }

  /** The masters and followers that a warm-up writes, list by list; deleted rows are passed over. */
  function MasterWarmUp(ms: seq<Master>): seq<Cmd<Key>> {
    if ms == [] then []
    else MasterWarmUp(ms[..|ms| - 1]) + if ms[|ms| - 1].deleted then [] else RegisterMasterCmds(ms[|ms| - 1])
  }

  function FollowerWarmUp(fs: seq<Follower>): seq<Cmd<Key>> {
    if fs == [] then []
    else
      var f := fs[|fs| - 1];
      FollowerWarmUp(fs[..|fs| - 1]) + if f.deleted then [] else RegisterCmds(f.masterId, f.id, FollowerRecord(f.masterId, f))
  }

  /** SyncFromDatabase: only the set of active masters is cleared first. */
  function WarmUpCmds(ms: seq<Master>, fs: seq<Follower>): seq<Cmd<Key>> {
    [Del(ActiveMasters)] + MasterWarmUp(ms) + FollowerWarmUp(fs)
  }

  // ---- types are kept ----

  /** Info keys hold records, mapping keys text, and set keys non-empty sets. */
  predicate ValueFits(k: Key, v: Value) {
    match k
    case MasterInfo(_) => v.Record?
    case FollowerInfo(_) => v.Record?
    case FollowerMaster(_) => v.Text?
    case _ => v.Members? && v.elems != {}
  }

  ghost predicate Typed(kv: map<Key, Value>) {
    forall k <- kv :: ValueFits(k, kv[k])
  }

  predicate SetKey(k: Key) {
    k.ActiveMasters? || k.FollowerSet? || k.Subscribers?
  }

  predicate CmdFits(c: Cmd<Key>) {
    match c
    case Put(k, v) => ValueFits(k, v)
    case Del(_) => true
    case SAdd(k, xs) => SetKey(k) && xs != {}
    case SRem(k, _) => SetKey(k)
  }

  function SetAt<K>(kv: map<K, Value>, k: K): set<string> {
    if k in kv && kv[k].Members? then kv[k].elems else {}
  }

  /** On a well-typed store, what one command does to the key it names and to the others. */
  lemma ApplyFits(kv: map<Key, Value>, c: Cmd<Key>)
    requires Typed(kv) && CmdFits(c)
    ensures var r := Apply(kv, c);
            && r.ok && Typed(r.data)
            && (c.SAdd? ==> SetAt(r.data, c.key) == SetAt(kv, c.key) + c.members)
            && (c.SRem? ==> SetAt(r.data, c.key) == SetAt(kv, c.key) - {c.member})
            && (forall k :: k != c.key ==> (k in r.data <==> k in kv) && (k in kv ==> r.data[k] == kv[k]))
  {
    assert c.key in kv ==> ValueFits(c.key, kv[c.key]);
  }

  /** `later` agrees with `kv` outside the keys `ks`. */
  ghost predicate SameExcept(kv: map<Key, Value>, later: map<Key, Value>, ks: set<Key>) {
    forall k :: k !in ks ==> (k in later <==> k in kv) && (k in kv ==> later[k] == kv[k])
  }

  function KeysOf(cs: seq<Cmd<Key>>): set<Key> {
    set c | c in cs :: c.key
  }

  /** Well-typed calls never fail for the type of a key: they complete exactly when every command is
      answered, and touch only the keys they name. */
  lemma {:induction false} RunFits(kv: map<Key, Value>, cs: seq<Cmd<Key>>, answered: nat)
    requires Typed(kv) && forall c <- cs :: CmdFits(c)
    ensures var r := Run(kv, cs, answered);
            Typed(r.data) && (r.ok <==> |cs| <= answered) && SameExcept(kv, r.data, KeysOf(cs))
    decreases |cs|
  {
    if cs != [] && answered != 0 {
      ApplyFits(kv, cs[0]);
      RunFits(Apply(kv, cs[0]).data, cs[1..], answered - 1);
      assert KeysOf(cs) == {cs[0].key} + KeysOf(cs[1..]);
    }
  }

  /** A pipeline of well-typed commands does what a run of them does. */
  lemma {:induction false} PipeFits(kv: map<Key, Value>, cs: seq<Cmd<Key>>, n: nat)
    requires Typed(kv) && forall c <- cs :: CmdFits(c)
    ensures Pipe(kv, cs, n) == Run(kv, cs, n).data
    ensures PipeOk(kv, cs, n) <==> |cs| <= n
    decreases |cs|
  {
    if cs != [] && n != 0 {
      ApplyFits(kv, cs[0]);
      PipeFits(Apply(kv, cs[0]).data, cs[1..], n - 1);
    }
  }

  lemma RunOne(kv: map<Key, Value>, c: Cmd<Key>, answered: nat)
    requires Typed(kv) && CmdFits(c)
    ensures Run(kv, [c], answered).data == if answered == 0 then kv else Apply(kv, c).data
    ensures Run(kv, [c], answered).ok == (answered != 0)
  {
    ApplyFits(kv, c);
    assert [c][1..] == [];
  }

  lemma RunThree(kv: map<Key, Value>, a: Cmd<Key>, b: Cmd<Key>, c: Cmd<Key>, answered: nat)
    requires Typed(kv) && CmdFits(a) && CmdFits(b) && CmdFits(c) && answered >= 3
    ensures Run(kv, [a, b, c], answered).data == Apply(Apply(Apply(kv, a).data, b).data, c).data
  {
    ApplyFits(kv, a);
    ApplyFits(Apply(kv, a).data, b);
    assert [a, b, c][1..] == [b, c] && [b, c][1..] == [c];
    RunOne(Apply(Apply(kv, a).data, b).data, c, answered - 2);
  }

  // ---- the fast-lookup entries of one follower ----

  ghost predicate KeysAgree(kv: map<Key, Value>, kv2: map<Key, Value>, id: Id) {
    && (FollowerInfo(id) in kv2 <==> FollowerInfo(id) in kv)
    && (FollowerInfo(id) in kv ==> kv2[FollowerInfo(id)] == kv[FollowerInfo(id)])
    && (FollowerMaster(id) in kv2 <==> FollowerMaster(id) in kv)
    && (FollowerMaster(id) in kv ==> kv2[FollowerMaster(id)] == kv[FollowerMaster(id)])
    && (forall m: Id :: id in SetAt(kv2, FollowerSet(m)) <==> id in SetAt(kv, FollowerSet(m)))
  }

  lemma KeysAgreeIsTransitive(a: map<Key, Value>, b: map<Key, Value>, c: map<Key, Value>, id: Id)
    requires KeysAgree(a, b, id) && KeysAgree(b, c, id)
    ensures KeysAgree(a, c, id)
  {
  }

  predicate About(c: Cmd<Key>, id: Id) {
    match c
    case Put(k, _) => k == FollowerInfo(id) || k == FollowerMaster(id)
    case Del(k) => k == FollowerInfo(id) || k == FollowerMaster(id)
    case SAdd(k, xs) => k.FollowerSet? && xs == {id}
    case SRem(k, x) => k.FollowerSet? && x == id
  }

  /** Only the entries of `id` may differ: its two keys and its membership in the masters' sets. */
  ghost predicate TouchesOnly(kv: map<Key, Value>, later: map<Key, Value>, id: Id) {
    && (forall k: Key :: k != FollowerInfo(id) && k != FollowerMaster(id) && !k.FollowerSet? ==>
          (k in later <==> k in kv) && (k in kv ==> later[k] == kv[k]))
    && (forall m: Id, other: Id :: other != id ==> (other in SetAt(later, FollowerSet(m)) <==> other in SetAt(kv, FollowerSet(m))))
  }

  lemma TouchedKeys(kv: map<Key, Value>, kv2: map<Key, Value>, id: Id)
    requires TouchesOnly(kv, kv2, id)
    ensures forall g: Id :: g != id ==> KeysAgree(kv, kv2, g)
  {
  }

  lemma ApplyAbout(kv: map<Key, Value>, c: Cmd<Key>, id: Id)
    requires Typed(kv) && CmdFits(c) && About(c, id)
    ensures TouchesOnly(kv, Apply(kv, c).data, id)
  {
    ApplyFits(kv, c);
  }

  // ---- subscription sets ----

  function AccountsOf(rows: seq<Follower>): set<string> {
    set r | r in rows :: r.account
  }

  function Least(a: nat, b: nat): nat {
    if a < b then a else b
  }

  /** Accounts of the first `n` rows. */
  function FirstAccounts(rows: seq<Follower>, n: nat): set<string> {
    if rows == [] || n == 0 then {} else {rows[0].account} + FirstAccounts(rows[1..], n - 1)
  }

  lemma {:induction false} FirstAccountsAre(rows: seq<Follower>, n: nat)
    ensures FirstAccounts(rows, n) == AccountsOf(rows[..Least(n, |rows|)])
  {
    if rows != [] && n != 0 {
      FirstAccountsAre(rows[1..], n - 1);
      assert rows[..Least(n, |rows|)] == [rows[0]] + rows[1..][..Least(n - 1, |rows| - 1)];
    }
  }

  /** `later` is `kv` with the accounts `xs` added to the master's set. */
  ghost predicate Added(kv: map<Key, Value>, later: map<Key, Value>, m: Id, xs: set<string>) {
    SameExcept(kv, later, {Subscribers(m)}) && SetAt(later, Subscribers(m)) == SetAt(kv, Subscribers(m)) + xs
  }

  lemma AddedTwice(kv: map<Key, Value>, mid: map<Key, Value>, later: map<Key, Value>, m: Id, xs: set<string>, ys: set<string>)
    requires Added(kv, mid, m, xs) && Added(mid, later, m, ys)
    ensures Added(kv, later, m, xs + ys)
  {
  }

  lemma AddedOne(kv: map<Key, Value>, m: Id, x: string)
    requires Typed(kv)
    ensures var r := Apply(kv, SAdd(Subscribers(m), {x}));
            r.ok && Typed(r.data) && Added(kv, r.data, m, {x})
  {
    ApplyFits(kv, SAdd(Subscribers(m), {x}));
  }

  lemma {:induction false} AddCall(kv: map<Key, Value>, m: Id, rows: seq<Follower>, n: nat)
    requires Typed(kv)
    ensures var r := Run(kv, AddCmds(m, rows), n);
            Typed(r.data) && Added(kv, r.data, m, FirstAccounts(rows, n)) && (r.ok <==> |rows| <= n)
    decreases |rows|
  {
    if rows != [] && n != 0 {
      var x := rows[0].account;
      assert AddCmds(m, rows)[0] == SAdd(Subscribers(m), {x}) && AddCmds(m, rows)[1..] == AddCmds(m, rows[1..]);
      AddedOne(kv, m, x);
      var kv1 := Apply(kv, SAdd(Subscribers(m), {x})).data;
      AddCall(kv1, m, rows[1..], n - 1);
      AddedTwice(kv, kv1, Run(kv1, AddCmds(m, rows[1..]), n - 1).data, m, {x}, FirstAccounts(rows[1..], n - 1));
    }
  }

  /** A completed sync leaves exactly the listed accounts whatever was there before; one that is cut
      after the clear leaves a prefix of them; other keys keep their values either way. */
  lemma SyncCall(kv: map<Key, Value>, m: Id, rows: seq<Follower>, n: nat)
    requires Typed(kv)
    ensures var r := Run(kv, SyncCmds(m, rows), n);
            && Typed(r.data) && SameExcept(kv, r.data, {Subscribers(m)})
            && (r.ok <==> 1 + |rows| <= n)
            && (n == 0 ==> r.data == kv)
            && (n > 0 ==> SetAt(r.data, Subscribers(m)) == AccountsOf(rows[..Least(n - 1, |rows|)]))
  {
    if n > 0 {
      var c := Del(Subscribers(m));
      ApplyFits(kv, c);
      assert SyncCmds(m, rows)[1..] == AddCmds(m, rows);
      AddCall(Apply(kv, c).data, m, rows, n - 1);
      FirstAccountsAre(rows, n - 1);
    }
  }

  ghost predicate HoldsGroup(kv: map<Key, Value>, m: Id, group: set<string>) {
    if group == {} then Subscribers(m) !in kv
    else Subscribers(m) in kv && kv[Subscribers(m)] == Members(group)
  }

  lemma {:induction false} PipeAppend<K>(data: map<K, Value>, a: seq<Cmd<K>>, b: seq<Cmd<K>>, n: nat)
    ensures Pipe(data, a + b, n) == Pipe(Pipe(data, a, n), b, if n < |a| then 0 else n - |a|)
    decreases |a|
  {
    if a == [] {
      assert a + b == b;
    } else if n != 0 {
      assert (a + b)[1..] == a[1..] + b;
      PipeAppend(Apply(data, a[0]).data, a[1..], b, n - 1);
    }
  }

  lemma ReplaceOneCall(kv: map<Key, Value>, m: Id, group: set<string>, n: nat)
    ensures var later := Pipe(kv, ReplaceOne(m, group), n);
            && SameExcept(kv, later, {Subscribers(m)})
            && (Typed(kv) ==> Typed(later))
            && (n >= |ReplaceOne(m, group)| ==> HoldsGroup(later, m, group))
  {
    var cs := ReplaceOne(m, group);
    if n > 0 {
      var kv1 := Apply(kv, cs[0]).data;
      if group == {} {
        assert cs[1..] == [];
      } else {
        var add := SAdd(Subscribers(m), group);
        assert cs[1..] == [add] && cs[1..][1..] == [];
        assert Pipe(kv, cs, n) == if n == 1 then kv1 else Pipe(Apply(kv1, add).data, [], n - 2);
      }
    }
  }

  function SubscriberKeys(ms: seq<Id>): set<Key> {
    set m | m in ms :: Subscribers(m)
  }

  lemma SameExceptJoins(kv: map<Key, Value>, mid: map<Key, Value>, later: map<Key, Value>, order: seq<Id>)
    requires order != [] && SameExcept(kv, mid, {Subscribers(order[0])}) && SameExcept(mid, later, SubscriberKeys(order[1..]))
    ensures SameExcept(kv, later, SubscriberKeys(order))
  {
    assert order == [order[0]] + order[1..];
    assert SubscriberKeys(order) == {Subscribers(order[0])} + SubscriberKeys(order[1..]);
  }

  /** Each listed master ends with exactly its group, whatever the order and whatever was there. */
  lemma {:induction false} ReplaceCall(kv: map<Key, Value>, groups: map<Id, set<string>>, order: seq<Id>, n: nat)
    requires forall m <- order :: m in groups
    ensures var later := Pipe(kv, ReplaceCmds(groups, order), n);
            && SameExcept(kv, later, SubscriberKeys(order))
            && (Typed(kv) ==> Typed(later))
            && (n >= |ReplaceCmds(groups, order)| ==> forall m <- order :: HoldsGroup(later, m, groups[m]))
    decreases |order|
  {
    if order != [] {
      var m, rest := order[0], order[1..];
      var one := ReplaceOne(m, groups[m]);
      var kv1, n1 := Pipe(kv, one, n), if n < |one| then 0 else n - |one|;
      var later := Pipe(kv1, ReplaceCmds(groups, rest), n1);
      PipeAppend(kv, one, ReplaceCmds(groups, rest), n);
      ReplaceOneCall(kv, m, groups[m], n);
      ReplaceCall(kv1, groups, rest, n1);
      SameExceptJoins(kv, kv1, later, order);
      forall x | x in order && n >= |ReplaceCmds(groups, order)|
        ensures HoldsGroup(later, x, groups[x])
      {
        if x !in rest { assert Subscribers(x) !in SubscriberKeys(rest); }
      }
    }
  }

  function ValueAfterReplace(kv: map<Key, Value>, groups: map<Id, set<string>>, k: Key): Option<Value> {
    if k.Subscribers? && k.id in groups then (if groups[k.id] == {} then None else Some(Members(groups[k.id])))
    else if k in kv then Some(kv[k]) else None
  }

  lemma ReplacedAt(kv: map<Key, Value>, groups: map<Id, set<string>>, order: seq<Id>, n: nat, k: Key)
    requires (set m | m in order) == groups.Keys && n >= |ReplaceCmds(groups, order)|
    ensures var later := Pipe(kv, ReplaceCmds(groups, order), n);
            ValueAfterReplace(kv, groups, k) == if k in later then Some(later[k]) else None
  {
    ReplaceCall(kv, groups, order, n);
    if k.Subscribers? && k.id in groups {
      assert k.id in set m | m in order;
      assert HoldsGroup(Pipe(kv, ReplaceCmds(groups, order), n), k.id, groups[k.id]);
    } else {
      assert forall m <- order :: m in set x | x in order;
      assert k !in SubscriberKeys(order);
    }
  }

  /** Hence the order of the range does not matter. */
  lemma ReplaceInAnyOrder(kv: map<Key, Value>, groups: map<Id, set<string>>, order1: seq<Id>, order2: seq<Id>, n: nat)
    requires (set m | m in order1) == groups.Keys == (set m | m in order2)
    requires n >= |ReplaceCmds(groups, order1)| && n >= |ReplaceCmds(groups, order2)|
    ensures Pipe(kv, ReplaceCmds(groups, order1), n) == Pipe(kv, ReplaceCmds(groups, order2), n)
  {
    var a, b := Pipe(kv, ReplaceCmds(groups, order1), n), Pipe(kv, ReplaceCmds(groups, order2), n);
    forall k: Key
      ensures k in a <==> k in b
      ensures k in a ==> a[k] == b[k]
    {
      ReplacedAt(kv, groups, order1, n, k);
      ReplacedAt(kv, groups, order2, n, k);
    }
  }
}
