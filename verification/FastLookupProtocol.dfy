/** Concurrent fast-lookup calls: any number of RegisterFollower, UnregisterFollower and
    UpdateFollowerStatus calls, one Redis command at a time, in any order, each of which may stop
    after any command. */
module FastLookupProtocol {
  import opened Schema
  import opened Keyspace
  import opened Commands

  /** A call in flight.  `next` counts the commands of `RegisterCmds` or `UnregisterCmds` already sent.
      An unregister call has read the mapping, an update call has read the record. */
  datatype Call =
    | Registering(masterId: Id, id: Id, info: Info, next: nat)
    | Unregistering(masterId: Id, id: Id, next: nat)
    | Updating(id: Id, info: Info)

  /** `owner` is the master each follower ID was registered with; `stopped` are the IDs one of whose
      calls stopped early; `revived` are those whose record was last written by an update that found
      it gone. */
  datatype State = State(
    kv: map<Key, Value>, calls: map<nat, Call>, owner: map<Id, Id>, stopped: set<Id>, revived: set<Id>)

  datatype Step =
    | StartRegister(call: nat, masterId: Id, id: Id, info: Info)
    | StartUnregister(call: nat, id: Id)                  // GET follower:{id}:master
    | StartUpdate(call: nat, id: Id, status: Status)      // GET follower:{id}
    | Send(call: nat)
    | Stop(call: nat)

  function Script(c: Call): seq<Cmd<Key>> {
    match c
    case Registering(m, id, info, _) => RegisterCmds(m, id, info)
    case Unregistering(m, id, _) => UnregisterCmds(m, id)
    case Updating(id, info) => [Put(FollowerInfo(id), Record(info))]
  }

  function Position(c: Call): nat {
    if c.Updating? then 0 else c.next
  }

  predicate InProgress(c: Call) {
    Position(c) < |Script(c)|
  }

  /** Each ID is registered once; the record names the master that it is registered under. */
  predicate Enabled(s: State, e: Step) {
    match e
    case StartRegister(c, m, id, info) => c !in s.calls && id !in s.owner && info.masterId == m
    case StartUnregister(c, _) => c !in s.calls
    case StartUpdate(c, _, _) => c !in s.calls
    case Send(c) => c in s.calls && InProgress(s.calls[c])
    case Stop(c) => c in s.calls
  }

  /** An update revives a record that is gone; the last command of an unregister call removes the record. */
  function Revived(s: State, call: Call): set<Id> {
    if call.Updating? && FollowerInfo(call.id) !in s.kv then s.revived + {call.id}
    else if call.Unregistering? && call.next == 2 then s.revived - {call.id}
    else s.revived
  }

  /** Reads that find nothing end the call.  A call whose command fails stops; one that has sent its
      last command is done. */
  function Next(s: State, e: Step): State
    requires Enabled(s, e)
  {
    match e
    case StartRegister(c, m, id, info) =>
      s.(calls := s.calls[c := Registering(m, id, info, 0)], owner := s.owner[id := m])
    case StartUnregister(c, id) =>
      var k := FollowerMaster(id);
      if k in s.kv && s.kv[k].Text? then s.(calls := s.calls[c := Unregistering(s.kv[k].text, id, 0)]) else s
    case StartUpdate(c, id, status) =>
      var k := FollowerInfo(id);
      if k in s.kv && s.kv[k].Record? then s.(calls := s.calls[c := Updating(id, s.kv[k].info.(status := status))]) else s
    case Send(c) =>
      var call := s.calls[c];
      var r := Apply(s.kv, Script(call)[Position(call)]);
      var t := s.(kv := r.data, revived := Revived(s, call));
      if !r.ok then t.(calls := s.calls - {c}, stopped := s.stopped + {call.id})
      else if Position(call) + 1 == |Script(call)| then t.(calls := s.calls - {c})
      else t.(calls := s.calls[c := call.(next := call.next + 1)])
    case Stop(c) => s.(calls := s.calls - {c}, stopped := s.stopped + {s.calls[c].id})
  }

  function MembersOf(kv: map<Key, Value>, m: Id): set<Id> {
    SetAt(kv, FollowerSet(m))
  }

  ghost predicate RegisterAt(s: State, id: Id, n: nat) {
    exists c <- s.calls :: s.calls[c].Registering? && s.calls[c].id == id && s.calls[c].next == n
  }

  ghost predicate UnregisterAt(s: State, id: Id, n: nat) {
    exists c <- s.calls :: s.calls[c].Unregistering? && s.calls[c].id == id && s.calls[c].next == n
  }

  /** The two directions of the index and the record, for one ID and one master. */
  ghost predicate IndexOk(s: State, id: Id, m: Id) {
    && (FollowerInfo(id) in s.kv ==> id in s.owner && s.kv[FollowerInfo(id)].Record? && s.kv[FollowerInfo(id)].info.masterId == s.owner[id])
    && (FollowerMaster(id) in s.kv ==> id in s.owner && s.kv[FollowerMaster(id)] == Text(s.owner[id]) && FollowerInfo(id) in s.kv)
    && (id in MembersOf(s.kv, m) ==> id in s.owner && m == s.owner[id] && FollowerInfo(id) in s.kv)
  }

  /** What each position of a call in flight knows about the entries of its ID. */
  ghost predicate CallInv(s: State, c: Call) {
    && InProgress(c) && c.id in s.owner
    && match c
       case Registering(m, id, info, n) =>
         && m == s.owner[id] && info.masterId == m
         && FollowerMaster(id) !in s.kv
         && (n >= 1 <==> FollowerInfo(id) in s.kv)
         && id !in s.revived
         && (n >= 2 <==> id in MembersOf(s.kv, m))
       case Unregistering(m, id, n) =>
         && m == s.owner[id]
         && (n >= 1 ==> id !in MembersOf(s.kv, m))
         && (n >= 2 ==> FollowerMaster(id) !in s.kv)
       case Updating(id, info) => info.masterId == s.owner[id]
  }

  /** A registration has its ID to itself, apart from updates after its first command. */
  ghost predicate RegistersAlone(s: State, id: Id) {
    forall c <- s.calls, d <- s.calls :: s.calls[c].id == id && s.calls[d].id == id && s.calls[c].Registering? && c != d
      ==> s.calls[d].Updating? && s.calls[c].next > 0
  }

  /** Set membership and mapping differ only inside a call. */
  ghost predicate Balanced(s: State, id: Id)
    requires id in s.owner
  {
    var m := s.owner[id];
    && (id in MembersOf(s.kv, m) && FollowerMaster(id) !in s.kv ==> RegisterAt(s, id, 2))
    && (FollowerMaster(id) in s.kv && id !in MembersOf(s.kv, m) ==> UnregisterAt(s, id, 1))
  }

  /** A record without a mapping is being written, is about to be removed, or was revived; a revived
      record has no mapping. */
  ghost predicate RecordOk(s: State, id: Id) {
    && (FollowerInfo(id) in s.kv && FollowerMaster(id) !in s.kv && id !in s.stopped ==>
          RegisterAt(s, id, 1) || RegisterAt(s, id, 2) || UnregisterAt(s, id, 2) || id in s.revived)
    && (id in s.revived ==> id in s.owner && FollowerInfo(id) in s.kv && FollowerMaster(id) !in s.kv)
  }

  ghost predicate IdInv(s: State, id: Id) {
    && (forall m: Id :: IndexOk(s, id, m))
    && (forall c <- s.calls :: s.calls[c].id == id ==> CallInv(s, s.calls[c]))
    && RegistersAlone(s, id)
    && (id in s.owner && id !in s.stopped ==> Balanced(s, id))
    && RecordOk(s, id)
  }

  ghost predicate Inv(s: State) {
    Typed(s.kv) && forall id: Id :: IdInv(s, id)
  }

  const EMPTY := State(map[], map[], map[], {}, {})

  // ---- other IDs ----

  ghost predicate CallsAgree(s: State, t: State, id: Id) {
    && (forall c <- s.calls :: s.calls[c].id == id ==> c in t.calls && t.calls[c] == s.calls[c])
    && (forall c <- t.calls :: t.calls[c].id == id ==> c in s.calls && t.calls[c] == s.calls[c])
    && (id in s.owner <==> id in t.owner) && (id in s.owner ==> t.owner[id] == s.owner[id])
    && (id in s.stopped <==> id in t.stopped)
    && (id in s.revived <==> id in t.revived)
  }

  lemma IdFrame(s: State, t: State, id: Id)
    requires IdInv(s, id) && KeysAgree(s.kv, t.kv, id) && CallsAgree(s, t, id)
    ensures IdInv(t, id)
  {
    forall m: Id
      ensures IndexOk(t, id, m)
    {
      assert IndexOk(s, id, m);
    }
  }

  /** The ID that a step is about. */
  function Subject(s: State, e: Step): Id
    requires Enabled(s, e)
  {
    match e
    case StartRegister(_, _, id, _) => id
    case StartUnregister(_, id) => id
    case StartUpdate(_, id, _) => id
    case Send(c) => s.calls[c].id
    case Stop(c) => s.calls[c].id
  }

  lemma ScriptFits(s: State, c: nat)
    requires Inv(s) && c in s.calls
    ensures var call := s.calls[c];
            InProgress(call) && CmdFits(Script(call)[Position(call)]) && CallInv(s, call)
  {
    assert IdInv(s, s.calls[c].id);
  }

  lemma OthersKeys(s: State, e: Step, g: Id)
    requires Inv(s) && Enabled(s, e) && g != Subject(s, e)
    ensures KeysAgree(s.kv, Next(s, e).kv, g)
  {
    if e.Send? {
      ScriptFits(s, e.call);
      var call := s.calls[e.call];
      var c := Script(call)[Position(call)];
      ApplyAbout(s.kv, c, call.id);
      TouchedKeys(s.kv, Apply(s.kv, c).data, call.id);
    }
  }

  lemma OthersCalls(s: State, e: Step, g: Id)
    requires Enabled(s, e) && g != Subject(s, e)
    ensures CallsAgree(s, Next(s, e), g)
  {
  }

  lemma OthersAgree(s: State, e: Step, g: Id)
    requires Inv(s) && Enabled(s, e) && g != Subject(s, e)
    ensures KeysAgree(s.kv, Next(s, e).kv, g) && CallsAgree(s, Next(s, e), g)
  {
    OthersKeys(s, e, g);
    OthersCalls(s, e, g);
  }

  // ---- the ID itself ----

  predicate RegisteringBy(s: State, c: nat, id: Id, n: nat) {
    c in s.calls && s.calls[c].Registering? && s.calls[c].id == id && s.calls[c].next == n
  }

  predicate UnregisteringBy(s: State, c: nat, id: Id, n: nat) {
    c in s.calls && s.calls[c].Unregistering? && s.calls[c].id == id && s.calls[c].next == n
  }

  /** Only call `c` moved, so only what it itself was doing can be over. */
  lemma AtOne(s: State, t: State, c: nat, id: Id, n: nat)
    requires forall d <- s.calls :: d != c ==> d in t.calls && t.calls[d] == s.calls[d]
    ensures RegisterAt(s, id, n) ==> RegisterAt(t, id, n) || RegisteringBy(s, c, id, n)
    ensures UnregisterAt(s, id, n) ==> UnregisterAt(t, id, n) || UnregisteringBy(s, c, id, n)
    ensures RegisteringBy(t, c, id, n) ==> RegisterAt(t, id, n)
    ensures UnregisteringBy(t, c, id, n) ==> UnregisterAt(t, id, n)
  {
    if RegisterAt(s, id, n) {
      var d :| d in s.calls && s.calls[d].Registering? && s.calls[d].id == id && s.calls[d].next == n;
      assert d != c ==> d in t.calls;
    }
    if UnregisterAt(s, id, n) {
      var d :| d in s.calls && s.calls[d].Unregistering? && s.calls[d].id == id && s.calls[d].next == n;
      assert d != c ==> d in t.calls;
    }
  }

  /** All that is not about a single master's set, at the places where a call can stand. */
  lemma AtAll(s: State, t: State, c: nat, id: Id)
    requires forall d <- s.calls :: d != c ==> d in t.calls && t.calls[d] == s.calls[d]
    ensures RegisterAt(s, id, 1) ==> RegisterAt(t, id, 1) || RegisteringBy(s, c, id, 1)
    ensures RegisterAt(s, id, 2) ==> RegisterAt(t, id, 2) || RegisteringBy(s, c, id, 2)
    ensures UnregisterAt(s, id, 1) ==> UnregisterAt(t, id, 1) || UnregisteringBy(s, c, id, 1)
    ensures UnregisterAt(s, id, 2) ==> UnregisterAt(t, id, 2) || UnregisteringBy(s, c, id, 2)
    ensures RegisteringBy(t, c, id, 1) ==> RegisterAt(t, id, 1)
    ensures RegisteringBy(t, c, id, 2) ==> RegisterAt(t, id, 2)
    ensures UnregisteringBy(t, c, id, 1) ==> UnregisterAt(t, id, 1)
    ensures UnregisteringBy(t, c, id, 2) ==> UnregisterAt(t, id, 2)
  {
    AtOne(s, t, c, id, 1);
    AtOne(s, t, c, id, 2);
  }

  /** A new call leaves the index and all that is about it alone. */
  lemma NewCall(s: State, t: State, c: nat, id: Id)
    requires IdInv(s, id) && c !in s.calls && c in t.calls && t.calls == s.calls[c := t.calls[c]]
    requires t.kv == s.kv && t.stopped == s.stopped && t.revived == s.revived
    requires t.calls[c].id == id && CallInv(t, t.calls[c])
    requires if t.calls[c].Registering? then id !in s.owner && t.owner == s.owner[id := t.calls[c].masterId] else t.owner == s.owner
    requires t.calls[c].Registering? ==> forall d <- s.calls :: s.calls[d].id != id
    requires !t.calls[c].Registering? ==> forall d <- s.calls ::
               s.calls[d].id == id && s.calls[d].Registering? ==> t.calls[c].Updating? && s.calls[d].next > 0
    ensures IdInv(t, id)
  {
    AtAll(s, t, c, id);
    forall m: Id
      ensures IndexOk(t, id, m)
    {
      assert IndexOk(s, id, m);
    }
    assert IndexOk(s, id, if id in t.owner then t.owner[id] else id);
    forall d | d in t.calls && t.calls[d].id == id
      ensures CallInv(t, t.calls[d])
    {
      assert d != c ==> CallInv(s, s.calls[d]);
    }
  }

  lemma StartKeepsId(s: State, e: Step)
    requires Inv(s) && Enabled(s, e) && !e.Send? && !e.Stop?
    ensures IdInv(Next(s, e), Subject(s, e))
  {
    var id, t := Subject(s, e), Next(s, e);
    assert IdInv(s, id);
    assert IndexOk(s, id, if id in t.owner then t.owner[id] else id);
    if e.call in t.calls {
      assert forall d <- s.calls :: s.calls[d].id == id ==> CallInv(s, s.calls[d]);
      NewCall(s, t, e.call, id);
    }
  }

  lemma StopKeepsId(s: State, c: nat)
    requires Inv(s) && Enabled(s, Stop(c))
    ensures IdInv(Next(s, Stop(c)), s.calls[c].id)
  {
    var id, t := s.calls[c].id, Next(s, Stop(c));
    assert IdInv(s, id);
    forall m: Id
      ensures IndexOk(t, id, m)
    {
      assert IndexOk(s, id, m);
    }
  }

  /** What a command does to the entries of its ID: the record, the mapping, the memberships. */
  ghost predicate EntriesBecome(s: State, t: State, id: Id, info: bool, mapping: bool, m0: Id, member: bool) {
    && (FollowerInfo(id) in t.kv <==> info)
    && (FollowerMaster(id) in t.kv <==> mapping)
    && (forall m: Id :: id in MembersOf(t.kv, m) <==> if m == m0 then member else id in MembersOf(s.kv, m))
    && t.owner == s.owner && t.stopped == s.stopped
  }

  ghost predicate ValuesOk(s: State, id: Id) {
    && (FollowerInfo(id) in s.kv ==> id in s.owner && s.kv[FollowerInfo(id)].Record? && s.kv[FollowerInfo(id)].info.masterId == s.owner[id])
    && (FollowerMaster(id) in s.kv ==> id in s.owner && s.kv[FollowerMaster(id)] == Text(s.owner[id]))
  }

  /** The index survives a command that leaves right values and takes the record only after the rest. */
  lemma IndexKept(s: State, t: State, id: Id, info: bool, mapping: bool, m0: Id, member: bool)
    requires id in s.owner && m0 == s.owner[id]
    requires (forall m: Id :: IndexOk(s, id, m)) && ValuesOk(t, id)
    requires EntriesBecome(s, t, id, info, mapping, m0, member) && (mapping || member ==> info)
    ensures forall m: Id :: IndexOk(t, id, m)
  {
    forall m: Id
      ensures IndexOk(t, id, m)
    {
      assert IndexOk(s, id, m);
    }
  }

  lemma SendUpdateEffect(s: State, c: nat)
    requires Inv(s) && Enabled(s, Send(c)) && s.calls[c].Updating?
    ensures var call, t := s.calls[c], Next(s, Send(c));
            var id := call.id;
            && id in s.owner && t.calls == s.calls - {c}
            && EntriesBecome(s, t, id, true, FollowerMaster(id) in s.kv, s.owner[id], id in MembersOf(s.kv, s.owner[id]))
            && ValuesOk(t, id)
  {
    var call := s.calls[c];
    ScriptFits(s, c);
    ApplyFits(s.kv, Script(call)[0]);
    assert IdInv(s, call.id);
    assert IndexOk(s, call.id, s.owner[call.id]);
  }

  lemma SendUpdateKeepsId(s: State, c: nat)
    requires Inv(s) && Enabled(s, Send(c)) && s.calls[c].Updating?
    ensures IdInv(Next(s, Send(c)), s.calls[c].id)
  {
    var id, t := s.calls[c].id, Next(s, Send(c));
    assert IdInv(s, id);
    SendUpdateEffect(s, c);
    IndexKept(s, t, id, true, FollowerMaster(id) in s.kv, s.owner[id], id in MembersOf(s.kv, s.owner[id]));
    AtAll(s, t, c, id);
    assert IndexOk(s, id, s.owner[id]);
    forall d | d in t.calls && t.calls[d].id == id
      ensures CallInv(t, t.calls[d])
    {
      assert CallInv(s, s.calls[d]);
    }
  }

  lemma SendRegisterEffect(s: State, c: nat)
    requires Inv(s) && Enabled(s, Send(c)) && s.calls[c].Registering?
    ensures var call, t := s.calls[c], Next(s, Send(c));
            var id, m, n := call.id, call.masterId, call.next;
            && n <= 2 && id in s.owner && m == s.owner[id]
            && EntriesBecome(s, t, id, true, n == 2, m, n >= 1) && ValuesOk(t, id)
            && t.revived == s.revived
            && t.calls == if n < 2 then s.calls[c := Registering(m, id, call.info, n + 1)] else s.calls - {c}
  {
    var call := s.calls[c];
    ScriptFits(s, c);
    ApplyFits(s.kv, Script(call)[call.next]);
    assert IdInv(s, call.id);
    assert IndexOk(s, call.id, call.masterId);
  }

  lemma SendRegisterKeepsId(s: State, c: nat)
    requires Inv(s) && Enabled(s, Send(c)) && s.calls[c].Registering?
    ensures IdInv(Next(s, Send(c)), s.calls[c].id)
  {
    var call, id, t := s.calls[c], s.calls[c].id, Next(s, Send(c));
    assert IdInv(s, id) && CallInv(s, call);
    SendRegisterEffect(s, c);
    IndexKept(s, t, id, true, call.next == 2, call.masterId, call.next >= 1);
    AtAll(s, t, c, id);
    forall d | d in t.calls && t.calls[d].id == id
      ensures CallInv(t, t.calls[d])
    {
      assert d != c ==> CallInv(s, s.calls[d]);
    }
  }

  lemma SendUnregisterEffect(s: State, c: nat)
    requires Inv(s) && Enabled(s, Send(c)) && s.calls[c].Unregistering?
    ensures var call, t := s.calls[c], Next(s, Send(c));
            var id, m, n := call.id, call.masterId, call.next;
            && n <= 2 && id in s.owner && m == s.owner[id]
            && EntriesBecome(s, t, id, n < 2 && FollowerInfo(id) in s.kv, n == 0 && FollowerMaster(id) in s.kv, m, false)
            && ValuesOk(t, id)
            && t.revived == (if n == 2 then s.revived - {id} else s.revived)
            && t.calls == if n < 2 then s.calls[c := Unregistering(m, id, n + 1)] else s.calls - {c}
  {
    var call := s.calls[c];
    ScriptFits(s, c);
    ApplyFits(s.kv, Script(call)[call.next]);
    assert IdInv(s, call.id);
    assert IndexOk(s, call.id, call.masterId);
  }

  lemma SendUnregisterKeepsId(s: State, c: nat)
    requires Inv(s) && Enabled(s, Send(c)) && s.calls[c].Unregistering?
    ensures IdInv(Next(s, Send(c)), s.calls[c].id)
  {
    var call, id, t := s.calls[c], s.calls[c].id, Next(s, Send(c));
    assert IdInv(s, id) && CallInv(s, call) && IndexOk(s, id, call.masterId);
    SendUnregisterEffect(s, c);
    IndexKept(s, t, id, call.next < 2 && FollowerInfo(id) in s.kv, call.next == 0 && FollowerMaster(id) in s.kv, call.masterId, false);
    AtAll(s, t, c, id);
    forall d | d in t.calls && t.calls[d].id == id
      ensures CallInv(t, t.calls[d])
    {
      assert d != c ==> CallInv(s, s.calls[d]);
    }
  }

  // ---- every run ----

  lemma StepKeepsInv(s: State, e: Step)
    requires Inv(s) && Enabled(s, e)
    ensures Inv(Next(s, e))
  {
    var t, id := Next(s, e), Subject(s, e);
    if e.Send? {
      ScriptFits(s, e.call);
      var call := s.calls[e.call];
      ApplyFits(s.kv, Script(call)[Position(call)]);
    }
    forall g: Id
      ensures IdInv(t, g)
    {
      if g != id {
        OthersAgree(s, e, g);
        IdFrame(s, t, g);
      } else if e.Stop? {
        StopKeepsId(s, e.call);
      } else if !e.Send? {
        StartKeepsId(s, e);
      } else if s.calls[e.call].Registering? {
        SendRegisterKeepsId(s, e.call);
      } else if s.calls[e.call].Unregistering? {
        SendUnregisterKeepsId(s, e.call);
      } else {
        SendUpdateKeepsId(s, e.call);
      }
    }
  }

  ghost predicate Schedule(s: State, es: seq<Step>)
    decreases |es|
  {
    es == [] || (Enabled(s, es[0]) && Schedule(Next(s, es[0]), es[1..]))
  }

  ghost function After(s: State, es: seq<Step>): State
    requires Schedule(s, es)
    decreases |es|
  {
    if es == [] then s else After(Next(s, es[0]), es[1..])
  }

  lemma {:induction false} ScheduleKeepsInv(s: State, es: seq<Step>)
    requires Inv(s) && Schedule(s, es)
    ensures Inv(After(s, es))
    decreases |es|
  {
    if es != [] {
      StepKeepsInv(s, es[0]);
      ScheduleKeepsInv(Next(s, es[0]), es[1..]);
    }
  }

  /** Under every interleaving, with calls stopping anywhere: a member of a master's set, and a follower
      with a mapping, has a record, and all three name the master it was registered with. */
  lemma IndexNeverDangles(es: seq<Step>, id: Id, m: Id)
    requires Schedule(EMPTY, es)
    ensures IndexOk(After(EMPTY, es), id, m)
  {
    ScheduleKeepsInv(EMPTY, es);
    assert IdInv(After(EMPTY, es), id);
  }

  /** When no call on the follower is in flight and none stopped early, the set and the mapping agree. */
  lemma DirectionsAgreeAtRest(es: seq<Step>, id: Id, m: Id)
    requires Schedule(EMPTY, es)
    ensures var s := After(EMPTY, es);
            id !in s.stopped && (forall c <- s.calls :: s.calls[c].id != id) ==>
              (id in MembersOf(s.kv, m) <==> FollowerMaster(id) in s.kv && s.kv[FollowerMaster(id)] == Text(m))
  {
    ScheduleKeepsInv(EMPTY, es);
    var s := After(EMPTY, es);
    assert IdInv(s, id) && IndexOk(s, id, m);
    if id in s.owner { assert IndexOk(s, id, s.owner[id]); }
  }

  /** When no call on the follower is in flight and none stopped early, a record without a mapping is
      exactly one that an update wrote back after it was removed. */
  lemma RecordAtRestExactly(es: seq<Step>, id: Id)
    requires Schedule(EMPTY, es)
    ensures var s := After(EMPTY, es);
            id !in s.stopped && (forall c <- s.calls :: s.calls[c].id != id) ==>
              (FollowerInfo(id) in s.kv && FollowerMaster(id) !in s.kv <==> id in s.revived)
  {
    ScheduleKeepsInv(EMPTY, es);
    assert IdInv(After(EMPTY, es), id);
  }

  // ---- unregistering beside updates ----

  ghost predicate UpdateUnderway(s: State, id: Id) {
    exists c <- s.calls :: s.calls[c].Updating? && s.calls[c].id == id
  }

  /** This step removes the record of `id`. */
  predicate Removes(s: State, e: Step, id: Id) {
    e.Send? && e.call in s.calls && UnregisteringBy(s, e.call, id, 2)
  }

  /** No update of `id` is in flight when an unregister call removes its record. */
  ghost predicate RemovedAlone(s: State, es: seq<Step>, id: Id)
    requires Schedule(s, es)
    decreases |es|
  {
    es == [] || ((Removes(s, es[0], id) ==> !UpdateUnderway(s, id)) && RemovedAlone(Next(s, es[0]), es[1..], id))
  }

  /** An update in flight still has its record to write to. */
  ghost predicate UpdatesHaveRecord(s: State, id: Id) {
    id !in s.revived && (UpdateUnderway(s, id) ==> FollowerInfo(id) in s.kv)
  }

  lemma SameUpdates(s: State, t: State, id: Id)
    requires forall c <- t.calls :: t.calls[c].id == id && t.calls[c].Updating? ==> c in s.calls && s.calls[c] == t.calls[c]
    ensures UpdateUnderway(t, id) ==> UpdateUnderway(s, id)
  {
    if UpdateUnderway(t, id) {
      var c :| c in t.calls && t.calls[c].Updating? && t.calls[c].id == id;
      assert c in s.calls;
    }
  }

  lemma SendKeepsRecord(s: State, c: nat)
    requires Inv(s) && Enabled(s, Send(c)) && UpdatesHaveRecord(s, s.calls[c].id)
    requires Removes(s, Send(c), s.calls[c].id) ==> !UpdateUnderway(s, s.calls[c].id)
    ensures UpdatesHaveRecord(Next(s, Send(c)), s.calls[c].id)
  {
    var t, id := Next(s, Send(c)), s.calls[c].id;
    if s.calls[c].Registering? {
      SendRegisterEffect(s, c);
    } else if s.calls[c].Unregistering? {
      SendUnregisterEffect(s, c);
    } else {
      SendUpdateEffect(s, c);
      assert UpdateUnderway(s, id);
    }
    SameUpdates(s, t, id);
  }

  lemma StepKeepsRecord(s: State, e: Step, id: Id)
    requires Inv(s) && Enabled(s, e) && UpdatesHaveRecord(s, id)
    requires Removes(s, e, id) ==> !UpdateUnderway(s, id)
    ensures UpdatesHaveRecord(Next(s, e), id)
  {
    var t := Next(s, e);
    if Subject(s, e) != id {
      OthersAgree(s, e, id);
      SameUpdates(s, t, id);
    } else if e.Send? {
      SendKeepsRecord(s, e.call);
    } else if !e.StartUpdate? {
      SameUpdates(s, t, id);
    }
  }

  lemma {:induction false} ScheduleKeepsRecord(s: State, es: seq<Step>, id: Id)
    requires Inv(s) && Schedule(s, es) && RemovedAlone(s, es, id) && UpdatesHaveRecord(s, id)
    ensures id !in After(s, es).revived
    decreases |es|
  {
    if es != [] {
      StepKeepsRecord(s, es[0], id);
      StepKeepsInv(s, es[0]);
      ScheduleKeepsRecord(Next(s, es[0]), es[1..], id);
    }
  }

  /** What a caller can ensure: if no update is in flight when a record is removed, then at rest record and
      mapping come and go together. */
  lemma RecordAgreesIfRemovedAlone(es: seq<Step>, id: Id)
    requires Schedule(EMPTY, es) && RemovedAlone(EMPTY, es, id)
    ensures var s := After(EMPTY, es);
            id !in s.stopped && (forall c <- s.calls :: s.calls[c].id != id) ==>
              (FollowerInfo(id) in s.kv <==> FollowerMaster(id) in s.kv)
  {
    ScheduleKeepsRecord(EMPTY, es, id);
    RecordAtRestExactly(es, id);
    IndexNeverDangles(es, id, id);
  }

  // ---- a record can outlive its follower ----

  ghost predicate Reaches(s: State, es: seq<Step>, t: State) {
    Schedule(s, es) && After(s, es) == t
  }

  lemma {:induction false} ReachesAppend(s: State, a: seq<Step>, t: State, b: seq<Step>, u: State)
    requires Reaches(s, a, t) && Reaches(t, b, u)
    ensures Reaches(s, a + b, u)
    decreases |a|
  {
    if a == [] {
      assert a + b == b;
    } else {
      assert (a + b)[1..] == a[1..] + b;
      ReachesAppend(Next(s, a[0]), a[1..], t, b, u);
    }
  }

  lemma ReachesOne(s: State, e: Step)
    requires Enabled(s, e)
    ensures Reaches(s, [e], Next(s, e))
  {
    assert [e][1..] == [];
  }

  function Registered(m: Id, id: Id, info: Info): map<Key, Value> {
    map[FollowerInfo(id) := Record(info), FollowerSet(m) := Members({id}), FollowerMaster(id) := Text(m)]
  }

  lemma ReachesNext(s: State, a: seq<Step>, t: State, e: Step)
    requires Reaches(s, a, t) && Enabled(t, e)
    ensures Reaches(s, a + [e], Next(t, e))
  {
    ReachesOne(t, e);
    ReachesAppend(s, a, t, [e], Next(t, e));
  }

  lemma ThreeSends(s: State, c: nat)
    requires Enabled(s, Send(c)) && Enabled(Next(s, Send(c)), Send(c))
    requires Enabled(Next(Next(s, Send(c)), Send(c)), Send(c))
    ensures Reaches(s, [Send(c), Send(c), Send(c)], Next(Next(Next(s, Send(c)), Send(c)), Send(c)))
  {
    ReachesOne(s, Send(c));
    ReachesNext(s, [Send(c)], Next(s, Send(c)), Send(c));
    ReachesNext(s, [Send(c)] + [Send(c)], Next(Next(s, Send(c)), Send(c)), Send(c));
    assert [Send(c)] + [Send(c)] + [Send(c)] == [Send(c), Send(c), Send(c)];
  }

  lemma OneRegistration(m: Id, id: Id, info: Info) returns (es: seq<Step>)
    requires info.masterId == m
    ensures Reaches(EMPTY, es, State(Registered(m, id, info), map[], map[id := m], {}, {}))
  {
    var e := StartRegister(0, m, id, info);
    var s1 := Next(EMPTY, e);
    ReachesOne(EMPTY, e);
    var s2 := Next(s1, Send(0));
    assert s2.kv == map[FollowerInfo(id) := Record(info)];
    assert s2.calls == map[0 := Registering(m, id, info, 1)];
    var s3 := Next(s2, Send(0));
    var none: set<string> := {};
    assert {id} + none == {id};
    assert s3.kv == map[FollowerInfo(id) := Record(info), FollowerSet(m) := Members({id})];
    assert s3.calls == map[0 := Registering(m, id, info, 2)];
    var s4 := Next(s3, Send(0));
    assert s4.kv == Registered(m, id, info) && s4.calls == map[];
    ThreeSends(s1, 0);
    ReachesAppend(EMPTY, [e], s1, [Send(0), Send(0), Send(0)], s4);
    es := [e] + [Send(0), Send(0), Send(0)];
  }

  lemma StartBoth(m: Id, id: Id, info: Info) returns (es: seq<Step>)
    ensures Reaches(State(Registered(m, id, info), map[], map[id := m], {}, {}), es,
              State(Registered(m, id, info), map[1 := Updating(id, info.(status := Active)), 2 := Unregistering(m, id, 0)], map[id := m], {}, {}))
  {
    var s := State(Registered(m, id, info), map[], map[id := m], {}, {});
    var upd, unreg := StartUpdate(1, id, Active), StartUnregister(2, id);
    ReachesOne(s, upd);
    ReachesNext(s, [upd], Next(s, upd), unreg);
    assert Next(Next(s, upd), unreg).calls == map[1 := Updating(id, info.(status := Active)), 2 := Unregistering(m, id, 0)];
    es := [upd] + [unreg];
  }

  lemma SendThree(m: Id, id: Id, info: Info, pending: Call)
    ensures Reaches(State(Registered(m, id, info), map[1 := pending, 2 := Unregistering(m, id, 0)], map[id := m], {}, {}),
              [Send(2), Send(2), Send(2)],
              State(map[], map[1 := pending], map[id := m], {}, {}))
  {
    var s2 := State(Registered(m, id, info), map[1 := pending, 2 := Unregistering(m, id, 0)], map[id := m], {}, {});
    var s3 := Next(s2, Send(2));
    assert {id} - {id} == {};
    assert s3.kv == map[FollowerInfo(id) := Record(info), FollowerMaster(id) := Text(m)];
    assert s3.calls == map[1 := pending, 2 := Unregistering(m, id, 1)];
    var s4 := Next(s3, Send(2));
    assert s4.kv == map[FollowerInfo(id) := Record(info)];
    assert s4.calls == map[1 := pending, 2 := Unregistering(m, id, 2)];
    var s5 := Next(s4, Send(2));
    assert s5.kv == map[] && s5.calls == map[1 := pending];
    ThreeSends(s2, 2);
  }

  lemma LateUpdate(m: Id, id: Id, info: Info) returns (t: State)
    ensures Reaches(State(map[], map[1 := Updating(id, info)], map[id := m], {}, {}), [Send(1)], t)
    ensures t.calls == map[] && t.stopped == {}
    ensures FollowerInfo(id) in t.kv && FollowerMaster(id) !in t.kv && id !in MembersOf(t.kv, m)
  {
    var s := State(map[], map[1 := Updating(id, info)], map[id := m], {}, {});
    t := Next(s, Send(1));
    ReachesOne(s, Send(1));
    assert t.kv == map[FollowerInfo(id) := Record(info)];
  }

  lemma UnregisterUnderUpdate(m: Id, id: Id, info: Info) returns (es: seq<Step>, t: State)
    ensures Reaches(State(Registered(m, id, info), map[], map[id := m], {}, {}), es, t)
    ensures t.calls == map[] && t.stopped == {}
    ensures FollowerInfo(id) in t.kv && FollowerMaster(id) !in t.kv && id !in MembersOf(t.kv, m)
  {
    var s := State(Registered(m, id, info), map[], map[id := m], {}, {});
    var late := info.(status := Active);
    var before := StartBoth(m, id, info);
    var s2 := State(Registered(m, id, info), map[1 := Updating(id, late), 2 := Unregistering(m, id, 0)], map[id := m], {}, {});
    var s5 := State(map[], map[1 := Updating(id, late)], map[id := m], {}, {});
    SendThree(m, id, info, Updating(id, late));
    ReachesAppend(s, before, s2, [Send(2), Send(2), Send(2)], s5);
    t := LateUpdate(m, id, late);
    es := before + [Send(2), Send(2), Send(2)] + [Send(1)];
    ReachesAppend(s, before + [Send(2), Send(2), Send(2)], s5, [Send(1)], t);
  }

  /** A record alone proves nothing: an update that read it before the follower was unregistered writes
      it back afterwards, although every call completes. */
  lemma RecordCanOutliveUnregistration(m: Id, id: Id, info: Info)
    requires info.masterId == m
    ensures exists es, t :: Reaches(EMPTY, es, t)
              && t.calls == map[] && t.stopped == {}
              && FollowerInfo(id) in t.kv && FollowerMaster(id) !in t.kv && id !in MembersOf(t.kv, m)
  {
    var es1 := OneRegistration(m, id, info);
    var es2, t := UnregisterUnderUpdate(m, id, info);
    ReachesAppend(EMPTY, es1, State(Registered(m, id, info), map[], map[id := m], {}, {}), es2, t);
  }
}
