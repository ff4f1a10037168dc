/** FastLookupStore, sending the command sequences of `Commands` one at a time on flat keys. */
module FastLookup {
  import opened Wrappers
  import opened Schema
  import opened Keyspace
  import opened Commands
  import opened Stores

  /** UnregisterFollower on the flat map. */
  function UnregisterFlat(data: map<string, Value>, id: Id, answered: nat): Reply<string> {
    var k := Encode(FollowerMaster(id));
    if answered == 0 || k !in data || !data[k].Text? then Reply(data, false)
    else Run(data, EncodeAll(UnregisterCmds(data[k].text, id)), answered - 1)
  }

  /** UpdateFollowerStatus on the flat map. */
  function RestatusFlat(data: map<string, Value>, id: Id, status: Status, answered: nat): Reply<string> {
    var k := Encode(FollowerInfo(id));
    if answered == 0 || k !in data || !data[k].Record? then Reply(data, false)
    else Run(data, EncodeAll([Put(FollowerInfo(id), Record(data[k].info.(status := status)))]), answered - 1)
  }

  /** Sending a sequence one by one, giving up at the first error. */
  method SendAll(client: RedisServer, cs: seq<Cmd<string>>, answered: nat) returns (ok: bool)
    modifies client
    ensures var r := Run(old(client.data), cs, answered); client.data == r.data && ok == r.ok
  {
    var i := 0;
    while i < |cs|
      invariant 0 <= i <= |cs| && i <= answered
      invariant Run(client.data, cs[i..], answered - i) == Run(old(client.data), cs, answered)
    {
      ok := client.Do(cs[i], i < answered);
      if !ok {
        return;
      }
      i := i + 1;
    }
    ok := true;
  }

  class FastLookupStore {
    const client: RedisServer

    constructor (client: RedisServer)
      ensures this.client == client
    {
      this.client := client;
    }

    method RegisterMaster(m: Master, answered: nat) returns (ok: bool)
      modifies client
      ensures var r := Run(old(client.data), EncodeAll(RegisterMasterCmds(m)), answered);
              client.data == r.data && ok == r.ok
    {
      ok := SendAll(client, [Put("master" + ":" + m.id, Record(MasterRecord(m))), SAdd("masters" + ":" + "active", {m.id})], answered);
      EncodedPair(RegisterMasterCmds(m));
    }

    method RegisterFollower(masterId: Id, f: Follower, answered: nat) returns (ok: bool)
      modifies client
      ensures var r := Run(old(client.data), EncodeAll(RegisterCmds(masterId, f.id, FollowerRecord(masterId, f))), answered);
              client.data == r.data && ok == r.ok
    {
      var cs := [Put("follower" + ":" + f.id, Record(FollowerRecord(masterId, f))),
                 SAdd("master" + ":" + masterId + ":" + "followers", {f.id}),
                 Put("follower" + ":" + f.id + ":" + "master", Text(masterId))];
      EncodedTriple(RegisterCmds(masterId, f.id, FollowerRecord(masterId, f)));
      ok := SendAll(client, cs, answered);
    }

    method GetMasterForFollower(id: Id, answered: bool) returns (r: Option<Id>)
      ensures var k := Encode(FollowerMaster(id));
              r == if answered && k in client.data && client.data[k].Text? then Some(client.data[k].text) else None
    {
      var k := "follower" + ":" + id + ":" + "master";
      if !answered || k !in client.data || !client.data[k].Text? {
        return None;
      }
      r := Some(client.data[k].text);
    }

    method GetFollowerInfo(id: Id, answered: bool) returns (r: Option<Info>)
      ensures var k := Encode(FollowerInfo(id));
              r == if answered && k in client.data && client.data[k].Record? then Some(client.data[k].info) else None
    {
      var k := "follower" + ":" + id;
      if !answered || k !in client.data || !client.data[k].Record? {
        return None;
      }
      r := Some(client.data[k].info);
    }

    method UnregisterFollower(id: Id, answered: nat) returns (ok: bool)
      modifies client
      ensures var r := UnregisterFlat(old(client.data), id, answered); client.data == r.data && ok == r.ok
    {
      var m := GetMasterForFollower(id, answered > 0);
      if m.None? {
        return false;
      }
      var cs := [SRem("master" + ":" + m.value + ":" + "followers", id),
                 Del("follower" + ":" + id + ":" + "master"),
                 Del("follower" + ":" + id)];
      EncodedTriple(UnregisterCmds(m.value, id));
      ok := SendAll(client, cs, answered - 1);
    }

    method UpdateFollowerStatus(id: Id, status: Status, answered: nat) returns (ok: bool)
      modifies client
      ensures var r := RestatusFlat(old(client.data), id, status, answered); client.data == r.data && ok == r.ok
    {
      var info := GetFollowerInfo(id, answered > 0);
      if info.None? {
        return false;
      }
      var c := Put(FollowerInfo(id), Record(info.value.(status := status)));
      RunSingle(client.data, c, answered - 1);
      ok := client.Do(Put("follower" + ":" + id, Record(info.value.(status := status))), answered > 1);
    }

    /** One pipeline for everything. */
    method SyncFromDatabase(masters: seq<Master>, followers: seq<Follower>, answered: nat) returns (ok: bool)
      modifies client
      ensures client.data == Pipe(old(client.data), EncodeAll(WarmUpCmds(masters, followers)), answered)
      ensures ok == PipeOk(old(client.data), EncodeAll(WarmUpCmds(masters, followers)), answered)
    {
      var pipe: seq<Cmd<string>> := [Del("masters" + ":" + "active")];
      ghost var clear: seq<Cmd<Key>> := [Del(ActiveMasters)];
      for i := 0 to |masters|
        invariant pipe == EncodeAll(clear + MasterWarmUp(masters[..i])) && client.data == old(client.data)
      {
        var m := masters[i];
        MasterNext(clear, masters, i);
        if m.deleted {
          continue;
        }
        pipe := pipe + [Put("master" + ":" + m.id, Record(MasterRecord(m))), SAdd("masters" + ":" + "active", {m.id})];
      }
      assert masters[..|masters|] == masters;
      ghost var before := clear + MasterWarmUp(masters);
      assert before + [] == before;
      for i := 0 to |followers|
        invariant pipe == EncodeAll(before + FollowerWarmUp(followers[..i])) && client.data == old(client.data)
      {
        var f := followers[i];
        FollowerNext(before, followers, i);
        if f.deleted {
          continue;
        }
        pipe := pipe + [Put("follower" + ":" + f.id, Record(FollowerRecord(f.masterId, f))),
                        SAdd("master" + ":" + f.masterId + ":" + "followers", {f.id}),
                        Put("follower" + ":" + f.id + ":" + "master", Text(f.masterId))];
      }
      assert followers[..|followers|] == followers;
      assert before + FollowerWarmUp(followers) == WarmUpCmds(masters, followers);
      ok := client.Exec(pipe, answered);
    }
  }

  lemma EncodeAppend(a: seq<Cmd<Key>>, b: seq<Cmd<Key>>)
    ensures EncodeAll(a + b) == EncodeAll(a) + EncodeAll(b)
  {
  }

  lemma MasterNext(before: seq<Cmd<Key>>, ms: seq<Master>, i: nat)
    requires i < |ms|
    ensures EncodeAll(before + MasterWarmUp(ms[..i + 1])) == EncodeAll(before + MasterWarmUp(ms[..i]))
              + if ms[i].deleted then []
                else [Put("master" + ":" + ms[i].id, Record(MasterRecord(ms[i]))), SAdd("masters" + ":" + "active", {ms[i].id})]
  {
    var more := if ms[i].deleted then [] else RegisterMasterCmds(ms[i]);
    assert ms[..i + 1][..i] == ms[..i];
    assert before + MasterWarmUp(ms[..i + 1]) == (before + MasterWarmUp(ms[..i])) + more;
    EncodeAppend(before + MasterWarmUp(ms[..i]), more);
    if !ms[i].deleted { EncodedPair(more); }
  }

  lemma FollowerNext(before: seq<Cmd<Key>>, fs: seq<Follower>, i: nat)
    requires i < |fs|
    ensures var f := fs[i];
            EncodeAll(before + FollowerWarmUp(fs[..i + 1])) == EncodeAll(before + FollowerWarmUp(fs[..i]))
              + if f.deleted then []
                else [Put("follower" + ":" + f.id, Record(FollowerRecord(f.masterId, f))),
                      SAdd("master" + ":" + f.masterId + ":" + "followers", {f.id}),
                      Put("follower" + ":" + f.id + ":" + "master", Text(f.masterId))]
  {
    var f := fs[i];
    var more := if f.deleted then [] else RegisterCmds(f.masterId, f.id, FollowerRecord(f.masterId, f));
    assert fs[..i + 1][..i] == fs[..i];
    assert before + FollowerWarmUp(fs[..i + 1]) == (before + FollowerWarmUp(fs[..i])) + more;
    EncodeAppend(before + FollowerWarmUp(fs[..i]), more);
    if !f.deleted { EncodedTriple(more); }
  }

  lemma EncodedPair(cs: seq<Cmd<Key>>)
    requires |cs| == 2
    ensures EncodeAll(cs) == [EncodeCmd(cs[0]), EncodeCmd(cs[1])]
  {
  }

  lemma EncodedTriple(cs: seq<Cmd<Key>>)
    requires |cs| == 3
    ensures EncodeAll(cs) == [EncodeCmd(cs[0]), EncodeCmd(cs[1]), EncodeCmd(cs[2])]
  {
  }

  lemma UnregisterRefines(flat: map<string, Value>, kv: map<Key, Value>, id: Id, answered: nat)
    requires Refines(flat, kv) && ColonFree(id)
    requires FollowerMaster(id) in kv && kv[FollowerMaster(id)].Text? ==> Sound(FollowerSet(kv[FollowerMaster(id)].text))
    ensures Refines(UnregisterFlat(flat, id, answered).data, Unregister(kv, id, answered).data)
  {
    var k := FollowerMaster(id);
    ReadRefines(flat, kv, k);
    if answered > 0 && k in kv && kv[k].Text? {
      RunRefines(flat, kv, UnregisterCmds(kv[k].text, id), answered - 1);
    }
  }

  lemma RestatusRefines(flat: map<string, Value>, kv: map<Key, Value>, id: Id, status: Status, answered: nat)
    requires Refines(flat, kv) && ColonFree(id)
    ensures Refines(RestatusFlat(flat, id, status, answered).data, Restatus(kv, id, status, answered).data)
  {
    var k := FollowerInfo(id);
    ReadRefines(flat, kv, k);
    if answered > 0 && k in kv && kv[k].Record? {
      RunRefines(flat, kv, [Put(k, Record(kv[k].info.(status := status)))], answered - 1);
    }
  }
}
