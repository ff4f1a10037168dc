/** The Redis keyspace: the flat strings that the stores build, the six key families they mean,
    and the commands, which are the same on either kind of key. */
module Keyspace {
  import opened Wrappers
  import opened Schema

  datatype Key =
    | MasterInfo(id: Id)       // master:{id}
    | ActiveMasters            // masters:active
    | FollowerSet(id: Id)      // master:{id}:followers
    | FollowerInfo(id: Id)     // follower:{id}
    | FollowerMaster(id: Id)   // follower:{id}:master
    | Subscribers(id: Id)      // master:followers:{id}

  const SUBSCRIBE_KEY_PREFIX := "master" + ":" + "followers" + ":"

  function Encode(k: Key): string {
    match k
    case MasterInfo(id) => "master" + ":" + id
    case ActiveMasters => "masters" + ":" + "active"
    case FollowerSet(id) => "master" + ":" + id + ":" + "followers"
    case FollowerInfo(id) => "follower" + ":" + id
    case FollowerMaster(id) => "follower" + ":" + id + ":" + "master"
    case Subscribers(id) => SUBSCRIBE_KEY_PREFIX + id
  }

  /** The strings, as other programs that share the server must write them. */
  lemma KeyStrings(id: Id)
    ensures Encode(MasterInfo(id)) == "master:" + id
    ensures Encode(ActiveMasters) == "masters:active"
    ensures Encode(FollowerSet(id)) == "master:" + id + ":followers"
    ensures Encode(FollowerInfo(id)) == "follower:" + id
    ensures Encode(FollowerMaster(id)) == "follower:" + id + ":master"
    ensures Encode(Subscribers(id)) == "master:followers:" + id
  {
    assert "master" + ":" == "master:" && "follower" + ":" == "follower:" && "masters" + ":" + "active" == "masters:active";
    AppendWord("master:" + id, ":", "followers");
    AppendWord("follower:" + id, ":", "master");
    assert SUBSCRIBE_KEY_PREFIX == "master:followers:";
  }

  lemma AppendWord(s: string, sep: string, word: string)
    ensures s + sep + word == s + (sep + word)
  {
  }

  // ---- reading a flat key back ----

  predicate ColonFree(s: string) {
    ':' !in s
  }

  function Split(s: string): (parts: seq<string>)
    ensures |parts| > 0
  {
    if s == "" then [""]
    else
      var rest := Split(s[1..]);
      if s[0] == ':' then [""] + rest else [[s[0]] + rest[0]] + rest[1..]
  }

  /** The family and ID that a flat key stands for; `master:followers:followers` reads as a subscription key. */
  function Decode(s: string): Option<Key> {
    var parts := Split(s);
    if parts == ["masters", "active"] then Some(ActiveMasters)
    else if |parts| == 2 && parts[0] == "master" then Some(MasterInfo(parts[1]))
    else if |parts| == 2 && parts[0] == "follower" then Some(FollowerInfo(parts[1]))
    else if |parts| == 3 && parts[0] == "master" && parts[1] == "followers" then Some(Subscribers(parts[2]))
    else if |parts| == 3 && parts[0] == "master" && parts[2] == "followers" then Some(FollowerSet(parts[1]))
    else if |parts| == 3 && parts[0] == "follower" && parts[2] == "master" then Some(FollowerMaster(parts[1]))
    else None
  }

  function Join(parts: seq<string>): string
    requires |parts| > 0
  {
    if |parts| == 1 then parts[0] else parts[0] + ":" + Join(parts[1..])
  }

  lemma {:induction false} SplitWord(a: string)
    requires ColonFree(a)
    ensures Split(a) == [a]
  {
    if a != "" {
      SplitWord(a[1..]);
      assert [a[0]] + a[1..] == a;
    }
  }

  lemma {:induction false} SplitFirst(a: string, b: string)
    requires ColonFree(a)
    ensures Split(a + ":" + b) == [a] + Split(b)
  {
    var s := a + ":" + b;
    if a == "" {
      assert s[1..] == b;
    } else {
      assert s[1..] == a[1..] + ":" + b;
      SplitFirst(a[1..], b);
      assert [a[0]] + a[1..] == a;
    }
  }

  /** Splitting undoes joining. */
  lemma {:induction false} SplitJoin(parts: seq<string>)
    requires |parts| > 0 && forall p <- parts :: ColonFree(p)
    ensures Split(Join(parts)) == parts
  {
    if |parts| == 1 {
      SplitWord(parts[0]);
    } else {
      SplitFirst(parts[0], Join(parts[1..]));
      SplitJoin(parts[1..]);
    }
  }

  predicate Sound(k: Key) {
    (!k.ActiveMasters? ==> ColonFree(k.id)) && k != FollowerSet("followers")
  }

  function Parts(k: Key): (parts: seq<string>)
    ensures |parts| > 0
  {
    match k
    case MasterInfo(id) => ["master", id]
    case ActiveMasters => ["masters", "active"]
    case FollowerSet(id) => ["master", id, "followers"]
    case FollowerInfo(id) => ["follower", id]
    case FollowerMaster(id) => ["follower", id, "master"]
    case Subscribers(id) => ["master", "followers", id]
  }

  lemma Join2(a: string, b: string)
    ensures Join([a, b]) == a + ":" + b
  {
    assert [a, b][1..] == [b];
  }

  lemma Join3(a: string, b: string, c: string)
    ensures Join([a, b, c]) == a + ":" + b + ":" + c
  {
    assert [a, b, c][1..] == [b, c];
    Join2(b, c);
  }

  lemma EncodeIsJoin(k: Key)
    ensures Encode(k) == Join(Parts(k))
  {
    match k
    case MasterInfo(id) => Join2("master", id);
    case ActiveMasters => Join2("masters", "active");
    case FollowerSet(id) => Join3("master", id, "followers");
    case FollowerInfo(id) => Join2("follower", id);
    case FollowerMaster(id) => Join3("follower", id, "master");
    case Subscribers(id) => Join3("master", "followers", id);
  }

  lemma SplitEncoded(k: Key)
    requires !k.ActiveMasters? ==> ColonFree(k.id)
    ensures Split(Encode(k)) == Parts(k)
  {
    EncodeIsJoin(k);
    assert ColonFree("master") && ColonFree("masters") && ColonFree("active");
    assert ColonFree("follower") && ColonFree("followers");
    SplitJoin(Parts(k));
  }

  /** Round trip: the flat key determines the family and the ID. */
  lemma DecodeEncode(k: Key)
    requires Sound(k)
    ensures Decode(Encode(k)) == Some(k)
  {
    SplitEncoded(k);
  }

  lemma PartsDetermineKey(j: Key, k: Key)
    requires Parts(j) == Parts(k) && j != k
    ensures (j == FollowerSet("followers") && k == Subscribers("followers"))
            || (j == Subscribers("followers") && k == FollowerSet("followers"))
  {
    var p := Parts(j);
    assert p[0] == Parts(k)[0] && |p| == |Parts(k)|;
    assert |p| == 3 ==> p[1] == Parts(k)[1] && p[2] == Parts(k)[2];
  }

  /** With colon-free IDs, the only two distinct keys that collide are the two set keys of a master
      called "followers". */
  lemma CollisionsExactly(j: Key, k: Key)
    requires (!j.ActiveMasters? ==> ColonFree(j.id)) && (!k.ActiveMasters? ==> ColonFree(k.id))
    ensures Encode(j) == Encode(k) <==>
            || j == k
            || (j == FollowerSet("followers") && k == Subscribers("followers"))
            || (j == Subscribers("followers") && k == FollowerSet("followers"))
  {
    SplitEncoded(j);
    SplitEncoded(k);
    if Encode(j) == Encode(k) && j != k {
      PartsDetermineKey(j, k);
    }
  }

  /** A colon in an ID is enough for a collision between families. */
  lemma ColonsCollide(f: Id)
    ensures Encode(FollowerInfo(f + ":master")) == Encode(FollowerMaster(f))
    ensures Encode(MasterInfo(f + ":followers")) == Encode(FollowerSet(f))
  {
    assert "follower:" + (f + ":master") == "follower:" + f + ":master";
    assert "master:" + (f + ":followers") == "master:" + f + ":followers";
  }

  predicate HexDigit(c: char) {
    '0' <= c <= '9' || 'a' <= c <= 'f'
  }

  /** What `generateID(prefix)` can return: the prefix, an underscore and sixteen hex digits. */
  predicate Generated(prefix: string, id: Id) {
    && |id| == |prefix| + 17
    && id[..|prefix|] == prefix && id[|prefix|] == '_'
    && forall i :: |prefix| < i < |id| ==> HexDigit(id[i])
  }

  lemma GeneratedKeysAreSound(id: Id)
    requires Generated("m", id) || Generated("f", id)
    ensures ColonFree(id) && forall k: Key {:trigger Sound(k)} :: (!k.ActiveMasters? ==> k.id == id) ==> Sound(k)
  {
    assert id[0] == id[..1][0];
    assert |id| == 18;
    assert |"followers"| == 9;
  }

  // ---- values and commands ----

  /** The record stored as JSON under an info key. */
  datatype Info = Info(masterId: Id, account: string, server: string, multiplier: real, status: Status)

  datatype Value = Record(info: Info) | Text(text: string) | Members(elems: set<string>)

  datatype Cmd<K> =
    | Put(key: K, value: Value)
    | Del(key: K)
    | SAdd(key: K, members: set<string>)
    | SRem(key: K, member: string)

  datatype Reply<K> = Reply(data: map<K, Value>, ok: bool)

  /** One command at the server.  Set commands fail on a key of another type; a set that becomes
      empty disappears. */
  function Apply<K>(data: map<K, Value>, c: Cmd<K>): Reply<K> {
    match c
    case Put(k, v) => Reply(data[k := v], true)
    case Del(k) => Reply(data - {k}, true)
    case SAdd(k, xs) =>
      if xs == {} || (k in data && !data[k].Members?) then Reply(data, false)
      else Reply(data[k := Members(xs + if k in data then data[k].elems else {})], true)
    case SRem(k, x) =>
      if k !in data then Reply(data, true)
      else if !data[k].Members? then Reply(data, false)
      else if data[k].elems - {x} == {} then Reply(data - {k}, true)
      else Reply(data[k := Members(data[k].elems - {x})], true)
  }

  /** A call that sends its commands one at a time and gives up at the first error; the server
      answers only the first `answered` of them. */
  function Run<K>(data: map<K, Value>, cs: seq<Cmd<K>>, answered: nat): Reply<K>
    decreases |cs|
  {
    if cs == [] then Reply(data, true)
    else if answered == 0 then Reply(data, false)
    else
      var r := Apply(data, cs[0]);
      if r.ok then Run(r.data, cs[1..], answered - 1) else r
  }

  /** A pipeline: the server works through it whatever the single replies are, as far as it gets. */
  function Pipe<K>(data: map<K, Value>, cs: seq<Cmd<K>>, answered: nat): map<K, Value>
    decreases |cs|
  {
    if cs == [] || answered == 0 then data else Pipe(Apply(data, cs[0]).data, cs[1..], answered - 1)
  }

  /** Every command of the pipeline was answered, and none with an error. */
  predicate PipeOk<K>(data: map<K, Value>, cs: seq<Cmd<K>>, answered: nat)
    decreases |cs|
  {
    cs == [] || (answered != 0 && Apply(data, cs[0]).ok && PipeOk(Apply(data, cs[0]).data, cs[1..], answered - 1))
  }

  function EncodeCmd(c: Cmd<Key>): Cmd<string> {
    match c
    case Put(k, v) => Put(Encode(k), v)
    case Del(k) => Del(Encode(k))
    case SAdd(k, xs) => SAdd(Encode(k), xs)
    case SRem(k, x) => SRem(Encode(k), x)
  }

  function EncodeAll(cs: seq<Cmd<Key>>): (es: seq<Cmd<string>>)
    ensures |es| == |cs| && forall i :: 0 <= i < |cs| ==> es[i] == EncodeCmd(cs[i])
  {
    seq(|cs|, i requires 0 <= i < |cs| => EncodeCmd(cs[i]))
  }

  // ---- the flat store refines the families ----

  /** `flat` is `kv` with every key replaced by its encoding. */
  ghost predicate Renames<K(!new), L>(enc: K -> L, flat: map<L, Value>, kv: map<K, Value>) {
    && (forall k <- kv :: enc(k) in flat && flat[enc(k)] == kv[k])
    && (forall s <- flat :: exists k <- kv :: enc(k) == s)
  }

  ghost predicate Refines(flat: map<string, Value>, kv: map<Key, Value>) {
    (forall k <- kv :: Sound(k)) && Renames(Encode, flat, kv)
  }

  lemma ReadRenames<K(!new), L>(enc: K -> L, flat: map<L, Value>, kv: map<K, Value>, k: K)
    requires Renames(enc, flat, kv) && forall j <- kv :: enc(j) == enc(k) ==> j == k
    ensures enc(k) in flat <==> k in kv
    ensures k in kv ==> flat[enc(k)] == kv[k]
  {
  }

  lemma WriteRenames<K(!new), L>(enc: K -> L, flat: map<L, Value>, kv: map<K, Value>, k: K, v: Value)
    requires Renames(enc, flat, kv) && forall j <- kv :: enc(j) == enc(k) ==> j == k
    ensures Renames(enc, flat[enc(k) := v], kv[k := v])
    ensures Renames(enc, flat - {enc(k)}, kv - {k})
  {
    var flat', kv' := flat[enc(k) := v], kv[k := v];
    forall s | s in flat'
      ensures exists j <- kv' :: enc(j) == s
    {
      if s == enc(k) {
        assert k in kv';
      } else {
        var j :| j in kv && enc(j) == s;
        assert j in kv';
      }
    }
    forall s | s in flat - {enc(k)}
      ensures exists j <- kv - {k} :: enc(j) == s
    {
      var j :| j in kv && enc(j) == s;
      assert j in kv - {k};
    }
  }

  lemma SoundKeysDiffer(kv: map<Key, Value>, k: Key)
    requires Sound(k) && forall j <- kv :: Sound(j)
    ensures forall j <- kv :: Encode(j) == Encode(k) ==> j == k
  {
    forall j | j in kv
      ensures Encode(j) == Encode(k) ==> j == k
    {
      CollisionsExactly(j, k);
    }
  }

  lemma ReadRefines(flat: map<string, Value>, kv: map<Key, Value>, k: Key)
    requires Refines(flat, kv) && Sound(k)
    ensures Encode(k) in flat <==> k in kv
    ensures k in kv ==> flat[Encode(k)] == kv[k]
  {
    SoundKeysDiffer(kv, k);
    ReadRenames(Encode, flat, kv, k);
  }

  lemma WriteRefines(flat: map<string, Value>, kv: map<Key, Value>, k: Key, v: Value)
    requires Refines(flat, kv) && Sound(k)
    ensures Refines(flat[Encode(k) := v], kv[k := v])
    ensures Refines(flat - {Encode(k)}, kv - {k})
  {
    SoundKeysDiffer(kv, k);
    WriteRenames(Encode, flat, kv, k, v);
  }

  /** Every command on a flat key does to the flat map what it does to the families. */
  lemma ApplyRefines(flat: map<string, Value>, kv: map<Key, Value>, c: Cmd<Key>)
    requires Refines(flat, kv) && Sound(c.key)
    ensures Refines(Apply(flat, EncodeCmd(c)).data, Apply(kv, c).data)
    ensures Apply(flat, EncodeCmd(c)).ok == Apply(kv, c).ok
  {
    ReadRefines(flat, kv, c.key);
    var k := c.key;
    match c
    case Put(_, v) => WriteRefines(flat, kv, k, v);
    case Del(_) => WriteRefines(flat, kv, k, Text(""));
    case SAdd(_, xs) => WriteRefines(flat, kv, k, Members(xs + if k in kv && kv[k].Members? then kv[k].elems else {}));
    case SRem(_, x) => WriteRefines(flat, kv, k, Members(if k in kv && kv[k].Members? then kv[k].elems - {x} else {}));
  }

  lemma {:induction false} RunRefines(flat: map<string, Value>, kv: map<Key, Value>, cs: seq<Cmd<Key>>, answered: nat)
    requires Refines(flat, kv) && forall c <- cs :: Sound(c.key)
    ensures Refines(Run(flat, EncodeAll(cs), answered).data, Run(kv, cs, answered).data)
    ensures Run(flat, EncodeAll(cs), answered).ok == Run(kv, cs, answered).ok
    decreases |cs|
  {
    if cs != [] && answered != 0 {
      ApplyRefines(flat, kv, cs[0]);
      assert EncodeAll(cs)[1..] == EncodeAll(cs[1..]);
      if Apply(kv, cs[0]).ok {
        RunRefines(Apply(flat, EncodeCmd(cs[0])).data, Apply(kv, cs[0]).data, cs[1..], answered - 1);
      }
    }
  }

  lemma {:induction false} PipeRefines(flat: map<string, Value>, kv: map<Key, Value>, cs: seq<Cmd<Key>>, answered: nat)
    requires Refines(flat, kv) && forall c <- cs :: Sound(c.key)
    ensures Refines(Pipe(flat, EncodeAll(cs), answered), Pipe(kv, cs, answered))
    ensures PipeOk(flat, EncodeAll(cs), answered) == PipeOk(kv, cs, answered)
    decreases |cs|
  {
    if cs != [] && answered != 0 {
      ApplyRefines(flat, kv, cs[0]);
      assert EncodeAll(cs)[1..] == EncodeAll(cs[1..]);
      PipeRefines(Apply(flat, EncodeCmd(cs[0])).data, Apply(kv, cs[0]).data, cs[1..], answered - 1);
    }
  }

  // ---- KEYS master:followers:* ----

  /** The master IDs that `GetAllMasterKeys` returns: matching keys with the prefix cut off. */
  function SubscribedMasters(flat: map<string, Value>): set<Id> {
    set s | s in flat && SUBSCRIBE_KEY_PREFIX <= s :: s[|SUBSCRIBE_KEY_PREFIX|..]
  }

  lemma PrefixMeansSubscribers(k: Key)
    requires Sound(k) && SUBSCRIBE_KEY_PREFIX <= Encode(k)
    ensures k.Subscribers?
  {
    var rest := Encode(k)[|SUBSCRIBE_KEY_PREFIX|..];
    assert Encode(k) == "master" + ":" + ("followers" + ":" + rest);
    SplitFirst("master", "followers" + ":" + rest);
    SplitFirst("followers", rest);
    SplitEncoded(k);
    assert Parts(k)[0] == "master" && Parts(k)[1] == "followers" && |Parts(k)| >= 3;
  }

  /** The pattern finds exactly the masters that have a subscription set. */
  lemma SubscribedMastersExactly(flat: map<string, Value>, kv: map<Key, Value>, m: Id)
    requires Refines(flat, kv)
    ensures m in SubscribedMasters(flat) <==> Subscribers(m) in kv
  {
    if m in SubscribedMasters(flat) {
      var s :| s in flat && SUBSCRIBE_KEY_PREFIX <= s && s[|SUBSCRIBE_KEY_PREFIX|..] == m;
      var k :| k in kv && Encode(k) == s;
      PrefixMeansSubscribers(k);
    }
    if Subscribers(m) in kv {
      var s := Encode(Subscribers(m));
      assert s in flat && SUBSCRIBE_KEY_PREFIX <= s && s[|SUBSCRIBE_KEY_PREFIX|..] == m;
    }
  }
}
