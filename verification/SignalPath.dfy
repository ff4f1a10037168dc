/** From a master's signal to the orders in the channel: the mirrors and the fan-out together. */
module SignalPath {
  import opened Schema
  import opened Repository
  import opened Registry
  import RegistryRuns
  import opened Distribute
  import opened Lots

  /** Some order sent by call `c` is the right one for follower `f`, field by field. */
  ghost predicate OrderSent(s: State, c: nat, f: Follower, sig: Signal) {
    exists x <- Sends(s) :: x.call == c && OrderFits(x.order, f, sig)
  }

  /** A returned call none of whose sends timed out has sent one order for each of its followers and no other. */
  lemma OneOrderEach(es: seq<Step>, c: nat)
    requires Schedule(EMPTY, es) && forall e <- es :: e.Timeout? ==> e.call != c
    requires c in After(EMPTY, es).calls && After(EMPTY, es).calls[c].caller.Returned?
    ensures var s := After(EMPTY, es);
            var call := s.calls[c];
            && ItemCount(Sends(s), c) == |call.followers|
            && (forall f <- call.followers :: OrderSent(s, c, f, call.signal))
            && (forall x <- Sends(s) :: x.call == c ==> exists f <- call.followers :: OrderFits(x.order, f, call.signal))
  {
    NoTimeoutNoError(es, c);
    ReturnedCallsAreExact(es, c);
    OrdersAreRight(es);
    NoTimeoutNoFailure(EMPTY, es, c);
    var s := After(EMPTY, es);
    var call := s.calls[c];
    forall f | f in call.followers
      ensures OrderSent(s, c, f, call.signal)
    {
      var i :| 0 <= i < |call.followers| && call.followers[i] == f;
      assert call.workers[i] in call.workers && Succeeded(call.workers[i]);
      assert HasItem(s, c, i);
      var x :| x in Sends(s) && x.call == c && x.index == i;
      assert ItemOk(s, x);
    }
    forall x | x in Sends(s) && x.call == c
      ensures exists f <- call.followers :: OrderFits(x.order, f, call.signal)
    {
      assert ItemOk(s, x);
      assert call.followers[x.index] in call.followers;
    }
  }

  /** After any run of the API in which no addition for master `m` was lost, distributing a signal of `m` to
      the rows of the fast path, with any other calls beside it and no timeout of its own, sends every
      active follower of `m` its order; it sends nobody else one if and only if no listed account is active
      under another master. */
  lemma SignalReachesActiveFollowers(events: seq<Event>, m: Id, rows: seq<Follower>, es: seq<Step>, c: nat)
    requires m !in AuditEvents(RegistryRuns.EMPTY, events, CLEAN).lossy
    requires Enumerates(rows, RegistryRuns.FastPath(RunEvents(RegistryRuns.EMPTY, events), m))
    requires Schedule(EMPTY, es) && forall e <- es :: e.Timeout? ==> e.call != c
    requires var t := After(EMPTY, es); c in t.calls && t.calls[c].followers == rows && t.calls[c].caller.Returned?
    ensures var s, t := RunEvents(RegistryRuns.EMPTY, events), After(EMPTY, es);
            var sig := t.calls[c].signal;
            && ItemCount(Sends(t), c) == |rows|
            && (forall f <- ActiveByMaster(s.db, m) :: OrderSent(t, c, f, sig))
            && (forall x <- Sends(t) :: x.call == c ==> exists f <- rows :: OrderFits(x.order, f, sig))
            && ((forall f <- rows :: f in ActiveByMaster(s.db, m)) <==> RegistryRuns.ListedOnlyHere(s.db, Subs(s.kv, m), m))
  {
    OneOrderEach(es, c);
    RegistryRuns.RoutingOverRuns(events, m);
  }
}
