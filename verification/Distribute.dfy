/** SignalDistributor.Distribute under every schedule: any number of concurrent calls, one goroutine per
    follower, one bounded channel and a consumer.

    A step is one action of one goroutine.  The five-second timer of a send may fire at any moment. */
module Distribute {
  import opened Schema
  import opened Lots

  const CAPACITY := 1000

  /** A worker goroutine: before its select, after it, after its counter is bumped, after `wg.Done`. */
  datatype Worker = Ready | Sent | TimedOut | Counted(ok: bool) | Exited(ok: bool)

  /** The calling goroutine: about to `wg.Add`, about to start the goroutine it added, waiting, returned. */
  datatype Caller = AtAdd | AtGo | Waiting | Returned(total: nat, successes: nat, errors: nat)

  datatype Call = Call(
    followers: seq<Follower>, signal: Signal, caller: Caller, workers: seq<Worker>,
    wg: int, successes: nat, errors: nat)

  /** An order in the channel, tagged with the goroutine that sent it. */
  datatype Item = Item(call: nat, index: nat, order: Order)

  datatype State = State(calls: map<nat, Call>, buffer: seq<Item>, consumed: seq<Item>)

  datatype Step =
    | Begin(call: nat, followers: seq<Follower>, signal: Signal)
    | Add(call: nat)
    | Go(call: nat)
    | Send(call: nat, index: nat)
    | Timeout(call: nat, index: nat)
    | Count(call: nat, index: nat)
    | WgDone(call: nat, index: nat)
    | Return(call: nat)
    | Consume

  predicate HasWorker(s: State, c: nat, i: nat) {
    c in s.calls && i < |s.calls[c].workers| && i < |s.calls[c].followers|
  }

  predicate Enabled(s: State, e: Step) {
    match e
    case Begin(c, _, _) => c !in s.calls
    case Add(c) => c in s.calls && s.calls[c].caller == AtAdd
    case Go(c) => c in s.calls && s.calls[c].caller == AtGo
    case Send(c, i) => HasWorker(s, c, i) && s.calls[c].workers[i] == Ready && |s.buffer| < CAPACITY
    case Timeout(c, i) => HasWorker(s, c, i) && s.calls[c].workers[i] == Ready
    case Count(c, i) => HasWorker(s, c, i) && (s.calls[c].workers[i] == Sent || s.calls[c].workers[i] == TimedOut)
    case WgDone(c, i) => HasWorker(s, c, i) && s.calls[c].workers[i].Counted?
    case Return(c) => c in s.calls && s.calls[c].caller == Waiting && s.calls[c].wg == 0
    case Consume => s.buffer != []
  }

  /** After the last goroutine is started the caller waits; with no followers it returns at once. */
  function Started(fs: seq<Follower>, workers: nat): Caller {
    if workers < |fs| then AtAdd else Waiting
  }

  function SetWorker(s: State, c: nat, i: nat, w: Worker): State
    requires HasWorker(s, c, i)
  {
    s.(calls := s.calls[c := s.calls[c].(workers := s.calls[c].workers[i := w])])
  }

  function Next(s: State, e: Step): State
    requires Enabled(s, e)
  {
    match e
    case Begin(c, fs, sig) =>
      s.(calls := s.calls[c := Call(fs, sig, if fs == [] then Returned(0, 0, 0) else AtAdd, [], 0, 0, 0)])
    case Add(c) => s.(calls := s.calls[c := s.calls[c].(wg := s.calls[c].wg + 1, caller := AtGo)])
    case Go(c) =>
      var call := s.calls[c];
      s.(calls := s.calls[c := call.(workers := call.workers + [Ready], caller := Started(call.followers, |call.workers| + 1))])
    case Send(c, i) =>
      var call := s.calls[c];
      SetWorker(s, c, i, Sent).(buffer := s.buffer + [Item(c, i, CreateFollowerOrder(call.followers[i], call.signal))])
    case Timeout(c, i) => SetWorker(s, c, i, TimedOut)
    case Count(c, i) =>
      var call := s.calls[c];
      var ok := call.workers[i] == Sent;
      s.(calls := s.calls[c := call.(
           workers := call.workers[i := Counted(ok)],
           successes := if ok then call.successes + 1 else call.successes,
           errors := if ok then call.errors else call.errors + 1)])
    case WgDone(c, i) =>
      var call := s.calls[c];
      s.(calls := s.calls[c := call.(workers := call.workers[i := Exited(call.workers[i].ok)], wg := call.wg - 1)])
    case Return(c) =>
      var call := s.calls[c];
      s.(calls := s.calls[c := call.(caller := Returned(|call.followers|, call.successes, call.errors))])
    case Consume => s.(buffer := s.buffer[1..], consumed := s.consumed + [s.buffer[0]])
  }

  /** A goroutine waits for room exactly while a thousand orders are in the channel. */
  lemma SendWaitsExactly(s: State, c: nat, i: nat)
    requires HasWorker(s, c, i) && s.calls[c].workers[i] == Ready
    ensures Enabled(s, Send(c, i)) <==> |s.buffer| < 1000
  {
  }

  // ---- invariant ----

  predicate Succeeded(w: Worker) {
    (w.Counted? || w.Exited?) && w.ok
  }

  predicate Failed(w: Worker) {
    (w.Counted? || w.Exited?) && !w.ok
  }

  /** The worker's order is in the channel or consumed. */
  predicate Delivered(w: Worker) {
    w == Sent || Succeeded(w)
  }

  predicate Running(w: Worker) {
    !w.Exited?
  }

  function CountOf(ws: seq<Worker>, p: Worker -> bool): nat {
    if ws == [] then 0 else (if p(ws[0]) then 1 else 0) + CountOf(ws[1..], p)
  }

  predicate CallInv(call: Call) {
    && |call.workers| <= |call.followers|
    && call.successes == CountOf(call.workers, Succeeded)
    && call.errors == CountOf(call.workers, Failed)
    && call.wg == CountOf(call.workers, Running) + (if call.caller == AtGo then 1 else 0)
    && match call.caller
       case AtAdd => |call.workers| < |call.followers|
       case AtGo => |call.workers| < |call.followers|
       case Waiting => |call.workers| == |call.followers|
       case Returned(n, ok, bad) =>
         && |call.workers| == |call.followers| == n
         && ok == call.successes && bad == call.errors && call.wg == 0
  }

  function Sends(s: State): seq<Item> {
    s.consumed + s.buffer
  }

  ghost predicate ItemOk(s: State, x: Item) {
    && HasWorker(s, x.call, x.index)
    && Delivered(s.calls[x.call].workers[x.index])
    && OrderFits(x.order, s.calls[x.call].followers[x.index], s.calls[x.call].signal)
  }

  /** Each delivered worker has one item among the sends, each item belongs to a delivered worker. */
  ghost predicate LogInv(s: State) {
    && |s.buffer| <= CAPACITY
    && (forall x <- Sends(s) :: ItemOk(s, x))
    && (forall i, j :: 0 <= i < j < |Sends(s)| ==> (Sends(s)[i].call, Sends(s)[i].index) != (Sends(s)[j].call, Sends(s)[j].index))
    && (forall c: nat, i: nat :: HasWorker(s, c, i) && Delivered(s.calls[c].workers[i]) ==> HasItem(s, c, i))
  }

  ghost predicate HasItem(s: State, c: nat, i: nat) {
    exists x <- Sends(s) :: x.call == c && x.index == i
  }

  /** Items of one call. */
  function ItemCount(xs: seq<Item>, c: nat): nat {
    if xs == [] then 0 else (if xs[0].call == c then 1 else 0) + ItemCount(xs[1..], c)
  }

  function DeliveredCount(s: State, d: nat): nat {
    if d in s.calls then CountOf(s.calls[d].workers, Delivered) else 0
  }

  ghost predicate Inv(s: State) {
    && (forall c <- s.calls :: CallInv(s.calls[c]))
    && LogInv(s)
    && (forall c: nat :: ItemCount(Sends(s), c) == DeliveredCount(s, c))
  }

  const EMPTY := State(map[], [], [])

  // ---- counting ----

  lemma {:induction false} CountUpdate(ws: seq<Worker>, i: nat, w: Worker, p: Worker -> bool)
    requires i < |ws|
    ensures CountOf(ws[i := w], p) == CountOf(ws, p) - (if p(ws[i]) then 1 else 0) + if p(w) then 1 else 0
  {
    if i == 0 {
      assert ws[0 := w][1..] == ws[1..];
    } else {
      assert ws[i := w][1..] == ws[1..][i - 1 := w];
      CountUpdate(ws[1..], i - 1, w, p);
    }
  }

  lemma {:induction false} CountAppend(ws: seq<Worker>, w: Worker, p: Worker -> bool)
    ensures CountOf(ws + [w], p) == CountOf(ws, p) + if p(w) then 1 else 0
  {
    if ws == [] {
      assert [w][1..] == [] && ws + [w] == [w];
    } else {
      assert (ws + [w])[1..] == ws[1..] + [w];
      CountAppend(ws[1..], w, p);
    }
  }

  lemma {:induction false} CountFinds(ws: seq<Worker>, p: Worker -> bool) returns (i: nat)
    requires CountOf(ws, p) > 0
    ensures i < |ws| && p(ws[i])
  {
    if p(ws[0]) {
      i := 0;
    } else {
      i := CountFinds(ws[1..], p);
      i := i + 1;
    }
  }

  lemma {:induction false} CountNone(ws: seq<Worker>, p: Worker -> bool)
    ensures CountOf(ws, p) == 0 <==> forall i :: 0 <= i < |ws| ==> !p(ws[i])
  {
    if ws != [] {
      CountNone(ws[1..], p);
      assert forall i :: 1 <= i < |ws| ==> ws[i] == ws[1..][i - 1];
    }
  }

  /** A worker is running, or exited with success, or exited with failure. */
  lemma {:induction false} CountExited(ws: seq<Worker>)
    requires CountOf(ws, Running) == 0
    ensures CountOf(ws, Succeeded) + CountOf(ws, Failed) == |ws|
  {
    if ws != [] { CountExited(ws[1..]); }
  }

  lemma {:induction false} ItemCountAppend(xs: seq<Item>, x: Item, c: nat)
    ensures ItemCount(xs + [x], c) == ItemCount(xs, c) + if x.call == c then 1 else 0
  {
    if xs == [] {
      assert [x][1..] == [] && xs + [x] == [x];
    } else {
      assert (xs + [x])[1..] == xs[1..] + [x];
      ItemCountAppend(xs[1..], x, c);
    }
  }

  lemma WorkerCounts(ws: seq<Worker>, i: nat, w: Worker)
    requires i < |ws|
    ensures CountOf(ws[i := w], Succeeded) == CountOf(ws, Succeeded) - (if Succeeded(ws[i]) then 1 else 0) + if Succeeded(w) then 1 else 0
    ensures CountOf(ws[i := w], Failed) == CountOf(ws, Failed) - (if Failed(ws[i]) then 1 else 0) + if Failed(w) then 1 else 0
    ensures CountOf(ws[i := w], Running) == CountOf(ws, Running) - (if Running(ws[i]) then 1 else 0) + if Running(w) then 1 else 0
    ensures CountOf(ws[i := w], Delivered) == CountOf(ws, Delivered) - (if Delivered(ws[i]) then 1 else 0) + if Delivered(w) then 1 else 0
  {
    CountUpdate(ws, i, w, Succeeded);
    CountUpdate(ws, i, w, Failed);
    CountUpdate(ws, i, w, Running);
    CountUpdate(ws, i, w, Delivered);
  }

  lemma NewWorkerCounts(ws: seq<Worker>)
    ensures CountOf(ws + [Ready], Succeeded) == CountOf(ws, Succeeded)
    ensures CountOf(ws + [Ready], Failed) == CountOf(ws, Failed)
    ensures CountOf(ws + [Ready], Running) == CountOf(ws, Running) + 1
    ensures CountOf(ws + [Ready], Delivered) == CountOf(ws, Delivered)
  {
    CountAppend(ws, Ready, Succeeded);
    CountAppend(ws, Ready, Failed);
    CountAppend(ws, Ready, Running);
    CountAppend(ws, Ready, Delivered);
  }

  predicate IsStepOf(e: Step, c: nat) {
    !e.Begin? && !e.Consume? && e.call == c
  }

  // ---- steps ----

  lemma WorkerStepKeepsCall(s: State, e: Step)
    requires Enabled(s, e) && (e.Send? || e.Timeout? || e.Count? || e.WgDone?) && CallInv(s.calls[e.call])
    ensures CallInv(Next(s, e).calls[e.call])
  {
    var ws := s.calls[e.call].workers;
    match e
    case Send(c, i) => WorkerCounts(ws, i, Sent);
    case Timeout(c, i) => WorkerCounts(ws, i, TimedOut);
    case Count(c, i) =>
      WorkerCounts(ws, i, Counted(ws[i] == Sent));
      CountNone(ws, Running);
    case WgDone(c, i) =>
      WorkerCounts(ws, i, Exited(ws[i].ok));
      CountNone(ws, Running);
    case _ =>
  }

  lemma CallerStepKeepsCall(s: State, e: Step)
    requires Enabled(s, e) && (e.Add? || e.Go? || e.Return?) && CallInv(s.calls[e.call])
    ensures CallInv(Next(s, e).calls[e.call])
  {
    NewWorkerCounts(s.calls[e.call].workers);
  }

  lemma StepKeepsCalls(s: State, e: Step)
    requires Enabled(s, e) && forall c <- s.calls :: CallInv(s.calls[c])
    ensures forall c <- Next(s, e).calls :: CallInv(Next(s, e).calls[c])
  {
    var t := Next(s, e);
    forall c | c in t.calls
      ensures CallInv(t.calls[c])
    {
      if !IsStepOf(e, c) {
        assert c in s.calls ==> t.calls[c] == s.calls[c];
      } else if e.Add? || e.Go? || e.Return? {
        CallerStepKeepsCall(s, e);
      } else {
        WorkerStepKeepsCall(s, e);
      }
    }
  }

  /** Which workers have delivered, and what they had to send, as far as items are concerned. */
  lemma DeliveredKept(s: State, e: Step, c: nat, i: nat)
    requires Enabled(s, e)
    ensures HasWorker(s, c, i) ==>
              && HasWorker(Next(s, e), c, i)
              && Next(s, e).calls[c].followers == s.calls[c].followers && Next(s, e).calls[c].signal == s.calls[c].signal
              && (Delivered(Next(s, e).calls[c].workers[i]) <==> Delivered(s.calls[c].workers[i]) || e == Send(c, i))
    ensures HasWorker(Next(s, e), c, i) && Delivered(Next(s, e).calls[c].workers[i]) ==> HasWorker(s, c, i)
  {
  }

  /** A step that sends nothing leaves the sends, and who delivered, as they are. */
  lemma QuietStepKeepsLog(s: State, e: Step)
    requires LogInv(s) && Enabled(s, e) && !e.Send?
    ensures Sends(Next(s, e)) == Sends(s)
    ensures LogInv(Next(s, e))
  {
    var t := Next(s, e);
    assert Sends(t) == Sends(s);
    forall x | x in Sends(t)
      ensures ItemOk(t, x)
    {
      assert ItemOk(s, x);
      DeliveredKept(s, e, x.call, x.index);
    }
    forall c: nat, i: nat | HasWorker(t, c, i) && Delivered(t.calls[c].workers[i])
      ensures HasItem(t, c, i)
    {
      DeliveredKept(s, e, c, i);
      assert HasItem(s, c, i);
    }
  }

  /** The item that a send puts into the channel. */
  function Sending(s: State, c: nat, i: nat): Item
    requires HasWorker(s, c, i)
  {
    Item(c, i, CreateFollowerOrder(s.calls[c].followers[i], s.calls[c].signal))
  }

  lemma SentItemOk(s: State, c: nat, i: nat)
    requires Enabled(s, Send(c, i))
    ensures Sends(Next(s, Send(c, i))) == Sends(s) + [Sending(s, c, i)]
    ensures ItemOk(Next(s, Send(c, i)), Sending(s, c, i))
  {
    CreatedOrderFits(Sending(s, c, i).order, s.calls[c].followers[i], s.calls[c].signal);
    DeliveredKept(s, Send(c, i), c, i);
  }

  lemma SendKeepsItem(s: State, c: nat, i: nat, y: Item)
    requires Enabled(s, Send(c, i)) && ItemOk(s, y)
    ensures ItemOk(Next(s, Send(c, i)), y) && (y.call, y.index) != (c, i)
  {
    DeliveredKept(s, Send(c, i), y.call, y.index);
  }

  lemma SendHasItem(s: State, c: nat, i: nat, d: nat, j: nat)
    requires LogInv(s) && Enabled(s, Send(c, i))
    requires HasWorker(Next(s, Send(c, i)), d, j) && Delivered(Next(s, Send(c, i)).calls[d].workers[j])
    ensures HasItem(Next(s, Send(c, i)), d, j)
  {
    var t := Next(s, Send(c, i));
    SentItemOk(s, c, i);
    if (d, j) == (c, i) {
      assert Sending(s, c, i) in Sends(t);
    } else {
      DeliveredKept(s, Send(c, i), d, j);
      assert HasItem(s, d, j);
      var y :| y in Sends(s) && y.call == d && y.index == j;
      assert y in Sends(t);
    }
  }

  lemma SendKeepsLog(s: State, c: nat, i: nat)
    requires LogInv(s) && Enabled(s, Send(c, i))
    ensures Sends(Next(s, Send(c, i))) == Sends(s) + [Sending(s, c, i)]
    ensures LogInv(Next(s, Send(c, i)))
  {
    var t := Next(s, Send(c, i));
    SentItemOk(s, c, i);
    forall y | y in Sends(s)
      ensures ItemOk(t, y) && (y.call, y.index) != (c, i)
    {
      SendKeepsItem(s, c, i, y);
    }
    forall d: nat, j: nat | HasWorker(t, d, j) && Delivered(t.calls[d].workers[j])
      ensures HasItem(t, d, j)
    {
      SendHasItem(s, c, i, d, j);
    }
  }

  lemma StepDeliveredCount(s: State, e: Step, d: nat)
    requires Enabled(s, e)
    ensures DeliveredCount(Next(s, e), d) == DeliveredCount(s, d) + if e.Send? && e.call == d then 1 else 0
  {
    match e
    case Send(c, i) => WorkerCounts(s.calls[c].workers, i, Sent);
    case Timeout(c, i) => WorkerCounts(s.calls[c].workers, i, TimedOut);
    case Count(c, i) => WorkerCounts(s.calls[c].workers, i, Counted(s.calls[c].workers[i] == Sent));
    case WgDone(c, i) => WorkerCounts(s.calls[c].workers, i, Exited(s.calls[c].workers[i].ok));
    case Go(c) => NewWorkerCounts(s.calls[c].workers);
    case _ =>
  }

  lemma StepKeepsItemCounts(s: State, e: Step, d: nat)
    requires LogInv(s) && Enabled(s, e) && ItemCount(Sends(s), d) == DeliveredCount(s, d)
    ensures ItemCount(Sends(Next(s, e)), d) == DeliveredCount(Next(s, e), d)
  {
    StepDeliveredCount(s, e, d);
    if e.Send? {
      SendKeepsLog(s, e.call, e.index);
      ItemCountAppend(Sends(s), Sending(s, e.call, e.index), d);
    } else {
      QuietStepKeepsLog(s, e);
    }
  }

  lemma StepKeepsInv(s: State, e: Step)
    requires Inv(s) && Enabled(s, e)
    ensures Inv(Next(s, e)) && Sends(s) <= Sends(Next(s, e))
  {
    StepKeepsCalls(s, e);
    if e.Send? { SendKeepsLog(s, e.call, e.index); } else { QuietStepKeepsLog(s, e); }
    forall d: nat
      ensures ItemCount(Sends(Next(s, e)), d) == DeliveredCount(Next(s, e), d)
    {
      StepKeepsItemCounts(s, e, d);
    }
  }

  // ---- every schedule ----

  ghost predicate Schedule(s: State, es: seq<Step>)
    decreases |es|
  {
    es == [] || (Enabled(s, es[0]) && Schedule(Next(s, es[0]), es[1..]))
  }

  ghost function After(s: State, es: seq<Step>): State
    requires Schedule(s, es)
    decreases |es|
  {
    if es == [] then s else After(Next(s, es[0]), es[1..])
  }

  /** The invariant holds throughout, and the channel is first in, first out: what was sent and consumed
      so far stays a prefix of what is ever sent and consumed. */
  lemma {:induction false} ScheduleKeepsInv(s: State, es: seq<Step>)
    requires Inv(s) && Schedule(s, es)
    ensures Inv(After(s, es)) && Sends(s) <= Sends(After(s, es)) && s.consumed <= After(s, es).consumed
    decreases |es|
  {
    if es != [] {
      StepKeepsInv(s, es[0]);
      ScheduleKeepsInv(Next(s, es[0]), es[1..]);
    }
  }

  lemma EmptyInv()
    ensures Inv(EMPTY)
  {
    assert Sends(EMPTY) == [];
  }

  /** A call that has returned counts every follower once; all its goroutines are done; each counted
      success has exactly one order in the channel or consumed, and no other order of the call exists. */
  lemma ReturnedCallsAreExact(es: seq<Step>, c: nat)
    requires Schedule(EMPTY, es)
    ensures var s := After(EMPTY, es);
            |s.buffer| <= 1000 &&
            (c in s.calls && s.calls[c].caller.Returned? ==>
              var call := s.calls[c];
              && call.caller.total == |call.followers| == |call.workers|
              && call.caller.successes + call.caller.errors == call.caller.total
              && (forall w <- call.workers :: w.Exited?)
              && ItemCount(Sends(s), c) == call.caller.successes
              && (forall i: nat :: i < |call.workers| && Succeeded(call.workers[i]) ==> HasItem(s, c, i)))
  {
    EmptyInv();
    ScheduleKeepsInv(EMPTY, es);
    var s := After(EMPTY, es);
    if c in s.calls && s.calls[c].caller.Returned? {
      var call := s.calls[c];
      assert CallInv(call);
      CountNone(call.workers, Running);
      CountExited(call.workers);
      assert forall w <- call.workers :: w.Exited?;
      DeliveredAtRest(call.workers);
      assert forall i: nat :: i < |call.workers| ==> HasWorker(s, c, i);
    }
  }

  lemma {:induction false} DeliveredAtRest(ws: seq<Worker>)
    requires forall w <- ws :: w.Exited?
    ensures CountOf(ws, Delivered) == CountOf(ws, Succeeded)
  {
    if ws != [] { DeliveredAtRest(ws[1..]); }
  }

  /** Every order in the channel is the one its goroutine had to send, and no goroutine sent two. */
  lemma OrdersAreRight(es: seq<Step>)
    requires Schedule(EMPTY, es)
    ensures var s := After(EMPTY, es);
            && (forall x <- Sends(s) :: ItemOk(s, x))
            && (forall i, j :: 0 <= i < j < |Sends(s)| ==> (Sends(s)[i].call, Sends(s)[i].index) != (Sends(s)[j].call, Sends(s)[j].index))
  {
    EmptyInv();
    ScheduleKeepsInv(EMPTY, es);
  }

  // ---- progress ----

  function WorkerLeft(w: Worker): nat {
    match w
    case Ready => 3
    case Sent => 2
    case TimedOut => 2
    case Counted(_) => 1
    case Exited(_) => 0
  }

  function WorkersLeft(ws: seq<Worker>): nat {
    if ws == [] then 0 else WorkerLeft(ws[0]) + WorkersLeft(ws[1..])
  }

  /** Steps that the goroutines of a call still have to take. */
  function Left(call: Call): int {
    var unstarted := |call.followers| - |call.workers|;
    WorkersLeft(call.workers) + match call.caller
      case AtAdd => 5 * unstarted + 1
      case AtGo => 5 * unstarted
      case Waiting => 1
      case Returned(_, _, _) => 0
  }

  function StepsOf(es: seq<Step>, c: nat): nat {
    if es == [] then 0 else (if IsStepOf(es[0], c) then 1 else 0) + StepsOf(es[1..], c)
  }

  lemma {:induction false} LeftUpdate(ws: seq<Worker>, i: nat, w: Worker)
    requires i < |ws|
    ensures WorkersLeft(ws[i := w]) == WorkersLeft(ws) - WorkerLeft(ws[i]) + WorkerLeft(w)
  {
    if i == 0 {
      assert ws[0 := w][1..] == ws[1..];
    } else {
      assert ws[i := w][1..] == ws[1..][i - 1 := w];
      LeftUpdate(ws[1..], i - 1, w);
    }
  }

  lemma {:induction false} LeftAppend(ws: seq<Worker>, w: Worker)
    ensures WorkersLeft(ws + [w]) == WorkersLeft(ws) + WorkerLeft(w)
  {
    if ws == [] {
      assert [w][1..] == [] && ws + [w] == [w];
    } else {
      assert (ws + [w])[1..] == ws[1..] + [w];
      LeftAppend(ws[1..], w);
    }
  }

  lemma {:induction false} NothingLeft(ws: seq<Worker>)
    ensures WorkersLeft(ws) == 0 <==> CountOf(ws, Running) == 0
  {
    if ws != [] { NothingLeft(ws[1..]); }
  }

  lemma WorkerStepUsesOne(s: State, e: Step, c: nat)
    requires Enabled(s, e) && IsStepOf(e, c) && (e.Send? || e.Timeout? || e.Count? || e.WgDone?)
    ensures c in Next(s, e).calls
    ensures Left(Next(s, e).calls[c]) == Left(s.calls[c]) - 1
  {
    var ws := s.calls[c].workers;
    var w := match e
      case Send(_, _) => Sent
      case Timeout(_, _) => TimedOut
      case Count(_, i) => Counted(ws[i] == Sent)
      case WgDone(_, i) => Exited(ws[i].ok)
      case _ => Ready;
    LeftUpdate(ws, e.index, w);
    assert Next(s, e).calls[c].workers == ws[e.index := w];
  }

  lemma CallerStepUsesOne(s: State, e: Step, c: nat)
    requires Inv(s) && Enabled(s, e) && IsStepOf(e, c) && (e.Add? || e.Go? || e.Return?)
    ensures c in Next(s, e).calls
    ensures Left(Next(s, e).calls[c]) == Left(s.calls[c]) - 1
  {
    assert CallInv(s.calls[c]);
    LeftAppend(s.calls[c].workers, Ready);
  }

  /** Each step of a call uses up exactly one of the steps it has left; other steps use none. */
  lemma StepUsesOne(s: State, e: Step, c: nat)
    requires Inv(s) && Enabled(s, e) && c in s.calls
    ensures c in Next(s, e).calls
    ensures Left(Next(s, e).calls[c]) == Left(s.calls[c]) - if IsStepOf(e, c) then 1 else 0
  {
    if !IsStepOf(e, c) {
      assert Next(s, e).calls[c] == s.calls[c];
    } else if e.Add? || e.Go? || e.Return? {
      CallerStepUsesOne(s, e, c);
    } else {
      WorkerStepUsesOne(s, e, c);
    }
  }

  lemma {:induction false} ScheduleUses(s: State, es: seq<Step>, c: nat)
    requires Inv(s) && Schedule(s, es) && c in s.calls
    ensures c in After(s, es).calls
    ensures Left(After(s, es).calls[c]) + StepsOf(es, c) == Left(s.calls[c])
    decreases |es|
  {
    if es != [] {
      StepUsesOne(s, es[0], c);
      StepKeepsInv(s, es[0]);
      ScheduleUses(Next(s, es[0]), es[1..], c);
    }
  }

  lemma LeftMeansRunning(s: State, c: nat)
    requires Inv(s) && c in s.calls
    ensures Left(s.calls[c]) >= 0
    ensures Left(s.calls[c]) == 0 <==> s.calls[c].caller.Returned?
  {
    assert CallInv(s.calls[c]);
    NothingLeft(s.calls[c].workers);
  }

  /** Whatever the consumer and the other calls do, a call that has not returned can take a step. */
  lemma CanStep(s: State, c: nat) returns (e: Step)
    requires Inv(s) && c in s.calls && !s.calls[c].caller.Returned?
    ensures Enabled(s, e) && IsStepOf(e, c)
  {
    var call := s.calls[c];
    assert CallInv(call);
    match call.caller {
      case AtAdd => e := Add(c);
      case AtGo => e := Go(c);
      case Waiting =>
        if call.wg == 0 {
          e := Return(c);
        } else {
          var i := CountFinds(call.workers, Running);
          assert HasWorker(s, c, i);
          e := match call.workers[i]
               case Ready => Timeout(c, i)
               case Sent => Count(c, i)
               case TimedOut => Count(c, i)
               case _ => WgDone(c, i);
        }
    }
  }

  /** From its beginning a call with n > 0 followers returns after exactly 5n + 1 steps of its goroutines,
      under every schedule, and until then one of them can always step. */
  lemma ReturnsAfterExactly(es: seq<Step>, c: nat, fs: seq<Follower>, sig: Signal, more: seq<Step>)
    requires Schedule(EMPTY, es) && c !in After(EMPTY, es).calls && fs != []
    requires Schedule(Next(After(EMPTY, es), Begin(c, fs, sig)), more)
    ensures var t := After(Next(After(EMPTY, es), Begin(c, fs, sig)), more);
            && c in t.calls
            && StepsOf(more, c) <= 5 * |fs| + 1
            && (t.calls[c].caller.Returned? <==> StepsOf(more, c) == 5 * |fs| + 1)
            && (!t.calls[c].caller.Returned? ==> exists e :: Enabled(t, e) && IsStepOf(e, c))
  {
    EmptyInv();
    ScheduleKeepsInv(EMPTY, es);
    var b, begin := After(EMPTY, es), Begin(c, fs, sig);
    StepKeepsInv(b, begin);
    var s := Next(b, begin);
    assert Left(s.calls[c]) == 5 * |fs| + 1;
    ScheduleUses(s, more, c);
    ScheduleKeepsInv(s, more);
    var t := After(s, more);
    LeftMeansRunning(t, c);
    if !t.calls[c].caller.Returned? {
      var e := CanStep(t, c);
    }
  }

  ghost predicate NoFailures(s: State, c: nat) {
    c in s.calls ==> forall i :: 0 <= i < |s.calls[c].workers| ==>
      s.calls[c].workers[i] != TimedOut && !Failed(s.calls[c].workers[i])
  }

  lemma {:induction false} NoTimeoutNoFailure(s: State, es: seq<Step>, c: nat)
    requires Schedule(s, es) && NoFailures(s, c)
    requires forall e <- es :: e.Timeout? ==> e.call != c
    ensures NoFailures(After(s, es), c)
    decreases |es|
  {
    if es != [] {
      var t := Next(s, es[0]);
      assert es[0] in es;
      assert NoFailures(t, c);
      NoTimeoutNoFailure(t, es[1..], c);
    }
  }

  /** If none of its sends timed out, a call that returns reports no error. */
  lemma NoTimeoutNoError(es: seq<Step>, c: nat)
    requires Schedule(EMPTY, es) && forall e <- es :: e.Timeout? ==> e.call != c
    ensures var s := After(EMPTY, es);
            c in s.calls && s.calls[c].caller.Returned? ==>
              s.calls[c].caller.errors == 0 && s.calls[c].caller.successes == |s.calls[c].followers|
  {
    NoTimeoutNoFailure(EMPTY, es, c);
    ReturnedCallsAreExact(es, c);
    EmptyInv();
    ScheduleKeepsInv(EMPTY, es);
    var s := After(EMPTY, es);
    if c in s.calls {
      assert CallInv(s.calls[c]);
      CountNone(s.calls[c].workers, Failed);
    }
  }
}
