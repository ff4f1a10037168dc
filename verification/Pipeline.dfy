/** The two-stage signal pipeline of one worker: the hub goroutine decodes messages from the master's
    channel into a 4096-slot channel, the forwarder moves them into a 100-slot channel, the worker
    receives from that.  Every interleaving, with cancellation at any moment. */
module Pipeline {
  import opened Wrappers
  import opened Lots

  const HUB_SLOTS := 4096
  const WORKER_SLOTS := 100

  /** A message decodes to a signal or not at all. */
  type Message = Option<Signal>

  /** A goroutine waits for input, holds one item that it tries to send, or has returned; `lost` is the
      item, if any, that it held when it returned. */
  datatype Stage = Idle | Holding(item: Signal) | Returned(lost: seq<Signal>)

  datatype State = State(
    read: seq<Message>, hub: Stage, hubCh: seq<Signal>, hubClosed: bool,
    fwd: Stage, workCh: seq<Signal>, workClosed: bool, received: seq<Signal>, cancelled: bool)

  datatype Step =
    | HubReads(msg: Message)
    | HubSends
    | HubCancelled
    | HubEnds             // the subscription is closed
    | FwdReceives
    | FwdSends
    | FwdCancelled
    | FwdEnds             // the hub's channel is closed and empty
    | WorkerReceives
    | Cancel

  predicate Enabled(s: State, e: Step) {
    match e
    case HubReads(_) => s.hub.Idle?
    case HubSends => s.hub.Holding? && |s.hubCh| < HUB_SLOTS
    case HubCancelled => s.cancelled && !s.hub.Returned?
    case HubEnds => s.hub.Idle?
    case FwdReceives => s.fwd.Idle? && s.hubCh != []
    case FwdSends => s.fwd.Holding? && |s.workCh| < WORKER_SLOTS
    case FwdCancelled => s.cancelled && s.fwd.Holding?
    case FwdEnds => s.fwd.Idle? && s.hubClosed && s.hubCh == []
    case WorkerReceives => s.workCh != []
    case Cancel => true
  }

  /** On cancellation the forwarder leaves without closing the worker's channel. */
  function Next(s: State, e: Step): State
    requires Enabled(s, e)
  {
    match e
    case HubReads(msg) => s.(read := s.read + [msg], hub := if msg.Some? then Holding(msg.value) else Idle)
    case HubSends => s.(hubCh := s.hubCh + [s.hub.item], hub := Idle)
    case HubCancelled => s.(hub := Returned(Held(s.hub)), hubClosed := true)
    case HubEnds => s.(hub := Returned([]), hubClosed := true)
    case FwdReceives => s.(fwd := Holding(s.hubCh[0]), hubCh := s.hubCh[1..])
    case FwdSends => s.(workCh := s.workCh + [s.fwd.item], fwd := Idle)
    case FwdCancelled => s.(fwd := Returned(Held(s.fwd)))
    case FwdEnds => s.(fwd := Returned([]), workClosed := true)
    case WorkerReceives => s.(received := s.received + [s.workCh[0]], workCh := s.workCh[1..])
    case Cancel => s.(cancelled := true)
  }

  /** The item a goroutine holds, or held when it was cancelled. */
  function Held(g: Stage): seq<Signal> {
    match g
    case Idle => []
    case Holding(x) => [x]
    case Returned(lost) => lost
  }

  function Decoded(msgs: seq<Message>): seq<Signal> {
    if msgs == [] then []
    else Decoded(msgs[..|msgs| - 1]) + if msgs[|msgs| - 1].Some? then [msgs[|msgs| - 1].value] else []
  }

  const EMPTY := State([], Idle, [], false, Idle, [], false, [], false)

  // ---- invariant ----

  /** Received, in the worker's channel, at the forwarder, in the hub's channel, at the hub. */
  function Line(r: seq<Signal>, w: seq<Signal>, f: seq<Signal>, h: seq<Signal>, g: seq<Signal>): seq<Signal> {
    r + w + f + h + g
  }

  /** Everything that was decoded, in order, from the worker back to the hub. */
  function InTransit(s: State): seq<Signal> {
    Line(s.received, s.workCh, Held(s.fwd), s.hubCh, Held(s.hub))
  }

  ghost predicate Inv(s: State) {
    InTransit(s) == Decoded(s.read) && ChannelsOk(s)
  }

  /** Slots, who closed what, and that only a cancelled goroutine drops an item. */
  predicate ChannelsOk(s: State) {
    && |s.hubCh| <= HUB_SLOTS && |s.workCh| <= WORKER_SLOTS
    && (s.hubClosed <==> s.hub.Returned?)
    && (s.workClosed ==> s.fwd == Returned([]) && s.hubClosed && s.hubCh == [])
    && (s.fwd.Returned? ==> s.workClosed || s.cancelled)
    && (s.hub.Returned? && s.hub.lost != [] ==> s.cancelled)
    && (s.fwd.Returned? && s.fwd.lost != [] ==> s.cancelled)
  }

  lemma LineGrows(r: seq<Signal>, w: seq<Signal>, f: seq<Signal>, h: seq<Signal>, g: seq<Signal>)
    ensures Line(r, w, f, h, g) == Line(r, w, f, h, []) + g
  {
  }

  lemma LineMoves(r: seq<Signal>, w: seq<Signal>, f: seq<Signal>, h: seq<Signal>, g: seq<Signal>, x: Signal)
    ensures Line(r, w, f, h, [x]) == Line(r, w, f, h + [x], [])
    ensures Line(r, w, [], [x] + h, g) == Line(r, w, [x], h, g)
    ensures Line(r, w, [x], h, g) == Line(r, w + [x], [], h, g)
    ensures Line(r, [x] + w, f, h, g) == Line(r + [x], w, f, h, g)
  {
  }

  lemma ReadKeepsTransit(s: State, msg: Message)
    requires Enabled(s, HubReads(msg)) && InTransit(s) == Decoded(s.read)
    ensures InTransit(Next(s, HubReads(msg))) == Decoded(Next(s, HubReads(msg)).read)
  {
    var t := Next(s, HubReads(msg));
    assert t.read[..|t.read| - 1] == s.read;
    LineGrows(s.received, s.workCh, Held(s.fwd), s.hubCh, Held(t.hub));
  }

  lemma HubSendKeepsTransit(s: State)
    requires Enabled(s, HubSends)
    ensures InTransit(Next(s, HubSends)) == InTransit(s)
  {
    LineMoves(s.received, s.workCh, Held(s.fwd), s.hubCh, [], s.hub.item);
  }

  lemma FwdReceiveKeepsTransit(s: State)
    requires Enabled(s, FwdReceives)
    ensures InTransit(Next(s, FwdReceives)) == InTransit(s)
  {
    assert s.hubCh == [s.hubCh[0]] + s.hubCh[1..];
    LineMoves(s.received, s.workCh, [], s.hubCh[1..], Held(s.hub), s.hubCh[0]);
  }

  lemma FwdSendKeepsTransit(s: State)
    requires Enabled(s, FwdSends)
    ensures InTransit(Next(s, FwdSends)) == InTransit(s)
  {
    LineMoves(s.received, s.workCh, [], s.hubCh, Held(s.hub), s.fwd.item);
  }

  lemma WorkerReceiveKeepsTransit(s: State)
    requires Enabled(s, WorkerReceives)
    ensures InTransit(Next(s, WorkerReceives)) == InTransit(s)
  {
    assert s.workCh == [s.workCh[0]] + s.workCh[1..];
    LineMoves(s.received, s.workCh[1..], Held(s.fwd), s.hubCh, Held(s.hub), s.workCh[0]);
  }

  lemma StepKeepsTransit(s: State, e: Step)
    requires Enabled(s, e) && InTransit(s) == Decoded(s.read)
    ensures InTransit(Next(s, e)) == Decoded(Next(s, e).read)
  {
    match e
    case HubReads(msg) => ReadKeepsTransit(s, msg);
    case HubSends => HubSendKeepsTransit(s);
    case FwdReceives => FwdReceiveKeepsTransit(s);
    case FwdSends => FwdSendKeepsTransit(s);
    case WorkerReceives => WorkerReceiveKeepsTransit(s);
    case _ =>
  }

  lemma StepKeepsChannels(s: State, e: Step)
    requires Enabled(s, e) && ChannelsOk(s)
    ensures ChannelsOk(Next(s, e))
  {
  }

  lemma StepKeepsInv(s: State, e: Step)
    requires Inv(s) && Enabled(s, e)
    ensures Inv(Next(s, e)) && s.received <= Next(s, e).received
  {
    StepKeepsTransit(s, e);
    StepKeepsChannels(s, e);
  }

  // ---- every schedule ----

  ghost predicate Schedule(s: State, es: seq<Step>)
    decreases |es|
  {
    es == [] || (Enabled(s, es[0]) && Schedule(Next(s, es[0]), es[1..]))
  }

  ghost function After(s: State, es: seq<Step>): State
    requires Schedule(s, es)
    decreases |es|
  {
    if es == [] then s else After(Next(s, es[0]), es[1..])
  }

  lemma {:induction false} ScheduleKeepsInv(s: State, es: seq<Step>)
    requires Inv(s) && Schedule(s, es)
    ensures Inv(After(s, es)) && s.received <= After(s, es).received
    decreases |es|
  {
    if es != [] {
      StepKeepsInv(s, es[0]);
      ScheduleKeepsInv(Next(s, es[0]), es[1..]);
    }
  }

  /** Nothing is lost, repeated or reordered: what the worker has, what the two channels hold and what
      the two goroutines hold (or dropped when cancelled) is, in this order, what was decoded.  So the
      worker always has a prefix; and the channels never exceed their slots. */
  lemma PipelineConserves(es: seq<Step>)
    requires Schedule(EMPTY, es)
    ensures var s := After(EMPTY, es);
            && s.received + s.workCh + Held(s.fwd) + s.hubCh + Held(s.hub) == Decoded(s.read)
            && s.received <= Decoded(s.read)
            && |s.hubCh| <= 4096 && |s.workCh| <= 100
  {
    ScheduleKeepsInv(EMPTY, es);
  }

  /** Once the worker's channel is closed and drained the stream was delivered completely, but for the
      one item that the hub dropped if it was cancelled. */
  lemma ClosedMeansComplete(es: seq<Step>)
    requires Schedule(EMPTY, es)
    ensures var s := After(EMPTY, es);
            s.workClosed && s.workCh == [] ==>
              && s.received + Held(s.hub) == Decoded(s.read)
              && (!s.cancelled ==> s.received == Decoded(s.read))
  {
    ScheduleKeepsInv(EMPTY, es);
    var s := After(EMPTY, es);
    if s.workClosed && s.workCh == [] {
      assert s.received + [] + [] + [] + Held(s.hub) == s.received + Held(s.hub);
      assert s.received + [] == s.received;
    }
  }

  /** No send meets a closed channel. */
  lemma NoSendOnClosed(es: seq<Step>, e: Step)
    requires Schedule(EMPTY, es) && Enabled(After(EMPTY, es), e)
    ensures e.HubSends? ==> !After(EMPTY, es).hubClosed
    ensures e.FwdSends? ==> !After(EMPTY, es).workClosed
    ensures e.FwdEnds? ==> !After(EMPTY, es).workClosed
  {
    ScheduleKeepsInv(EMPTY, es);
  }

  /** The goroutines wait for room exactly while their channels are full. */
  lemma SendsWaitExactly(s: State)
    ensures s.hub.Holding? ==> (Enabled(s, HubSends) <==> |s.hubCh| < 4096)
    ensures s.fwd.Holding? ==> (Enabled(s, FwdSends) <==> |s.workCh| < 100)
  {
  }

  // ---- progress ----

  /** Moves that the decoded items still need on their way to the worker. */
  function MovesLeft(s: State): nat {
    |s.workCh| + (if s.fwd.Holding? then 2 else 0) + 3 * |s.hubCh| + if s.hub.Holding? then 4 else 0
  }

  predicate IsMove(e: Step) {
    e.HubSends? || e.FwdReceives? || e.FwdSends? || e.WorkerReceives?
  }

  /** Before cancellation the stages cannot deadlock: while an item is on its way some stage can move
      one, and each move is one of the finitely many that are left. */
  lemma CanMove(es: seq<Step>) returns (e: Step)
    requires Schedule(EMPTY, es)
    ensures var s := After(EMPTY, es);
            !s.cancelled && MovesLeft(s) > 0 ==>
              Enabled(s, e) && IsMove(e) && MovesLeft(Next(s, e)) == MovesLeft(s) - 1
  {
    ScheduleKeepsInv(EMPTY, es);
    var s := After(EMPTY, es);
    e := if s.workCh != [] then WorkerReceives
         else if s.fwd.Holding? then FwdSends
         else if s.hubCh != [] then FwdReceives
         else HubSends;
  }

  /** Without cancellation, nothing left to move means everything decoded was received. */
  lemma DrainedMeansDelivered(es: seq<Step>)
    requires Schedule(EMPTY, es)
    ensures var s := After(EMPTY, es);
            !s.cancelled && MovesLeft(s) == 0 ==> s.received == Decoded(s.read)
  {
    ScheduleKeepsInv(EMPTY, es);
    var s := After(EMPTY, es);
    if !s.cancelled && MovesLeft(s) == 0 {
      assert InTransit(s) == s.received;
    }
  }
}
