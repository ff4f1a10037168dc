/** The relay: one client connection, line by line, forwarding over a server connection that it dials
    again when writing fails.  Dials, writes and what other connections do to the shared server
    connection are decided by an arbitrary oracle. */
module Relay {
  datatype Signal = Signal(
    action: string, side: string, symbol: string, lot: real, price: real, sl: real, tp: real,
    magic: int, pnl: real, comment: string)

  datatype Payload = Payload(action: string, symbol: string, lot: real, sl: real, tp: real, magic: int, pnl: real, comment: string)

  function EffectiveAction(s: Signal): string {
    if s.action == "CLOSE" then "CLOSE"
    else if s.action == "EDIT" then "MODIFY"
    else if s.action == "OPEN" then s.side
    else ""
  }

  function SignalToTcpPayload(s: Signal): Payload {
    Payload(EffectiveAction(s), s.symbol, s.lot, s.sl, s.tp, s.magic, s.pnl, s.comment)
  }

  /** The payload carries the signal's fields; a closing or editing action is named for the server, an
      opening one by its side, and any other is blank. */
  predicate Carries(p: Payload, s: Signal) {
    && p.symbol == s.symbol && p.lot == s.lot && p.sl == s.sl && p.tp == s.tp
    && p.magic == s.magic && p.pnl == s.pnl && p.comment == s.comment
    && (s.action == "CLOSE" ==> p.action == "CLOSE")
    && (s.action == "EDIT" ==> p.action == "MODIFY")
    && (s.action == "OPEN" ==> p.action == s.side)
    && (s.action !in {"CLOSE", "EDIT", "OPEN"} ==> p.action == "")
  }

  /** That determines the payload. */
  lemma PayloadCarries(p: Payload, s: Signal)
    ensures Carries(p, s) <==> p == SignalToTcpPayload(s)
  {
    assert |"CLOSE"| == 5 && |"EDIT"| == |"OPEN"| == 4 && "EDIT"[0] != "OPEN"[0];
  }

  predicate Accepted(s: Signal) {
    s.action != "" || s.side != ""
  }

  const MAX_ATTEMPTS := 3

  /** What this connection does on the network. */
  datatype Event = Dialled(ok: bool) | Wrote(data: string, ok: bool) | Responded(ok: bool)

  function Delivered(log: seq<Event>): seq<string> {
    if log == [] then []
    else Delivered(log[..|log| - 1]) + match log[|log| - 1] case Wrote(data, true) => [data] case _ => []
  }

  function Responses(log: seq<Event>): seq<bool> {
    if log == [] then []
    else Responses(log[..|log| - 1]) + match log[|log| - 1] case Responded(ok) => [ok] case _ => []
  }

  function Dials(log: seq<Event>): nat {
    if log == [] then 0 else Dials(log[..|log| - 1]) + if log[|log| - 1].Dialled? then 1 else 0
  }

  lemma Snoc(log: seq<Event>, e: Event)
    ensures Delivered(log + [e]) == Delivered(log) + match e case Wrote(data, true) => [data] case _ => []
    ensures Responses(log + [e]) == Responses(log) + match e case Responded(ok) => [ok] case _ => []
    ensures Dials(log + [e]) == Dials(log) + if e.Dialled? then 1 else 0
  {
    assert (log + [e])[..|log + [e]| - 1] == log;
  }

  lemma {:induction false} Append(a: seq<Event>, b: seq<Event>)
    ensures Delivered(a + b) == Delivered(a) + Delivered(b)
    ensures Responses(a + b) == Responses(a) + Responses(b)
    ensures Dials(a + b) == Dials(a) + Dials(b)
  {
    if b == [] {
      assert a + b == a;
    } else {
      assert (a + b)[..|a + b| - 1] == a + b[..|b| - 1];
      Append(a, b[..|b| - 1]);
    }
  }

  class Connection {
    const fate: nat -> bool
    var clock: nat
    /** Whether the shared server connection is set. */
    var serverConn: bool
    var log: seq<Event>

    constructor (fate: nat -> bool)
      ensures log == []
    {
      this.fate, clock, serverConn, log := fate, 0, false, [];
    }

    /** The next decision of the network or of another connection. */
    method Toss() returns (b: bool)
      modifies this`clock
      ensures clock == old(clock) + 1 && b == fate(old(clock))
    {
      b := fate(clock);
      clock := clock + 1;
    }

    method Write(data: string) returns (ok: bool)
      modifies this`clock, this`log
      ensures log == old(log) + [Wrote(data, ok)] && ok == fate(old(clock)) && clock == old(clock) + 1
    {
      ok := Toss();
      log := log + [Wrote(data, ok)];
    }

    method Dial() returns (ok: bool)
      modifies this`clock, this`log
      ensures log == old(log) + [Dialled(ok)] && ok == fate(old(clock)) && clock == old(clock) + 1
    {
      ok := Toss();
      log := log + [Dialled(ok)];
    }

    /** Dial and, if that succeeds, write. */
    method Redial(data: string) returns (ok: bool, ghost mine: seq<Event>)
      requires !serverConn
      modifies this
      ensures serverConn == ok
      ensures log == old(log) + mine && Forwards(mine, data, ok) && Dials(mine) == 1
      ensures mine != [] && mine[0] == Dialled(fate(old(clock)))
    {
      ghost var before := log;
      var dialled := Dial();
      mine := [Dialled(dialled)];
      if !dialled {
        OneRedial(data, false, false);
        return false, mine;
      }
      serverConn := true;
      ok := Write(data);
      if !ok {
        serverConn := false;
      }
      OneRedial(data, true, ok);
      Associate(before, mine, [Wrote(data, ok)]);
      mine := mine + [Wrote(data, ok)];
    }

    /** One turn of the retry loop.  Before the look at the shared connection others may have set or
        dropped it; a connection that is found is tried before another is dialled. */
    method Attempt(data: string) returns (ok: bool, ghost mine: seq<Event>)
      modifies this
      ensures serverConn == ok
      ensures log == old(log) + mine && Forwards(mine, data, ok)
      ensures Dials(mine) <= 1 && (!ok ==> Dials(mine) == 1)
      ensures mine != [] && mine[0] == if fate(old(clock)) then Wrote(data, fate(old(clock) + 1)) else Dialled(fate(old(clock) + 1))
    {
      serverConn := Toss();
      if !serverConn {
        ok, mine := Redial(data);
        return;
      }
      ok := Write(data);
      mine := [Wrote(data, ok)];
      OneWrite(data, ok);
      if ok {
        return;
      }
      serverConn := false;
      ghost var more;
      ok, more := Redial(data);
      ForwardsAppend(mine, more, data, ok);
      Associate(old(log), mine, more);
      mine := mine + more;
    }

    method SendToServer(line: string) returns (err: bool, ghost mine: seq<Event>)
      modifies this
      ensures serverConn == !err
      ensures log == old(log) + mine && Forwards(mine, line + "\n", !err)
      ensures Dials(mine) <= 3 && (err ==> Dials(mine) == 3)
    {
      mine := [];
      for attempt := 0 to MAX_ATTEMPTS
        invariant log == old(log) + mine && Forwards(mine, line + "\n", false) && Dials(mine) == attempt
        invariant attempt > 0 ==> !serverConn
      {
        var ok, events := Attempt(line + "\n");
        ForwardsAppend(mine, events, line + "\n", ok);
        Associate(old(log), mine, events);
        mine := mine + events;
        if ok {
          return false, mine;
        }
      }
      err := true;
    }

    /** One non-empty line: rejected at once if it says neither action nor side, otherwise forwarded, and
        answered ok exactly if that succeeded. */
    method HandleLine(line: string, decode: string -> Signal, marshal: Payload -> string)
      returns (answer: bool, ghost mine: seq<Event>)
      modifies this
      ensures log == old(log) + mine && LineLog(mine, line, answer, decode, marshal)
    {
      var sig := decode(line);
      if !Accepted(sig) {
        log := log + [Responded(false)];
        return false, [Responded(false)];
      }
      var payload := marshal(SignalToTcpPayload(sig));
      var err, sent := SendToServer(payload);
      log := log + [Responded(!err)];
      Snoc(sent, Responded(!err));
      Associate(old(log), sent, [Responded(!err)]);
      answer, mine := !err, sent + [Responded(!err)];
      assert mine[..|mine| - 1] == sent;
    }

    /** Every line of one client connection; empty lines are skipped.  `decode` is the JSON parser with the
        pipe parser behind it, `marshal` the JSON writer.  Returns what each non-empty line was answered, and
        what happened on its behalf. */
    method HandleConn(lines: seq<string>, decode: string -> Signal, marshal: Payload -> string)
      returns (answers: seq<bool>, ghost logs: seq<seq<Event>>)
      modifies this
      ensures log == old(log) + Concat(logs)
      ensures LineLogs(logs, NonEmpty(lines), answers, decode, marshal)
      ensures Transcript(Concat(logs), NonEmpty(lines), answers, decode, marshal)
    {
      answers, logs := [], [];
      ghost var seen := [];
      for n := 0 to |lines|
        invariant log == old(log) + Concat(logs) && seen == NonEmpty(lines[..n])
        invariant LineLogs(logs, seen, answers, decode, marshal)
        invariant Transcript(Concat(logs), seen, answers, decode, marshal)
      {
        NonEmptySnoc(lines, n);
        if |lines[n]| > 0 {
          var answer, events := HandleLine(lines[n], decode, marshal);
          LineLogGives(events, lines[n], answer, decode, marshal);
          TranscriptSnoc(Concat(logs), seen, answers, events, lines[n], answer, decode, marshal);
          ConcatSnoc(logs, events);
          Associate(old(log), Concat(logs), events);
          answers, seen, logs := answers + [answer], seen + [lines[n]], logs + [events];
        }
      }
      assert lines[..|lines|] == lines;
    }
  }

  /** What happens on behalf of one line.  A line with neither action nor side is rejected.  Any other is
      forwarded: it is answered ok if and only if its translation went through, with at most three dials, and
      exactly three if it did not. */
  ghost predicate LineLog(mine: seq<Event>, line: string, answer: bool, decode: string -> Signal, marshal: Payload -> string) {
    if decode(line).action == "" && decode(line).side == "" then
      !answer && mine == [Responded(false)]
    else
      && mine != [] && mine[|mine| - 1] == Responded(answer)
      && Forwards(mine[..|mine| - 1], marshal(SignalToTcpPayload(decode(line))) + "\n", answer)
      && Dials(mine) <= 3 && (!answer ==> Dials(mine) == 3)
  }

  ghost predicate LineLogs(logs: seq<seq<Event>>, lines: seq<string>, answers: seq<bool>, decode: string -> Signal, marshal: Payload -> string) {
    && |logs| == |lines| == |answers|
    && forall i :: 0 <= i < |logs| ==> LineLog(logs[i], lines[i], answers[i], decode, marshal)
  }

  lemma RejectedGives()
    ensures Responses([Responded(false)]) == [false] && Delivered([Responded(false)]) == []
  {
    Snoc([], Responded(false));
    assert [] + [Responded(false)] == [Responded(false)];
  }

  lemma ForwardedGives(mine: seq<Event>, data: string, answer: bool)
    requires mine != [] && mine[|mine| - 1] == Responded(answer) && Forwards(mine[..|mine| - 1], data, answer)
    ensures Responses(mine) == [answer] && Delivered(mine) == if answer then [data] else []
  {
    AfterResponse(mine[..|mine| - 1], data, answer);
    assert mine == mine[..|mine| - 1] + [Responded(answer)];
  }

  /** One response, and the translation delivered exactly if it is ok. */
  lemma LineLogGives(mine: seq<Event>, line: string, answer: bool, decode: string -> Signal, marshal: Payload -> string)
    requires LineLog(mine, line, answer, decode, marshal)
    ensures Responses(mine) == [answer] && Delivered(mine) == Translation(line, answer, decode, marshal)
    ensures answer ==> Accepted(decode(line))
  {
    if Accepted(decode(line)) {
      ForwardedGives(mine, marshal(SignalToTcpPayload(decode(line))) + "\n", answer);
    } else {
      RejectedGives();
    }
  }

  function Concat(logs: seq<seq<Event>>): seq<Event> {
    if logs == [] then [] else Concat(logs[..|logs| - 1]) + logs[|logs| - 1]
  }

  lemma ConcatSnoc(logs: seq<seq<Event>>, events: seq<Event>)
    ensures Concat(logs + [events]) == Concat(logs) + events
  {
    assert (logs + [events])[..|logs|] == logs;
  }

  /** Events of one forwarding: they write nothing but `data`, and deliver it once and last if `ok`, else never.  A connection that was dialled is written to. */
  ghost predicate Forwards(mine: seq<Event>, data: string, ok: bool) {
    && (forall e <- mine :: e.Wrote? ==> e.data == data)
    && (forall i :: 0 <= i < |mine| && mine[i] == Dialled(true) ==> i + 1 < |mine| && mine[i + 1].Wrote?)
    && Delivered(mine) == (if ok then [data] else [])
    && (ok ==> mine != [] && mine[|mine| - 1] == Wrote(data, true))
    && Responses(mine) == []
  }

  lemma ForwardsAppend(a: seq<Event>, b: seq<Event>, data: string, ok: bool)
    requires Forwards(a, data, false) && Forwards(b, data, ok)
    ensures Forwards(a + b, data, ok) && Dials(a + b) == Dials(a) + Dials(b)
  {
    Append(a, b);
  }

  lemma NoEvents(data: string)
    ensures Forwards([], data, false) && Dials([]) == 0
  {
  }

  lemma OneWrite(data: string, ok: bool)
    ensures Forwards([Wrote(data, ok)], data, ok) && Dials([Wrote(data, ok)]) == 0
  {
    Snoc([], Wrote(data, ok));
    assert [Wrote(data, ok)] == [] + [Wrote(data, ok)];
  }

  lemma OneRedial(data: string, dialled: bool, ok: bool)
    requires ok ==> dialled
    ensures var events := [Dialled(dialled)] + if dialled then [Wrote(data, ok)] else [];
            Forwards(events, data, ok) && Dials(events) == 1
  {
    Snoc([], Dialled(dialled));
    assert !dialled ==> [Dialled(dialled)] + [] == [Dialled(dialled)];
    assert [Dialled(dialled)] == [] + [Dialled(dialled)];
    Snoc([Dialled(dialled)], Wrote(data, ok));
  }

  lemma AfterResponse(sent: seq<Event>, data: string, ok: bool)
    requires Forwards(sent, data, ok)
    ensures Responses(sent + [Responded(ok)]) == [ok]
    ensures Delivered(sent + [Responded(ok)]) == if ok then [data] else []
  {
    Snoc(sent, Responded(ok));
  }

  lemma Associate(a: seq<Event>, b: seq<Event>, c: seq<Event>)
    ensures (a + b) + c == a + (b + c)
  {
  }

  lemma NonEmptySnoc(lines: seq<string>, n: nat)
    requires n < |lines|
    ensures NonEmpty(lines[..n + 1]) == NonEmpty(lines[..n]) + if lines[n] == "" then [] else [lines[n]]
  {
    assert lines[..n + 1][..n] == lines[..n];
  }

  function NonEmpty(lines: seq<string>): seq<string> {
    if lines == [] then []
    else NonEmpty(lines[..|lines| - 1]) + if lines[|lines| - 1] == "" then [] else [lines[|lines| - 1]]
  }

  function Translation(line: string, answer: bool, decode: string -> Signal, marshal: Payload -> string): seq<string> {
    if answer then [marshal(SignalToTcpPayload(decode(line))) + "\n"] else []
  }

  /** What the server should have: the translations of the lines answered ok, in order. */
  function Translations(lines: seq<string>, answers: seq<bool>, decode: string -> Signal, marshal: Payload -> string): seq<string>
    requires |lines| == |answers|
  {
    if lines == [] then []
    else
      var n := |lines| - 1;
      Translations(lines[..n], answers[..n], decode, marshal) + Translation(lines[n], answers[n], decode, marshal)
  }

  lemma TranslationsSnoc(lines: seq<string>, answers: seq<bool>, line: string, answer: bool, decode: string -> Signal, marshal: Payload -> string)
    requires |lines| == |answers|
    ensures Translations(lines + [line], answers + [answer], decode, marshal)
         == Translations(lines, answers, decode, marshal) + Translation(line, answer, decode, marshal)
  {
    assert (lines + [line])[..|lines|] == lines && (answers + [answer])[..|lines|] == answers;
  }

  /** One response to each line, in order; only accepted lines are answered ok; delivered are exactly the
      translations of the lines answered ok, in order. */
  ghost predicate Transcript(mine: seq<Event>, lines: seq<string>, answers: seq<bool>, decode: string -> Signal, marshal: Payload -> string) {
    && |answers| == |lines|
    && Responses(mine) == answers
    && Delivered(mine) == Translations(lines, answers, decode, marshal)
    && forall i :: 0 <= i < |answers| && answers[i] ==> Accepted(decode(lines[i]))
  }

  lemma TranscriptSnoc(mine: seq<Event>, lines: seq<string>, answers: seq<bool>, events: seq<Event>, line: string, answer: bool,
                       decode: string -> Signal, marshal: Payload -> string)
    requires Transcript(mine, lines, answers, decode, marshal)
    requires Responses(events) == [answer] && Delivered(events) == Translation(line, answer, decode, marshal)
    requires answer ==> Accepted(decode(line))
    ensures Transcript(mine + events, lines + [line], answers + [answer], decode, marshal)
  {
    Append(mine, events);
    TranslationsSnoc(lines, answers, line, answer, decode, marshal);
  }
}
