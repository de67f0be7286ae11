/** Channels between coroutines (internal/sync/channel.go). */
module Channels {
  import opened Basics

  /** A value together with the Send call that brought it. */
  datatype Message = Message(id: nat, value: int)

  /** What a channel holds; `sent` and `got` are the flags set by sender and receiver callbacks. */
  datatype State = State(
    buffer: seq<Message>,
    receivers: seq<nat>,
    senders: seq<Message>,
    closed: bool,
    size: nat,
    sent: set<nat>,
    got: map<nat, Option<Message>>,
    delivered: seq<Message>)

  datatype Polled = Value(message: Message) | Ended | Nothing

  /** Gives the message to a waiting receiver, or else to the buffer if there is room. */
  function TrySend(s: State, m: Message): (State, bool) {
    if s.receivers != [] then
      (s.(receivers := s.receivers[1..], got := s.got[s.receivers[0] := Some(m)], delivered := s.delivered + [m]), true)
    else if |s.buffer| < s.size then (s.(buffer := s.buffer + [m]), true)
    else (s, false)
  }

  /** Takes from the buffer, or else from a blocked sender unless the channel is closed. */
  function TryReceive(s: State): (State, Polled) {
    if s.buffer != [] then
      (s.(buffer := s.buffer[1..], delivered := s.delivered + [s.buffer[0]]), Value(s.buffer[0]))
    else if s.closed then (s, Ended)
    else if s.senders != [] then
      (s.(senders := s.senders[1..], sent := s.sent + {s.senders[0].id}, delivered := s.delivered + [s.senders[0]]),
       Value(s.senders[0]))
    else (s, Nothing)
  }

  /** What coroutines do with a channel, between two yields. */
  datatype Step =
    | Send(message: Message)
    | ResumeSend(message: Message)
    | SendNonblocking(message: Message)
    | Receive(receiver: nat)
    | ResumeReceive(receiver: nat)
    | ReceiveNonblocking
    | Close

  function Tell(got: map<nat, Option<Message>>, receivers: seq<nat>): map<nat, Option<Message>> {
    map r | r in got.Keys + (set x | x in receivers) :: if r in receivers then None else got[r]
  }

  /** The channel after a step; None is a panic. */
  function Next(s: State, step: Step): Option<State> {
    match step
    case Send(m) =>
      if s.closed then None
      else
        var (t, ok) := TrySend(s, m);
        Some(if ok then t else t.(senders := t.senders + [m]))
    case ResumeSend(m) =>
      if m.id in s.sent then Some(s) else if s.closed then None else Some(TrySend(s, m).0)
    case SendNonblocking(m) =>
      if s.closed then None else Some(TrySend(s, m).0)
    case Receive(r) =>
      var (t, polled) := TryReceive(s);
      Some(if polled.Nothing? then t.(receivers := t.receivers + [r]) else t)
    case ResumeReceive(r) =>
      if r in s.got then Some(s) else Some(TryReceive(s).0)
    case ReceiveNonblocking =>
      Some(TryReceive(s).0)
    case Close =>
      if s.senders != [] then None
      else Some(s.(closed := true, receivers := [], got := Tell(s.got, s.receivers)))
  }

  function NewChannel(size: nat): State {
    State([], [], [], false, size, {}, map[], [])
  }

  // ---------- the law of delivery ----------

  /** Values leave in the order in which they were accepted, none lost and none twice. */
  predicate Law(s: State, accepted: seq<Message>) {
    accepted == s.delivered + s.buffer + s.senders
  }

  predicate Orderly(s: State) {
    && (s.receivers != [] ==> s.buffer == [] && s.senders == [] && !s.closed)
    && |s.buffer| <= s.size
    && (forall m :: m in s.senders ==> m.id !in s.sent)
    && (forall r :: r in s.receivers ==> r !in s.got)
    && (forall i, j :: 0 <= i < j < |s.receivers| ==> s.receivers[i] != s.receivers[j])
    && (forall i, j :: 0 <= i < j < |s.senders| ==> s.senders[i].id != s.senders[j].id)
  }

  /** New calls have new ids, and only blocked calls are resumed. */
  predicate Enabled(s: State, step: Step, accepted: seq<Message>) {
    match step
    case Send(m) => (forall a :: a in accepted ==> a.id != m.id) && m.id !in s.sent
    case SendNonblocking(m) => (forall a :: a in accepted ==> a.id != m.id) && m.id !in s.sent
    case ResumeSend(m) => m in s.senders || m.id in s.sent
    case Receive(r) => r !in s.got && r !in s.receivers
    case ResumeReceive(r) => r in s.got || r in s.receivers
    case _ => true
  }

  /** A blocking Send is accepted when it is issued, a nonblocking one if it succeeds. */
  function Accepted(s: State, step: Step, accepted: seq<Message>): seq<Message> {
    match step
    case Send(m) => accepted + [m]
    case SendNonblocking(m) => if !s.closed && TrySend(s, m).1 then accepted + [m] else accepted
    case _ => accepted
  }

  /** On a buffered channel, no Send finds the buffer full. */
  predicate NeverBlocks(s: State, step: Step) {
    s.size > 0 && step.Send? ==> s.receivers != [] || |s.buffer| < s.size
  }

  lemma StepKeepsLaw(s: State, step: Step, accepted: seq<Message>)
    requires Orderly(s) && Law(s, accepted) && (s.size > 0 ==> s.senders == [])
    requires Enabled(s, step, accepted) && NeverBlocks(s, step) && Next(s, step).Some?
    ensures
      var t := Next(s, step).value;
      Orderly(t) && Law(t, Accepted(s, step, accepted)) && t.size == s.size && (t.size > 0 ==> t.senders == [])
  {
    hide TrySend, TryReceive, Orderly;
    match step
    case Send(m) =>
      TrySendKeeps(s, m, accepted);
      if !TrySend(s, m).1 {
        BlockedKeeps(s, m, accepted);
      }
    case SendNonblocking(m) => TrySendKeeps(s, m, accepted);
    case ResumeSend(m) => ResumeKeeps(s, m, accepted);
    case Receive(r) =>
      TryReceiveKeeps(s, accepted);
      if TryReceive(s).1.Nothing? {
        WaitingKeeps(s, r);
      }
    case ResumeReceive(r) => TryReceiveKeeps(s, accepted);
    case ReceiveNonblocking => TryReceiveKeeps(s, accepted);
    case Close => CloseKeeps(s);
  }

  lemma TrySendKeeps(s: State, m: Message, accepted: seq<Message>)
    requires Orderly(s) && Law(s, accepted) && (s.size > 0 ==> s.senders == []) && !s.closed
    ensures
      var (t, ok) := TrySend(s, m);
      && Orderly(t) && Law(t, if ok then accepted + [m] else accepted) && t.size == s.size && t.senders == s.senders
      && (!ok ==> t == s) && (ok <==> s.receivers != [] || |s.buffer| < s.size)
  {
  }

  lemma BlockedKeeps(s: State, m: Message, accepted: seq<Message>)
    requires Orderly(s) && Law(s, accepted) && !TrySend(s, m).1 && m.id !in s.sent && forall a :: a in accepted ==> a.id != m.id
    ensures Orderly(s.(senders := s.senders + [m])) && Law(s.(senders := s.senders + [m]), accepted + [m])
  {
    forall a | a in s.senders
      ensures a.id != m.id
    {
      assert a in accepted;
    }
  }

  lemma ResumeKeeps(s: State, m: Message, accepted: seq<Message>)
    requires Orderly(s) && Enabled(s, ResumeSend(m), accepted) && (s.size > 0 ==> s.senders == [])
    ensures m.id !in s.sent ==> TrySend(s, m) == (s, false)
  {
  }

  lemma TryReceiveKeeps(s: State, accepted: seq<Message>)
    requires Orderly(s) && Law(s, accepted) && (s.size > 0 ==> s.senders == [])
    ensures
      var t := TryReceive(s).0;
      Orderly(t) && Law(t, accepted) && t.size == s.size && (t.size > 0 ==> t.senders == [])
  {
    if s.buffer != [] {
      assert s.buffer == [s.buffer[0]] + s.buffer[1..];
    } else if s.senders != [] {
      assert s.senders == [s.senders[0]] + s.senders[1..];
    }
  }

  lemma WaitingKeeps(s: State, r: nat)
    requires Orderly(s) && r !in s.got && r !in s.receivers && TryReceive(s).1.Nothing?
    ensures TryReceive(s).0 == s && Orderly(s.(receivers := s.receivers + [r]))
  {
  }

  lemma CloseKeeps(s: State)
    requires Orderly(s) && s.senders == []
    ensures Orderly(s.(closed := true, receivers := [], got := Tell(s.got, s.receivers)))
  {
  }

  /** A channel along with everything it accepted. */
  ghost predicate Follows(s: State, accepted: seq<Message>, steps: seq<Step>, end: State, all: seq<Message>)
    decreases |steps|
  {
    if steps == [] then end == s && all == accepted
    else
      Enabled(s, steps[0], accepted) && NeverBlocks(s, steps[0]) && Next(s, steps[0]).Some? &&
      Follows(Next(s, steps[0]).value, Accepted(s, steps[0], accepted), steps[1..], end, all)
  }

  /**
    In every run of an unbuffered channel, and of a buffered one on which no Send blocks: what was accepted is what was
    delivered followed by what is buffered or queued, in order; and receivers only wait when there is nothing to receive.
   */
  lemma {:induction false} RunKeepsLaw(s: State, accepted: seq<Message>, steps: seq<Step>, end: State,
                                       all: seq<Message>)
    requires Orderly(s) && Law(s, accepted) && (s.size > 0 ==> s.senders == []) && Follows(s, accepted, steps, end, all)
    ensures Orderly(end) && Law(end, all)
    decreases |steps|
  {
    hide Orderly, Law, Next, Accepted, Enabled, NeverBlocks;
    if steps != [] {
      StepKeepsLaw(s, steps[0], accepted);
      RunKeepsLaw(Next(s, steps[0]).value, Accepted(s, steps[0], accepted), steps[1..], end, all);
    }
  }

  lemma NewChannelLawful(size: nat, steps: seq<Step>, end: State, all: seq<Message>)
    requires Follows(NewChannel(size), [], steps, end, all)
    ensures all == end.delivered + end.buffer + end.senders
    ensures end.receivers != [] ==> end.buffer == [] && end.senders == [] && !end.closed
  {
    hide Follows;
    RunKeepsLaw(NewChannel(size), [], steps, end, all);
  }

  // ---------- what receivers are handed ----------

  /** What a receive step returns to its caller; a receiver that has to wait, and any other step, gets nothing. */
  function Result(s: State, step: Step): Polled {
    match step
    case Receive(_) => TryReceive(s).1
    case ReceiveNonblocking => TryReceive(s).1
    case ResumeReceive(r) =>
      if r !in s.got then TryReceive(s).1 else if s.got[r].Some? then Value(s.got[r].value) else Ended
    case _ => Nothing
  }

  /** The value that a waiting receiver is told in a step, if one is. */
  function Served(s: State, t: State): seq<Message> {
    if s.receivers != [] && s.receivers[0] in t.got && t.got[s.receivers[0]].Some? then [t.got[s.receivers[0]].value] else []
  }

  /**
    The values handed out in a step: the one a receive step takes from the channel and returns, or the one a
    waiting receiver is told. What that receiver returns once it is resumed was counted then.
   */
  function Handed(s: State, step: Step, t: State): seq<Message> {
    match step
    case Receive(_) => Values(Result(s, step))
    case ReceiveNonblocking => Values(Result(s, step))
    case ResumeReceive(r) => if r in s.got then [] else Values(Result(s, step))
    case Send(_) => Served(s, t)
    case SendNonblocking(_) => Served(s, t)
    case ResumeSend(_) => Served(s, t)
    case Close => Served(s, t)
  }

  function Values(polled: Polled): seq<Message> {
    if polled.Value? then [polled.message] else []
  }

  /** All values handed out in a run, in order. */
  function Received(s: State, steps: seq<Step>): seq<Message>
    decreases |steps|
  {
    if steps == [] || Next(s, steps[0]).None? then []
    else
      var t := Next(s, steps[0]).value;
      Handed(s, steps[0], t) + Received(t, steps[1..])
  }

  /** A step delivers exactly what it hands out. */
  lemma StepHandsOut(s: State, step: Step)
    requires Orderly(s) && Next(s, step).Some?
    ensures Next(s, step).value.delivered == s.delivered + Handed(s, step, Next(s, step).value)
  {
    if s.receivers != [] {
      assert s.receivers[0] in s.receivers;
    }
  }

  lemma {:induction false} RunHandsOut(s: State, accepted: seq<Message>, steps: seq<Step>, end: State,
                                       all: seq<Message>)
    requires Orderly(s) && Law(s, accepted) && (s.size > 0 ==> s.senders == []) && Follows(s, accepted, steps, end, all)
    ensures end.delivered == s.delivered + Received(s, steps)
    decreases |steps|
  {
    hide Orderly, Law, Next, Accepted, Enabled, NeverBlocks, Handed;
    if steps != [] {
      var t := Next(s, steps[0]).value;
      StepHandsOut(s, steps[0]);
      StepKeepsLaw(s, steps[0], accepted);
      RunHandsOut(t, Accepted(s, steps[0], accepted), steps[1..], end, all);
      assert s.delivered + Handed(s, steps[0], t) + Received(t, steps[1..]) == s.delivered + Received(s, steps);
    }
  }

  /** So from a new channel on, the accepted values are those received, in order, then the buffer, then the blocked senders. */
  lemma AcceptedAreReceived(size: nat, steps: seq<Step>, end: State, all: seq<Message>)
    requires Follows(NewChannel(size), [], steps, end, all)
    ensures all == Received(NewChannel(size), steps) + end.buffer + end.senders
  {
    hide Follows, Received;
    RunKeepsLaw(NewChannel(size), [], steps, end, all);
    RunHandsOut(NewChannel(size), [], steps, end, all);
  }

  /** Told `None`, a receiver knows that the channel is closed and has nothing left. */
  predicate EndsKnown(s: State) {
    && (s.closed ==> s.senders == [])
    && (forall r :: r in s.got && s.got[r].None? ==> s.closed && s.buffer == [])
  }

  lemma StepKeepsEnds(s: State, step: Step, accepted: seq<Message>)
    requires Orderly(s) && EndsKnown(s) && Enabled(s, step, accepted) && Next(s, step).Some?
    ensures EndsKnown(Next(s, step).value)
  {
  }

  /** In every run, a receiver is told that the channel ended only if it is closed, and every accepted value was received. */
  lemma {:induction false} EndedMeansDrained(s: State, accepted: seq<Message>, steps: seq<Step>, end: State,
                                             all: seq<Message>, last: Step)
    requires Orderly(s) && EndsKnown(s) && Law(s, accepted) && (s.size > 0 ==> s.senders == [])
    requires Follows(s, accepted, steps, end, all) && Enabled(end, last, all) && Result(end, last).Ended?
    ensures end.closed && end.buffer == [] && end.senders == []
    ensures all == s.delivered + Received(s, steps)
    decreases |steps|
  {
    hide Orderly, Law, Next, Accepted, Enabled, NeverBlocks, EndsKnown;
    RunHandsOut(s, accepted, steps, end, all);
    RunKeepsLaw(s, accepted, steps, end, all);
    RunKeepsEnds(s, accepted, steps, end, all);
    EndedNow(end, all, last);
  }

  lemma {:induction false} RunKeepsEnds(s: State, accepted: seq<Message>, steps: seq<Step>, end: State,
                                        all: seq<Message>)
    requires Orderly(s) && EndsKnown(s) && Law(s, accepted) && (s.size > 0 ==> s.senders == [])
    requires Follows(s, accepted, steps, end, all)
    ensures EndsKnown(end)
    decreases |steps|
  {
    hide Orderly, Law, Next, Accepted, Enabled, NeverBlocks, EndsKnown;
    if steps != [] {
      StepKeepsLaw(s, steps[0], accepted);
      StepKeepsEnds(s, steps[0], accepted);
      RunKeepsEnds(Next(s, steps[0]).value, Accepted(s, steps[0], accepted), steps[1..], end, all);
    }
  }

  lemma EndedNow(s: State, accepted: seq<Message>, last: Step)
    requires EndsKnown(s) && Law(s, accepted) && Result(s, last).Ended?
    ensures s.closed && s.buffer == [] && s.senders == [] && accepted == s.delivered
  {
  }

  /** A receiver that was served while it waited returns exactly the value it was told then, however late it is resumed. */
  lemma {:induction false} ServedReturns(s: State, accepted: seq<Message>, steps: seq<Step>, end: State,
                                         all: seq<Message>, r: nat)
    requires Orderly(s) && Law(s, accepted) && (s.size > 0 ==> s.senders == []) && Follows(s, accepted, steps, end, all)
    requires r in s.got
    ensures Result(end, ResumeReceive(r)) == if s.got[r].Some? then Value(s.got[r].value) else Ended
    decreases |steps|
  {
    hide Law, Accepted, Enabled, NeverBlocks;
    if steps != [] {
      StepKeepsLaw(s, steps[0], accepted);
      ToldStays(s, steps[0], r);
      ServedReturns(Next(s, steps[0]).value, Accepted(s, steps[0], accepted), steps[1..], end, all, r);
    }
  }

  lemma ToldStays(s: State, step: Step, r: nat)
    requires Orderly(s) && Next(s, step).Some? && r in s.got
    ensures r in Next(s, step).value.got && Next(s, step).value.got[r] == s.got[r]
  {
  }

  /** Receiving from a closed channel first drains the buffer, in order, and then always ends. */
  lemma {:induction false} ClosedDrains(s: State, n: nat)
    requires s.closed && n <= |s.buffer|
    ensures
      var t := Drain(s, n);
      && t.buffer == s.buffer[n..] && t.delivered == s.delivered + s.buffer[..n] && t.closed
      && (n == |s.buffer| ==> TryReceive(t) == (t, Ended))
    decreases n
  {
    if n > 0 {
      ClosedDrains(s, n - 1);
      var t := Drain(s, n - 1);
      assert t.buffer[0] == s.buffer[n - 1];
      assert s.buffer[..n - 1] + [s.buffer[n - 1]] == s.buffer[..n];
      assert s.delivered + s.buffer[..n - 1] + [s.buffer[n - 1]] == s.delivered + s.buffer[..n];
    }
  }

  function Drain(s: State, n: nat): State {
    if n == 0 then s else TryReceive(Drain(s, n - 1)).0
  }

  // ---------- where the law ends ----------

  /** A resumed Send keeps the law exactly if the buffer has no room: otherwise its value is there twice. */
  lemma ResumeKeepsLawIff(s: State, m: Message, accepted: seq<Message>)
    requires Orderly(s) && Law(s, accepted) && m in s.senders && !s.closed
    ensures Next(s, ResumeSend(m)).Some?
    ensures Law(Next(s, ResumeSend(m)).value, accepted) <==> |s.buffer| >= s.size
  {
    var t := Next(s, ResumeSend(m)).value;
    assert |s.buffer| < s.size ==> |t.delivered + t.buffer + t.senders| == |accepted| + 1;
  }

  /** A new Send keeps the law exactly if it does not overtake a blocked one. */
  lemma SendKeepsLawIff(s: State, m: Message, accepted: seq<Message>)
    requires Orderly(s) && Law(s, accepted) && Enabled(s, Send(m), accepted) && !s.closed
    ensures Next(s, Send(m)).Some?
    ensures Law(Next(s, Send(m)).value, accepted + [m]) <==> s.senders == [] || |s.buffer| >= s.size
  {
    var t := Next(s, Send(m)).value;
    if s.senders != [] && |s.buffer| < s.size {
      var n := |s.delivered| + |s.buffer|;
      assert (t.delivered + t.buffer + t.senders)[n] == m;
      assert accepted[n] == s.senders[0] && s.senders[0] in accepted;
    }
  }

  /** Two sends to a channel of size one: the second value is received twice. */
  lemma BlockedValueDeliveredTwice()
    ensures
      var a, b := Message(1, 10), Message(2, 20);
      var s1 := Next(NewChannel(1), Send(a)).value;
      var s2 := Next(s1, Send(b)).value;
      var s3 := Next(s2, ReceiveNonblocking).value;
      var s4 := Next(s3, ResumeSend(b)).value;
      var s5 := Next(s4, ReceiveNonblocking).value;
      var s6 := Next(s5, ReceiveNonblocking).value;
      s6.delivered == [a, b, b]
  {
  }

  // ---------- the channel itself ----------

  lemma TellNone(got: map<nat, Option<Message>>, receivers: seq<nat>)
    ensures Tell(got, receivers[..0]) == got && receivers[0..] == receivers
  {
  }

  lemma TellMore(got: map<nat, Option<Message>>, receivers: seq<nat>, n: nat)
    requires n < |receivers|
    ensures Tell(got, receivers[..n])[receivers[n] := None] == Tell(got, receivers[..n + 1])
    ensures receivers[n..] != [] && receivers[n..][0] == receivers[n] && receivers[n..][1..] == receivers[n + 1..]
  {
    assert receivers[..n + 1] == receivers[..n] + [receivers[n]];
  }

  lemma TellAll(got: map<nat, Option<Message>>, receivers: seq<nat>)
    ensures forall r :: r in receivers ==> r in Tell(got, receivers) && Tell(got, receivers)[r].None?
  {
  }

  class Channel {
    var c: seq<Message>
    var receivers: seq<nat>
    var senders: seq<Message>
    var closed: bool
    const size: nat
    var sent: set<nat>
    var got: map<nat, Option<Message>>
    ghost var delivered: seq<Message>

    ghost function Contents(): State
      reads this
    {
      State(c, receivers, senders, closed, size, sent, got, delivered)
    }

    constructor (size: nat)
      ensures Contents() == NewChannel(size)
    {
      this.size := size;
      c, receivers, senders, closed, sent, got := [], [], [], false, {}, map[];
      delivered := [];
    }

    /** The first buffered value was taken, or else a closed channel ended, or else the first blocked sender was asked. */
    twostate predicate Takes(polled: Polled)
      reads this
    {
      if old(c) != [] then
        polled == Value(old(c)[0]) && c == old(c)[1..] && senders == old(senders) && sent == old(sent)
      else if old(closed) then polled == Ended && c == [] && senders == old(senders) && sent == old(sent)
      else if old(senders) != [] then
        polled == Value(old(senders)[0]) && c == [] && senders == old(senders)[1..] && sent == old(sent) + {old(senders)[0].id}
      else polled == Nothing && c == [] && senders == [] && sent == old(sent)
    }

    /** The first waiting receiver was told the value, or else it was buffered if there was room. */
    twostate predicate Gives(m: Message, ok: bool)
      reads this
    {
      if old(receivers) != [] then
        ok && receivers == old(receivers)[1..] && got == old(got)[old(receivers)[0] := Some(m)] && c == old(c)
      else if |old(c)| < size then ok && c == old(c) + [m] && receivers == [] && got == old(got)
      else !ok && c == old(c) && receivers == [] && got == old(got)
    }

    method TrySendValue(m: Message) returns (ok: bool)
      requires !closed
      modifies this
      ensures Contents() == TrySend(old(Contents()), m).0 && ok == TrySend(old(Contents()), m).1
      ensures Gives(m, ok) && senders == old(senders) && sent == old(sent) && closed == old(closed)
    {
      if |receivers| > 0 {
        var r := receivers[0];
        receivers := receivers[1..];
        got := got[r := Some(m)];
        delivered := delivered + [m];
        return true;
      }
      if |c| < size {
        c := c + [m];
        return true;
      }
      return false;
    }

    method TryReceiveValue() returns (polled: Polled)
      modifies this
      ensures Contents() == TryReceive(old(Contents())).0 && polled == TryReceive(old(Contents())).1
      ensures Takes(polled) && receivers == old(receivers) && got == old(got) && closed == old(closed)
    {
      if |c| > 0 {
        var m := c[0];
        c := c[1..];
        delivered := delivered + [m];
        return Value(m);
      }
      if closed {
        return Ended;
      }
      if |senders| > 0 {
        var m := senders[0];
        senders := senders[1..];
        sent := sent + {m.id};
        delivered := delivered + [m];
        return Value(m);
      }
      return Nothing;
    }

    /** Send up to the first yield. The result says whether the call returned; `ok` is false for a panic. */
    method SendValue(m: Message) returns (ok: bool, returned: bool)
      modifies this
      ensures ok == Next(old(Contents()), Send(m)).Some?
      ensures Contents() == if ok then Next(old(Contents()), Send(m)).value else old(Contents())
      ensures ok <==> !old(closed)
      ensures ok ==> Gives(m, returned) && senders == old(senders) + if returned then [] else [m]
    {
      if closed {
        return false, false;
      }
      ok := true;
      returned := TrySendValue(m);
      if !returned {
        senders := senders + [m];
      }
    }

    /** A blocked Send continues after a yield. */
    method ResumeSendValue(m: Message) returns (ok: bool, returned: bool)
      modifies this
      ensures ok == Next(old(Contents()), ResumeSend(m)).Some?
      ensures Contents() == if ok then Next(old(Contents()), ResumeSend(m)).value else old(Contents())
      ensures ok <==> m.id in old(sent) || !old(closed)
      ensures if m.id in old(sent) then returned && Contents() == old(Contents())
              else if ok then Gives(m, returned) && senders == old(senders) else Contents() == old(Contents())
    {
      if m.id in sent {
        return true, true;
      }
      if closed {
        return false, false;
      }
      ok := true;
      returned := TrySendValue(m);
    }

    method SendNonblockingValue(m: Message) returns (ok: bool, sent: bool)
      modifies this
      ensures ok == Next(old(Contents()), SendNonblocking(m)).Some?
      ensures Contents() == if ok then Next(old(Contents()), SendNonblocking(m)).value else old(Contents())
      ensures ok <==> !old(closed)
      ensures ok ==> Gives(m, sent) && senders == old(senders)
    {
      if closed {
        return false, false;
      }
      ok := true;
      sent := TrySendValue(m);
    }

    method ReceiveNonblockingValue() returns (polled: Polled)
      modifies this
      ensures Next(old(Contents()), ReceiveNonblocking) == Some(Contents())
      ensures polled == Result(old(Contents()), ReceiveNonblocking)
      ensures Takes(polled)
    {
      polled := TryReceiveValue();
    }

    /** Receive up to the first yield; Nothing says that the receiver waits. */
    method ReceiveValue(r: nat) returns (polled: Polled)
      modifies this
      ensures Next(old(Contents()), Receive(r)) == Some(Contents())
      ensures polled == Result(old(Contents()), Receive(r))
      ensures Takes(polled) && receivers == old(receivers) + if polled.Nothing? then [r] else []
    {
      polled := TryReceiveValue();
      if polled.Nothing? {
        receivers := receivers + [r];
      }
    }

    /** A blocked Receive continues after a yield. */
    method ResumeReceiveValue(r: nat) returns (polled: Polled)
      modifies this
      ensures Next(old(Contents()), ResumeReceive(r)) == Some(Contents())
      ensures polled == Result(old(Contents()), ResumeReceive(r))
      ensures r !in old(got) ==> Takes(polled)
      ensures r in old(got) ==> polled == if old(got)[r].Some? then Value(old(got)[r].value) else Ended
    {
      if r in got {
        return match got[r] case Some(m) => Value(m) case None => Ended;
      }
      polled := TryReceiveValue();
    }

    /** Closes the channel and tells every waiting receiver; `ok` is false for the panic if a Send is blocked. */
    method CloseChannel() returns (ok: bool)
      modifies this
      ensures ok == Next(old(Contents()), Close).Some? && closed && (ok <==> old(senders) == [])
      ensures ok ==> c == old(c) && receivers == [] && forall r :: r in old(receivers) ==> r in got && got[r].None?
      ensures ok ==> Contents() == Next(old(Contents()), Close).value
    {
      hide Tell;
      closed := true;
      if |senders| > 0 {
        return false;
      }
      ghost var all, start, told := receivers, got, 0;
      TellNone(got, receivers);
      while |receivers| > 0
        invariant told <= |all| && receivers == all[told..] && got == Tell(start, all[..told])
        invariant Contents() == old(Contents()).(closed := true, receivers := receivers, got := got)
        decreases |receivers|
      {
        TellMore(start, all, told);
        var r := receivers[0];
        receivers := receivers[1..];
        got := got[r := None];
        told := told + 1;
      }
      assert receivers == [];
      assert all[..told] == all;
      TellAll(start, all);
      return true;
    }
  }
}
