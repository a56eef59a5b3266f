/** The same protocol on the isolated backend: a child process that runs the guest, a supervisor that
    relays frames and replies under round counters and a bounded channel, and the BEAM side of the
    port. Every run that no limit cuts short is a run of the in-process backend. */
module Pipeline {
  import opened Text
  import opened Wrappers
  import opened Wire
  import opened BrokerRun
  import opened Flow
  import B = Broker
  import G = Bridge
  import I = InProcess

  /** What the child writes: a callbacks frame, or its one terminal event. */
  datatype Packet = Callbacks(frame: B.Frame) | Terminal(outcome: I.Outcome)

  datatype Reason = ByteBudget | ChannelFull | TooManyReplies | TooManyFrames

  datatype Pipe = Pipe(
    guest: G.Guest,
    child: I.Phase,              // running the guest, reading a completion, or done
    stdout: seq<Packet>,         // child to supervisor
    port: seq<Packet>,           // supervisor to BEAM
    result: Option<I.Outcome>,   // the terminal event the BEAM has decoded
    wire: seq<B.Frame>,          // BEAM to broker
    world: World,
    commands: seq<Completion>,   // BEAM to supervisor
    channel: seq<Completion>,    // the supervisor's reading thread to its writing thread
    stdin: seq<Completion>,      // supervisor to child
    replyRounds: nat,            // rounds the reply loop has used
    frameRounds: nat,            // rounds the frame loop has used
    late: bool,                  // a write to the child failed
    abort: Option<Reason>,       // why the supervisor gave up
    failure: Option<Kind>,       // why the BEAM gave up
    ended: Option<I.Outcome>)

  const Boot :=
    Pipe(G.Fresh, I.Running, [], [], None, [], Start, [], [], [], 0, 0, false, None, None, None)

  /** `trips` and `broken` stand for byte budgets and for the child's end of the pipe, which this
      model lets fail at any moment the operating system could. */
  datatype Event =
    | GuestCall(call: G.Call)
    | GuestYield(root: G.Root, fault: Option<Kind>, output: string)
    | Forward(trips: bool)       // the supervisor relays an event of the child
    | Decode                     // the BEAM decodes an event
    | Carry                      // a frame reaches the broker
    | Broker(event: BrokerRun.Event)
    | Send                       // the BEAM takes a signal of the broker
    | Relay(trips: bool)         // the supervisor reads a completion and queues it
    | Write(broken: bool)        // the supervisor writes a completion to the child
    | Read                       // the child reads a completion
    | Finish                     // exit status 0 reaches the BEAM
    | FinishLate                 // the failed write was noticed before the exit: status 125
    | GiveUp(kind: Kind)         // the caller or the deadline stops the run, and the child is killed
    | FinishFailed(overrun: bool) // the worker's end reaches a BEAM that has recorded a failure, which
                                 // worker output beyond the raw limit replaces
    | StopBroker

  predicate Active(p: Pipe) {
    p.abort.None? && p.failure.None? && p.ended.None?
  }

  predicate Enabled(p: Pipe, e: Event) {
    match e
    case GuestCall(c) => Active(p) && p.child.Running? && G.Atomic(c)
    case GuestYield(_, _, _) => Active(p) && p.child.Running?
    case Forward(_) => Active(p) && p.stdout != []
    case Decode => Active(p) && p.port != []
    case Carry => Active(p) && p.wire != []
    case Broker(b) => Active(p) && !b.Post? && !b.Take? && BrokerRun.Enabled(p.world, b)
    case Send => Active(p) && p.world.mail != []
    case Relay(_) => Active(p) && p.commands != [] && !p.late
    case Write(broken) => Active(p) && p.channel != [] && !p.late && (broken ==> p.child.Finished?)
    case Read => Active(p) && p.child.Waiting? && p.stdin != []
    case Finish => Active(p) && p.child.Finished? && p.stdout == [] && p.port == [] && p.result.Some?
    case FinishLate => Active(p) && p.late
    case GiveUp(kind) => Active(p) && (kind.Cancelled? || kind.Timeout?)
    case FinishFailed(_) => p.failure.Some? && p.ended.None?
    case StopBroker => p.abort.None? && p.failure.None? && p.ended.Some?
  }

  /** What the child writes after a step, given the driver's state before and after it. */
  function Written(after: I.System): seq<Packet> {
    if after.phase.Finished? then [Terminal(after.phase.outcome)]
    else if after.wire != [] then [Callbacks(after.wire[0])]
    else []
  }

  /** The child as an in-process driver with an empty wire. */
  function Child(p: Pipe): I.System {
    I.System(p.guest, p.child, [], p.world)
  }

  function Next(c: I.Config, p: Pipe, e: Event): Pipe
    requires Enabled(p, e)
  {
    match e
    case GuestCall(call) => p.(guest := G.CallEffect(c.limits, p.guest, call).0)
    case GuestYield(root, fault, output) =>
      var after := I.YieldNext(c, Child(p), I.GuestYield(root, fault, output));
      p.(guest := after.guest, child := after.phase, stdout := p.stdout + Written(after))
    case Forward(trips) => ForwardNext(c, p, trips)
    case Decode =>
      (match p.port[0]
       case Callbacks(frame) => p.(port := p.port[1..], wire := p.wire + [frame])
       case Terminal(outcome) => p.(port := p.port[1..], result := Some(outcome)))
    case Carry => p.(wire := p.wire[1..], world := p.world.(inbox := p.world.inbox + [B.Requests(p.wire[0])]))
    case Broker(b) => p.(world := BrokerRun.Next(c.limits, p.world, b))
    case Send =>
      (match p.world.mail[0]
       case CallbackReply(completion) =>
         p.(world := p.world.(mail := p.world.mail[1..]), commands := p.commands + [completion])
       case CallbackError(kind, _) =>
         p.(world := p.world.(mail := p.world.mail[1..]), failure := Some(kind)))
    case Relay(trips) => RelayNext(c, p, trips)
    case Write(broken) =>
      if broken then p.(late := true)
      else p.(channel := p.channel[1..], stdin := p.stdin + [p.channel[0]])
    case Read =>
      var (guest, phase) := I.Fed(c, p.guest, p.stdin[0]);
      p.(guest := guest, child := phase, stdin := p.stdin[1..],
         stdout := p.stdout + (if phase.Finished? then [Terminal(phase.outcome)] else []))
    case Finish => p.(ended := p.result)
    case FinishLate => p.(ended := Some(I.Errored(Cancelled)))
    case GiveUp(kind) => p.(failure := Some(kind))
    case FinishFailed(overrun) => p.(ended := Some(I.Errored(if overrun then WorkerError else p.failure.value)))
    case StopBroker => p.(world := p.world.(inbox := p.world.inbox + [B.Stop]))
  }

  /** One round of the frame loop, which has `max_callbacks + 2` of them. A terminal event ends it. */
  function ForwardNext(c: I.Config, p: Pipe, trips: bool): Pipe
    requires p.stdout != []
  {
    if trips then p.(abort := Some(ByteBudget))
    else if p.stdout[0].Callbacks? && p.frameRounds + 1 >= c.limits.maxCalls + 2 then
      p.(abort := Some(TooManyFrames))
    else
      p.(stdout := p.stdout[1..], port := p.port + [p.stdout[0]],
         frameRounds := p.frameRounds + (if p.stdout[0].Callbacks? then 1 else 0))
  }

  /** One round of the reply loop, which has `max_callbacks + 1` of them, and gives up when they are
      used or when the channel of capacity `max_callback_concurrency` is full. */
  function RelayNext(c: I.Config, p: Pipe, trips: bool): Pipe
    requires p.commands != []
  {
    if trips then p.(abort := Some(ByteBudget))
    else if |p.channel| >= c.limits.maxConcurrency then p.(abort := Some(ChannelFull))
    else if p.replyRounds + 1 >= c.limits.maxCalls + 1 then p.(abort := Some(TooManyReplies))
    else
      p.(commands := p.commands[1..], channel := p.channel + [p.commands[0]], replyRounds := p.replyRounds + 1)
  }

  // ---- The in-process system this one stands for ----

  function Frames(ps: seq<Packet>): seq<B.Frame> {
    if ps == [] then []
    else (if ps[0].Callbacks? then [ps[0].frame] else []) + Frames(ps[1..])
  }

  lemma {:induction false} FramesConcat(a: seq<Packet>, b: seq<Packet>)
    ensures Frames(a + b) == Frames(a) + Frames(b)
  {
    if a == [] {
      assert a + b == b;
    } else {
      assert (a + b)[0] == a[0] && (a + b)[1..] == a[1..] + b;
      FramesConcat(a[1..], b);
    }
  }

  /** Answers on their way from the BEAM to the guest, oldest first. */
  function Returning(p: Pipe): seq<Completion> {
    p.stdin + p.channel + p.commands
  }

  /** Requests on their way from the guest to the broker, oldest first. */
  function Leaving(p: Pipe): seq<B.Frame> {
    p.wire + Frames(p.port) + Frames(p.stdout)
  }

  /** Forget the relays: each side's queues joined end to end are one queue of the in-process
      backend. */
  function Seen(p: Pipe): I.System {
    I.System(p.guest, p.child, Leaving(p), p.world.(mail := Replies(Returning(p)) + p.world.mail))
  }

  lemma RepliesConcat(a: seq<Completion>, b: seq<Completion>)
    ensures Replies(a + b) == Replies(a) + Replies(b)
  {
  }

  /** The in-process step that an event of the pipeline performs; relays perform none. */
  function Image(e: Event): Option<I.Event> {
    match e
    case GuestCall(call) => Some(I.GuestCall(call))
    case GuestYield(root, fault, output) => Some(I.GuestYield(root, fault, output))
    case Carry => Some(I.Carry)
    case Broker(b) => Some(I.Broker(b))
    case Read => Some(I.Receive)
    case StopBroker => Some(I.StopBroker)
    case _ => None
  }

  /** `after` is what the image of `e` makes of `before`. */
  ghost predicate Simulates(c: I.Config, before: I.System, e: Event, after: I.System) {
    match Image(e)
    case None => after == before
    case Some(i) => I.Enabled(before, i) && I.Next(c, before, i) == after
  }

  // ---- Relays change nothing that the in-process system sees ----

  lemma ForwardStutters(c: I.Config, p: Pipe, trips: bool)
    requires Enabled(p, Forward(trips)) && Next(c, p, Forward(trips)).abort.None?
    ensures Seen(Next(c, p, Forward(trips))) == Seen(p)
  {
    var head := p.stdout[0];
    assert p.stdout == [head] + p.stdout[1..];
    FramesConcat([head], p.stdout[1..]);
    FramesConcat(p.port, [head]);
    hide Frames;
    AssociateFrames(p.wire, Frames(p.port), Frames([head]), Frames(p.stdout[1..]));
  }

  lemma AssociateFrames(a: seq<B.Frame>, b: seq<B.Frame>, c: seq<B.Frame>, d: seq<B.Frame>)
    ensures a + (b + c) + d == a + b + (c + d)
    ensures a + c + b + d == (a + c) + b + d
  {
  }

  lemma DecodeStutters(c: I.Config, p: Pipe)
    requires Enabled(p, Decode)
    ensures Seen(Next(c, p, Decode)) == Seen(p)
  {
    var head := p.port[0];
    assert p.port == [head] + p.port[1..];
    FramesConcat([head], p.port[1..]);
    assert Frames([head]) == if head.Callbacks? then [head.frame] else [] by {
      assert [head][1..] == [];
    }
    hide Frames;
    AssociateFrames(p.wire, Frames([head]), Frames(p.port[1..]), Frames(p.stdout));
  }

  lemma SendStutters(c: I.Config, p: Pipe)
    requires Enabled(p, Send) && Next(c, p, Send).failure.None?
    ensures Seen(Next(c, p, Send)) == Seen(p)
  {
    var head := p.world.mail[0].completion;
    RepliesConcat(Returning(p), [head]);
    assert Replies([head]) == [p.world.mail[0]];
    hide Replies, Frames;
    var after := Next(c, p, Send);
    assert Returning(after) == Returning(p) + [head];
    assert p.world.mail == [p.world.mail[0]] + p.world.mail[1..];
    assert Replies(Returning(p)) + [p.world.mail[0]] + p.world.mail[1..] == Replies(Returning(p)) + p.world.mail;
  }

  lemma RelayStutters(c: I.Config, p: Pipe, trips: bool)
    requires Enabled(p, Relay(trips)) && Next(c, p, Relay(trips)).abort.None?
    ensures Seen(Next(c, p, Relay(trips))) == Seen(p)
  {
    hide Replies, Frames;
    var after := Next(c, p, Relay(trips));
    assert Returning(after) == Returning(p);
  }

  lemma WriteStutters(c: I.Config, p: Pipe, broken: bool)
    requires Enabled(p, Write(broken))
    ensures Seen(Next(c, p, Write(broken))) == Seen(p)
  {
    hide Replies, Frames;
    var after := Next(c, p, Write(broken));
    assert Returning(after) == Returning(p);
  }

  // ---- Steps of the guest and the broker ----

  /** What a step writes to the wire does not depend on what is there, nor on the broker. */
  lemma YieldOnWire(c: I.Config, s: I.System, other: I.System, e: I.Event)
    requires e.GuestYield? && s.guest == other.guest && s.phase == other.phase && other.wire == []
    ensures var after := I.YieldNext(c, s, e);
            var small := I.YieldNext(c, other, e);
            && after.guest == small.guest && after.phase == small.phase && after.world == s.world
            && after.wire == s.wire + small.wire && |small.wire| <= 1
            && (small.wire != [] ==> !small.phase.Finished?)
  {
    hide I.Judged, I.FrameOf;
    assert s.wire + [] == s.wire;
    var (guest, progress) := I.Judged(c, s.guest, e.root, e.fault);
    if progress.Pending? {
      assert other.wire + [I.FrameOf(c, progress.requests)] == [I.FrameOf(c, progress.requests)];
    }
  }

  lemma WrittenFrames(after: I.System)
    requires |after.wire| <= 1 && (after.wire != [] ==> !after.phase.Finished?)
    ensures Frames(Written(after)) == after.wire
  {
    assert Written(after) != [] ==> Written(after)[1..] == [];
  }

  lemma YieldSimulates(c: I.Config, p: Pipe, e: Event)
    requires e.GuestYield? && Enabled(p, e)
    ensures Simulates(c, Seen(p), e, Seen(Next(c, p, e)))
  {
    var i := I.GuestYield(e.root, e.fault, e.output);
    var small := I.YieldNext(c, Child(p), i);
    YieldOnWire(c, Seen(p), Child(p), i);
    WrittenFrames(small);
    FramesConcat(p.stdout, Written(small));
    hide I.YieldNext, Replies, Frames, Written;
    AssociateTwo(p.wire + Frames(p.port), Frames(p.stdout), small.wire);
  }

  lemma AssociateTwo(a: seq<B.Frame>, b: seq<B.Frame>, c: seq<B.Frame>)
    ensures a + (b + c) == a + b + c
  {
  }

  lemma CarrySimulates(c: I.Config, p: Pipe)
    requires Enabled(p, Carry)
    ensures Simulates(c, Seen(p), Carry, Seen(Next(c, p, Carry)))
  {
    hide Replies, Frames;
    assert Leaving(p)[0] == p.wire[0];
    assert Leaving(p)[1..] == p.wire[1..] + Frames(p.port) + Frames(p.stdout);
  }

  /** The broker never looks at what it has already sent. */
  lemma MailFrame(l: Limits, w: World, e: BrokerRun.Event, sent: seq<Signal>)
    requires BrokerRun.Enabled(w, e) && !e.Take?
    ensures var prefixed := w.(mail := sent + w.mail);
            var after := BrokerRun.Next(l, w, e);
            BrokerRun.Enabled(prefixed, e)
            && BrokerRun.Next(l, prefixed, e) == after.(mail := sent + after.mail)
  {
    hide B.React, B.Invoke, Replies, Errors;
    if e.Handle? {
      var r := B.React(l, w.broker, w.inbox[0]);
      assert sent + w.mail + Replies(r.replies) + Errors(r.ending)
          == sent + (w.mail + Replies(r.replies) + Errors(r.ending));
    }
  }

  lemma BrokerSimulates(c: I.Config, p: Pipe, b: BrokerRun.Event)
    requires Enabled(p, Broker(b))
    ensures Simulates(c, Seen(p), Broker(b), Seen(Next(c, p, Broker(b))))
  {
    MailFrame(c.limits, p.world, b, Replies(Returning(p)));
    hide BrokerRun.Next, BrokerRun.Enabled, Replies, Frames;
  }

  lemma HeadReply(head: Completion, rest: seq<Completion>, mail: seq<Signal>)
    ensures var all := Replies([head] + rest) + mail;
            all[0] == CallbackReply(head) && all[1..] == Replies(rest) + mail
  {
    RepliesConcat([head], rest);
    assert Replies([head]) == [CallbackReply(head)];
  }

  lemma TerminalHasNoFrame(ps: seq<Packet>, phase: I.Phase)
    ensures Frames(ps + (if phase.Finished? then [Terminal(phase.outcome)] else [])) == Frames(ps)
  {
    if phase.Finished? {
      FramesConcat(ps, [Terminal(phase.outcome)]);
      assert [Terminal(phase.outcome)][1..] == [];
    } else {
      assert ps + [] == ps;
    }
  }

  lemma ReadSimulates(c: I.Config, p: Pipe)
    requires Enabled(p, Read)
    ensures Simulates(c, Seen(p), Read, Seen(Next(c, p, Read)))
  {
    hide Replies, Frames, I.Fed;
    var head := p.stdin[0];
    var rest := p.stdin[1..] + p.channel + p.commands;
    assert Returning(p) == [head] + rest;
    HeadReply(head, rest, p.world.mail);
    var (guest, phase) := I.Fed(c, p.guest, head);
    TerminalHasNoFrame(p.stdout, phase);
  }

  /** A failed write happens only after the child is done, and so does the end of the run. */
  ghost predicate Ordered(p: Pipe) {
    && (p.late ==> p.child.Finished?)
    && (p.ended.Some? && p.failure.None? ==> p.child.Finished?)
  }

  /** One step of the pipeline that trips no limit and meets no broker failure is one step of the
      in-process backend, or none. */
  lemma StepSimulates(c: I.Config, p: Pipe, e: Event)
    requires Enabled(p, e) && Ordered(p) && !e.FinishFailed?
    requires Next(c, p, e).abort.None? && Next(c, p, e).failure.None?
    ensures Simulates(c, Seen(p), e, Seen(Next(c, p, e))) && Ordered(Next(c, p, e))
  {
    hide Replies, Frames;
    match e
    case GuestCall(call) => hide G.CallEffect;
    case GuestYield(_, _, _) => YieldSimulates(c, p, e); hide Simulates, Seen, I.YieldNext, Written;
    case Forward(trips) => ForwardStutters(c, p, trips); hide Seen;
    case Decode => DecodeStutters(c, p); hide Seen;
    case Carry => CarrySimulates(c, p); hide Simulates, Seen;
    case Broker(b) => BrokerSimulates(c, p, b); hide Simulates, Seen, BrokerRun.Next;
    case Send => SendStutters(c, p); hide Seen;
    case Relay(trips) => RelayStutters(c, p, trips); hide Seen;
    case Write(broken) => WriteStutters(c, p, broken); hide Seen;
    case Read => ReadSimulates(c, p); hide Simulates, Seen, I.Fed;
    case StopBroker =>
    case _ =>
  }

  // ---- The pipeline's own invariant ----

  function Terminals(ps: seq<Packet>): seq<I.Outcome> {
    if ps == [] then []
    else (if ps[0].Terminal? then [ps[0].outcome] else []) + Terminals(ps[1..])
  }

  lemma {:induction false} TerminalsConcat(a: seq<Packet>, b: seq<Packet>)
    ensures Terminals(a + b) == Terminals(a) + Terminals(b)
  {
    if a == [] {
      assert a + b == b;
    } else {
      assert (a + b)[0] == a[0] && (a + b)[1..] == a[1..] + b;
      TerminalsConcat(a[1..], b);
    }
  }

  function Known(result: Option<I.Outcome>): seq<I.Outcome> {
    if result.Some? then [result.value] else []
  }

  /** The child's outcome is in exactly one place on its way to the BEAM, and nothing else is. */
  ghost predicate Placed(p: Pipe) {
    Known(p.result) + Terminals(p.port) + Terminals(p.stdout)
    == (if p.child.Finished? then [p.child.outcome] else [])
  }

  /** Each loop has used one round for every item that passed it. */
  ghost predicate Counted(p: Pipe) {
    && p.replyRounds == |p.guest.settled| + |p.stdin| + |p.channel|
    && p.frameRounds + |Frames(p.stdout)| <= |p.guest.settled| + 1
    && (!p.child.Finished? ==>
         p.frameRounds + |Frames(p.stdout)| == |p.guest.settled| + (if p.child.Waiting? then 1 else 0))
  }

  ghost predicate Concluded(p: Pipe) {
    && (p.late ==> p.child.Finished? && p.guest.pending != {})
    && (p.ended.Some? && p.failure.None? ==>
         && p.child.Finished?
         && (p.ended.value == p.child.outcome || (p.late && p.ended.value == I.Errored(Cancelled))))
  }

  ghost predicate Inv(c: I.Config, p: Pipe) {
    I.Inv(c, Seen(p)) && Placed(p) && Counted(p) && Concluded(p)
  }

  lemma BootInv(c: I.Config)
    ensures Inv(c, Boot)
  {
    I.BootInv(c);
    assert Seen(Boot) == I.Boot;
  }

  lemma ReturningIsPending(c: I.Config, p: Pipe)
    requires I.Inv(c, Seen(p))
    ensures |Returning(p)| <= c.limits.maxConcurrency
    ensures |p.guest.settled| + |Returning(p)| <= c.limits.maxCalls
    ensures Returning(p) != [] ==> p.guest.pending != {}
  {
    var s := Seen(p);
    var all := Returning(p);
    SumConcat(Replies(all), p.world.mail, SignalIds);
    I.CompletionsOfReplies(all);
    I.CompletionsConcat(Replies(all), p.world.mail);
    I.PartsUnder(multiset(p.guest.pending), Sum(p.guest.requests, RequestId), Sum(s.wire, FrameIds),
                 Sum(p.world.inbox, MsgIds), I.LiveSum(p.world), Sum(s.world.mail, SignalIds));
    SumSize(all, CompletionId);
    hide Sum, Replies, I.Completions, Returning, Leaving, Budgeted, I.QueuesHonest, I.Orderly, Frames;
    SizeUnderSet(Sum(all, CompletionId), p.guest.pending);
    assert p.world.answered == p.guest.settled + (all + I.Completions(p.world.mail));
    DistinctSize(p.world.answered);
    SubsetSize(B.Ids(p.world.answered), p.world.broker.seen);
  }

  lemma ForwardedTerminals(known: seq<I.Outcome>, port: seq<Packet>, stdout: seq<Packet>)
    requires stdout != []
    ensures known + Terminals(port + [stdout[0]]) + Terminals(stdout[1..])
         == known + Terminals(port) + Terminals(stdout)
  {
    TerminalsConcat(port, [stdout[0]]);
    TerminalsConcat([stdout[0]], stdout[1..]);
    assert stdout == [stdout[0]] + stdout[1..];
    hide Terminals;
    AssociateOutcomes(known, Terminals(port), Terminals([stdout[0]]), Terminals(stdout[1..]));
  }

  lemma AssociateOutcomes(a: seq<I.Outcome>, b: seq<I.Outcome>, c: seq<I.Outcome>, d: seq<I.Outcome>)
    ensures a + (b + c) + d == a + b + (c + d)
  {
  }

  lemma ForwardCounted(c: I.Config, p: Pipe)
    requires Placed(p) && Counted(p) && p.stdout != []
    ensures var after := p.(stdout := p.stdout[1..], port := p.port + [p.stdout[0]],
                            frameRounds := p.frameRounds + (if p.stdout[0].Callbacks? then 1 else 0));
            Placed(after) && Counted(after)
  {
    ForwardedTerminals(Known(p.result), p.port, p.stdout);
    assert |Frames(p.stdout)| == (if p.stdout[0].Callbacks? then 1 else 0) + |Frames(p.stdout[1..])|;
    hide Terminals, Frames, Known;
  }

  lemma DecodePlaced(c: I.Config, p: Pipe)
    requires Placed(p) && Enabled(p, Decode)
    ensures Placed(Next(c, p, Decode))
  {
    var head := p.port[0];
    assert Terminals(p.port) == (if head.Terminal? then [head.outcome] else []) + Terminals(p.port[1..]);
    hide Terminals;
    if head.Terminal? {
      var known := Known(p.result);
      assert |known| + |Terminals(p.port)| + |Terminals(p.stdout)| <= 1;
      assert known == [] && |Terminals(p.port)| == 1;
      assert Terminals(p.port) == [head.outcome];
    } else {
      assert Terminals(p.port) == Terminals(p.port[1..]);
    }
  }

  lemma YieldPlaced(c: I.Config, p: Pipe, e: Event)
    requires Placed(p) && Counted(p) && e.GuestYield? && Enabled(p, e)
    ensures Placed(Next(c, p, e)) && Counted(Next(c, p, e))
  {
    var i := I.GuestYield(e.root, e.fault, e.output);
    var small := I.YieldNext(c, Child(p), i);
    YieldOnWire(c, Child(p), Child(p), i);
    WrittenFrames(small);
    YieldWrites(c, Child(p), i);
    FramesConcat(p.stdout, Written(small));
    TerminalsConcat(p.stdout, Written(small));
    assert Written(small)[1..] == [];
    assert Terminals(Written(small)) == if small.phase.Finished? then [small.phase.outcome] else [];
    hide I.YieldNext, Frames, Terminals, Written;
  }

  lemma YieldWrites(c: I.Config, s: I.System, e: I.Event)
    requires e.GuestYield? && s.wire == []
    ensures var after := I.YieldNext(c, s, e);
            && after.guest.settled == s.guest.settled && after.guest.pending == s.guest.pending
            && (if after.phase.Finished? then after.wire == [] else after.phase.Waiting? && |after.wire| == 1)
  {
    hide I.FrameOf, G.Judge;
  }

  lemma ReadCounted(c: I.Config, p: Pipe)
    requires I.Proper(c) && Inv(c, p) && Enabled(p, Read)
    ensures Placed(Next(c, p, Read)) && Counted(Next(c, p, Read))
  {
    hide I.Inv, Seen, I.Fed, Frames, Terminals, Known;
    ReadResumes(c, p);
    hide Inv, Concluded;
    var (guest, phase) := I.Fed(c, p.guest, p.stdin[0]);
    assert p.stdout + [] == p.stdout;
    ReadKeepsCounts(p, guest);
  }

  lemma ReadKeepsCounts(p: Pipe, guest: G.Guest)
    requires Placed(p) && Counted(p) && p.child.Waiting? && p.stdin != []
    requires |guest.settled| == |p.guest.settled| + 1
    ensures var after := p.(guest := guest, child := I.Running, stdin := p.stdin[1..]);
            Placed(after) && Counted(after)
  {
    hide Frames, Terminals, Known;
  }

  lemma ReadResumes(c: I.Config, p: Pipe)
    requires I.Proper(c) && I.Inv(c, Seen(p)) && Enabled(p, Read)
    ensures var (guest, phase) := I.Fed(c, p.guest, p.stdin[0]);
            phase.Running? && |guest.settled| == |p.guest.settled| + 1
  {
    hide I.Inv, I.Fed, Replies, Frames, G.Sound;
    SeenHead(p);
    I.AnswerIsTaken(c, Seen(p));
    var s := Seen(p);
    assert I.ReceiveNext(c, s) == I.Answered(s);
  }

  lemma SeenHead(p: Pipe)
    requires p.stdin != [] && p.child.Waiting?
    ensures var s := Seen(p);
            I.Enabled(s, I.Receive) && s.world.mail[0] == CallbackReply(p.stdin[0])
  {
    hide Frames;
    assert Returning(p)[0] == p.stdin[0];
  }

  /** In a state the invariant allows, the only limit that can trip is a byte budget: the channel has
      room, and neither loop runs out of rounds. */
  lemma OnlyByteBudgetsTrip(c: I.Config, p: Pipe, e: Event)
    requires Inv(c, p) && Enabled(p, e)
    ensures Next(c, p, e).abort == p.abort || Next(c, p, e).abort == Some(ByteBudget)
  {
    hide I.Inv, Seen, I.YieldNext, I.Fed, BrokerRun.Next, G.CallEffect, Placed, Concluded, Counted, Written;
    if e.Forward? {
      ReturningIsPending(c, p);
      ForwardHasRounds(c, p);
    } else if e.Relay? {
      RelayHasRoom(c, p);
    }
  }

  lemma RelayHasRoom(c: I.Config, p: Pipe)
    requires Inv(c, p) && p.commands != []
    ensures |p.channel| < c.limits.maxConcurrency && p.replyRounds + 1 <= c.limits.maxCalls
  {
    ReturningIsPending(c, p);
    hide I.Inv, Seen, Frames, Placed, Concluded;
    assert |Returning(p)| == |p.stdin| + |p.channel| + |p.commands|;
  }

  lemma ForwardHasRounds(c: I.Config, p: Pipe)
    requires Counted(p) && p.stdout != [] && |p.guest.settled| <= c.limits.maxCalls
    ensures p.stdout[0].Callbacks? ==> p.frameRounds + 1 < c.limits.maxCalls + 2
  {
  }

  lemma ForwardKeepsParts(c: I.Config, p: Pipe, trips: bool)
    requires Inv(c, p) && Enabled(p, Forward(trips)) && Next(c, p, Forward(trips)).abort.None?
    ensures var after := Next(c, p, Forward(trips)); Placed(after) && Counted(after) && Concluded(after)
  {
    hide I.Inv, Seen, Frames, Terminals, Placed, Counted;
    ForwardCounted(c, p);
  }

  lemma WriteKeepsParts(c: I.Config, p: Pipe, broken: bool)
    requires Inv(c, p) && Enabled(p, Write(broken))
    ensures var after := Next(c, p, Write(broken)); Placed(after) && Counted(after) && Concluded(after)
  {
    hide I.Inv, Seen, Frames, Terminals;
    ReturningIsPending(c, p);
    assert |Returning(p)| >= |p.channel|;
    hide Returning, Known;
  }

  lemma DecodeKeepsParts(c: I.Config, p: Pipe)
    requires Inv(c, p) && Enabled(p, Decode)
    ensures var after := Next(c, p, Decode); Placed(after) && Counted(after) && Concluded(after)
  {
    hide I.Inv, Seen, Frames, Terminals, Known, Placed;
    DecodePlaced(c, p);
  }

  lemma SendKeepsParts(c: I.Config, p: Pipe)
    requires Inv(c, p) && Enabled(p, Send) && Next(c, p, Send).failure.None?
    ensures var after := Next(c, p, Send); Placed(after) && Counted(after) && Concluded(after)
  {
    hide I.Inv, Seen, Frames, Terminals, Known;
  }

  lemma RelaysKeepParts(c: I.Config, p: Pipe, e: Event)
    requires Inv(c, p) && Enabled(p, e) && (e.Forward? || e.Relay? || e.Write? || e.Send? || e.Decode?)
    requires Next(c, p, e).abort.None? && Next(c, p, e).failure.None?
    ensures Placed(Next(c, p, e)) && Counted(Next(c, p, e)) && Concluded(Next(c, p, e))
  {
    hide Inv, Enabled, Placed, Counted, Concluded, Next;
    match e
    case Forward(trips) => ForwardKeepsParts(c, p, trips);
    case Decode => DecodeKeepsParts(c, p);
    case Write(broken) => WriteKeepsParts(c, p, broken);
    case Relay(trips) => RelayKeepsParts(c, p, trips);
    case Send => SendKeepsParts(c, p);
  }

  lemma RelayKeepsParts(c: I.Config, p: Pipe, trips: bool)
    requires Inv(c, p) && Enabled(p, Relay(trips)) && Next(c, p, Relay(trips)).abort.None?
    ensures var after := Next(c, p, Relay(trips)); Placed(after) && Counted(after) && Concluded(after)
  {
    hide I.Inv, Seen, Frames, Terminals, Known;
  }

  lemma FinishKeepsParts(c: I.Config, p: Pipe, e: Event)
    requires Inv(c, p) && Enabled(p, e) && (e.Finish? || e.FinishLate?)
    ensures Placed(Next(c, p, e)) && Counted(Next(c, p, e)) && Concluded(Next(c, p, e))
  {
    hide I.Inv, Seen, Frames;
    if e.Finish? {
      assert ([p.result.value] + Terminals(p.port) + Terminals(p.stdout))[0] == p.result.value;
    }
  }

  lemma OthersKeepParts(c: I.Config, p: Pipe, e: Event)
    requires I.Proper(c) && Inv(c, p) && Enabled(p, e)
    requires e.GuestCall? || e.GuestYield? || e.Carry? || e.Broker? || e.Read? || e.StopBroker?
    ensures Placed(Next(c, p, e)) && Counted(Next(c, p, e)) && Concluded(Next(c, p, e))
  {
    match e
    case GuestCall(call) =>
      G.AtomicCallEffect(c.limits, p.guest, call);
      hide G.CallEffect, I.Inv, Seen, Frames, Terminals;
    case GuestYield(_, _, _) =>
      YieldPlaced(c, p, e);
      hide I.Inv, Seen, Frames, Terminals, I.YieldNext, Placed, Counted;
    case Read =>
      ReadCounted(c, p);
      hide I.Inv, Seen, Frames, Terminals, I.Fed, Placed, Counted;
    case _ => hide I.Inv, Seen, Frames, Terminals, BrokerRun.Next;
  }

  lemma NextKeepsInv(c: I.Config, p: Pipe, e: Event)
    requires I.Proper(c) && Inv(c, p) && Enabled(p, e) && !e.FinishFailed?
    requires Next(c, p, e).abort.None? && Next(c, p, e).failure.None?
    ensures Inv(c, Next(c, p, e)) && Simulates(c, Seen(p), e, Seen(Next(c, p, e)))
  {
    StepSimulates(c, p, e);
    var after := Next(c, p, e);
    if Image(e).Some? {
      I.NextKeepsInv(c, Seen(p), Image(e).value);
      OthersKeepParts(c, p, e);
    } else if e.Finish? || e.FinishLate? {
      FinishKeepsParts(c, p, e);
    } else {
      RelaysKeepParts(c, p, e);
    }
    hide I.Inv, Next, Seen, Placed, Counted, Concluded;
  }

  // ---- Whole runs ----

  ghost predicate Possible(c: I.Config, p: Pipe, es: seq<Event>)
    decreases |es|
  {
    es == [] || (Enabled(p, es[0]) && Possible(c, Next(c, p, es[0]), es[1..]))
  }

  ghost function After(c: I.Config, p: Pipe, es: seq<Event>): Pipe
    requires Possible(c, p, es)
    decreases |es|
  {
    if es == [] then p else After(c, Next(c, p, es[0]), es[1..])
  }

  /** Once the supervisor or the BEAM has given up, nothing but the end of the run remains. */
  lemma {:induction false} GivenUp(c: I.Config, p: Pipe, es: seq<Event>)
    requires p.abort.Some? || p.failure.Some?
    requires Possible(c, p, es)
    ensures After(c, p, es).abort == p.abort && After(c, p, es).failure == p.failure
    decreases |es|
  {
    if es != [] {
      assert es[0].FinishFailed?;
      GivenUp(c, Next(c, p, es[0]), es[1..]);
    }
  }

  ghost predicate Unlimited(p: Pipe) {
    p.abort.None? && p.failure.None?
  }

  lemma FirstStep(c: I.Config, p: Pipe, es: seq<Event>)
    requires Unlimited(p) && Possible(c, p, es) && es != []
    ensures Enabled(p, es[0]) && !es[0].FinishFailed? && Possible(c, Next(c, p, es[0]), es[1..])
    ensures After(c, p, es) == After(c, Next(c, p, es[0]), es[1..])
  {
    hide Next;
  }

  lemma {:induction false} RunRefines(c: I.Config, p: Pipe, es: seq<Event>) returns (images: seq<I.Event>)
    requires I.Proper(c) && Inv(c, p) && Unlimited(p)
    requires Possible(c, p, es) && Unlimited(After(c, p, es))
    ensures Inv(c, After(c, p, es))
    ensures I.Possible(c, Seen(p), images) && I.After(c, Seen(p), images) == Seen(After(c, p, es))
    decreases |es|
  {
    if es == [] {
      images := [];
    } else {
      var e := es[0];
      hide Next, Enabled, Seen, Inv, I.Next, I.Enabled, I.Inv;
      FirstStep(c, p, es);
      var mid := Next(c, p, e);
      if !Unlimited(mid) {
        GivenUp(c, mid, es[1..]);
      }
      NextKeepsInv(c, p, e);
      var rest := RunRefines(c, mid, es[1..]);
      if Image(e).Some? {
        images := [Image(e).value] + rest;
        assert images[1..] == rest;
      } else {
        images := rest;
      }
    }
  }

  /** Backend refinement: whatever the scheduling of child, supervisor and BEAM, a run in which no
      limit trips and the broker does not fail is a run of the in-process backend, with the same
      guest, the same completions consumed in the same order, and the same outcome. */
  lemma IsolatedRefinesInProcess(c: I.Config, es: seq<Event>) returns (images: seq<I.Event>)
    requires I.Proper(c) && Possible(c, Boot, es) && Unlimited(After(c, Boot, es))
    ensures I.Possible(c, I.Boot, images)
    ensures var p := After(c, Boot, es);
            var s := I.After(c, I.Boot, images);
            && s.guest == p.guest && s.guest.settled == p.guest.settled && s.phase == p.child
            && (p.ended.Some? ==>
                 && s.phase.Finished?
                 && (p.ended.value == s.phase.outcome
                     || (p.late && p.ended.value == I.Errored(Cancelled) && p.guest.pending != {})))
  {
    BootInv(c);
    assert Seen(Boot) == I.Boot;
    images := RunRefines(c, Boot, es);
    hide Possible, After, I.Possible, I.After, I.Inv, Placed, Counted, Replies, Frames;
  }

  lemma {:induction false} FailureEnds(c: I.Config, p: Pipe, es: seq<Event>)
    requires p.failure.Some? && Possible(c, p, es)
    ensures After(c, p, es).guest == p.guest && After(c, p, es).child == p.child
    ensures After(c, p, es).failure == p.failure && Returning(After(c, p, es)) == Returning(p)
    decreases |es|
  {
    if es != [] {
      assert es[0].FinishFailed?;
      FailureEnds(c, Next(c, p, es[0]), es[1..]);
    }
  }

  /** A run that a broker failure or a cancellation ends is, up to that step, a run of the in-process
      backend. */
  lemma {:induction false} RunRefinesToFailure(c: I.Config, p: Pipe, es: seq<Event>)
      returns (images: seq<I.Event>, last: Pipe, e: Event)
    requires I.Proper(c) && Inv(c, p) && Unlimited(p) && Possible(c, p, es)
    requires After(c, p, es).failure.Some? && After(c, p, es).abort.None?
    ensures I.Possible(c, Seen(p), images) && I.After(c, Seen(p), images) == Seen(last)
    ensures Enabled(last, e) && (e.Send? || e.GiveUp?) && last.failure.None?
    ensures var end := After(c, p, es);
            && Next(c, last, e).failure == end.failure && last.guest == end.guest && last.child == end.child
            && Returning(Next(c, last, e)) == Returning(end)
    decreases |es|
  {
    hide Next, Enabled, Seen, Inv, I.Next, I.Enabled, I.Inv, Returning;
    FirstStep(c, p, es);
    var mid := Next(c, p, es[0]);
    if mid.failure.Some? {
      FailureEnds(c, mid, es[1..]);
      OnlySendAndGiveUp(c, p, es[0]);
      images, last, e := [], p, es[0];
    } else {
      if mid.abort.Some? {
        GivenUp(c, mid, es[1..]);
      }
      NextKeepsInv(c, p, es[0]);
      var rest;
      rest, last, e := RunRefinesToFailure(c, mid, es[1..]);
      if Image(es[0]).Some? {
        images := [Image(es[0]).value] + rest;
        assert images[1..] == rest;
      } else {
        images := rest;
      }
    }
  }

  lemma OnlySendAndGiveUp(c: I.Config, p: Pipe, e: Event)
    requires Enabled(p, e) && p.failure.None? && Next(c, p, e).failure.Some?
    ensures e.Send? || e.GiveUp?
    ensures Next(c, p, e).guest == p.guest && Next(c, p, e).child == p.child
  {
    hide I.YieldNext, I.Fed, G.CallEffect, BrokerRun.Next;
  }

  /** In-process, the broker's failure is the news after the answers still under way; with none under
      way the driver of a waiting guest ends with it. */
  ghost predicate FailureFollows(c: I.Config, s: I.System, returning: seq<Completion>, kind: Kind) {
    && |returning| < |s.world.mail| && s.world.mail[..|returning|] == Replies(returning)
    && (exists message: string :: s.world.mail[|returning|] == CallbackError(kind, message))
    && (s.phase.Waiting? && returning == [] ==>
         I.Enabled(s, I.Receive) && I.Next(c, s, I.Receive).phase == I.Finished(I.Errored(kind)))
  }

  /** In-process, a running guest can end with that fault, and a waiting driver with a cancellation. */
  ghost predicate StopFollows(c: I.Config, s: I.System, kind: Kind) {
    var stop := I.GuestYield(G.Unsettled, Some(kind), "");
    && (s.phase.Running? ==>
         I.Enabled(s, stop) && I.Next(c, s, stop).phase == I.Finished(I.Errored(kind)))
    && (s.phase.Waiting? && kind == Cancelled ==>
         I.Enabled(s, I.Cancel) && I.Next(c, s, I.Cancel).phase == I.Finished(I.Errored(kind)))
  }

  /** Runs that are stopped agree as well: the in-process backend has a run with the same guest, the
      same completions and the driver in the same position, from which the broker's failure, or the
      caller's cancellation or the deadline, ends it in the same way. */
  lemma StoppedRunsAgree(c: I.Config, es: seq<Event>) returns (images: seq<I.Event>)
    requires I.Proper(c) && Possible(c, Boot, es)
    requires After(c, Boot, es).failure.Some? && After(c, Boot, es).abort.None?
    ensures I.Possible(c, I.Boot, images)
    ensures var p := After(c, Boot, es);
            var s := I.After(c, I.Boot, images);
            var kind := p.failure.value;
            && s.guest == p.guest && s.phase == p.child
            && (if kind.Cancelled? || kind.Timeout? then StopFollows(c, s, kind)
                else FailureFollows(c, s, Returning(p), kind))
  {
    BootInv(c);
    assert Seen(Boot) == I.Boot;
    hide Inv, Possible, After, I.Possible, I.After, Next, Enabled, Seen, FailureFollows, StopFollows, Returning;
    var last, e;
    images, last, e := RunRefinesToFailure(c, Boot, es);
    var kind := Next(c, last, e).failure.value;
    SeenParts(last);
    StoppedInProcess(c, Seen(last), kind);
    if e.Send? {
      FailureIsNext(c, last);
    } else {
      GivenUpKind(c, last, e);
    }
  }

  lemma GivenUpKind(c: I.Config, p: Pipe, e: Event)
    requires e.GiveUp? && Enabled(p, e)
    ensures Next(c, p, e).failure == Some(e.kind) && (e.kind.Cancelled? || e.kind.Timeout?)
  {
  }

  lemma SeenParts(p: Pipe)
    ensures Seen(p).guest == p.guest && Seen(p).phase == p.child
  {
  }

  lemma FailureIsNext(c: I.Config, p: Pipe)
    requires Enabled(p, Send) && Next(c, p, Send).failure.Some? && p.failure.None?
    ensures Returning(Next(c, p, Send)) == Returning(p)
    ensures FailureFollows(c, Seen(p), Returning(p), Next(c, p, Send).failure.value)
  {
    hide Frames, Replies, I.Fed;
    RepliesLength(Returning(p));
    var error := p.world.mail[0];
    assert Seen(p).world.mail[|Returning(p)|] == CallbackError(error.kind, error.message);
  }

  lemma RepliesLength(cs: seq<Completion>)
    ensures |Replies(cs)| == |cs|
  {
  }

  lemma StoppedInProcess(c: I.Config, s: I.System, kind: Kind)
    ensures StopFollows(c, s, kind)
  {
    hide G.Report, G.Judge;
  }

  /** The one way the outcomes can differ, a reply written after the child is gone, needs a call that
      was still outstanding when the root settled. */
  lemma AwaitedRunsAgree(c: I.Config, es: seq<Event>) returns (images: seq<I.Event>)
    requires I.Proper(c) && Possible(c, Boot, es) && Unlimited(After(c, Boot, es))
    requires After(c, Boot, es).ended.Some? && After(c, Boot, es).guest.pending == {}
    ensures I.Possible(c, I.Boot, images)
    ensures I.After(c, I.Boot, images).phase == I.Finished(After(c, Boot, es).ended.value)
  {
    images := IsolatedRefinesInProcess(c, es);
  }

  /** In every run in which the broker does not fail, the supervisor's channel is never full at
      `try_send` and neither loop runs out of rounds; only a byte budget can cut the run short. */
  lemma {:induction false} LimitsSuffice(c: I.Config, p: Pipe, es: seq<Event>)
    requires I.Proper(c) && Inv(c, p) && Unlimited(p) && Possible(c, p, es)
    ensures After(c, p, es).abort.None? || After(c, p, es).abort == Some(ByteBudget)
    decreases |es|
  {
    if es != [] {
      hide Next, Enabled, Inv;
      FirstStep(c, p, es);
      var e := es[0];
      var mid := Next(c, p, e);
      OnlyByteBudgetsTrip(c, p, e);
      if Unlimited(mid) {
        NextKeepsInv(c, p, e);
        LimitsSuffice(c, mid, es[1..]);
      } else {
        GivenUp(c, mid, es[1..]);
      }
    }
  }

  ghost predicate Reachable(c: I.Config, p: Pipe) {
    exists es :: Possible(c, Boot, es) && After(c, Boot, es) == p
  }

  lemma BootReachable(c: I.Config)
    ensures Reachable(c, Boot)
  {
    assert Possible(c, Boot, []) && After(c, Boot, []) == Boot;
  }

  lemma StepReachable(c: I.Config, p: Pipe, e: Event)
    requires Reachable(c, p) && Enabled(p, e)
    ensures Reachable(c, Next(c, p, e))
  {
    hide Possible, After, Enabled, Next;
    var es :| Possible(c, Boot, es) && After(c, Boot, es) == p;
    RunOneMore(c, Boot, es, e);
  }

  lemma {:induction false} RunOneMore(c: I.Config, p: Pipe, es: seq<Event>, e: Event)
    requires Possible(c, p, es) && Enabled(After(c, p, es), e)
    ensures Possible(c, p, es + [e]) && After(c, p, es + [e]) == Next(c, After(c, p, es), e)
    decreases |es|
  {
    hide Enabled, Next;
    if es == [] {
      assert es + [e] == [e] && [e][1..] == [];
      var after := Next(c, p, e);
      assert Possible(c, after, []) && After(c, after, []) == after;
    } else {
      assert (es + [e])[0] == es[0] && (es + [e])[1..] == es[1..] + [e];
      RunOneMore(c, Next(c, p, es[0]), es[1..], e);
    }
  }

  /** One step before a run is a run. */
  lemma RunFirst(c: I.Config, p: Pipe, e: Event, es: seq<Event>)
    requires Enabled(p, e) && Possible(c, Next(c, p, e), es)
    ensures Possible(c, p, [e] + es) && After(c, p, [e] + es) == After(c, Next(c, p, e), es)
  {
    hide Enabled, Next;
    assert ([e] + es)[1..] == es;
  }

  /** Whatever is reached without a failure satisfies the invariant. */
  lemma ReachableInv(c: I.Config, p: Pipe)
    requires I.Proper(c) && Reachable(c, p) && Unlimited(p)
    ensures Inv(c, p)
  {
    hide Possible, After, Inv;
    var es :| Possible(c, Boot, es) && After(c, Boot, es) == p;
    BootInv(c);
    var _ := RunRefines(c, Boot, es);
  }

  /** In every reachable state: if the supervisor has given up, it was over a byte budget. */
  lemma OnlyByteBudgetsCutRuns(c: I.Config, p: Pipe)
    requires I.Proper(c) && Reachable(c, p)
    ensures p.abort.None? || p.abort == Some(ByteBudget)
  {
    hide Possible, After, Inv;
    var es :| Possible(c, Boot, es) && After(c, Boot, es) == p;
    BootInv(c);
    LimitsSuffice(c, Boot, es);
  }
}
