/** When the outcome of a child that is done is the outcome of the run on the isolated backend: exactly
    when nothing but empty frames is under way. The in-process driver returns at that point; here the
    supervisor and the BEAM still listen. */
module Finality {
  import opened Text
  import opened Wrappers
  import opened Wire
  import opened BrokerRun
  import opened Flow
  import B = Broker
  import G = Bridge
  import I = InProcess
  import P = Pipeline

  /** A BEAM that still listens to the broker has one that lives, or that has announced its failure. */
  ghost predicate Steady(p: P.Pipe) {
    p.ended.None? && p.failure.None? ==>
      && I.NobodyStops(p.world.inbox)
      && (p.world.phase.Live? || I.ErrorSent(p.world.mail))
  }

  /** No call can come to anything any more. */
  ghost predicate Calm(p: P.Pipe) {
    && !p.late && p.channel == [] && p.commands == [] && p.world.mail == []
    && p.world.phase.Live? && p.world.broker.jobs == map[]
    && Sum(P.Leaving(p), FrameIds) == multiset{} && Sum(p.world.inbox, MsgIds) == multiset{}
  }

  // ---- Steadiness ----

  lemma WorldKeepsOrder(c: I.Config, p: P.Pipe, b: BrokerRun.Event)
    requires I.NobodyStops(p.world.inbox) && (p.world.phase.Live? || I.ErrorSent(p.world.mail))
    requires BrokerRun.Enabled(p.world, b) && !b.Post? && !b.Take?
    ensures var w := BrokerRun.Next(c.limits, p.world, b);
            I.NobodyStops(w.inbox) && (w.phase.Live? || I.ErrorSent(w.mail))
  {
    var s := I.System(p.guest, I.Running, [], p.world);
    if b.Handle? {
      I.HandleKeepsOrder(c, s);
      hide BrokerRun.Next, I.NobodyStops, I.ErrorSent;
    } else {
      I.AsideChanges(c.limits, p.world, b);
      hide BrokerRun.Next, Sum, I.ErrorSent;
      var inbox := BrokerRun.Next(c.limits, p.world, b).inbox;
      forall k | 0 <= k < |inbox| ensures !inbox[k].Stop? && !inbox[k].ParentDown? {
        assert inbox[k] in inbox;
      }
    }
  }

  lemma SendKeepsError(mail: seq<Signal>)
    requires mail != [] && mail[0].CallbackReply?
    ensures I.ErrorSent(mail) ==> I.ErrorSent(mail[1..])
  {
    if k :| 0 <= k < |mail| && mail[k].CallbackError? {
      assert mail[1..][k - 1].CallbackError?;
    }
  }

  lemma NextKeepsSteady(c: I.Config, p: P.Pipe, e: P.Event)
    requires Steady(p) && P.Enabled(p, e)
    ensures Steady(P.Next(c, p, e))
  {
    if e.Broker? && p.ended.None? && p.failure.None? {
      WorldKeepsOrder(c, p, e.event);
    } else if e.Send? && p.world.mail[0].CallbackReply? {
      SendKeepsError(p.world.mail);
    }
    hide BrokerRun.Next, I.ErrorSent, I.YieldNext, I.Fed, G.CallEffect, P.Written, BrokerRun.Enabled;
  }

  lemma {:induction false} RunKeepsSteady(c: I.Config, p: P.Pipe, es: seq<P.Event>)
    requires Steady(p) && P.Possible(c, p, es)
    ensures Steady(P.After(c, p, es))
    decreases |es|
  {
    hide Steady, P.Next, P.Enabled;
    if es != [] {
      NextKeepsSteady(c, p, es[0]);
      RunKeepsSteady(c, P.Next(c, p, es[0]), es[1..]);
    }
  }

  lemma ReachableSteady(c: I.Config, p: P.Pipe)
    requires P.Reachable(c, p)
    ensures Steady(p)
  {
    hide P.Possible, P.After;
    assert Steady(P.Boot);
    hide Steady;
    var es :| P.Possible(c, P.Boot, es) && P.After(c, P.Boot, es) == p;
    RunKeepsSteady(c, P.Boot, es);
  }

  // ---- Calm lasts ----

  /** The child is done, and nothing has been given up or returned. */
  ghost predicate Done(p: P.Pipe) {
    P.Active(p) && p.child.Finished?
  }

  lemma NobodyLives(l: Limits, w: World)
    requires Good(l, w) && w.phase.Live? && w.broker.jobs == map[]
    ensures w.procs == map[]
  {
    assert w.procs.Keys <= w.broker.jobs.Keys;
    assert w.procs.Keys == {};
  }

  lemma NoEntries(l: Limits, es: seq<B.Entry>)
    requires AllHonest(l, es) && Sum(es, EntryId) == multiset{}
    ensures es == []
  {
  }

  /** A turn on a message without ids changes nothing when there are no jobs. */
  lemma CalmTurn(l: Limits, b: B.State, m: B.Msg)
    requires b.jobs == map[] && MsgIds(m) == multiset{} && !m.Stop? && !m.ParentDown?
    requires m.Requests? ==> HonestFrame(l, m.frame)
    ensures B.React(l, b, m) == B.Reaction(b, [], None)
  {
    if m.Requests? {
      NoEntries(l, m.frame.entries.value);
    }
    hide HonestEntry, Sum, RequestLimit;
  }

  /** What the invariant says of the broker's world alone. */
  lemma WorldIsGood(c: I.Config, p: P.Pipe)
    requires P.Inv(c, p)
    ensures Good(c.limits, p.world)
    ensures forall k :: 0 <= k < |p.world.inbox| && p.world.inbox[k].Requests? ==>
              HonestFrame(c.limits, p.world.inbox[k].frame)
  {
    hide HonestFrame, G.Sound, Budgeted, I.Conserved, I.InSequence;
    hide P.Leaving, Replies, P.Placed, P.Counted, P.Concluded;
  }

  lemma CalmWorld(l: Limits, w: World, b: BrokerRun.Event)
    requires Good(l, w) && I.NobodyStops(w.inbox) && BrokerRun.Enabled(w, b) && !b.Post? && !b.Take?
    requires w.mail == [] && w.phase.Live? && w.broker.jobs == map[] && Sum(w.inbox, MsgIds) == multiset{}
    requires b.Handle? && w.inbox[0].Requests? ==> HonestFrame(l, w.inbox[0].frame)
    ensures var after := BrokerRun.Next(l, w, b);
            && after.mail == [] && after.phase.Live? && after.broker.jobs == map[]
            && Sum(after.inbox, MsgIds) == multiset{}
  {
    NobodyLives(l, w);
    if b.Handle? {
      var m := w.inbox[0];
      assert Sum(w.inbox, MsgIds) == MsgIds(m) + Sum(w.inbox[1..], MsgIds);
      I.HandleShape(l, w);
      hide Good, Sum, BrokerRun.Next, B.React, HonestFrame, MsgIds;
      CalmTurn(l, w.broker, m);
      assert [] + Replies([]) + Errors(None) == [];
    } else {
      I.AsideChanges(l, w, b);
      hide Good, Sum, BrokerRun.Next;
    }
  }

  /** The queues of frames, and what each relay does to them. */
  lemma LeavingForward(c: I.Config, p: P.Pipe, trips: bool)
    requires P.Enabled(p, P.Forward(trips)) && P.Next(c, p, P.Forward(trips)).abort.None?
    ensures P.Leaving(P.Next(c, p, P.Forward(trips))) == P.Leaving(p)
  {
    P.ForwardStutters(c, p, trips);
    hide P.Leaving, P.Next, Replies;
  }

  lemma LeavingDecode(c: I.Config, p: P.Pipe)
    requires P.Enabled(p, P.Decode)
    ensures P.Leaving(P.Next(c, p, P.Decode)) == P.Leaving(p)
  {
    P.DecodeStutters(c, p);
    hide P.Leaving, P.Next, Replies;
  }

  lemma LeavingCarry(p: P.Pipe)
    requires p.wire != []
    ensures var after := p.(wire := p.wire[1..]);
            Sum(P.Leaving(p), FrameIds) == FrameIds(p.wire[0]) + Sum(P.Leaving(after), FrameIds)
  {
    hide P.Frames;
    var rest := p.wire[1..] + P.Frames(p.port) + P.Frames(p.stdout);
    assert P.Leaving(p) == [p.wire[0]] + rest;
    SumConcat([p.wire[0]], rest, FrameIds);
    SumOne(p.wire[0], FrameIds);
  }

  lemma CalmCarry(c: I.Config, p: P.Pipe)
    requires Calm(p) && P.Enabled(p, P.Carry)
    ensures Calm(P.Next(c, p, P.Carry))
  {
    LeavingCarry(p);
    SumAppend(p.world.inbox, B.Requests(p.wire[0]), MsgIds);
    assert MsgIds(B.Requests(p.wire[0])) == FrameIds(p.wire[0]);
    hide Sum, FrameIds, MsgIds;
    var after := P.Next(c, p, P.Carry);
    assert P.Leaving(after) == P.Leaving(p.(wire := p.wire[1..]));
  }

  lemma CalmWith(p: P.Pipe, w: World)
    requires Calm(p) && w.mail == [] && w.phase.Live? && w.broker.jobs == map[] && Sum(w.inbox, MsgIds) == multiset{}
    ensures Calm(p.(world := w))
  {
    hide Sum, P.Frames;
    assert P.Leaving(p.(world := w)) == P.Leaving(p);
  }

  lemma BrokerStep(c: I.Config, p: P.Pipe, b: BrokerRun.Event)
    requires P.Enabled(p, P.Broker(b))
    ensures BrokerRun.Enabled(p.world, b) && !b.Post? && !b.Take?
    ensures P.Next(c, p, P.Broker(b)) == p.(world := BrokerRun.Next(c.limits, p.world, b))
  {
    hide BrokerRun.Next, BrokerRun.Enabled;
  }

  /** What calm means for the broker's world. */
  lemma CalmOf(p: P.Pipe)
    requires Calm(p) && Steady(p) && Done(p)
    ensures p.world.mail == [] && p.world.phase.Live? && p.world.broker.jobs == map[]
    ensures Sum(p.world.inbox, MsgIds) == multiset{} && I.NobodyStops(p.world.inbox)
  {
    hide Sum, I.NobodyStops, P.Leaving;
  }

  lemma CalmBroker(c: I.Config, p: P.Pipe, b: BrokerRun.Event)
    requires Calm(p) && P.Inv(c, p) && Steady(p) && Done(p) && P.Enabled(p, P.Broker(b))
    ensures Calm(P.Next(c, p, P.Broker(b)))
  {
    hide P.Inv, Calm, Steady, Done, Good, HonestFrame, BrokerRun.Next, I.NobodyStops, Sum, P.Next, P.Enabled;
    WorldIsGood(c, p);
    BrokerStep(c, p, b);
    CalmOf(p);
    CalmWorld(c.limits, p.world, b);
    CalmWith(p, BrokerRun.Next(c.limits, p.world, b));
  }

  /** What a step of a calm run leaves. */
  ghost predicate CalmlyOn(p: P.Pipe, after: P.Pipe)
    requires p.child.Finished?
  {
    && after.child == p.child && after.failure.None?
    && (if after.ended.None? then Calm(after) && Done(after) else after.ended == Some(p.child.outcome))
  }

  lemma CalmRelay(c: I.Config, p: P.Pipe, e: P.Event)
    requires Calm(p) && Done(p) && P.Enabled(p, e) && (e.Forward? || e.Decode?)
    requires P.Next(c, p, e).abort.None?
    ensures CalmlyOn(p, P.Next(c, p, e))
  {
    hide P.Leaving, Sum;
    if e.Forward? {
      LeavingForward(c, p, e.trips);
    } else {
      LeavingDecode(c, p);
    }
  }

  lemma CalmFinish(c: I.Config, p: P.Pipe)
    requires Calm(p) && Done(p) && P.Inv(c, p) && P.Enabled(p, P.Finish)
    ensures CalmlyOn(p, P.Next(c, p, P.Finish))
  {
    hide I.Inv, P.Placed, P.Counted, P.Seen, P.Leaving, Sum;
    P.FinishKeepsParts(c, p, P.Finish);
  }

  /** A calm run stays calm until it returns what the child said. */
  lemma CalmStep(c: I.Config, p: P.Pipe, e: P.Event)
    requires Calm(p) && P.Inv(c, p) && Steady(p) && Done(p)
    requires P.Enabled(p, e) && !e.GiveUp? && P.Next(c, p, e).abort.None?
    ensures CalmlyOn(p, P.Next(c, p, e))
  {
    match e
    case Forward(trips) =>
      hide P.Inv, Steady, Calm, CalmlyOn, P.Next, P.Enabled;
      CalmRelay(c, p, e);
    case Decode =>
      hide P.Inv, Steady, Calm, CalmlyOn, P.Next, P.Enabled;
      CalmRelay(c, p, e);
    case Carry =>
      hide P.Inv, Steady, Calm;
      CalmCarry(c, p);
    case Broker(b) =>
      hide P.Inv, Steady, Calm, BrokerRun.Next, BrokerRun.Enabled;
      CalmBroker(c, p, b);
    case Finish =>
      hide P.Inv, Steady, Calm, CalmlyOn, P.Next, P.Enabled;
      CalmFinish(c, p);
    case _ =>
      hide P.Inv, Sum, P.Leaving;
  }

  lemma {:induction false} EndedStays(c: I.Config, p: P.Pipe, es: seq<P.Event>)
    requires p.ended.Some? && P.Possible(c, p, es)
    ensures P.After(c, p, es).ended == p.ended
    decreases |es|
  {
    if es != [] {
      assert es[0].StopBroker?;
      EndedStays(c, P.Next(c, p, es[0]), es[1..]);
    }
  }

  /** Nobody stops the run from outside. */
  ghost predicate Undisturbed(es: seq<P.Event>) {
    forall k :: 0 <= k < |es| ==> !es[k].GiveUp?
  }

  lemma UndisturbedRest(es: seq<P.Event>)
    requires Undisturbed(es) && es != []
    ensures !es[0].GiveUp? && Undisturbed(es[1..])
  {
  }

  lemma {:induction false} CalmLasts(c: I.Config, p: P.Pipe, es: seq<P.Event>)
    requires I.Proper(c) && Calm(p) && P.Inv(c, p) && Steady(p) && Done(p)
    requires P.Possible(c, p, es) && Undisturbed(es) && P.After(c, p, es).abort.None?
    ensures P.After(c, p, es).ended.None? || P.After(c, p, es).ended == Some(p.child.outcome)
    decreases |es|
  {
    if es != [] {
      var e := es[0];
      var mid := P.Next(c, p, e);
      hide P.Next, P.Enabled, P.Inv, Calm, Steady, Undisturbed;
      UndisturbedRest(es);
      if mid.abort.Some? {
        P.GivenUp(c, mid, es[1..]);
      }
      CalmStep(c, p, e);
      if mid.ended.Some? {
        EndedStays(c, mid, es[1..]);
      } else {
        NoFailedFinish(p, e);
        P.NextKeepsInv(c, p, e);
        NextKeepsSteady(c, p, e);
        CalmLasts(c, mid, es[1..]);
      }
    }
  }

  lemma NoFailedFinish(p: P.Pipe, e: P.Event)
    requires P.Active(p) && P.Enabled(p, e)
    ensures !e.FinishFailed?
  {
  }

  // ---- What is under way can still end the run ----

  /** The end of a run that the child's outcome does not decide. */
  ghost predicate Overruled(p: P.Pipe) {
    p.ended.Some? && p.ended.value.Errored? && p.abort.None? && (p.failure.Some? || p.late)
  }

  ghost predicate CanBeOverruled(c: I.Config, p: P.Pipe) {
    exists es :: P.Possible(c, p, es) && Undisturbed(es) && Overruled(P.After(c, p, es))
  }

  lemma StepBefore(c: I.Config, p: P.Pipe, e: P.Event)
    requires P.Enabled(p, e) && !e.GiveUp? && CanBeOverruled(c, P.Next(c, p, e))
    ensures CanBeOverruled(c, p)
  {
    hide P.Next, P.Enabled, P.Possible, P.After, Overruled;
    var es :| P.Possible(c, P.Next(c, p, e), es) && Undisturbed(es) && Overruled(P.After(c, P.Next(c, p, e), es));
    P.RunFirst(c, p, e, es);
    assert Undisturbed([e] + es);
  }

  lemma AlreadyOverruled(c: I.Config, p: P.Pipe)
    requires Overruled(p)
    ensures CanBeOverruled(c, p)
  {
    assert P.Possible(c, p, []) && P.After(c, p, []) == p;
  }

  lemma FromLate(c: I.Config, p: P.Pipe)
    requires P.Active(p) && p.late
    ensures CanBeOverruled(c, p)
  {
    hide CanBeOverruled;
    AlreadyOverruled(c, P.Next(c, p, P.FinishLate));
    StepBefore(c, p, P.FinishLate);
  }

  lemma FromChannel(c: I.Config, p: P.Pipe)
    requires Done(p) && p.channel != []
    ensures CanBeOverruled(c, p)
  {
    hide CanBeOverruled;
    if p.late {
      FromLate(c, p);
    } else {
      FromLate(c, P.Next(c, p, P.Write(true)));
      StepBefore(c, p, P.Write(true));
    }
  }

  lemma FromCommands(c: I.Config, p: P.Pipe)
    requires Done(p) && P.Inv(c, p) && p.commands != []
    ensures CanBeOverruled(c, p)
  {
    P.RelayHasRoom(c, p);
    hide CanBeOverruled, P.Inv;
    if p.late {
      FromLate(c, p);
    } else {
      FromChannel(c, P.Next(c, p, P.Relay(false)));
      StepBefore(c, p, P.Relay(false));
    }
  }

  lemma FromMail(c: I.Config, p: P.Pipe)
    requires I.Proper(c) && Done(p) && P.Inv(c, p) && p.world.mail != []
    ensures CanBeOverruled(c, p)
  {
    hide CanBeOverruled, P.Inv;
    var sent := P.Next(c, p, P.Send);
    if p.world.mail[0].CallbackReply? {
      P.NextKeepsInv(c, p, P.Send);
      FromCommands(c, sent);
    } else {
      AlreadyOverruled(c, P.Next(c, sent, P.FinishFailed(false)));
      StepBefore(c, sent, P.FinishFailed(false));
    }
    StepBefore(c, p, P.Send);
  }

  /** With an empty mailbox, the exit of a callback's process brings an answer or a failure. */
  lemma FromJob(c: I.Config, p: P.Pipe, pid: B.Pid)
    requires I.Proper(c) && Done(p) && P.Inv(c, p) && p.world.phase.Live? && p.world.inbox == []
    requires pid in p.world.broker.jobs && pid in p.world.procs
    ensures CanBeOverruled(c, p)
  {
    var exit, handle := P.Broker(Exit(pid)), P.Broker(Handle);
    ExitThenHandle(c, p, pid);
    hide CanBeOverruled, P.Inv, P.Next, P.Enabled, Done;
    var mid := P.Next(c, p, exit);
    NotFailing(c, p, Exit(pid));
    P.NextKeepsInv(c, p, exit);
    NotFailing(c, mid, Handle);
    P.NextKeepsInv(c, mid, handle);
    FromMail(c, P.Next(c, mid, handle));
    StepBefore(c, mid, handle);
    StepBefore(c, p, exit);
  }

  lemma NotFailing(c: I.Config, p: P.Pipe, b: BrokerRun.Event)
    requires Done(p) && P.Enabled(p, P.Broker(b))
    ensures var after := P.Next(c, p, P.Broker(b)); Done(after) && after.abort.None? && after.failure.None?
  {
    hide BrokerRun.Next, BrokerRun.Enabled;
  }

  lemma ExitThenHandle(c: I.Config, p: P.Pipe, pid: B.Pid)
    requires Done(p) && p.world.phase.Live? && p.world.inbox == []
    requires pid in p.world.broker.jobs && pid in p.world.procs
    ensures P.Enabled(p, P.Broker(Exit(pid)))
    ensures P.Enabled(P.Next(c, p, P.Broker(Exit(pid))), P.Broker(Handle))
    ensures P.Next(c, P.Next(c, p, P.Broker(Exit(pid))), P.Broker(Handle)).world.mail != []
  {
    ExitEnabled(p, pid);
    hide BrokerRun.Next, BrokerRun.Enabled, B.React;
    I.ExitThenHandle(c, I.System(p.guest, p.child, [], p.world), pid);
  }

  lemma ExitEnabled(p: P.Pipe, pid: B.Pid)
    requires pid in p.world.procs
    ensures BrokerRun.Enabled(p.world, Exit(pid))
  {
  }

  /** Ids that are in frames, at the broker or in its jobs. */
  function Loose(p: P.Pipe): multiset<nat> {
    Sum(P.Leaving(p), FrameIds) + Sum(p.world.inbox, MsgIds) + JobSum(p.world.broker)
  }

  /** Nothing has come of the calls yet. */
  ghost predicate Undelivered(p: P.Pipe) {
    p.world.mail == [] && p.world.phase.Live? && Loose(p) != multiset{}
  }

  function Distance(p: P.Pipe): nat {
    4 * |p.stdout| + 3 * |p.port| + 2 * |p.wire| + |p.world.inbox|
  }

  /** One step of a relay or of the broker towards an answer, or an answer. */
  ghost predicate Nearer(p: P.Pipe, after: P.Pipe) {
    Distance(after) < Distance(p) && Done(after) && (after.world.mail != [] || Undelivered(after))
  }

  lemma ForwardIsNearer(c: I.Config, p: P.Pipe)
    requires Undelivered(p) && P.Inv(c, p) && Done(p) && p.stdout != []
    ensures Nearer(p, P.Next(c, p, P.Forward(false)))
  {
    hide P.Inv, P.Leaving, Sum, JobSum, Replies, P.Frames;
    P.OnlyByteBudgetsTrip(c, p, P.Forward(false));
    NoTrip(c, p);
    LeavingForward(c, p, false);
  }

  lemma NoTrip(c: I.Config, p: P.Pipe)
    requires P.Enabled(p, P.Forward(false))
    ensures P.Next(c, p, P.Forward(false)).abort != Some(P.ByteBudget)
  {
  }

  lemma DecodeIsNearer(c: I.Config, p: P.Pipe)
    requires Undelivered(p) && Done(p) && p.port != []
    ensures Nearer(p, P.Next(c, p, P.Decode))
  {
    hide P.Leaving, Sum, JobSum;
    LeavingDecode(c, p);
  }

  lemma CarryKeepsLoose(c: I.Config, p: P.Pipe)
    requires P.Enabled(p, P.Carry)
    ensures Loose(P.Next(c, p, P.Carry)) == Loose(p)
  {
    LeavingCarry(p);
    SumAppend(p.world.inbox, B.Requests(p.wire[0]), MsgIds);
    assert MsgIds(B.Requests(p.wire[0])) == FrameIds(p.wire[0]);
    hide Sum, FrameIds, MsgIds, JobSum, P.Frames;
    var after := P.Next(c, p, P.Carry);
    assert P.Leaving(after) == P.Leaving(p.(wire := p.wire[1..]));
    RegroupCarried(FrameIds(p.wire[0]), Sum(P.Leaving(after), FrameIds), Sum(p.world.inbox, MsgIds),
                   JobSum(p.world.broker));
  }

  lemma CarryIsNearer(c: I.Config, p: P.Pipe)
    requires Undelivered(p) && Done(p) && p.wire != []
    ensures Nearer(p, P.Next(c, p, P.Carry))
  {
    hide Loose;
    CarryKeepsLoose(c, p);
  }

  lemma RegroupCarried(head: multiset<nat>, tail: multiset<nat>, inbox: multiset<nat>, jobs: multiset<nat>)
    ensures tail + (inbox + head) + jobs == head + tail + inbox + jobs
  {
  }

  /** A turn of the broker is heard of, or leaves the ids with the broker. */
  lemma TurnIsHeardOrKept(c: I.Config, p: P.Pipe)
    requires I.Proper(c) && P.Inv(c, p) && p.world.phase.Live? && p.world.inbox != []
    requires p.world.mail == [] && I.NobodyStops(p.world.inbox)
    ensures var w := BrokerRun.Next(c.limits, p.world, Handle);
            && w.inbox == p.world.inbox[1..]
            && (w.mail != []
                || (w.phase.Live? && Sum(w.inbox, MsgIds) + JobSum(w.broker)
                                     == Sum(p.world.inbox, MsgIds) + JobSum(p.world.broker)))
  {
    var w := p.world;
    var m := w.inbox[0];
    TurnKeepsIds(c, p);
    I.HandleShape(c.limits, w);
    I.EndingIsFailure(c, w.broker, m);
    hide P.Inv, B.React, BrokerRun.Next, Sum, MsgIds, JobSum, CompletionId, I.NobodyStops;
    var r := B.React(c.limits, w.broker, m);
    if r.ending.None? && r.replies == [] {
      NoReplies();
      RegroupTurn(MsgIds(m), Sum(w.inbox[1..], MsgIds), JobSum(w.broker), JobSum(r.state));
    }
  }

  lemma NearerWith(p: P.Pipe, w: World)
    requires Undelivered(p) && Done(p) && p.world.inbox != [] && w.inbox == p.world.inbox[1..]
    requires || w.mail != []
             || (w.phase.Live? && Sum(w.inbox, MsgIds) + JobSum(w.broker)
                                  == Sum(p.world.inbox, MsgIds) + JobSum(p.world.broker))
    ensures Nearer(p, p.(world := w))
  {
    hide Sum, JobSum, P.Frames;
    var after := p.(world := w);
    assert P.Leaving(after) == P.Leaving(p);
    hide P.Leaving;
    Reassociate(Sum(P.Leaving(p), FrameIds), Sum(p.world.inbox, MsgIds), JobSum(p.world.broker));
    Reassociate(Sum(P.Leaving(p), FrameIds), Sum(w.inbox, MsgIds), JobSum(w.broker));
  }

  lemma HandleIsNearer(c: I.Config, p: P.Pipe)
    requires I.Proper(c) && Undelivered(p) && P.Inv(c, p) && Steady(p) && Done(p) && p.world.inbox != []
    ensures P.Enabled(p, P.Broker(Handle)) && Nearer(p, P.Next(c, p, P.Broker(Handle)))
  {
    hide P.Inv, Sum, JobSum, I.NobodyStops, P.Leaving, Loose, BrokerRun.Next, Distance, Nearer;
    TurnIsHeardOrKept(c, p);
    NearerWith(p, BrokerRun.Next(c.limits, p.world, Handle));
  }

  lemma Reassociate(a: multiset<nat>, b: multiset<nat>, c: multiset<nat>)
    ensures a + b + c == a + (b + c)
  {
  }

  lemma NoReplies()
    ensures Sum([], CompletionId) == multiset{}
  {
  }

  lemma RegroupTurn(head: multiset<nat>, tail: multiset<nat>, jobs: multiset<nat>, jobs': multiset<nat>)
    requires jobs' + multiset{} == jobs + head
    ensures tail + jobs' == head + tail + jobs
  {
    assert jobs' == jobs + head;
  }

  /** A turn that neither answers nor ends the broker has turned the message's ids into jobs. */
  lemma TurnKeepsIds(c: I.Config, p: P.Pipe)
    requires I.Proper(c) && P.Inv(c, p) && p.world.phase.Live? && p.world.inbox != []
    ensures var r := B.React(c.limits, p.world.broker, p.world.inbox[0]);
            r.ending.None? ==>
              JobSum(r.state) + Sum(r.replies, CompletionId) == JobSum(p.world.broker) + MsgIds(p.world.inbox[0])
    ensures Sum(p.world.inbox, MsgIds) == MsgIds(p.world.inbox[0]) + Sum(p.world.inbox[1..], MsgIds)
  {
    WorldIsGood(c, p);
    assert B.Injective(p.world.broker.jobs) && B.Tracked(p.world.broker);
    hide Sum, JobSum, MsgIds, CompletionId, B.React, I.Inv, Good, Welcome;
    hide B.Injective, B.Tracked, P.Frames, HonestFrame;
    I.HeadIsWelcome(c, P.Seen(p));
    HonestReact(c.limits, p.world.broker, p.world.inbox[0]);
    assert Sum(p.world.inbox, MsgIds) == MsgIds(p.world.inbox[0]) + Sum(p.world.inbox[1..], MsgIds) by {
      SumHead(p.world.inbox);
    }
  }

  lemma SumHead(ms: seq<B.Msg>)
    requires ms != []
    ensures Sum(ms, MsgIds) == MsgIds(ms[0]) + Sum(ms[1..], MsgIds)
  {
    hide MsgIds;
  }

  /** There is always a step to take while queues are not empty. */
  lemma OneStepNearer(c: I.Config, p: P.Pipe) returns (e: P.Event)
    requires I.Proper(c) && P.Inv(c, p) && Steady(p) && Done(p) && Undelivered(p)
    requires p.stdout != [] || p.port != [] || p.wire != [] || p.world.inbox != []
    ensures P.Enabled(p, e) && !e.FinishFailed? && !e.GiveUp?
    ensures Nearer(p, P.Next(c, p, e))
  {
    hide P.Inv, Undelivered, Steady, P.Next, Nearer;
    if p.stdout != [] {
      e := P.Forward(false);
      ForwardIsNearer(c, p);
    } else if p.port != [] {
      e := P.Decode;
      DecodeIsNearer(c, p);
    } else if p.wire != [] {
      e := P.Carry;
      CarryIsNearer(c, p);
    } else {
      e := P.Broker(Handle);
      HandleIsNearer(c, p);
    }
  }

  lemma {:induction false} UndeliveredEnds(c: I.Config, p: P.Pipe)
    requires I.Proper(c) && P.Inv(c, p) && Steady(p) && Done(p)
    requires p.world.mail != [] || Undelivered(p)
    ensures CanBeOverruled(c, p)
    decreases Distance(p)
  {
    hide CanBeOverruled, P.Inv, Undelivered, Steady, P.Next, P.Enabled;
    if p.world.mail != [] {
      FromMail(c, p);
    } else if p.stdout == [] && p.port == [] && p.wire == [] && p.world.inbox == [] {
      var pid := SomeJobRuns(c, p);
      assert p.world.phase.Live? by { UndeliveredIsLive(p); }
      FromJob(c, p, pid);
    } else {
      var e := OneStepNearer(c, p);
      P.NextKeepsInv(c, p, e);
      NextKeepsSteady(c, p, e);
      UndeliveredEnds(c, P.Next(c, p, e));
      StepBefore(c, p, e);
    }
  }

  lemma UndeliveredIsLive(p: P.Pipe)
    requires Undelivered(p)
    ensures p.world.phase.Live?
  {
  }

  /** With all queues empty, an undelivered call is a job whose process lives. */
  lemma SomeJobRuns(c: I.Config, p: P.Pipe) returns (pid: B.Pid)
    requires P.Inv(c, p) && Undelivered(p)
    requires p.stdout == [] && p.port == [] && p.wire == [] && p.world.inbox == []
    ensures pid in p.world.broker.jobs && pid in p.world.procs
  {
    WorldIsGood(c, p);
    assert P.Leaving(p) == [];
    assert Sum([], FrameIds) == multiset{} && Sum([], MsgIds) == multiset{};
    assert JobSum(p.world.broker) != multiset{};
    var id :| id in JobSum(p.world.broker);
    assert Accounted(p.world);
    hide P.Inv, Good, Accounted;
    I.JobIsUnderway(p.world, id);
    pid :| pid in p.world.broker.jobs && p.world.broker.jobs[pid].id == id
           && (pid in p.world.procs || B.Down(pid) in p.world.inbox);
  }

  /** Whatever is not calm can come to something. */
  lemma RestlessCanBeOverruled(c: I.Config, p: P.Pipe)
    requires I.Proper(c) && P.Inv(c, p) && Steady(p) && Done(p) && !Calm(p)
    ensures CanBeOverruled(c, p)
  {
    if p.late {
      FromLate(c, p);
    } else if p.channel != [] {
      FromChannel(c, p);
    } else if p.commands != [] {
      FromCommands(c, p);
    } else {
      if p.world.mail == [] {
        RestlessIsUndelivered(p);
      }
      UndeliveredEnds(c, p);
    }
  }

  lemma RestlessIsUndelivered(p: P.Pipe)
    requires Steady(p) && Done(p) && !Calm(p)
    requires !p.late && p.channel == [] && p.commands == [] && p.world.mail == []
    ensures Undelivered(p)
  {
    I.EveryJobId(p.world.broker.jobs);
    assert p.world.phase.Live?;
    if p.world.broker.jobs != map[] {
      var pid :| pid in p.world.broker.jobs;
      assert p.world.broker.jobs[pid].id in JobSum(p.world.broker);
    }
    hide Sum, P.Leaving, JobSum, Steady;
    SomeNotEmpty(Sum(P.Leaving(p), FrameIds), Sum(p.world.inbox, MsgIds), JobSum(p.world.broker));
  }

  lemma SomeNotEmpty(a: multiset<nat>, b: multiset<nat>, c: multiset<nat>)
    ensures a + b + c == multiset{} ==> a == multiset{} && b == multiset{} && c == multiset{}
  {
    if a + b + c == multiset{} {
      forall x ensures a[x] == 0 && b[x] == 0 && c[x] == 0 {
        assert (a + b + c)[x] == 0;
      }
    }
  }

  /** A run that is over, and that no byte budget has cut short, returns what the child returned. */
  ghost predicate Kept(p: P.Pipe, outcome: I.Outcome) {
    p.abort.None? && p.ended.Some? ==> p.ended.value == outcome
  }

  /** Exactly: when the child of a reachable state has returned, every continuation that nobody stops
      from outside keeps its result if and only if the state is calm. Otherwise an answer that comes
      too late, or a failure of the broker, can still take the result away. */
  lemma ResultIsFinalExactly(c: I.Config, p: P.Pipe)
    requires I.Proper(c) && P.Reachable(c, p) && P.Active(p)
    requires p.child.Finished? && p.child.outcome.Returned?
    ensures Calm(p) <==>
            forall es :: P.Possible(c, p, es) && Undisturbed(es) ==> Kept(P.After(c, p, es), p.child.outcome)
  {
    P.ReachableInv(c, p);
    ReachableSteady(c, p);
    if Calm(p) {
      CalmKeeps(c, p);
    } else {
      RestlessCanBeOverruled(c, p);
      hide Calm, P.Reachable, P.Inv, Steady, P.Possible, P.After;
      var es :| P.Possible(c, p, es) && Undisturbed(es) && Overruled(P.After(c, p, es));
      assert !Kept(P.After(c, p, es), p.child.outcome);
    }
  }

  lemma CalmKeeps(c: I.Config, p: P.Pipe)
    requires I.Proper(c) && Calm(p) && P.Inv(c, p) && Steady(p) && Done(p)
    ensures forall es :: P.Possible(c, p, es) && Undisturbed(es) ==> Kept(P.After(c, p, es), p.child.outcome)
  {
    hide Calm, P.Inv, Steady, P.Possible, P.After;
    forall es | P.Possible(c, p, es) && Undisturbed(es) ensures Kept(P.After(c, p, es), p.child.outcome) {
      if P.After(c, p, es).abort.None? {
        CalmLasts(c, p, es);
      }
    }
  }

  // ---- Such a state is reached, and both ways to lose the result are taken ----

  /** Two names, of which the first is not granted, a broker that can afford to say so, and a short
      argument. */
  ghost predicate Suited(c: I.Config, denied: string, granted: string, text: string) {
    && I.Proper(c) && c.limits.maxCalls >= 2 && c.limits.maxConcurrency >= 2
    && G.GoodName(G.Str(denied)) && G.GoodName(G.Str(granted))
    && denied !in c.limits.granted && granted in c.limits.granted
    && DenialFits(c.limits) && c.decodes(text) && Bytes(text) <= 1
  }

  function First(denied: string, text: string): Request { Request(1, denied, text) }

  function Second(granted: string, text: string): Request { Request(2, granted, text) }

  function Denial(): Completion { Rejected(1, B.DENIED_CODE, B.DENIED_MESSAGE) }

  /** The guest has asked for both callbacks and waits; its frame is at `where`. */
  function Waiting(world: World, stdout: seq<P.Packet>, port: seq<P.Packet>, wire: seq<B.Frame>, rounds: nat): P.Pipe {
    P.Boot.(guest := G.Guest(2, {1, 2}, [], false, []), child := I.Waiting, stdout := stdout, port := port,
            wire := wire, world := world, frameRounds := rounds)
  }

  /** The broker has denied the first call and runs the second. */
  function OneJob(mail: seq<Signal>): World {
    World(B.State({1, 2}, map[0 := B.Job(2, None)], 1), Live, map[0 := Proc(2, false)], {0}, [], mail,
          [Denial()], map[])
  }

  function Relaying(mail: seq<Signal>, commands: seq<Completion>, channel: seq<Completion>,
                    stdin: seq<Completion>): P.Pipe
  {
    Waiting(OneJob(mail), [], [], [], 1).(commands := commands, channel := channel, stdin := stdin,
                                          replyRounds := |channel| + |stdin|)
  }

  /** The guest has taken the denial. */
  function Resumed(): P.Pipe {
    Waiting(OneJob([]), [], [], [], 1).(guest := G.Guest(2, {2}, [], false, [Denial()]), child := I.Running,
                                        replyRounds := 1)
  }

  /** The child has returned while the second call is still running. */
  function Abandoned(output: string): P.Pipe {
    Resumed().(child := I.Finished(I.Returned(output)), stdout := [P.Terminal(I.Returned(output))])
  }

  function FrameFor(c: I.Config, denied: string, granted: string, text: string): B.Frame {
    I.FrameOf(c, [First(denied, text), Second(granted, text)])
  }

  // The two calls.

  /** `e` leads from `p` to `after`. */
  ghost predicate Leads(c: I.Config, p: P.Pipe, e: P.Event, after: P.Pipe) {
    P.Enabled(p, e) && P.Next(c, p, e) == after
  }

  lemma Led(c: I.Config, p: P.Pipe, e: P.Event, after: P.Pipe)
    requires P.Reachable(c, p) && Leads(c, p, e, after)
    ensures P.Reachable(c, after)
  {
    hide P.Reachable, P.Next, P.Enabled;
    P.StepReachable(c, p, e);
  }

  lemma AtomicCallTaken(l: Limits, g: G.Guest, r: Request)
    requires g.count < l.maxCalls && |g.pending| < l.maxConcurrency && r.id == g.count + 1
    requires G.GoodName(G.Str(r.name)) && Bytes(r.argument) <= l.maxInput
    ensures G.CallEffect(l, g, G.Call(G.Str(r.name), [], G.Json(r.argument))).0 == G.RegisterRequest(g, r)
  {
    hide Bytes;
    var entered := g.(count := g.count + 1);
    assert G.CallsEffect(l, entered, []) == entered;
  }

  lemma CallLeads(c: I.Config, g: G.Guest, r: Request)
    requires g.count < c.limits.maxCalls && |g.pending| < c.limits.maxConcurrency && r.id == g.count + 1
    requires G.GoodName(G.Str(r.name)) && Bytes(r.argument) <= c.limits.maxInput
    ensures Leads(c, P.Boot.(guest := g), P.GuestCall(G.Call(G.Str(r.name), [], G.Json(r.argument))),
                  P.Boot.(guest := G.RegisterRequest(g, r)))
  {
    AtomicCallTaken(c.limits, g, r);
    hide G.CallEffect, G.RegisterRequest, Bytes, G.GoodName;
  }

  function Asked(denied: string, granted: string, text: string): G.Guest {
    G.Guest(2, {1, 2}, [First(denied, text), Second(granted, text)], false, [])
  }

  lemma Registered(denied: string, granted: string, text: string)
    ensures var one := G.Guest(1, {1}, [First(denied, text)], false, []);
            && G.RegisterRequest(G.Fresh, First(denied, text)) == one
            && G.RegisterRequest(one, Second(granted, text)) == Asked(denied, granted, text)
  {
    assert {} + {1} == {1} && [] + [First(denied, text)] == [First(denied, text)];
    assert {1} + {2} == {1, 2};
    assert [First(denied, text)] + [Second(granted, text)] == [First(denied, text), Second(granted, text)];
  }

  lemma BothCallsReachable(c: I.Config, denied: string, granted: string, text: string)
    requires Suited(c, denied, granted, text)
    ensures P.Reachable(c, P.Boot.(guest := Asked(denied, granted, text)))
  {
    Registered(denied, granted, text);
    hide P.Reachable, Bytes, G.RegisterRequest, Leads, G.GoodName, Asked, DenialFits;
    var one := G.Guest(1, {1}, [First(denied, text)], false, []);
    P.BootReachable(c);
    CallLeads(c, G.Fresh, First(denied, text));
    Led(c, P.Boot, P.GuestCall(G.Call(G.Str(denied), [], G.Json(text))), P.Boot.(guest := one));
    CallLeads(c, one, Second(granted, text));
    Led(c, P.Boot.(guest := one), P.GuestCall(G.Call(G.Str(granted), [], G.Json(text))),
        P.Boot.(guest := Asked(denied, granted, text)));
  }

  // The frame.

  lemma ShortRequests(rs: seq<Request>, l: Limits)
    requires |rs| == 2 && l.maxConcurrency >= 2 && l.maxInput >= 1
    requires WithinGuestQuota(rs[0], 1) && WithinGuestQuota(rs[1], 1)
    ensures Bytes(StateText(false, false, rs)) <= RequestLimit(l)
  {
    hide Bytes, StateText, WithinGuestQuota;
    StateFits(false, false, rs, Limits(2, 2, 1, 1, {}));
    MulMonotone(2, l.maxConcurrency, 6 * l.maxInput + 2048);
  }

  lemma ShortRequest(r: Request)
    requires 1 <= r.id <= 9999 && G.GoodName(G.Str(r.name)) && Bytes(r.argument) <= 1
    ensures WithinGuestQuota(r, 1)
  {
  }

  lemma TwoRequestsFit(c: I.Config, denied: string, granted: string, text: string)
    requires Suited(c, denied, granted, text)
    ensures Bytes(StateText(false, false, [First(denied, text), Second(granted, text)])) <= RequestLimit(c.limits)
  {
    hide Bytes, StateText, RequestLimit, G.GoodName, DenialFits, WithinGuestQuota;
    ShortRequest(First(denied, text));
    ShortRequest(Second(granted, text));
    ShortRequests([First(denied, text), Second(granted, text)], c.limits);
  }

  lemma YieldLeads(c: I.Config, rs: seq<Request>)
    requires MAX_TRANSPORT <= c.usizeMax && Bytes(StateText(false, false, rs)) <= RequestLimit(c.limits)
    ensures Leads(c, P.Boot.(guest := G.Guest(2, {1, 2}, rs, false, [])), P.GuestYield(G.Unsettled, None, ""),
                  Waiting(Start, [P.Callbacks(I.FrameOf(c, rs))], [], [], 0))
  {
    RequestLimitsAgree(c.limits, c.usizeMax);
    hide Bytes, StateText, NativeRequestLimit, I.FrameOf, RequestLimit;
    var f := I.FrameOf(c, rs);
    assert [] + [f] == [f] && [] + [P.Callbacks(f)] == [P.Callbacks(f)];
  }

  lemma ForwardLeads(c: I.Config, f: B.Frame)
    ensures Leads(c, Waiting(Start, [P.Callbacks(f)], [], [], 0), P.Forward(false),
                  Waiting(Start, [], [P.Callbacks(f)], [], 1))
  {
  }

  lemma DecodeLeads(c: I.Config, f: B.Frame)
    ensures Leads(c, Waiting(Start, [], [P.Callbacks(f)], [], 1), P.Decode, Waiting(Start, [], [], [f], 1))
  {
  }

  lemma CarryLeads(c: I.Config, f: B.Frame)
    ensures Leads(c, Waiting(Start, [], [], [f], 1), P.Carry, Waiting(Start.(inbox := [B.Requests(f)]), [], [], [], 1))
  {
  }

  lemma FrameArrives(c: I.Config, denied: string, granted: string, text: string)
    requires Suited(c, denied, granted, text)
    ensures P.Reachable(c, Waiting(Start.(inbox := [B.Requests(FrameFor(c, denied, granted, text))]), [], [], [], 1))
  {
    hide P.Reachable, Leads, Waiting, Bytes, StateText, I.FrameOf;
    BothCallsReachable(c, denied, granted, text);
    TwoRequestsFit(c, denied, granted, text);
    YieldLeads(c, [First(denied, text), Second(granted, text)]);
    var f := FrameFor(c, denied, granted, text);
    Led(c, P.Boot.(guest := Asked(denied, granted, text)), P.GuestYield(G.Unsettled, None, ""),
        Waiting(Start, [P.Callbacks(f)], [], [], 0));
    ForwardLeads(c, f);
    Led(c, Waiting(Start, [P.Callbacks(f)], [], [], 0), P.Forward(false), Waiting(Start, [], [P.Callbacks(f)], [], 1));
    DecodeLeads(c, f);
    Led(c, Waiting(Start, [], [P.Callbacks(f)], [], 1), P.Decode, Waiting(Start, [], [], [f], 1));
    CarryLeads(c, f);
    Led(c, Waiting(Start, [], [], [f], 1), P.Carry, Waiting(Start.(inbox := [B.Requests(f)]), [], [], [], 1));
  }

  // The broker's turn.

  function DenialOf(id: nat): Completion { Rejected(id, B.DENIED_CODE, B.DENIED_MESSAGE) }

  lemma DeniedVerdict(l: Limits, b: B.State, e: B.Entry)
    requires HonestEntry(l, e) && e.argument.JsonText? && B.Admitted(l, b, e.id)
    requires e.name.text !in l.granted && DenialFits(l)
    ensures B.DispatchRequest(l, b, e) == B.Denied(b, DenialOf(e.id))
  {
    hide Bytes, ErrorText;
  }

  lemma DeniedEntry(l: Limits, e: B.Entry)
    requires HonestEntry(l, e) && e.id == 1 && e.argument.JsonText? && B.Admitted(l, B.Idle, 1)
    requires e.name.text !in l.granted && DenialFits(l)
    ensures B.DispatchRequest(l, B.Idle, e) == B.Accepted(B.State({1}, map[], 0), [Denial()])
  {
    DeniedVerdict(l, B.Idle, e);
    assert Denial() == DenialOf(1);
    hide HonestEntry, DenialFits, B.DispatchRequest, DenialOf, Denial;
    DenialIsFirst();
    assert {} + {1} == {1};
  }

  lemma DenialIsFirst()
    ensures Denial().id == 1 && Denial() == DenialOf(1)
  {
  }

  lemma GrantedEntry(l: Limits, e: B.Entry)
    requires HonestEntry(l, e) && e.id == 2 && e.argument.JsonText? && B.Admitted(l, B.State({1}, map[], 0), 2)
    requires e.name.text in l.granted
    ensures B.DispatchRequest(l, B.State({1}, map[], 0), e)
         == B.Accepted(B.State({1, 2}, map[0 := B.Job(2, None)], 1), [])
  {
    assert {1} + {2} == {1, 2};
    hide Bytes, ErrorText, B.EncodeError;
  }

  lemma TwoEntries(l: Limits, d: B.Entry, g: B.Entry)
    requires B.DispatchRequest(l, B.Idle, d) == B.Accepted(B.State({1}, map[], 0), [Denial()])
    requires B.DispatchRequest(l, B.State({1}, map[], 0), g)
          == B.Accepted(B.State({1, 2}, map[0 := B.Job(2, None)], 1), [])
    ensures B.DispatchBatch(l, B.Idle, [d, g])
         == B.Batch(B.State({1, 2}, map[0 := B.Job(2, None)], 1), [Denial()], None)
  {
    hide B.DispatchRequest;
    var last := B.State({1, 2}, map[0 := B.Job(2, None)], 1);
    assert [d, g][1..] == [g] && [g][1..] == [];
    assert B.DispatchBatch(l, last, []) == B.Batch(last, [], None);
    assert B.DispatchBatch(l, B.State({1}, map[], 0), [g]) == B.Batch(last, [], None);
  }

  lemma FrameEntries(c: I.Config, denied: string, granted: string, text: string)
    ensures FrameFor(c, denied, granted, text).entries
         == Some([I.EntryOf(c, First(denied, text)), I.EntryOf(c, Second(granted, text))])
  {
    var rs := [First(denied, text), Second(granted, text)];
    var es := I.Entries(c, rs);
    hide I.EntryOf, Bytes, StateText;
    assert es == [es[0], es[1]] && es[0] == I.EntryOf(c, rs[0]) && es[1] == I.EntryOf(c, rs[1]);
  }

  lemma BatchIsTaken(l: Limits, f: B.Frame, d: B.Entry, g: B.Entry)
    requires f.size <= RequestLimit(l) && f.entries == Some([d, g]) && 2 <= l.maxConcurrency
    requires B.DispatchBatch(l, B.Idle, [d, g])
          == B.Batch(B.State({1, 2}, map[0 := B.Job(2, None)], 1), [Denial()], None)
    ensures B.React(l, B.Idle, B.Requests(f))
         == B.Reaction(B.State({1, 2}, map[0 := B.Job(2, None)], 1), [Denial()], None)
  {
    hide B.DispatchBatch, Denial, RequestLimit;
  }

  lemma BothAdmitted(l: Limits)
    requires l.maxCalls >= 2 && l.maxConcurrency >= 2
    ensures B.Admitted(l, B.Idle, 1) && B.Admitted(l, B.State({1}, map[], 0), 2)
  {
  }

  lemma EntriesAreTaken(l: Limits, d: B.Entry, g: B.Entry)
    requires l.maxCalls >= 2 && l.maxConcurrency >= 2 && DenialFits(l)
    requires HonestEntry(l, d) && d.argument.JsonText? && d.id == 1 && d.name.text !in l.granted
    requires HonestEntry(l, g) && g.argument.JsonText? && g.id == 2 && g.name.text in l.granted
    ensures B.DispatchBatch(l, B.Idle, [d, g])
         == B.Batch(B.State({1, 2}, map[0 := B.Job(2, None)], 1), [Denial()], None)
  {
    assert d.Entry? && g.Entry? && d.name.Utf8? && g.name.Utf8?;
    hide Bytes, HonestEntry, DenialFits, B.DispatchRequest, Denial, B.Admitted, B.DispatchBatch;
    BothAdmitted(l);
    DeniedEntry(l, d);
    GrantedEntry(l, g);
    TwoEntries(l, d, g);
  }

  lemma OneJobStarts(c: I.Config, denied: string, granted: string, text: string)
    requires Suited(c, denied, granted, text)
    ensures B.React(c.limits, B.Idle, B.Requests(FrameFor(c, denied, granted, text)))
         == B.Reaction(B.State({1, 2}, map[0 := B.Job(2, None)], 1), [Denial()], None)
  {
    hide Bytes, HonestEntry, DenialFits, B.DispatchRequest, I.EntryOf, RequestLimit, G.GoodName, Denial;
    hide B.DispatchBatch, FrameFor, B.React;
    var d, g := I.EntryOf(c, First(denied, text)), I.EntryOf(c, Second(granted, text));
    EntriesAreHonest(c, denied, granted, text);
    EntriesAreTaken(c.limits, d, g);
    FrameEntries(c, denied, granted, text);
    FrameIsSmall(c, denied, granted, text);
    BatchIsTaken(c.limits, FrameFor(c, denied, granted, text), d, g);
  }

  lemma FrameIsSmall(c: I.Config, denied: string, granted: string, text: string)
    requires Suited(c, denied, granted, text)
    ensures FrameFor(c, denied, granted, text).size <= RequestLimit(c.limits)
  {
    TwoRequestsFit(c, denied, granted, text);
    hide Bytes, StateText, RequestLimit, Suited, I.Entries;
  }

  lemma EntriesAreHonest(c: I.Config, denied: string, granted: string, text: string)
    requires Suited(c, denied, granted, text)
    ensures var d := I.EntryOf(c, First(denied, text));
            HonestEntry(c.limits, d) && d.argument.JsonText? && d.name == B.Utf8(denied) && d.id == 1
    ensures var g := I.EntryOf(c, Second(granted, text));
            HonestEntry(c.limits, g) && g.argument.JsonText? && g.name == B.Utf8(granted) && g.id == 2
  {
    hide Bytes, DenialFits;
  }

  lemma TurnLeads(c: I.Config, f: B.Frame)
    requires B.React(c.limits, B.Idle, B.Requests(f))
          == B.Reaction(B.State({1, 2}, map[0 := B.Job(2, None)], 1), [Denial()], None)
    ensures Leads(c, Waiting(Start.(inbox := [B.Requests(f)]), [], [], [], 1), P.Broker(Handle),
                  Relaying([CallbackReply(Denial())], [], [], []))
  {
    hide B.React;
    var w := Start.(inbox := [B.Requests(f)]);
    var after := BrokerRun.Next(c.limits, w, Handle);
    var jobs := map[0 := B.Job(2, None)];
    assert jobs.Keys - B.Idle.jobs.Keys == {0} && B.Idle.jobs.Keys - jobs.Keys == {};
    assert after.procs == map[0 := Proc(2, false)];
    assert after.timers == {0};
    assert Replies([Denial()]) == [CallbackReply(Denial())];
    assert [] + [CallbackReply(Denial())] + [] == [CallbackReply(Denial())] && [] + [Denial()] == [Denial()];
    assert after == OneJob([CallbackReply(Denial())]);
    hide BrokerRun.Next;
  }

  // The relays.

  lemma SendLeads(c: I.Config)
    ensures Leads(c, Relaying([CallbackReply(Denial())], [], [], []), P.Send, Relaying([], [Denial()], [], []))
  {
    assert [] + [Denial()] == [Denial()];
  }

  lemma RelayLeads(c: I.Config)
    requires c.limits.maxCalls >= 1 && c.limits.maxConcurrency >= 1
    ensures Leads(c, Relaying([], [Denial()], [], []), P.Relay(false), Relaying([], [], [Denial()], []))
  {
    assert [] + [Denial()] == [Denial()];
  }

  lemma WriteLeads(c: I.Config)
    ensures Leads(c, Relaying([], [], [Denial()], []), P.Write(false), Relaying([], [], [], [Denial()]))
  {
    assert [] + [Denial()] == [Denial()];
  }

  lemma DenialIsAffordable(c: I.Config)
    requires I.Proper(c) && DenialFits(c.limits)
    ensures Bytes(CompletionText(Denial())) <= CompletionLimit(c.limits, c.usizeMax) && Denial().id == 1
  {
    hide Bytes, CompletionText, CompletionLimit, ErrorText;
    CompletionFits(Denial(), c.limits, c.usizeMax);
  }

  lemma FirstIsTaken(c: I.Config, d: Completion)
    requires d.id == 1 && Bytes(CompletionText(d)) <= CompletionLimit(c.limits, c.usizeMax)
    ensures I.Fed(c, G.Guest(2, {1, 2}, [], false, []), d) == (G.Guest(2, {2}, [], false, [d]), I.Running)
  {
    hide Bytes, CompletionText, CompletionLimit;
    assert {1, 2} - {1} == {2} && [] + [d] == [d] && [d][1..] == [];
    var after := G.Guest(2, {2}, [], false, [d]);
    assert G.Deliver(after, []) == G.Delivered(after);
  }

  lemma ReadLeads(c: I.Config)
    requires I.Proper(c) && DenialFits(c.limits)
    ensures Leads(c, Relaying([], [], [], [Denial()]), P.Read, Resumed())
  {
    hide DenialFits, Denial, Bytes, CompletionText, CompletionLimit;
    DenialIsAffordable(c);
    FirstIsTaken(c, Denial());
    hide I.Fed;
  }

  lemma ReturnLeads(c: I.Config, output: string)
    requires I.Proper(c)
    ensures Leads(c, Resumed(), P.GuestYield(G.Fulfilled, None, output), Abandoned(output))
  {
    var guest := G.Guest(2, {2}, [], false, [Denial()]);
    assert Resumed().guest == guest;
    FulfilledIsDone(c, guest);
    hide I.Judged, P.ForwardNext, P.RelayNext, Denial;
    assert [] + [P.Terminal(I.Returned(output))] == [P.Terminal(I.Returned(output))];
  }

  lemma FulfilledIsDone(c: I.Config, g: G.Guest)
    requires I.Proper(c) && !g.fatal && g.requests == []
    ensures I.Judged(c, g, G.Fulfilled, None) == (g, G.Done)
  {
    DoneFits(c);
    hide Bytes, StateText, NativeRequestLimit, RequestLimit;
  }

  lemma DoneFits(c: I.Config)
    requires I.Proper(c)
    ensures Bytes(StateText(true, false, [])) <= NativeRequestLimit(c.limits, c.usizeMax)
  {
    RequestLimitsAgree(c.limits, c.usizeMax);
    hide Bytes, StateText;
    StateFits(true, false, [], c.limits.(maxConcurrency := 0));
    MulMonotone(0, c.limits.maxConcurrency, 6 * c.limits.maxInput + 2048);
  }

  /** A reachable state in which the child has returned while a call it never awaited still runs. */
  lemma AbandonedCallReachable(c: I.Config, denied: string, granted: string, text: string, output: string)
    requires Suited(c, denied, granted, text)
    ensures P.Reachable(c, Abandoned(output)) && Done(Abandoned(output)) && !Calm(Abandoned(output))
  {
    FrameArrives(c, denied, granted, text);
    OneJobStarts(c, denied, granted, text);
    TurnLeads(c, FrameFor(c, denied, granted, text));
    SendLeads(c);
    RelayLeads(c);
    WriteLeads(c);
    ReadLeads(c);
    ReturnLeads(c, output);
    StillBusy(output);
    hide P.Reachable, Leads, Waiting, Relaying, Resumed, Abandoned, FrameFor, B.React, DenialFits, Calm, Done;
    Led(c, Waiting(Start.(inbox := [B.Requests(FrameFor(c, denied, granted, text))]), [], [], [], 1), P.Broker(Handle),
        Relaying([CallbackReply(Denial())], [], [], []));
    Led(c, Relaying([CallbackReply(Denial())], [], [], []), P.Send, Relaying([], [Denial()], [], []));
    Led(c, Relaying([], [Denial()], [], []), P.Relay(false), Relaying([], [], [Denial()], []));
    Led(c, Relaying([], [], [Denial()], []), P.Write(false), Relaying([], [], [], [Denial()]));
    Led(c, Relaying([], [], [], [Denial()]), P.Read, Resumed());
    Led(c, Resumed(), P.GuestYield(G.Fulfilled, None, output), Abandoned(output));
  }

  lemma StillBusy(output: string)
    ensures Done(Abandoned(output)) && !Calm(Abandoned(output))
  {
    assert 0 in OneJob([]).broker.jobs;
  }

  /** A state as the last one: nothing is on its way but one running callback, called `pid`. */
  ghost predicate OneRuns(p: P.Pipe, pid: B.Pid) {
    && Done(p) && p.world.phase.Live? && p.world.inbox == [] && p.world.mail == []
    && p.commands == [] && p.channel == [] && !p.late
    && pid in p.world.broker.jobs && pid in p.world.procs && pid in p.world.timers
  }

  lemma AbandonedRuns(output: string)
    ensures OneRuns(Abandoned(output), 0)
  {
  }

  /** The callback's timer overrules the result that the in-process backend, in the same state, has
      returned and keeps. */
  lemma TimeoutOverrules(c: I.Config, p: P.Pipe, pid: B.Pid) returns (es: seq<P.Event>)
    requires OneRuns(p, pid)
    ensures P.Possible(c, p, es) && P.After(c, p, es).ended == Some(I.Errored(CallbackTimeout))
    ensures forall e: I.Event :: I.Enabled(P.Seen(p), e) ==> I.Next(c, P.Seen(p), e).phase == p.child
  {
    InProcessKeeps(c, p);
    var fire, handle := P.Broker(Fire(pid)), P.Broker(Handle);
    TimerSpeaks(c, p, pid);
    hide P.Seen;
    var fired := P.Next(c, p, fire);
    var handled := P.Next(c, fired, handle);
    FailureEnds(c, handled);
    P.RunFirst(c, fired, handle, [P.Send, P.FinishFailed(false)]);
    P.RunFirst(c, p, fire, [handle] + [P.Send, P.FinishFailed(false)]);
    es := [fire] + ([handle] + [P.Send, P.FinishFailed(false)]);
  }

  lemma InProcessKeeps(c: I.Config, p: P.Pipe)
    requires p.child.Finished?
    ensures forall e: I.Event :: I.Enabled(P.Seen(p), e) ==> I.Next(c, P.Seen(p), e).phase == p.child
  {
    hide BrokerRun.Next, Replies, P.Frames;
  }

  lemma TimerSpeaks(c: I.Config, p: P.Pipe, pid: B.Pid)
    requires OneRuns(p, pid)
    ensures P.Enabled(p, P.Broker(Fire(pid)))
    ensures P.Enabled(P.Next(c, p, P.Broker(Fire(pid))), P.Broker(Handle))
    ensures var q := P.Next(c, P.Next(c, p, P.Broker(Fire(pid))), P.Broker(Handle));
            && P.Active(q) && q.world.mail != [] && q.world.mail[0].CallbackError?
            && q.world.mail[0].kind == CallbackTimeout
  {
    var w := p.world.(timers := p.world.timers - {pid}, inbox := [B.TimedOut(pid)]);
    assert BrokerRun.Next(c.limits, p.world, Fire(pid)) == w;
    I.HandleShape(c.limits, w);
    assert Replies([]) == [];
  }

  lemma FailureEnds(c: I.Config, p: P.Pipe)
    requires P.Active(p) && p.world.mail != [] && p.world.mail[0].CallbackError?
    ensures P.Possible(c, p, [P.Send, P.FinishFailed(false)])
    ensures P.After(c, p, [P.Send, P.FinishFailed(false)]).ended == Some(I.Errored(p.world.mail[0].kind))
  {
    var failed := P.Next(c, p, P.Send);
    var ended := P.Next(c, failed, P.FinishFailed(false));
    assert P.Possible(c, ended, []) && P.After(c, ended, []) == ended;
    P.RunFirst(c, failed, P.FinishFailed(false), []);
    assert [P.FinishFailed(false)] + [] == [P.FinishFailed(false)];
    P.RunFirst(c, p, P.Send, [P.FinishFailed(false)]);
    assert [P.Send] + [P.FinishFailed(false)] == [P.Send, P.FinishFailed(false)];
  }

  /** The callback's answer, written after the child is gone, turns the result into a cancellation. */
  lemma LateAnswerCancels(c: I.Config, p: P.Pipe, pid: B.Pid) returns (es: seq<P.Event>)
    requires OneRuns(p, pid) && p.replyRounds < c.limits.maxCalls && c.limits.maxConcurrency >= 1
    requires p.world.broker.jobs[pid].result.None? && FailureFits(c.limits)
    ensures P.Possible(c, p, es) && P.After(c, p, es).failure.None?
    ensures P.After(c, p, es).ended == Some(I.Errored(Cancelled))
  {
    var exit, handle := P.Broker(Exit(pid)), P.Broker(Handle);
    ExitAnswers(c, p, pid);
    var gone := P.Next(c, p, exit);
    var handled := P.Next(c, gone, handle);
    AnswerEnds(c, handled);
    hide P.Next, P.Enabled, OneRuns;
    P.RunFirst(c, gone, handle, LATE);
    P.RunFirst(c, p, exit, [handle] + LATE);
    es := [exit] + ([handle] + LATE);
  }

  /** The broker can afford to say that a callback failed. */
  ghost predicate FailureFits(l: Limits) {
    Bytes(ErrorText(B.FAILED_CODE, B.FAILED_MESSAGE)) <= l.maxOutput
  }

  const LATE: seq<P.Event> := [P.Send, P.Relay(false), P.Write(true), P.FinishLate]

  /** An answer has been sent to a BEAM that has nothing else to do. */
  ghost predicate Answered(p: P.Pipe) {
    && Done(p) && |p.world.mail| == 1 && p.world.mail[0].CallbackReply?
    && p.commands == [] && p.channel == [] && !p.late
  }

  function FailureOf(id: nat): Completion { Rejected(id, B.FAILED_CODE, B.FAILED_MESSAGE) }

  lemma ExitReaction(l: Limits, b: B.State, pid: B.Pid)
    requires pid in b.jobs && b.jobs[pid].result.None? && FailureFits(l)
    ensures var r := B.React(l, b, B.Down(pid)); r.replies == [FailureOf(b.jobs[pid].id)] && r.ending.None?
  {
    hide Bytes, ErrorText;
  }

  lemma OneReply(d: Completion)
    ensures [] + Replies([d]) + Errors(None) == [CallbackReply(d)]
  {
    assert Replies([d]) == [CallbackReply(d)];
  }

  lemma TurnOnExit(l: Limits, w: World, pid: B.Pid)
    requires w.inbox == [B.Down(pid)] && w.mail == [] && w.phase.Live?
    requires pid in w.broker.jobs && w.broker.jobs[pid].result.None? && FailureFits(l)
    ensures BrokerRun.Next(l, w, Handle).mail == [CallbackReply(FailureOf(w.broker.jobs[pid].id))]
  {
    hide FailureFits, B.React, FailureOf, BrokerRun.Next, Replies, Errors;
    ExitReaction(l, w.broker, pid);
    I.HandleShape(l, w);
    OneReply(FailureOf(w.broker.jobs[pid].id));
  }

  lemma ExitWorld(l: Limits, w: World, pid: B.Pid)
    requires pid in w.procs && w.inbox == [] && w.mail == [] && w.phase.Live?
    requires pid in w.broker.jobs && w.broker.jobs[pid].result.None? && FailureFits(l)
    ensures BrokerRun.Enabled(w, Exit(pid)) && BrokerRun.Enabled(BrokerRun.Next(l, w, Exit(pid)), Handle)
    ensures var after := BrokerRun.Next(l, BrokerRun.Next(l, w, Exit(pid)), Handle);
            |after.mail| == 1 && after.mail[0].CallbackReply?
  {
    hide FailureFits, FailureOf, B.React;
    var gone := w.(procs := w.procs - {pid}, inbox := [B.Down(pid)]);
    assert BrokerRun.Next(l, w, Exit(pid)) == gone;
    hide BrokerRun.Next;
    TurnOnExit(l, gone, pid);
  }

  lemma ExitAnswers(c: I.Config, p: P.Pipe, pid: B.Pid)
    requires OneRuns(p, pid) && p.world.broker.jobs[pid].result.None? && FailureFits(c.limits)
    ensures P.Enabled(p, P.Broker(Exit(pid)))
    ensures P.Enabled(P.Next(c, p, P.Broker(Exit(pid))), P.Broker(Handle))
    ensures var q := P.Next(c, P.Next(c, p, P.Broker(Exit(pid))), P.Broker(Handle));
            Answered(q) && q.replyRounds == p.replyRounds
  {
    hide FailureFits, BrokerRun.Next, BrokerRun.Enabled;
    ExitWorld(c.limits, p.world, pid);
  }

  lemma AnswerEnds(c: I.Config, p: P.Pipe)
    requires Answered(p) && p.replyRounds < c.limits.maxCalls && c.limits.maxConcurrency >= 1
    ensures P.Possible(c, p, LATE) && P.After(c, p, LATE).failure.None?
    ensures P.After(c, p, LATE).ended == Some(I.Errored(Cancelled))
  {
    var d := p.world.mail[0].completion;
    var p1 := P.Next(c, p, P.Send);
    var p2 := P.Next(c, p1, P.Relay(false));
    var p3 := P.Next(c, p2, P.Write(true));
    var p4 := P.Next(c, p3, P.FinishLate);
    assert p1.commands == [d] && p2.channel == [d] && p2.abort.None?;
    assert P.Possible(c, p4, []) && P.After(c, p4, []) == p4;
    assert p4.ended == Some(I.Errored(Cancelled)) && p4.failure.None?;
    assert P.Enabled(p, P.Send) && P.Enabled(p1, P.Relay(false));
    assert P.Enabled(p2, P.Write(true)) && P.Enabled(p3, P.FinishLate);
    hide P.Next, P.Enabled, Answered;
    P.RunFirst(c, p3, P.FinishLate, []);
    P.RunFirst(c, p2, P.Write(true), [P.FinishLate] + []);
    P.RunFirst(c, p1, P.Relay(false), [P.Write(true)] + ([P.FinishLate] + []));
    P.RunFirst(c, p, P.Send, [P.Relay(false)] + ([P.Write(true)] + ([P.FinishLate] + [])));
    assert LATE == [P.Send] + ([P.Relay(false)] + ([P.Write(true)] + ([P.FinishLate] + [])));
  }

  /** From the start: the child returns while a call it never awaited still runs, and then the call's
      timer, or its late answer, takes the result away. */
  lemma ReturnedResultCanBeLost(c: I.Config, denied: string, granted: string, text: string, output: string)
      returns (timeout: seq<P.Event>, late: seq<P.Event>)
    requires Suited(c, denied, granted, text) && FailureFits(c.limits)
    ensures var p := Abandoned(output);
            && P.Reachable(c, p) && p.child == I.Finished(I.Returned(output))
            && P.Possible(c, p, timeout) && P.After(c, p, timeout).ended == Some(I.Errored(CallbackTimeout))
            && P.Possible(c, p, late) && P.After(c, p, late).ended == Some(I.Errored(Cancelled))
  {
    var p := Abandoned(output);
    AbandonedRuns(output);
    assert p.replyRounds == 1 && p.world.broker.jobs[0].result.None? && p.child == I.Finished(I.Returned(output));
    hide P.Reachable, P.Possible, P.After, OneRuns, FailureFits, DenialFits, Calm, Done, Abandoned, G.GoodName, Bytes;
    AbandonedCallReachable(c, denied, granted, text, output);
    timeout := TimeoutOverrules(c, p, 0);
    late := LateAnswerCancels(c, p, 0);
  }
}
