/** Every callback has a deadline that the broker will hear of, and none outlives the broker. */
module Deadlines {
  import opened Wire
  import opened Broker
  import opened BrokerRun

  predicate Waits(inbox: seq<Msg>, p: Pid) {
    exists k :: 0 <= k < |inbox| && inbox[k] == TimedOut(p)
  }

  /** Each job's timer is armed, or its timeout is in the mailbox; no other timer is armed. */
  ghost predicate Timed(w: World) {
    match w.phase
    case Live =>
      && w.timers <= w.broker.jobs.Keys
      && forall p :: p in w.broker.jobs ==> p in w.timers || Waits(w.inbox, p)
    case Cleaning(_) => w.timers == {}
  }

  lemma StillWaits(inbox: seq<Msg>, m: Msg, p: Pid)
    requires Waits(inbox, p) || m == TimedOut(p)
    ensures Waits(inbox + [m], p)
  {
    var all := inbox + [m];
    assert all[|inbox|] == m;
    if k :| 0 <= k < |inbox| && inbox[k] == TimedOut(p) {
      assert all[k] == TimedOut(p);
    }
  }

  lemma MoreKeepsTimed(w: World, after: World, m: Msg)
    requires Timed(w) && after.inbox == w.inbox + [m]
    requires after.phase == w.phase && after.broker == w.broker
    requires after.timers == if m.TimedOut? then w.timers - {m.pid} else w.timers
    ensures Timed(after)
  {
    hide Waits;
    if w.phase.Live? {
      forall p | p in after.broker.jobs ensures p in after.timers || Waits(after.inbox, p) {
        if Waits(w.inbox, p) || m == TimedOut(p) {
          StillWaits(w.inbox, m, p);
        }
      }
    }
  }

  /** The timeout of a job that runs ends the broker. */
  lemma TimeoutEnds(l: Limits, b: State, p: Pid)
    requires p in b.jobs
    ensures React(l, b, TimedOut(p)).ending.Some?
  {
  }

  lemma HandleKeepsTimed(l: Limits, w: World)
    requires Timed(w) && Enabled(w, Handle)
    ensures Timed(HandleNext(l, w))
  {
    var after := HandleNext(l, w);
    if after.phase.Live? {
      forall p | p in after.broker.jobs && p !in after.timers ensures Waits(after.inbox, p) {
        assert p in w.broker.jobs && Waits(w.inbox, p) by { hide React; }
        var k :| 0 <= k < |w.inbox| && w.inbox[k] == TimedOut(p);
        if k == 0 {
          TimeoutEnds(l, w.broker, p);
        }
        hide React;
        assert after.inbox[k - 1] == TimedOut(p);
      }
    }
    hide React;
  }

  lemma NextKeepsTimed(l: Limits, w: World, e: Event)
    requires Timed(w) && Enabled(w, e)
    ensures Timed(Next(l, w, e))
  {
    hide Timed, HandleNext, Invoke;
    var after := Next(l, w, e);
    match e
    case Post(m) => MoreKeepsTimed(w, after, m);
    case Handle => HandleKeepsTimed(l, w);
    case Speak(pid, outcome) => MoreKeepsTimed(w, after, Result(pid, Invoke(l, w.procs[pid].id, outcome)));
    case Late(pid) => LateKeepsTimed(w, after, pid);
    case Exit(pid) => MoreKeepsTimed(w, after, Down(pid));
    case Fire(pid) => MoreKeepsTimed(w, after, TimedOut(pid));
    case Reap(k) => ReapKeepsTimed(w, after);
    case Take => TakeKeepsTimed(w, after);
  }

  lemma LateKeepsTimed(w: World, after: World, p: Pid)
    requires Timed(w) && after.inbox == w.inbox + [TimedOut(p)]
    requires after.phase == w.phase && after.broker == w.broker && after.timers == w.timers
    ensures Timed(after)
  {
    hide Waits;
    if w.phase.Live? {
      forall q | q in after.broker.jobs && Waits(w.inbox, q) ensures Waits(after.inbox, q) {
        StillWaits(w.inbox, TimedOut(p), q);
      }
    }
  }

  lemma ReapKeepsTimed(w: World, after: World)
    requires Timed(w) && w.phase.Cleaning? && after.phase.Cleaning? && after.timers == w.timers
    ensures Timed(after)
  {
  }

  lemma TakeKeepsTimed(w: World, after: World)
    requires Timed(w) && after == w.(mail := after.mail)
    ensures Timed(after)
  {
  }

  lemma {:induction false} RunKeepsTimed(l: Limits, w: World, es: seq<Event>)
    requires Timed(w) && Possible(l, w, es)
    ensures Timed(After(l, w, es))
    decreases |es|
  {
    hide Timed, Next, Enabled;
    if es != [] {
      NextKeepsTimed(l, w, es[0]);
      RunKeepsTimed(l, Next(l, w, es[0]), es[1..]);
    }
  }

  /** In every run: while the broker lives, each of its jobs has its timer armed or its timeout waiting to
      be read, so a broker with an empty mailbox and no timer runs nothing; and a broker that has ended
      leaves no timer behind. */
  lemma EveryCallbackIsTimed(l: Limits, es: seq<Event>)
    requires Possible(l, Start, es)
    ensures var w := After(l, Start, es);
            && (w.phase.Live? ==>
                 && w.timers <= w.broker.jobs.Keys
                 && (forall p :: p in w.broker.jobs ==> p in w.timers || TimedOut(p) in w.inbox)
                 && (w.timers == {} && w.inbox == [] ==> w.broker.jobs == map[]))
            && (w.phase.Cleaning? ==> w.timers == {})
  {
    RunKeepsTimed(l, Start, es);
    var w := After(l, Start, es);
    hide After, Possible;
    if w.timers == {} && w.inbox == [] && w.phase.Live? {
      assert w.broker.jobs.Keys == {};
    }
  }
}
