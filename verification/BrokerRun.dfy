/** The broker as a process: its mailbox, the callback processes it links and monitors, their
    timers, and the signals it sends to its parent. Every interleaving of these is a run. */
module BrokerRun {
  import opened Text
  import opened Wrappers
  import opened Wire
  import opened Broker

  /** A callback process that has not exited; it reports at most once. */
  datatype Proc = Proc(id: nat, spoken: bool)

  datatype Signal = CallbackReply(completion: Completion) | CallbackError(kind: Kind, message: string)

  /** After it ends, for whatever reason, the broker has killed every job and waits for the exits
      of `waiting`, one by one. */
  datatype Phase = Live | Cleaning(waiting: set<Pid>)

  /** `mail` are signals the parent has not taken yet. `answered` and `reports` are the history of
      completions sent and of reports made. */
  datatype World = World(
    broker: State,
    phase: Phase,
    procs: map<Pid, Proc>,
    timers: set<Pid>,
    inbox: seq<Msg>,
    mail: seq<Signal>,
    answered: seq<Completion>,
    reports: map<Pid, Report>)

  const Start := World(Idle, Live, map[], {}, [], [], [], map[])

  datatype Event =
    | Post(msg: Msg)                      // a signal from outside reaches the broker
    | Handle                              // the broker takes the head of its mailbox
    | Speak(pid: Pid, outcome: Outcome)   // a callback returns or raises; its process reports
    | Late(pid: Pid)                      // a process that starts past its deadline says so
    | Exit(pid: Pid)                      // a process exits, or is killed
    | Fire(pid: Pid)                      // a job's timer fires
    | Reap(index: nat)                    // a cleaning broker receives an exit it waits for
    | Take                                // the parent takes a signal

  /** What can reach the broker from processes other than its own callbacks. */
  predicate External(m: Msg) {
    m.Requests? || m.ParentDown? || m.Stop? || m.Other?
  }

  predicate Enabled(w: World, e: Event) {
    match e
    case Post(m) => External(m)
    case Handle => w.phase.Live? && w.inbox != []
    case Speak(pid, _) => pid in w.procs && !w.procs[pid].spoken
    case Late(pid) => pid in w.procs && !w.procs[pid].spoken
    case Exit(pid) => pid in w.procs
    case Fire(pid) => pid in w.timers
    case Reap(k) =>
      w.phase.Cleaning? && k < |w.inbox| && w.inbox[k].Down? && w.inbox[k].pid in w.phase.waiting
    case Take => w.mail != []
  }

  function Next(l: Limits, w: World, e: Event): World
    requires Enabled(w, e)
  {
    match e
    case Post(m) => w.(inbox := w.inbox + [m])
    case Handle => HandleNext(l, w)
    case Speak(pid, outcome) =>
      var report := Invoke(l, w.procs[pid].id, outcome);
      w.(procs := w.procs[pid := w.procs[pid].(spoken := true)],
         inbox := w.inbox + [Result(pid, report)],
         reports := w.reports[pid := report])
    case Late(pid) =>
      w.(procs := w.procs[pid := w.procs[pid].(spoken := true)], inbox := w.inbox + [TimedOut(pid)])
    case Exit(pid) => w.(procs := w.procs - {pid}, inbox := w.inbox + [Down(pid)])
    case Fire(pid) => w.(timers := w.timers - {pid}, inbox := w.inbox + [TimedOut(pid)])
    case Reap(k) =>
      w.(phase := Cleaning(w.phase.waiting - {w.inbox[k].pid}), inbox := w.inbox[..k] + w.inbox[k + 1..])
    case Take => w.(mail := w.mail[1..])
  }

  function HandleNext(l: Limits, w: World): World
    requires w.phase.Live? && w.inbox != []
  {
    var r := React(l, w.broker, w.inbox[0]);
    var started := r.state.jobs.Keys - w.broker.jobs.Keys;
    var ended := w.broker.jobs.Keys - r.state.jobs.Keys;
    w.(broker := r.state,
       phase := if r.ending.Some? then Cleaning(r.state.jobs.Keys) else Live,
       procs := w.procs + (map p | p in started :: Proc(r.state.jobs[p].id, false)),
       timers := if r.ending.Some? then {} else w.timers + started - ended,
       inbox := w.inbox[1..],
       mail := w.mail + Replies(r.replies) + Errors(r.ending),
       answered := w.answered + r.replies)
  }

  function Replies(cs: seq<Completion>): (s: seq<Signal>)
    ensures |s| == |cs|
    ensures forall k :: 0 <= k < |cs| ==> s[k] == CallbackReply(cs[k])
  {
    seq(|cs|, k requires 0 <= k < |cs| => CallbackReply(cs[k]))
  }

  function Errors(ending: Option<Ending>): seq<Signal> {
    if ending.Some? && ending.value.Failure? then [CallbackError(ending.value.kind, ending.value.message)] else []
  }

  // ---- Exits in the mailbox ----

  function DownOf(m: Msg): multiset<Pid> {
    if m.Down? then multiset{m.pid} else multiset{}
  }

  /** The processes whose exits lie unconsumed in a mailbox, with multiplicity. */
  function Downs(ms: seq<Msg>): multiset<Pid> {
    if ms == [] then multiset{} else DownOf(ms[0]) + Downs(ms[1..])
  }

  lemma {:induction false} DownsConcat(a: seq<Msg>, b: seq<Msg>)
    ensures Downs(a + b) == Downs(a) + Downs(b)
  {
    if a == [] {
      assert a + b == b;
    } else {
      assert (a + b)[0] == a[0] && (a + b)[1..] == a[1..] + b;
      DownsConcat(a[1..], b);
    }
  }

  lemma DownsAppend(ms: seq<Msg>, m: Msg)
    ensures Downs(ms + [m]) == Downs(ms) + DownOf(m)
  {
    DownsConcat(ms, [m]);
    assert [m][1..] == [];
  }

  lemma DownsRemove(ms: seq<Msg>, k: nat)
    requires k < |ms|
    ensures Downs(ms) == Downs(ms[..k] + ms[k + 1..]) + DownOf(ms[k])
  {
    assert ms[k..][0] == ms[k] && ms[k..][1..] == ms[k + 1..];
    assert Downs(ms[k..]) == DownOf(ms[k]) + Downs(ms[k + 1..]);
    hide Downs, DownOf;
    DownsConcat(ms[..k], ms[k + 1..]);
    assert ms == ms[..k] + ms[k..];
    DownsConcat(ms[..k], ms[k..]);
    Regroup(Downs(ms[..k]), DownOf(ms[k]), Downs(ms[k + 1..]));
  }

  lemma Regroup(a: multiset<Pid>, b: multiset<Pid>, c: multiset<Pid>)
    ensures a + (b + c) == a + c + b
  {
  }

  lemma DiscardOne(s: set<Pid>, p: Pid)
    requires p in s
    ensures multiset(s) == multiset(s - {p}) + multiset{p}
  {
  }

  lemma CancelOne(a: multiset<Pid>, b: multiset<Pid>, p: Pid)
    requires a + multiset{p} == b + multiset{p} || multiset{p} + a == b + multiset{p}
    ensures a == b
  {
    assert a == (a + multiset{p}) - multiset{p};
    assert b == (b + multiset{p}) - multiset{p};
  }

  lemma {:induction false} DownsFind(ms: seq<Msg>, pid: Pid) returns (k: nat)
    requires pid in Downs(ms)
    ensures k < |ms| && ms[k] == Down(pid)
  {
    if ms[0] == Down(pid) {
      k := 0;
    } else {
      var j := DownsFind(ms[1..], pid);
      k := j + 1;
    }
  }

  lemma {:induction false} DownsMembers(ms: seq<Msg>)
    ensures forall k :: 0 <= k < |ms| && ms[k].Down? ==> ms[k].pid in Downs(ms)
  {
    if ms != [] {
      DownsMembers(ms[1..]);
      forall k | 0 <= k < |ms| && ms[k].Down? ensures ms[k].pid in Downs(ms) {
        if k > 0 {
          assert ms[k] == ms[1..][k - 1];
        }
      }
    }
  }

  // ---- The invariant of every run ----

  /** The processes the broker still owes a wait. */
  function Owed(w: World): set<Pid> {
    match w.phase
    case Live => w.broker.jobs.Keys
    case Cleaning(waiting) => waiting
  }

  /** Every living process is owed a wait, and the unconsumed exits are exactly those of the owed
      processes that no longer live. */
  ghost predicate Accounted(w: World) {
    Owed(w) <= w.broker.jobs.Keys && Balanced(Owed(w), w.procs.Keys, w.inbox)
  }

  ghost predicate Balanced(owed: set<Pid>, alive: set<Pid>, inbox: seq<Msg>) {
    alive <= owed && Downs(inbox) == multiset(owed - alive)
  }

  ghost predicate OwnIds(w: World) {
    && (forall p :: p in w.procs && p in w.broker.jobs ==> w.procs[p].id == w.broker.jobs[p].id)
    && (forall k :: 0 <= k < |w.inbox| && w.inbox[k].Result? && w.inbox[k].pid in w.broker.jobs ==>
         ReportFor(w.broker.jobs[w.inbox[k].pid].id, w.inbox[k].report))
    && (forall k :: 0 <= k < |w.inbox| && w.inbox[k].Result? ==> w.inbox[k].pid < w.broker.spawned)
  }

  ghost predicate Good(l: Limits, w: World) {
    && Bounded(l, w.broker)
    && Distinct(w.answered)
    && Ids(w.answered) <= w.broker.seen
    && Tracked(w.broker)
    && (w.phase.Live? ==> Safe(l, w.broker, w.answered))
    && Accounted(w)
    && OwnIds(w)
  }

  lemma StartGood(l: Limits)
    ensures Good(l, Start)
  {
    assert JobIds(Idle.jobs) == {};
    assert Ids([]) == {};
  }

  // ---- Handling a message ----

  /** What one turn does to the jobs: a batch only adds, an exit removes its own process, nothing
      else changes which processes there are. */
  ghost predicate JobsAfter(b: State, m: Msg, r: Reaction) {
    && r.state.spawned >= b.spawned
    && (forall p :: p in r.state.jobs && p !in b.jobs ==> p >= b.spawned && r.state.jobs[p].result == None)
    && (forall p :: p in r.state.jobs && p in b.jobs ==> r.state.jobs[p].id == b.jobs[p].id)
    && b.jobs.Keys - r.state.jobs.Keys == (if m.Down? && m.pid in b.jobs then {m.pid} else {})
  }

  lemma ReactJobs(l: Limits, b: State, m: Msg, answered: seq<Completion>)
    requires Safe(l, b, answered)
    requires m.Result? && m.pid in b.jobs ==> ReportFor(b.jobs[m.pid].id, m.report)
    ensures JobsAfter(b, m, React(l, b, m))
  {
    hide Bounded, Ledger, Tracked, DispatchBatch, EncodeError;
    match m
    case Requests(f) =>
      hide Ids, JobIds;
      if f.entries.Some? {
        BatchKeepsSafe(l, b, f.entries.value, answered);
      }
    case Down(pid) =>
      if pid in b.jobs {
        FinishKeepsSafe(l, b, pid, answered);
      }
    case _ =>
  }

  /** The turn keeps the broker safe; even when it ends the broker, budgets hold and answers are
      distinct. */
  lemma ReactSafe(l: Limits, b: State, m: Msg, answered: seq<Completion>)
    requires Safe(l, b, answered)
    requires m.Result? && m.pid in b.jobs ==> ReportFor(b.jobs[m.pid].id, m.report)
    ensures var r := React(l, b, m);
            && (r.ending.None? ==> Safe(l, r.state, answered + r.replies))
            && Bounded(l, r.state) && Tracked(r.state)
            && Distinct(answered + r.replies) && Ids(answered + r.replies) <= r.state.seen
  {
    hide Bounded, Ledger, Tracked, Distinct, Ids, ReportFor, Dispatch, Finish;
    assert answered + [] == answered;
    SafeMeans(l, b, answered);
    match m
    case Requests(f) =>
      ReactRequestsSafe(l, b, f, answered);
      var after := Dispatch(l, b, f);
      SafeMeans(l, after.state, answered + after.replies);
    case Result(pid, report) =>
      ResultKeepsSafe(l, b, pid, report, answered);
      SafeMeans(l, React(l, b, m).state, answered);
    case Down(pid) =>
      if pid in b.jobs {
        FinishEnding(l, b, pid, answered);
      }
    case _ =>
  }

  lemma SafeMeans(l: Limits, b: State, answered: seq<Completion>)
    requires Safe(l, b, answered)
    ensures Bounded(l, b) && Tracked(b) && Distinct(answered) && Ids(answered) <= b.seen
  {
    hide Bounded, Tracked, Distinct, Ids;
  }

  lemma ReactRequestsSafe(l: Limits, b: State, f: Frame, answered: seq<Completion>)
    requires Safe(l, b, answered)
    ensures var r := Dispatch(l, b, f);
            Safe(l, r.state, answered + r.replies)
  {
    hide Bounded, Ledger, Tracked, DispatchBatch;
    assert answered + [] == answered;
    if f.entries.Some? {
      BatchKeepsSafe(l, b, f.entries.value, answered);
    }
  }

  lemma FinishEnding(l: Limits, b: State, pid: Pid, answered: seq<Completion>)
    requires Safe(l, b, answered) && pid in b.jobs
    ensures var r := Finish(l, b, pid);
            && (r.ending.None? ==> Safe(l, r.state, answered + r.replies))
            && Bounded(l, r.state) && Tracked(r.state)
            && Distinct(answered + r.replies) && Ids(answered + r.replies) <= r.state.seen
  {
    FinishKeepsSafe(l, b, pid, answered);
    assert answered + [] == answered;
    DropJob(b.jobs, pid);
  }

  lemma BalancedHandle(owed: set<Pid>, alive: set<Pid>, ms: seq<Msg>, started: set<Pid>, ended: set<Pid>)
    requires Balanced(owed, alive, ms) && ms != [] && started !! owed
    requires ended == if ms[0].Down? && ms[0].pid in owed then {ms[0].pid} else {}
    ensures Balanced(owed + started - ended, alive + started, ms[1..])
  {
    DownsHead(ms, owed - alive);
    hide Downs;
    assert owed + started - ended - (alive + started) == owed - alive - ended;
  }

  lemma HandleKeepsAccounted(l: Limits, w: World)
    requires w.phase.Live? && w.inbox != []
    requires Accounted(w) && Tracked(w.broker)
    requires JobsAfter(w.broker, w.inbox[0], React(l, w.broker, w.inbox[0]))
    ensures Accounted(HandleNext(l, w))
  {
    hide React, Balanced, Tracked, Downs;
    var after := HandleNext(l, w);
    var owed := w.broker.jobs.Keys;
    var started := after.broker.jobs.Keys - owed;
    var ended := owed - after.broker.jobs.Keys;
    BalancedHandle(owed, w.procs.Keys, w.inbox, started, ended);
    assert Owed(after) == owed + started - ended;
    assert after.procs.Keys == w.procs.Keys + started;
  }

  /** Consuming the head of a mailbox whose exits are those of `dead`. */
  lemma DownsHead(ms: seq<Msg>, dead: set<Pid>)
    requires ms != [] && Downs(ms) == multiset(dead)
    ensures ms[0].Down? ==> ms[0].pid in dead && Downs(ms[1..]) == multiset(dead - {ms[0].pid})
    ensures !ms[0].Down? ==> Downs(ms[1..]) == multiset(dead)
  {
    var rest := Downs(ms[1..]);
    assert Downs(ms) == DownOf(ms[0]) + rest;
    if ms[0].Down? {
      var p := ms[0].pid;
      assert p in DownOf(ms[0]) + rest;
      assert p in dead;
      DiscardOne(dead, p);
      CancelOne(rest, multiset(dead - {p}), p);
    } else {
      assert DownOf(ms[0]) + rest == rest;
    }
  }

  lemma DownsPick(ms: seq<Msg>, k: nat, dead: set<Pid>)
    requires k < |ms| && ms[k].Down? && Downs(ms) == multiset(dead)
    ensures ms[k].pid in dead && Downs(ms[..k] + ms[k + 1..]) == multiset(dead - {ms[k].pid})
  {
    DownsRemove(ms, k);
    var rest := Downs(ms[..k] + ms[k + 1..]);
    var p := ms[k].pid;
    assert p in rest + DownOf(ms[k]);
    assert p in dead;
    DiscardOne(dead, p);
    CancelOne(rest, multiset(dead - {p}), p);
  }

  /** Appending a message that is not an exit, or the exit of a process not counted yet. */
  lemma DownsPost(ms: seq<Msg>, m: Msg, dead: set<Pid>)
    requires Downs(ms) == multiset(dead)
    requires m.Down? ==> m.pid !in dead
    ensures Downs(ms + [m]) == multiset(if m.Down? then dead + {m.pid} else dead)
  {
    DownsAppend(ms, m);
    if m.Down? {
      assert dead + {m.pid} - {m.pid} == dead;
      DiscardOne(dead + {m.pid}, m.pid);
    } else {
      assert Downs(ms) + DownOf(m) == Downs(ms);
    }
  }

  lemma HandleKeepsOwnIds(l: Limits, w: World)
    requires w.phase.Live? && w.inbox != []
    requires Accounted(w) && OwnIds(w) && Tracked(w.broker)
    requires JobsAfter(w.broker, w.inbox[0], React(l, w.broker, w.inbox[0]))
    ensures OwnIds(HandleNext(l, w))
  {
    hide React, ReportFor;
    var after := HandleNext(l, w);
    forall k | 0 <= k < |after.inbox| && after.inbox[k].Result?
      ensures after.inbox[k].pid < after.broker.spawned
      ensures after.inbox[k].pid in after.broker.jobs ==>
                ReportFor(after.broker.jobs[after.inbox[k].pid].id, after.inbox[k].report)
    {
      assert after.inbox[k] == w.inbox[k + 1];
    }
  }

  lemma HandleKeepsGood(l: Limits, w: World)
    requires Good(l, w) && Enabled(w, Handle)
    ensures Good(l, Next(l, w, Handle))
  {
    var m := w.inbox[0];
    assert m.Result? && m.pid in w.broker.jobs ==> ReportFor(w.broker.jobs[m.pid].id, m.report);
    hide React, Ledger, Bounded, Tracked, Accounted, OwnIds, JobsAfter, ReportFor, Distinct, Ids;
    ReactJobs(l, w.broker, m, w.answered);
    ReactSafe(l, w.broker, m, w.answered);
    HandleKeepsAccounted(l, w);
    HandleKeepsOwnIds(l, w);
  }

  // ---- The other events ----

  lemma BalancedPost(owed: set<Pid>, alive: set<Pid>, ms: seq<Msg>, m: Msg)
    requires Balanced(owed, alive, ms)
    requires m.Down? ==> m.pid in alive
    ensures Balanced(owed, if m.Down? then alive - {m.pid} else alive, ms + [m])
  {
    DownsPost(ms, m, owed - alive);
    hide Downs;
    assert m.Down? ==> owed - (alive - {m.pid}) == owed - alive + {m.pid};
  }

  lemma BalancedReap(owed: set<Pid>, alive: set<Pid>, ms: seq<Msg>, k: nat)
    requires Balanced(owed, alive, ms) && k < |ms| && ms[k].Down?
    ensures Balanced(owed - {ms[k].pid}, alive, ms[..k] + ms[k + 1..])
  {
    DownsPick(ms, k, owed - alive);
    hide Downs;
    assert owed - {ms[k].pid} - alive == owed - alive - {ms[k].pid};
  }

  lemma OutsideKeepsAccounted(l: Limits, w: World, e: Event)
    requires Accounted(w) && Enabled(w, e) && !e.Handle?
    ensures Accounted(Next(l, w, e))
  {
    hide Invoke, Balanced, HandleNext;
    var after := Next(l, w, e);
    match e
    case Post(m) => BalancedPost(Owed(w), w.procs.Keys, w.inbox, m);
    case Speak(pid, outcome) =>
      BalancedPost(Owed(w), w.procs.Keys, w.inbox, Result(pid, Invoke(l, w.procs[pid].id, outcome)));
      assert after.procs.Keys == w.procs.Keys;
    case Late(pid) =>
      BalancedPost(Owed(w), w.procs.Keys, w.inbox, TimedOut(pid));
      assert after.procs.Keys == w.procs.Keys;
    case Exit(pid) =>
      BalancedPost(Owed(w), w.procs.Keys, w.inbox, Down(pid));
      assert after.procs.Keys == w.procs.Keys - {pid};
    case Fire(pid) => BalancedPost(Owed(w), w.procs.Keys, w.inbox, TimedOut(pid));
    case Reap(k) => BalancedReap(Owed(w), w.procs.Keys, w.inbox, k);
    case Take =>
  }

  lemma OutsideKeepsOwnIds(l: Limits, w: World, e: Event)
    requires Accounted(w) && OwnIds(w) && Tracked(w.broker) && Enabled(w, e) && !e.Handle?
    ensures OwnIds(Next(l, w, e))
  {
    hide Downs;
    var after := Next(l, w, e);
    forall k | 0 <= k < |after.inbox| && after.inbox[k].Result?
      ensures after.inbox[k].pid < after.broker.spawned
      ensures after.inbox[k].pid in after.broker.jobs ==>
                ReportFor(after.broker.jobs[after.inbox[k].pid].id, after.inbox[k].report)
    {
      if e.Reap? {
        assert after.inbox[k] == w.inbox[if k < e.index then k else k + 1];
      } else if k < |w.inbox| {
        assert after.inbox[k] == w.inbox[k];
      } else {
        assert e.Speak?;
        SpeakReports(l, w.procs[e.pid].id, e.outcome);
      }
    }
  }

  lemma SpeakReports(l: Limits, id: nat, outcome: Outcome)
    ensures ReportFor(id, Invoke(l, id, outcome))
  {
  }

  /** Safety of every step: whatever frames arrive, whatever callbacks do and however messages,
      exits and timers interleave. */
  lemma NextKeepsGood(l: Limits, w: World, e: Event)
    requires Good(l, w) && Enabled(w, e)
    ensures Good(l, Next(l, w, e))
  {
    hide Accounted, OwnIds, Bounded, Tracked, Ledger, Distinct, Ids, Invoke, HandleNext;
    if e.Handle? {
      HandleKeepsGood(l, w);
    } else {
      OutsideKeepsAccounted(l, w, e);
      OutsideKeepsOwnIds(l, w, e);
    }
  }

  // ---- Whole runs ----

  ghost predicate Possible(l: Limits, w: World, es: seq<Event>)
    decreases |es|
  {
    es == [] || (Enabled(w, es[0]) && Possible(l, Next(l, w, es[0]), es[1..]))
  }

  ghost function After(l: Limits, w: World, es: seq<Event>): World
    requires Possible(l, w, es)
    decreases |es|
  {
    if es == [] then w else After(l, Next(l, w, es[0]), es[1..])
  }

  lemma {:induction false} RunKeepsGood(l: Limits, w: World, es: seq<Event>)
    requires Good(l, w) && Possible(l, w, es)
    ensures Good(l, After(l, w, es))
    decreases |es|
  {
    hide Good, Next, Enabled;
    if es != [] {
      NextKeepsGood(l, w, es[0]);
      RunKeepsGood(l, Next(l, w, es[0]), es[1..]);
    }
  }

  /** In every run, for arbitrary frames: budgets hold, no id runs or is answered twice, while the
      broker lives the admitted ids are exactly the running ones and the answered ones, and every
      living callback process is one the broker will kill when it ends. */
  lemma BrokerSafety(l: Limits, es: seq<Event>)
    requires Possible(l, Start, es)
    ensures var w := After(l, Start, es);
            && |w.broker.jobs| <= l.maxConcurrency
            && |w.broker.seen| <= l.maxCalls
            && Distinct(w.answered) && |w.answered| <= l.maxCalls
            && w.procs.Keys <= w.broker.jobs.Keys && |w.procs| <= l.maxConcurrency
            && (w.phase.Live? ==>
                 && Injective(w.broker.jobs)
                 && JobIds(w.broker.jobs) !! Ids(w.answered)
                 && w.broker.seen == JobIds(w.broker.jobs) + Ids(w.answered))
            && (w.phase == Cleaning({}) ==> w.procs == map[])
  {
    StartGood(l);
    RunKeepsGood(l, Start, es);
    var w := After(l, Start, es);
    hide Downs, Possible, After;
    SubsetSize(w.procs.Keys, w.broker.jobs.Keys);
    DistinctSize(w.answered);
    SubsetSize(Ids(w.answered), w.broker.seen);
  }

  lemma {:induction false} SubsetSize<T>(a: set<T>, b: set<T>)
    requires a <= b
    ensures |a| <= |b|
  {
    if a != {} {
      var x :| x in a;
      SubsetSize(a - {x}, b - {x});
    }
  }

  lemma {:induction false} DistinctSize(cs: seq<Completion>)
    requires Distinct(cs)
    ensures |Ids(cs)| == |cs|
    decreases |cs|
  {
    if cs == [] {
      assert Ids(cs) == {};
    } else {
      var last := |cs| - 1;
      var rest := cs[..last];
      DistinctSize(rest);
      assert cs[last].id !in Ids(rest);
      AnswerOne(rest, cs[last]);
      assert cs == rest + [cs[last]];
    }
  }

  // ---- Ending ----

  /** A cleaning broker never waits for an exit that cannot come: each process it waits for is
      either still alive, and killed, or its exit is in the mailbox. */
  lemma CleanupNeverBlocks(l: Limits, w: World, pid: Pid)
    requires Good(l, w) && w.phase.Cleaning? && pid in w.phase.waiting
    ensures Enabled(w, Exit(pid)) || exists k: nat :: Enabled(w, Reap(k)) && w.inbox[k].pid == pid
  {
    hide Bounded, Ledger, Tracked, OwnIds, Distinct, Ids;
    if pid !in w.procs {
      assert pid in multiset(Owed(w) - w.procs.Keys);
      var k := DownsFind(w.inbox, pid);
      assert Enabled(w, Reap(k));
    }
  }

  /** Every ending completes: from any state of cleaning there is a run of exits and receptions
      after which nothing is waited for and no callback process lives. */
  lemma {:induction false} CleanupCompletes(l: Limits, w: World) returns (es: seq<Event>)
    requires Good(l, w) && w.phase.Cleaning?
    ensures Possible(l, w, es) && |es| <= 2 * |w.phase.waiting|
    ensures After(l, w, es).phase == Cleaning({}) && After(l, w, es).procs == map[]
    decreases |w.phase.waiting|, |w.procs|
  {
    if w.phase.waiting == {} {
      es := [];
      assert w.procs.Keys <= {};
    } else {
      var pid :| pid in w.phase.waiting;
      es := CleanOne(l, w, pid);
      var mid := After(l, w, es);
      assert |mid.phase.waiting| == |w.phase.waiting| - 1;
      var rest := CleanupCompletes(l, mid);
      hide Good, Next, Enabled;
      RunsCompose(l, w, es, rest);
      es := es + rest;
    }
  }

  lemma CleanOne(l: Limits, w: World, pid: Pid) returns (es: seq<Event>)
    requires Good(l, w) && w.phase.Cleaning? && pid in w.phase.waiting
    ensures Possible(l, w, es) && |es| <= 2
    ensures var mid := After(l, w, es);
            Good(l, mid) && mid.phase == Cleaning(w.phase.waiting - {pid})
  {
    hide Good, HandleNext, Invoke;
    var dead := w;
    es := [];
    CleanupNeverBlocks(l, w, pid);
    if Enabled(w, Exit(pid)) {
      dead := Next(l, w, Exit(pid));
      NextKeepsGood(l, w, Exit(pid));
      es := [Exit(pid)];
      CleanupNeverBlocks(l, dead, pid);
    }
    var k: nat :| Enabled(dead, Reap(k)) && dead.inbox[k].pid == pid;
    NextKeepsGood(l, dead, Reap(k));
    RunOne(l, dead, Reap(k));
    if es == [] {
      es := [Reap(k)];
    } else {
      RunTwo(l, w, Exit(pid), Reap(k));
      es := [Exit(pid), Reap(k)];
    }
  }

  lemma RunOne(l: Limits, w: World, e: Event)
    requires Enabled(w, e)
    ensures Possible(l, w, [e]) && After(l, w, [e]) == Next(l, w, e)
  {
    hide Next, Enabled;
    assert [e][1..] == [];
    assert Possible(l, Next(l, w, e), []);
    assert After(l, Next(l, w, e), []) == Next(l, w, e);
  }

  lemma RunTwo(l: Limits, w: World, d: Event, e: Event)
    requires Enabled(w, d) && Enabled(Next(l, w, d), e)
    ensures Possible(l, w, [d, e]) && After(l, w, [d, e]) == Next(l, Next(l, w, d), e)
  {
    hide Next, Enabled;
    RunOne(l, Next(l, w, d), e);
    assert [d, e][1..] == [e];
  }

  lemma {:induction false} RunsCompose(l: Limits, w: World, a: seq<Event>, b: seq<Event>)
    requires Possible(l, w, a) && Possible(l, After(l, w, a), b)
    ensures Possible(l, w, a + b) && After(l, w, a + b) == After(l, After(l, w, a), b)
    decreases |a|
  {
    hide Next, Enabled;
    if a == [] {
      assert a + b == b;
    } else {
      assert (a + b)[0] == a[0] && (a + b)[1..] == a[1..] + b;
      RunsCompose(l, Next(l, w, a[0]), a[1..], b);
    }
  }

  // ---- Answers are what callbacks reported ----

  ghost predicate Queued(inbox: seq<Msg>, pid: Pid, r: Report) {
    exists k :: 0 <= k < |inbox| && inbox[k] == Result(pid, r)
  }

  /** Each report reaches its job before the exit of the process that made it. */
  ghost predicate Faithful(w: World) {
    && (forall p :: p in w.broker.jobs && p in w.reports ==>
         w.broker.jobs[p].result == Some(w.reports[p]) || Queued(w.inbox, p, w.reports[p]))
    && (forall p :: p in w.broker.jobs && w.broker.jobs[p].result.Some? ==>
         p in w.reports && w.reports[p] == w.broker.jobs[p].result.value)
    && InOrder(w.inbox, w.reports)
    && (forall p :: p in w.procs && !w.procs[p].spoken ==> p !in w.reports)
    && (forall p :: p in w.reports ==> p < w.broker.spawned)
  }

  ghost predicate InOrder(inbox: seq<Msg>, reports: map<Pid, Report>) {
    && (forall k :: 0 <= k < |inbox| && inbox[k].Result? ==>
         inbox[k].pid in reports && reports[inbox[k].pid] == inbox[k].report)
    && (forall j, k :: 0 <= j < k < |inbox| && inbox[j].Down? && inbox[k].Result? ==> inbox[j].pid != inbox[k].pid)
  }

  /** The answer to a process that exits is exactly what it reported, and a generic failure if it
      exited without reporting. */
  lemma ExitAnswersReport(l: Limits, w: World, pid: Pid)
    requires Good(l, w) && Faithful(w) && w.phase.Live?
    requires w.inbox != [] && w.inbox[0] == Down(pid) && pid in w.broker.jobs
    ensures var r := React(l, w.broker, w.inbox[0]);
            var report := if pid in w.reports then w.reports[pid]
                          else EncodeError(l, w.broker.jobs[pid].id, FAILED_CODE, FAILED_MESSAGE);
            match report
            case Reply(c) => r.replies == [c] && r.ending.None? && c.id == w.broker.jobs[pid].id
            case Fatal(message) => r.replies == [] && r.ending == Some(Failure(CallbackLimit, message))
  {
    hide Bounded, Ledger, Accounted, EncodeError;
    if pid in w.reports {
      assert !Queued(w.inbox, pid, w.reports[pid]);
    }
  }

  lemma SpeakKeepsFaithful(l: Limits, w: World, pid: Pid, outcome: Outcome)
    requires Good(l, w) && Faithful(w) && Enabled(w, Speak(pid, outcome))
    ensures Faithful(Next(l, w, Speak(pid, outcome)))
  {
    var report := Invoke(l, w.procs[pid].id, outcome);
    hide Bounded, Ledger, OwnIds, InOrder, Invoke;
    NotDead(w, pid);
    ReportKeepsOrder(w.inbox, w.reports, pid, report);
    ReportKeepsFaithful(w, Next(l, w, Speak(pid, outcome)), pid, report);
  }

  lemma ReportKeepsFaithful(w: World, after: World, pid: Pid, report: Report)
    requires Faithful(w) && pid !in w.reports && pid < w.broker.spawned
    requires pid in w.procs
    requires after.inbox == w.inbox + [Result(pid, report)] && after.reports == w.reports[pid := report]
    requires after.broker == w.broker && after.procs == w.procs[pid := w.procs[pid].(spoken := true)]
    requires InOrder(after.inbox, after.reports)
    ensures Faithful(after)
  {
    hide InOrder;
    assert after.inbox[|w.inbox|] == Result(pid, report);
    forall p | p in after.broker.jobs && p in after.reports
      ensures after.broker.jobs[p].result == Some(after.reports[p]) || Queued(after.inbox, p, after.reports[p])
    {
      if p != pid && Queued(w.inbox, p, w.reports[p]) {
        StillQueued(w.inbox, Result(pid, report), p, w.reports[p]);
      }
    }
  }

  lemma ReportKeepsOrder(inbox: seq<Msg>, reports: map<Pid, Report>, pid: Pid, report: Report)
    requires InOrder(inbox, reports) && pid !in reports && Down(pid) !in inbox
    ensures InOrder(inbox + [Result(pid, report)], reports[pid := report])
  {
  }

  /** A living process has no exit in the mailbox. */
  lemma NotDead(w: World, pid: Pid)
    requires Accounted(w) && pid in w.procs
    ensures Down(pid) !in w.inbox
  {
    DownsMembers(w.inbox);
    hide Downs;
    assert pid !in multiset(Owed(w) - w.procs.Keys);
  }

  lemma StillQueued(inbox: seq<Msg>, m: Msg, pid: Pid, r: Report)
    requires Queued(inbox, pid, r)
    ensures Queued(inbox + [m], pid, r)
  {
    var k :| 0 <= k < |inbox| && inbox[k] == Result(pid, r);
    assert (inbox + [m])[k] == Result(pid, r);
  }

  lemma PostKeepsFaithful(w: World, after: World, m: Msg)
    requires Faithful(w) && !m.Result?
    requires after.inbox == w.inbox + [m] && after.broker == w.broker && after.reports == w.reports
    requires forall p :: p in after.procs ==> p in w.procs && (w.procs[p].spoken ==> after.procs[p].spoken)
    ensures Faithful(after)
  {
    forall p | p in after.broker.jobs && p in after.reports && Queued(w.inbox, p, w.reports[p])
      ensures Queued(after.inbox, p, after.reports[p])
    {
      StillQueued(w.inbox, m, p, w.reports[p]);
    }
  }

  lemma HandleKeepsFaithful(l: Limits, w: World)
    requires Good(l, w) && Faithful(w) && Enabled(w, Handle)
    ensures Faithful(HandleNext(l, w))
  {
    var m := w.inbox[0];
    assert m.Result? && m.pid in w.broker.jobs ==> ReportFor(w.broker.jobs[m.pid].id, m.report);
    ReactJobs(l, w.broker, m, w.answered);
    ReactResults(l, w.broker, m, w.answered);
    hide React, Bounded, Ledger, Accounted, OwnIds;
    HandleOrder(w.inbox, w.reports);
    HandleReports(l, w);
  }

  /** Only a result changes the stored result of a job that stays. */
  lemma ReactResults(l: Limits, b: State, m: Msg, answered: seq<Completion>)
    requires Safe(l, b, answered)
    ensures var after := React(l, b, m).state;
            forall p :: p in b.jobs && p in after.jobs ==>
              after.jobs[p].result == if m.Result? && m.pid == p then Some(m.report) else b.jobs[p].result
  {
    hide Bounded, Ledger, Tracked, DispatchBatch, Finish;
    match m
    case Requests(f) =>
      if f.entries.Some? {
        BatchKeepsSafe(l, b, f.entries.value, answered);
      }
    case Down(pid) =>
      if pid in b.jobs {
        FinishKeepsSafe(l, b, pid, answered);
      }
    case _ =>
  }

  lemma HandleOrder(inbox: seq<Msg>, reports: map<Pid, Report>)
    requires InOrder(inbox, reports) && inbox != []
    ensures InOrder(inbox[1..], reports)
  {
  }

  lemma HandleReports(l: Limits, w: World)
    requires Faithful(w) && w.phase.Live? && w.inbox != [] && Tracked(w.broker)
    requires w.procs.Keys <= w.broker.jobs.Keys
    requires JobsAfter(w.broker, w.inbox[0], React(l, w.broker, w.inbox[0]))
    requires var m := w.inbox[0];
             var after := React(l, w.broker, m).state;
             forall p :: p in w.broker.jobs && p in after.jobs ==>
               after.jobs[p].result == if m.Result? && m.pid == p then Some(m.report) else w.broker.jobs[p].result
    ensures Faithful(HandleNext(l, w))
  {
    hide React;
    var m := w.inbox[0];
    var after := HandleNext(l, w);
    forall p | p in after.broker.jobs && p in after.reports
      ensures after.broker.jobs[p].result == Some(after.reports[p]) || Queued(after.inbox, p, after.reports[p])
    {
      assert p in w.broker.jobs;
      if Queued(w.inbox, p, w.reports[p]) && m != Result(p, w.reports[p]) {
        var k :| 0 <= k < |w.inbox| && w.inbox[k] == Result(p, w.reports[p]);
        assert after.inbox[k - 1] == Result(p, w.reports[p]);
      }
    }
  }

  lemma NextKeepsFaithful(l: Limits, w: World, e: Event)
    requires Good(l, w) && Faithful(w) && w.phase.Live? && Enabled(w, e)
    ensures Faithful(Next(l, w, e))
  {
    hide Good, Faithful, Invoke, HandleNext;
    match e
    case Post(m) => PostKeepsFaithful(w, Next(l, w, e), m);
    case Handle => HandleKeepsFaithful(l, w);
    case Speak(pid, outcome) => SpeakKeepsFaithful(l, w, pid, outcome);
    case Late(pid) => PostKeepsFaithful(w, Next(l, w, e), TimedOut(pid));
    case Exit(pid) => PostKeepsFaithful(w, Next(l, w, e), Down(pid));
    case Fire(pid) => PostKeepsFaithful(w, Next(l, w, e), TimedOut(pid));
    case Take => TakeKeepsFaithful(w, Next(l, w, e));
  }

  lemma TakeKeepsFaithful(w: World, after: World)
    requires Faithful(w) && after == w.(mail := after.mail)
    ensures Faithful(after)
  {
  }

  lemma CleaningStays(l: Limits, w: World, e: Event)
    requires w.phase.Cleaning? && Enabled(w, e)
    ensures Next(l, w, e).phase.Cleaning?
  {
    hide Invoke;
  }

  lemma NextKeepsLiveFaithful(l: Limits, w: World, e: Event)
    requires Good(l, w) && (w.phase.Live? ==> Faithful(w)) && Enabled(w, e)
    ensures Next(l, w, e).phase.Live? ==> Faithful(Next(l, w, e))
  {
    hide Good, Faithful, Next, Enabled;
    if w.phase.Live? {
      NextKeepsFaithful(l, w, e);
    } else {
      CleaningStays(l, w, e);
    }
  }

  lemma {:induction false} RunKeepsFaithful(l: Limits, w: World, es: seq<Event>)
    requires Good(l, w) && Possible(l, w, es)
    requires w.phase.Live? ==> Faithful(w)
    ensures After(l, w, es).phase.Live? ==> Faithful(After(l, w, es))
    decreases |es|
  {
    hide Good, Faithful, Next, Enabled;
    if es != [] {
      NextKeepsGood(l, w, es[0]);
      NextKeepsLiveFaithful(l, w, es[0]);
      RunKeepsFaithful(l, Next(l, w, es[0]), es[1..]);
    }
  }

  // ---- Every completion sent is within the output budget ----

  ghost predicate Affordable(l: Limits, r: Report) {
    r.Reply? ==> WithinOutputBudget(r.completion, l.maxOutput)
  }

  ghost predicate AllWithin(l: Limits, cs: seq<Completion>) {
    forall k :: 0 <= k < |cs| ==> WithinOutputBudget(cs[k], l.maxOutput)
  }

  ghost predicate Budgeted(l: Limits, w: World) {
    && AllWithin(l, w.answered)
    && (forall p :: p in w.broker.jobs && w.broker.jobs[p].result.Some? ==>
         Affordable(l, w.broker.jobs[p].result.value))
    && (forall k :: 0 <= k < |w.inbox| && w.inbox[k].Result? ==> Affordable(l, w.inbox[k].report))
  }

  lemma RequestWithin(l: Limits, b: State, e: Entry)
    ensures var v := DispatchRequest(l, b, e); v.Accepted? ==> AllWithin(l, v.replies)
  {
    hide Admitted, WithinOutputBudget, EncodeError;
  }

  lemma {:induction false} BatchWithin(l: Limits, b: State, entries: seq<Entry>)
    ensures AllWithin(l, DispatchBatch(l, b, entries).replies)
    decreases |entries|
  {
    hide DispatchRequest, WithinOutputBudget;
    if entries != [] {
      RequestWithin(l, b, entries[0]);
      var v := DispatchRequest(l, b, entries[0]);
      if v.Accepted? {
        BatchWithin(l, v.state, entries[1..]);
      }
    }
  }

  lemma FinishWithin(l: Limits, b: State, pid: Pid)
    requires pid in b.jobs && (b.jobs[pid].result.Some? ==> Affordable(l, b.jobs[pid].result.value))
    ensures AllWithin(l, Finish(l, b, pid).replies)
  {
    hide EncodeError, WithinOutputBudget;
  }

  lemma ReactWithin(l: Limits, b: State, m: Msg)
    requires forall p :: p in b.jobs && b.jobs[p].result.Some? ==> Affordable(l, b.jobs[p].result.value)
    ensures AllWithin(l, React(l, b, m).replies)
  {
    hide WithinOutputBudget, DispatchBatch, Finish;
    match m
    case Requests(f) =>
      if f.entries.Some? {
        BatchWithin(l, b, f.entries.value);
      }
    case Down(pid) =>
      if pid in b.jobs {
        FinishWithin(l, b, pid);
      }
    case _ =>
  }

  lemma HandleKeepsBudgeted(l: Limits, w: World)
    requires Good(l, w) && Budgeted(l, w) && Enabled(w, Handle)
    ensures Budgeted(l, HandleNext(l, w))
  {
    var m := w.inbox[0];
    assert m.Result? && m.pid in w.broker.jobs ==> ReportFor(w.broker.jobs[m.pid].id, m.report);
    ReactJobs(l, w.broker, m, w.answered);
    ReactResults(l, w.broker, m, w.answered);
    hide Good, React, Affordable, WithinOutputBudget;
    ReactWithin(l, w.broker, m);
    JobsStayAffordable(l, w.broker, m, React(l, w.broker, m));
    hide JobsAfter;
    BudgetedAfter(l, w, HandleNext(l, w), React(l, w.broker, m));
  }

  lemma BudgetedAfter(l: Limits, w: World, after: World, r: Reaction)
    requires Budgeted(l, w) && AllWithin(l, r.replies) && w.inbox != []
    requires after.broker == r.state && after.inbox == w.inbox[1..] && after.answered == w.answered + r.replies
    requires forall p :: p in r.state.jobs && r.state.jobs[p].result.Some? ==>
               Affordable(l, r.state.jobs[p].result.value)
    ensures Budgeted(l, after)
  {
    hide Affordable, WithinOutputBudget;
  }

  lemma JobsStayAffordable(l: Limits, b: State, m: Msg, r: Reaction)
    requires JobsAfter(b, m, r)
    requires forall p :: p in b.jobs && p in r.state.jobs ==>
               r.state.jobs[p].result == if m.Result? && m.pid == p then Some(m.report) else b.jobs[p].result
    requires forall p :: p in b.jobs && b.jobs[p].result.Some? ==> Affordable(l, b.jobs[p].result.value)
    requires m.Result? ==> Affordable(l, m.report)
    ensures forall p :: p in r.state.jobs && r.state.jobs[p].result.Some? ==>
              Affordable(l, r.state.jobs[p].result.value)
  {
    hide Affordable;
  }

  /** Together with `Wire.CompletionFits`: no completion the broker sends exceeds the limit the
      driver and the supervisor check. */
  lemma NextKeepsBudgeted(l: Limits, w: World, e: Event)
    requires Good(l, w) && Budgeted(l, w) && Enabled(w, e)
    ensures Budgeted(l, Next(l, w, e))
  {
    hide Good, WithinOutputBudget, HandleNext;
    if e.Handle? {
      HandleKeepsBudgeted(l, w);
    } else if e.Speak? {
      hide Invoke;
      assert Affordable(l, Invoke(l, w.procs[e.pid].id, e.outcome));
    } else if e.Reap? {
      var after := Next(l, w, e);
      assert forall k :: 0 <= k < |after.inbox| ==> after.inbox[k] == w.inbox[if k < e.index then k else k + 1];
    }
  }
}
