/** The runtime's admission state machine: calls become jobs in a bounded number of slots, and
    results, timers, worker deaths and caller deaths race to answer them. */
module Admission {
  import opened Wrappers

  type Pid = nat
  type Ref = nat
  type Caller = nat

  datatype Kind = Busy | Timeout | Trap | Refusal(kind: string)

  datatype Outcome = Ok(value: string) | Err(kind: Kind)

  /** What the server keeps of an admitted call. `from` is cleared when nobody waits any more. */
  datatype Job = Job(from: Option<nat>, monitor: Ref, callerMonitor: Ref, deadline: nat)

  /** A call as it was sent: `refusal` is what option and module validation finds wrong with it. */
  datatype Asked = Asked(caller: Caller, started: nat, timeout: nat, refusal: Option<Kind>)

  datatype Work = Working | Delivered

  datatype Target = Worker(pid: Pid) | Client(caller: Caller)

  datatype Cause = Refused(running: nat) | Reported(pid: Pid) | Expired(pid: Pid) | Crashed(pid: Pid)

  datatype Answer = Answer(call: nat, outcome: Outcome, at: nat, cause: Cause)

  /** History: where a call has got to. */
  datatype Place = Waiting | Held(pid: Pid) | Answered(index: nat) | Abandoned

  datatype World = World(
    jobs: map<Pid, Job>,          // the server's state
    calls: set<nat>,              // its mailbox: calls,
    results: map<Pid, Outcome>,   //   results,
    timeouts: set<Pid>,           //   timer messages,
    downs: set<Ref>,              //   and DOWN messages
    clock: nat,
    workers: map<Pid, Work>,      // live worker processes
    cancelled: set<Pid>,          // workers told to stop
    armed: map<Pid, nat>,         // timers and when they are due
    watch: map<Ref, Target>,      // active monitors
    dead: set<Caller>,
    spawned: nat,
    refs: nat,
    asked: seq<Asked>,            // history: every call,
    place: seq<Place>,            //   where it is,
    owner: map<Pid, nat>,         //   the call each worker was started for,
    sent: map<Pid, Outcome>,      //   the result each worker sent,
    log: seq<Answer>)             //   and every reply of the server

  const Boot := World(map[], {}, map[], {}, {}, 0, map[], {}, map[], map[], {}, 0, 0, [], [], map[], map[], [])

  /** The server may take waiting messages in any order that keeps one worker's signals in order;
      this includes every order of arrival. */
  datatype Event =
    | Ask(caller: Caller, timeout: nat, refusal: Option<Kind>)
    | TakeCall(call: nat)
    | TakeResult(pid: Pid)
    | TakeTimeout(pid: Pid)
    | TakeDown(ref: Ref)
    | Deliver(pid: Pid, outcome: Outcome)   // a worker sends its result
    | Exit(pid: Pid)                        // a worker ends, normally or not
    | CallerDies(caller: Caller)
    | Fire(pid: Pid)                        // a timer is due
    | Tick(elapsed: nat)

  predicate Enabled(w: World, e: Event) {
    match e
    case Ask(caller, timeout, _) => caller !in w.dead && timeout >= 1
    case TakeCall(k) => k in w.calls
    case TakeResult(p) => p in w.results
    case TakeTimeout(p) => p in w.timeouts
    case TakeDown(r) => r in w.downs && forall p :: p in w.jobs && w.jobs[p].monitor == r ==> p !in w.results
    case Deliver(p, _) => p in w.workers && w.workers[p].Working?
    case Exit(p) => p in w.workers
    case CallerDies(c) => c !in w.dead
    case Fire(p) => p in w.armed && w.armed[p] <= w.clock
    case Tick(_) => true
  }

  ghost function Next(max: nat, w: World, e: Event): World
    requires Enabled(w, e)
  {
    match e
    case Ask(caller, timeout, refusal) =>
      w.(calls := w.calls + {|w.asked|}, asked := w.asked + [Asked(caller, w.clock, timeout, refusal)],
         place := w.place + [Waiting])
    case TakeCall(k) => CallNext(max, w, k)
    case TakeResult(p) => ResultNext(w, p)
    case TakeTimeout(p) => TimeoutNext(w, p)
    case TakeDown(r) => DownNext(w, r)
    case Deliver(p, outcome) =>
      w.(workers := w.workers[p := Delivered], results := w.results[p := outcome], sent := w.sent[p := outcome])
    case Exit(p) => Notify(w.(workers := w.workers - {p}), Worker(p))
    case CallerDies(c) => Notify(w.(dead := w.dead + {c}), Client(c))
    case Fire(p) => w.(armed := w.armed - {p}, timeouts := w.timeouts + {p})
    case Tick(elapsed) => w.(clock := w.clock + elapsed)
  }

  /** Every monitor of a process that ends becomes a DOWN message. */
  function Notify(w: World, target: Target): World {
    w.(downs := NotifiedDowns(w.watch, w.downs, target), watch := NotifiedWatch(w.watch, target))
  }

  /** The DOWN messages and the monitors left when `target` ends. */
  function NotifiedDowns(watch: map<Ref, Target>, downs: set<Ref>, target: Target): set<Ref> {
    downs + set r | r in watch && watch[r] == target
  }

  function NotifiedWatch(watch: map<Ref, Target>, target: Target): map<Ref, Target> {
    map r | r in watch && watch[r] != target :: watch[r]
  }

  function Reply(w: World, k: nat, outcome: Outcome, cause: Cause): World {
    w.(log := w.log + [Answer(k, outcome, w.clock, cause)],
       place := if k < |w.place| then w.place[k := Answered(|w.log|)] else w.place)
  }

  function ReplyIf(w: World, from: Option<nat>, outcome: Outcome, cause: Cause): World {
    match from
    case Some(k) => Reply(w, k, outcome, cause)
    case None => w
  }

  /** Admission: validation, then capacity, then the time that is left. */
  function CallNext(max: nat, w: World, k: nat): World {
    var taken := w.(calls := w.calls - {k});
    if k >= |w.asked| then taken
    else
      var a := w.asked[k];
      var remaining := a.timeout - (w.clock - a.started);
      if a.refusal.Some? then Reply(taken, k, Err(a.refusal.value), Refused(|w.jobs|))
      else if |w.jobs| >= max then Reply(taken, k, Err(Busy), Refused(|w.jobs|))
      else if remaining <= 0 then Reply(taken, k, Err(Timeout), Refused(|w.jobs|))
      else Start(taken, k, a, remaining)
  }

  /** Spawns and monitors a worker, monitors the caller and arms the timer. Monitoring a process that
      is already dead is answered at once. */
  function Start(w: World, k: nat, a: Asked, remaining: nat): World {
    var p := w.spawned;
    var job := Job(Some(k), w.refs, w.refs + 1, a.started + a.timeout);
    w.(jobs := w.jobs[p := job],
       workers := w.workers[p := Working],
       armed := w.armed[p := w.clock + remaining],
       watch := StartWatch(w, a.caller),
       downs := StartDowns(w, a.caller),
       spawned := p + 1,
       refs := w.refs + 2,
       owner := w.owner[p := k],
       place := if k < |w.place| then w.place[k := Held(p)] else w.place)
  }

  function StartDowns(w: World, caller: Caller): set<Ref> {
    if caller in w.dead then w.downs + {w.refs + 1} else w.downs
  }

  function StartWatch(w: World, caller: Caller): map<Ref, Target> {
    var watched := w.watch[w.refs := Worker(w.spawned)];
    if caller in w.dead then watched else watched[w.refs + 1 := Client(caller)]
  }

  /** Cancels the timer and both monitors, flushing their messages, and frees the slot. */
  function Cleanup(w: World, p: Pid): World
    requires p in w.jobs
  {
    var job := w.jobs[p];
    w.(jobs := w.jobs - {p}, armed := w.armed - {p},
       watch := w.watch - {job.monitor, job.callerMonitor},
       downs := w.downs - {job.monitor, job.callerMonitor})
  }

  function ResultNext(w: World, p: Pid): World
    requires p in w.results
  {
    var taken := w.(results := w.results - {p});
    if p !in w.jobs then taken
    else
      var job := w.jobs[p];
      var outcome := if w.clock >= job.deadline then Err(Timeout) else w.results[p];
      ReplyIf(Cleanup(taken, p), job.from, outcome, Reported(p))
  }

  /** The jobs after `p`'s caller stops waiting. */
  function Detached(jobs: map<Pid, Job>, p: Pid): map<Pid, Job>
    requires p in jobs
  {
    jobs[p := jobs[p].(from := None)]
  }

  /** The job stays, with nobody waiting for it. */
  function Detach(w: World, p: Pid): World
    requires p in w.jobs
  {
    w.(jobs := Detached(w.jobs, p), cancelled := w.cancelled + {p})
  }

  function TimeoutNext(w: World, p: Pid): World {
    var taken := w.(timeouts := w.timeouts - {p});
    if p !in w.jobs then taken
    else ReplyIf(Detach(taken, p), w.jobs[p].from, Err(Timeout), Expired(p))
  }

  function Drop(w: World, from: Option<nat>): World {
    match from
    case Some(k) => if k < |w.place| then w.(place := w.place[k := Abandoned]) else w
    case None => w
  }

  predicate Watches(w: World, p: Pid, r: Ref) {
    p in w.jobs && (w.jobs[p].monitor == r || w.jobs[p].callerMonitor == r)
  }

  /** A worker's DOWN message frees its slot; a caller's only ends the wait. */
  function DownOf(w: World, p: Pid, r: Ref): World
    requires p in w.jobs
  {
    if w.jobs[p].monitor == r then WorkerDown(w, p, r) else CallerDown(w, p, r)
  }

  function WorkerDown(w: World, p: Pid, r: Ref): World
    requires p in w.jobs
  {
    ReplyIf(Cleanup(w.(downs := w.downs - {r}), p), w.jobs[p].from, Err(Trap), Crashed(p))
  }

  function CallerDown(w: World, p: Pid, r: Ref): World
    requires p in w.jobs
  {
    Drop(Detach(w.(downs := w.downs - {r}), p), w.jobs[p].from)
  }

  ghost function DownNext(w: World, r: Ref): World {
    if exists p :: Watches(w, p, r) then
      var p :| Watches(w, p, r);
      DownOf(w, p, r)
    else w.(downs := w.downs - {r})
  }

  // ---- The invariant ----

  /** Every reference belongs to one job in one role. */
  ghost predicate RefsOk(jobs: map<Pid, Job>, watch: map<Ref, Target>, downs: set<Ref>, refs: nat) {
    && (forall p :: p in jobs ==> jobs[p].callerMonitor == jobs[p].monitor + 1 < refs)
    && (forall p, q :: p in jobs && q in jobs && p != q ==>
         jobs[p].callerMonitor < jobs[q].monitor || jobs[q].callerMonitor < jobs[p].monitor)
    && (forall r :: r in watch || r in downs ==> r < refs)
  }

  /** A job's worker is at work and watched, or its result or its end is waiting to be taken. */
  ghost predicate WorkOk(jobs: map<Pid, Job>, results: map<Pid, Outcome>, workers: map<Pid, Work>,
                         sent: map<Pid, Outcome>, watch: map<Ref, Target>, downs: set<Ref>, spawned: nat)
  {
    && (forall p :: p in jobs || p in workers || p in sent ==> p < spawned)
    && (forall p :: p in results ==> p in sent && sent[p] == results[p])
    && (forall p :: p in workers ==> (workers[p].Delivered? <==> p in sent))
    && (forall p :: p in jobs && p in sent ==> p in results)
    && (forall p :: p in jobs && p in workers && p !in sent ==>
         jobs[p].monitor in watch && watch[jobs[p].monitor] == Worker(p))
    && (forall p :: p in jobs && p !in workers && p !in sent ==> jobs[p].monitor in downs)
    && (forall p :: p in jobs && jobs[p].monitor in downs ==> p !in workers)
    && (forall p :: p in jobs && jobs[p].monitor in watch ==> watch[jobs[p].monitor] == Worker(p))
  }

  /** A slot is freed only when its worker has sent its result or is gone. */
  ghost predicate SlotsOk(jobs: map<Pid, Job>, workers: map<Pid, Work>) {
    forall p :: p in workers && workers[p].Working? ==> p in jobs
  }

  /** Every call is in exactly the place that the history says. */
  ghost predicate PlacesOk(jobs: map<Pid, Job>, calls: set<nat>, place: seq<Place>) {
    && (forall k :: k in calls <==> 0 <= k < |place| && place[k] == Waiting)
    && (forall p :: p in jobs && jobs[p].from.Some? ==>
         jobs[p].from.value < |place| && place[jobs[p].from.value] == Held(p))
    && (forall k :: 0 <= k < |place| && place[k].Held? ==>
         place[k].pid in jobs && jobs[place[k].pid].from == Some(k))
  }

  ghost predicate LogOk(asked: seq<Asked>, place: seq<Place>, log: seq<Answer>, dead: set<Caller>) {
    && |place| == |asked|
    && (forall i :: 0 <= i < |log| ==> log[i].call < |place| && place[log[i].call] == Answered(i))
    && (forall k :: 0 <= k < |place| && place[k].Answered? ==>
         place[k].index < |log| && log[place[k].index].call == k)
    && (forall k :: 0 <= k < |place| && place[k].Abandoned? ==> asked[k].caller in dead)
  }

  /** A waiting caller's timer is armed or has fired; a worker that nobody waits for has been told to
      stop. */
  ghost predicate ArmedOk(jobs: map<Pid, Job>, armed: map<Pid, nat>, timeouts: set<Pid>, cancelled: set<Pid>,
                          spawned: nat)
  {
    && (forall p :: p in jobs && jobs[p].from.Some? ==> p in armed || p in timeouts)
    && (forall p :: p in jobs && jobs[p].from.None? ==> p in cancelled)
    && (forall p :: p in armed || p in timeouts || p in jobs ==> p < spawned)
  }

  /** Timers are due at deadlines, and a timer message is never early. */
  ghost predicate TimersOk(jobs: map<Pid, Job>, armed: map<Pid, nat>, timeouts: set<Pid>, clock: nat) {
    && (forall p :: p in jobs && p in armed ==> armed[p] == jobs[p].deadline)
    && (forall p :: p in jobs && p in timeouts ==> jobs[p].deadline <= clock)
  }

  ghost predicate StartedOk(asked: seq<Asked>, clock: nat) {
    forall k :: 0 <= k < |asked| ==> asked[k].started <= clock
  }

  /** A job knows its call's deadline, and its caller's DOWN message means that the caller is dead. */
  ghost predicate CallersOk(jobs: map<Pid, Job>, asked: seq<Asked>, owner: map<Pid, nat>,
                            watch: map<Ref, Target>, downs: set<Ref>, dead: set<Caller>)
  {
    forall p :: p in jobs ==>
      && p in owner && owner[p] < |asked|
      && (jobs[p].from.Some? ==> jobs[p].from.value == owner[p])
      && jobs[p].deadline == asked[owner[p]].started + asked[owner[p]].timeout
      && (jobs[p].callerMonitor in watch ==> watch[jobs[p].callerMonitor] == Client(asked[owner[p]].caller))
      && (jobs[p].callerMonitor in downs ==> asked[owner[p]].caller in dead)
  }

  /** What each kind of answer means, whenever it was sent. */
  ghost predicate AnswerOk(max: nat, asked: seq<Asked>, owner: map<Pid, nat>, sent: map<Pid, Outcome>,
                           workers: map<Pid, Work>, a: Answer)
  {
    && a.call < |asked|
    && var due := asked[a.call].started + asked[a.call].timeout;
       match a.cause
       case Refused(running) =>
         && running <= max
         && a.outcome == Err(if asked[a.call].refusal.Some? then asked[a.call].refusal.value
                             else if running == max then Busy else Timeout)
         && (asked[a.call].refusal.Some? || running == max || a.at >= due)
       case Reported(p) =>
         && p in owner && owner[p] == a.call && p in sent
         && a.outcome == (if a.at >= due then Err(Timeout) else sent[p])
       case Expired(p) => p in owner && owner[p] == a.call && a.at >= due && a.outcome == Err(Timeout)
       case Crashed(p) => p in owner && owner[p] == a.call && a.outcome == Err(Trap) && p !in sent && p !in workers
  }

  ghost predicate AnswersOk(max: nat, asked: seq<Asked>, owner: map<Pid, nat>, sent: map<Pid, Outcome>,
                            workers: map<Pid, Work>, log: seq<Answer>, spawned: nat)
  {
    && (forall i :: 0 <= i < |log| ==> AnswerOk(max, asked, owner, sent, workers, log[i]))
    && (forall p :: p in owner ==> p < spawned)
  }

  predicate Owned(jobs: map<Pid, Job>, r: Ref) {
    exists p :: p in jobs && (jobs[p].monitor == r || jobs[p].callerMonitor == r)
  }

  /** Timers, monitors and DOWN messages belong to jobs that still exist. */
  ghost predicate TidyOk(jobs: map<Pid, Job>, armed: map<Pid, nat>, watch: map<Ref, Target>, downs: set<Ref>) {
    && (forall p :: p in armed ==> p in jobs)
    && (forall r :: r in watch || r in downs ==> Owned(jobs, r))
  }

  ghost predicate Slots(max: nat, w: World) {
    && |w.jobs| <= max
    && RefsOk(w.jobs, w.watch, w.downs, w.refs)
    && WorkOk(w.jobs, w.results, w.workers, w.sent, w.watch, w.downs, w.spawned)
    && SlotsOk(w.jobs, w.workers)
  }

  ghost predicate Conserved(w: World) {
    PlacesOk(w.jobs, w.calls, w.place) && LogOk(w.asked, w.place, w.log, w.dead)
  }

  ghost predicate Timed(w: World) {
    && ArmedOk(w.jobs, w.armed, w.timeouts, w.cancelled, w.spawned)
    && TimersOk(w.jobs, w.armed, w.timeouts, w.clock)
    && StartedOk(w.asked, w.clock)
  }

  ghost predicate Watched(w: World) {
    CallersOk(w.jobs, w.asked, w.owner, w.watch, w.downs, w.dead)
  }

  ghost predicate Meant(max: nat, w: World) {
    AnswersOk(max, w.asked, w.owner, w.sent, w.workers, w.log, w.spawned)
  }

  ghost predicate Tidy(w: World) {
    TidyOk(w.jobs, w.armed, w.watch, w.downs)
  }

  ghost predicate Inv(max: nat, w: World) {
    Slots(max, w) && Conserved(w) && Timed(w) && Watched(w) && Meant(max, w) && Tidy(w)
  }

  lemma BootInv(max: nat)
    ensures Inv(max, Boot)
  {
  }

  // ---- Slots, monitors and workers ----

  lemma CleanupRefs(jobs: map<Pid, Job>, watch: map<Ref, Target>, downs: set<Ref>, refs: nat, p: Pid)
    requires RefsOk(jobs, watch, downs, refs) && p in jobs
    ensures var gone := {jobs[p].monitor, jobs[p].callerMonitor};
            RefsOk(jobs - {p}, watch - gone, downs - gone, refs) && |jobs - {p}| < |jobs|
  {
    assert |jobs - {p}| == |jobs.Keys - {p}| by {
      assert (jobs - {p}).Keys == jobs.Keys - {p};
    }
  }

  /** Freeing a slot whose worker has sent its result or is gone. */
  lemma CleanupWork(jobs: map<Pid, Job>, results: map<Pid, Outcome>, workers: map<Pid, Work>, sent: map<Pid, Outcome>,
                    watch: map<Ref, Target>, downs: set<Ref>, spawned: nat, refs: nat, p: Pid)
    requires RefsOk(jobs, watch, downs, refs) && WorkOk(jobs, results, workers, sent, watch, downs, spawned)
    requires SlotsOk(jobs, workers) && p in jobs && (p in sent || p !in workers)
    ensures var gone := {jobs[p].monitor, jobs[p].callerMonitor};
            && WorkOk(jobs - {p}, results - {p}, workers, sent, watch - gone, downs - gone, spawned)
            && WorkOk(jobs - {p}, results, workers, sent, watch - gone, downs - gone, spawned)
            && SlotsOk(jobs - {p}, workers)
  {
  }

  lemma DetachWork(jobs: map<Pid, Job>, results: map<Pid, Outcome>, workers: map<Pid, Work>, sent: map<Pid, Outcome>,
                   watch: map<Ref, Target>, downs: set<Ref>, spawned: nat, p: Pid)
    requires WorkOk(jobs, results, workers, sent, watch, downs, spawned) && p in jobs
    ensures WorkOk(Detached(jobs, p), results, workers, sent, watch, downs, spawned)
  {
    var after := Detached(jobs, p);
    assert forall q :: (q in after <==> q in jobs) && (q in jobs ==> after[q].monitor == jobs[q].monitor);
  }

  lemma DetachRefs(jobs: map<Pid, Job>, workers: map<Pid, Work>, watch: map<Ref, Target>, downs: set<Ref>,
                   refs: nat, p: Pid)
    requires RefsOk(jobs, watch, downs, refs) && p in jobs
    ensures var after := Detached(jobs, p);
            && RefsOk(after, watch, downs, refs) && |after| == |jobs|
            && (SlotsOk(jobs, workers) ==> SlotsOk(after, workers))
  {
    DetachedCount(jobs, p);
    hide Detached;
    DetachedSame(jobs, p);
  }

  lemma DetachedCount(jobs: map<Pid, Job>, p: Pid)
    requires p in jobs
    ensures |Detached(jobs, p)| == |jobs|
  {
    assert Detached(jobs, p).Keys == jobs.Keys;
    assert |Detached(jobs, p).Keys| == |jobs.Keys|;
  }

  lemma DetachedSame(jobs: map<Pid, Job>, p: Pid)
    requires p in jobs
    ensures var after := Detached(jobs, p);
            forall q :: (q in after <==> q in jobs)
              && (q in jobs ==> after[q].monitor == jobs[q].monitor && after[q].callerMonitor == jobs[q].callerMonitor)
  {
  }

  /** Taking a DOWN message that tells of no worker. */
  lemma ForgetDown(jobs: map<Pid, Job>, results: map<Pid, Outcome>, workers: map<Pid, Work>, sent: map<Pid, Outcome>,
                   watch: map<Ref, Target>, downs: set<Ref>, spawned: nat, refs: nat, r: Ref)
    requires RefsOk(jobs, watch, downs, refs) && WorkOk(jobs, results, workers, sent, watch, downs, spawned)
    requires forall p :: p in jobs ==> jobs[p].monitor != r
    ensures RefsOk(jobs, watch, downs - {r}, refs)
    ensures WorkOk(jobs, results, workers, sent, watch, downs - {r}, spawned)
  {
  }

  /** Taking a message of a job that is gone. */
  lemma ForgetResult(jobs: map<Pid, Job>, results: map<Pid, Outcome>, workers: map<Pid, Work>, sent: map<Pid, Outcome>,
                     watch: map<Ref, Target>, downs: set<Ref>, spawned: nat, p: Pid)
    requires WorkOk(jobs, results, workers, sent, watch, downs, spawned) && p !in jobs
    ensures WorkOk(jobs, results - {p}, workers, sent, watch, downs, spawned)
  {
  }

  lemma StartRefs(w: World, job: Job, caller: Caller)
    requires RefsOk(w.jobs, w.watch, w.downs, w.refs) && w.spawned !in w.jobs
    requires job.monitor == w.refs && job.callerMonitor == w.refs + 1
    ensures RefsOk(w.jobs[w.spawned := job], StartWatch(w, caller), StartDowns(w, caller), w.refs + 2)
  {
  }

  lemma StartWork(jobs: map<Pid, Job>, results: map<Pid, Outcome>, workers: map<Pid, Work>, sent: map<Pid, Outcome>,
                  watch: map<Ref, Target>, downs: set<Ref>, spawned: nat, refs: nat,
                  job: Job, watched: map<Ref, Target>, told: set<Ref>)
    requires RefsOk(jobs, watch, downs, refs) && WorkOk(jobs, results, workers, sent, watch, downs, spawned)
    requires job.monitor == refs && refs in watched && watched[refs] == Worker(spawned)
    requires forall r :: r < refs ==> (r in watched <==> r in watch) && (r in watch ==> watched[r] == watch[r])
    requires forall r :: r <= refs ==> (r in told <==> r in downs)
    ensures WorkOk(jobs[spawned := job], results, workers[spawned := Working], sent, watched, told, spawned + 1)
  {
    var after, staffed := jobs[spawned := job], workers[spawned := Working];
    assert spawned !in jobs && spawned !in workers && spawned !in sent && spawned !in results;
    forall p | p in after
      ensures p in sent ==> p in results
      ensures p in staffed && p !in sent ==> after[p].monitor in watched && watched[after[p].monitor] == Worker(p)
      ensures p !in staffed && p !in sent ==> after[p].monitor in told
      ensures after[p].monitor in told ==> p !in staffed
      ensures after[p].monitor in watched ==> watched[after[p].monitor] == Worker(p)
    {
      if p != spawned {
        assert p in jobs && after[p] == jobs[p] && jobs[p].monitor < refs;
        assert p in workers <==> p in staffed;
      }
    }
  }

  lemma StartCount(jobs: map<Pid, Job>, p: Pid, job: Job)
    ensures |jobs[p := job]| <= |jobs| + 1
  {
    assert jobs[p := job].Keys == jobs.Keys + {p};
    if p in jobs {
      assert jobs.Keys + {p} == jobs.Keys;
    }
  }

  lemma NotifyRefs(jobs: map<Pid, Job>, watch: map<Ref, Target>, downs: set<Ref>, refs: nat, target: Target)
    requires RefsOk(jobs, watch, downs, refs)
    ensures RefsOk(jobs, NotifiedWatch(watch, target), NotifiedDowns(watch, downs, target), refs)
  {
  }

  lemma ExitWork(w: World, p: Pid)
    requires WorkOk(w.jobs, w.results, w.workers, w.sent, w.watch, w.downs, w.spawned) && p in w.workers
    ensures WorkOk(w.jobs, w.results, w.workers - {p}, w.sent, NotifiedWatch(w.watch, Worker(p)),
                   NotifiedDowns(w.watch, w.downs, Worker(p)), w.spawned)
  {
  }

  lemma ClientWork(w: World, c: Caller)
    requires WorkOk(w.jobs, w.results, w.workers, w.sent, w.watch, w.downs, w.spawned)
    ensures WorkOk(w.jobs, w.results, w.workers, w.sent, NotifiedWatch(w.watch, Client(c)),
                   NotifiedDowns(w.watch, w.downs, Client(c)), w.spawned)
  {
  }

  lemma DeliverWork(w: World, p: Pid, outcome: Outcome)
    requires WorkOk(w.jobs, w.results, w.workers, w.sent, w.watch, w.downs, w.spawned)
    requires p in w.workers && w.workers[p].Working?
    ensures WorkOk(w.jobs, w.results[p := outcome], w.workers[p := Delivered], w.sent[p := outcome],
                   w.watch, w.downs, w.spawned)
  {
  }

  lemma SlotsOfReply(max: nat, w: World, from: Option<nat>, outcome: Outcome, cause: Cause)
    requires Slots(max, w)
    ensures Slots(max, ReplyIf(w, from, outcome, cause)) && Slots(max, Drop(w, from))
  {
    hide RefsOk, WorkOk, SlotsOk;
  }

  lemma ResultKeepsSlots(max: nat, w: World, p: Pid)
    requires Slots(max, w) && p in w.results
    ensures Slots(max, ResultNext(w, p))
  {
    var taken := w.(results := w.results - {p});
    if p in w.jobs {
      CleanupRefs(w.jobs, w.watch, w.downs, w.refs, p);
      CleanupWork(w.jobs, w.results, w.workers, w.sent, w.watch, w.downs, w.spawned, w.refs, p);
      hide RefsOk, WorkOk, SlotsOk, ReplyIf;
      var outcome := if w.clock >= w.jobs[p].deadline then Err(Timeout) else w.results[p];
      SlotsOfReply(max, Cleanup(taken, p), w.jobs[p].from, outcome, Reported(p));
    } else {
      ForgetResult(w.jobs, w.results, w.workers, w.sent, w.watch, w.downs, w.spawned, p);
      hide RefsOk, WorkOk, SlotsOk;
    }
  }

  lemma DetachKeepsSlots(max: nat, w: World, p: Pid)
    requires Slots(max, w) && p in w.jobs
    ensures Slots(max, Detach(w, p))
  {
    hide RefsOk, WorkOk, SlotsOk;
    DetachRefs(w.jobs, w.workers, w.watch, w.downs, w.refs, p);
    DetachWork(w.jobs, w.results, w.workers, w.sent, w.watch, w.downs, w.spawned, p);
  }

  lemma TimeoutKeepsSlots(max: nat, w: World, p: Pid)
    requires Slots(max, w)
    ensures Slots(max, TimeoutNext(w, p))
  {
    hide RefsOk, WorkOk, SlotsOk, Detach, ReplyIf;
    var taken := w.(timeouts := w.timeouts - {p});
    if p in w.jobs {
      DetachKeepsSlots(max, taken, p);
      SlotsOfReply(max, Detach(taken, p), w.jobs[p].from, Err(Timeout), Expired(p));
    }
  }

  /** A reference names one job in one role. */
  lemma OneWatcher(jobs: map<Pid, Job>, watch: map<Ref, Target>, downs: set<Ref>, refs: nat, p: Pid, q: Pid, r: Ref)
    requires RefsOk(jobs, watch, downs, refs) && p in jobs && q in jobs
    requires jobs[p].monitor == r || jobs[p].callerMonitor == r
    requires jobs[q].monitor == r || jobs[q].callerMonitor == r
    ensures p == q && (jobs[p].monitor == r <==> jobs[p].callerMonitor != r)
  {
  }

  lemma DownKeepsSlots(max: nat, w: World, r: Ref)
    requires Slots(max, w) && Enabled(w, TakeDown(r))
    ensures Slots(max, DownNext(w, r))
  {
    var taken := w.(downs := w.downs - {r});
    if exists p :: Watches(w, p, r) {
      var p :| Watches(w, p, r) && DownNext(w, r) == DownOf(w, p, r);
      DownOfKeepsSlots(max, w, p, r);
    } else {
      assert forall p :: p in w.jobs && w.jobs[p].monitor == r ==> Watches(w, p, r);
      ForgetDown(w.jobs, w.results, w.workers, w.sent, w.watch, w.downs, w.spawned, w.refs, r);
      hide RefsOk, WorkOk, SlotsOk;
    }
  }

  lemma WorkerDownKeepsSlots(max: nat, w: World, p: Pid, r: Ref)
    requires Slots(max, w) && Enabled(w, TakeDown(r)) && p in w.jobs && w.jobs[p].monitor == r
    ensures Slots(max, WorkerDown(w, p, r))
  {
    var taken := w.(downs := w.downs - {r});
    assert p !in w.sent && p !in w.workers;
    hide RefsOk, WorkOk, SlotsOk, ReplyIf, Enabled;
    CleanupRefs(w.jobs, w.watch, w.downs, w.refs, p);
    CleanupWork(w.jobs, w.results, w.workers, w.sent, w.watch, w.downs, w.spawned, w.refs, p);
    assert Cleanup(taken, p).downs == w.downs - {w.jobs[p].monitor, w.jobs[p].callerMonitor};
    SlotsOfReply(max, Cleanup(taken, p), w.jobs[p].from, Err(Trap), Crashed(p));
  }

  lemma CallerDownKeepsSlots(max: nat, w: World, p: Pid, r: Ref)
    requires Slots(max, w) && Watches(w, p, r) && w.jobs[p].monitor != r
    ensures Slots(max, CallerDown(w, p, r))
  {
    hide RefsOk, WorkOk, SlotsOk, Detach, Drop;
    var taken := w.(downs := w.downs - {r});
    forall q | q in w.jobs ensures w.jobs[q].monitor != r {
      if w.jobs[q].monitor == r {
        OneWatcher(w.jobs, w.watch, w.downs, w.refs, p, q, r);
      }
    }
    ForgetDown(w.jobs, w.results, w.workers, w.sent, w.watch, w.downs, w.spawned, w.refs, r);
    DetachKeepsSlots(max, taken, p);
    SlotsOfReply(max, Detach(taken, p), w.jobs[p].from, Err(Trap), Crashed(p));
  }

  lemma DownOfKeepsSlots(max: nat, w: World, p: Pid, r: Ref)
    requires Slots(max, w) && Enabled(w, TakeDown(r)) && Watches(w, p, r)
    ensures Slots(max, DownOf(w, p, r))
  {
    hide Slots, Enabled, WorkerDown, CallerDown;
    if w.jobs[p].monitor == r {
      WorkerDownKeepsSlots(max, w, p, r);
    } else {
      CallerDownKeepsSlots(max, w, p, r);
    }
  }

  lemma StartMessages(w: World, caller: Caller)
    requires RefsOk(w.jobs, w.watch, w.downs, w.refs)
    ensures var watched, told := StartWatch(w, caller), StartDowns(w, caller);
            && w.refs in watched && watched[w.refs] == Worker(w.spawned)
            && (forall r :: r < w.refs ==>
                 (r in watched <==> r in w.watch) && (r in w.watch ==> watched[r] == w.watch[r]))
            && (forall r :: r <= w.refs ==> (r in told <==> r in w.downs))
  {
  }

  lemma StartSlots(jobs: map<Pid, Job>, workers: map<Pid, Work>, p: Pid, job: Job)
    requires SlotsOk(jobs, workers)
    ensures SlotsOk(jobs[p := job], workers[p := Working])
  {
  }

  lemma NextPidIsFree(max: nat, w: World)
    requires Slots(max, w)
    ensures w.spawned !in w.jobs
  {
  }

  lemma StartKeepsSlots(max: nat, w: World, k: nat, a: Asked, remaining: nat)
    requires Slots(max, w) && |w.jobs| < max
    ensures Slots(max, Start(w, k, a, remaining))
  {
    hide RefsOk, WorkOk, SlotsOk, StartWatch, StartDowns;
    var job := Job(Some(k), w.refs, w.refs + 1, a.started + a.timeout);
    NextPidIsFree(max, w);
    StartCount(w.jobs, w.spawned, job);
    StartRefs(w, job, a.caller);
    StartKeepsWork(w, job, a.caller);
    StartSlots(w.jobs, w.workers, w.spawned, job);
  }

  lemma StartKeepsWork(w: World, job: Job, caller: Caller)
    requires RefsOk(w.jobs, w.watch, w.downs, w.refs) && job.monitor == w.refs
    requires WorkOk(w.jobs, w.results, w.workers, w.sent, w.watch, w.downs, w.spawned)
    ensures WorkOk(w.jobs[w.spawned := job], w.results, w.workers[w.spawned := Working], w.sent,
                   StartWatch(w, caller), StartDowns(w, caller), w.spawned + 1)
  {
    hide RefsOk, WorkOk, StartWatch, StartDowns;
    StartMessages(w, caller);
    StartWork(w.jobs, w.results, w.workers, w.sent, w.watch, w.downs, w.spawned, w.refs, job,
              StartWatch(w, caller), StartDowns(w, caller));
  }

  lemma CallKeepsSlots(max: nat, w: World, k: nat)
    requires Slots(max, w)
    ensures Slots(max, CallNext(max, w, k))
  {
    hide RefsOk, WorkOk, SlotsOk, Start;
    var taken := w.(calls := w.calls - {k});
    if k < |w.asked| {
      var a := w.asked[k];
      var remaining := a.timeout - (w.clock - a.started);
      if a.refusal.None? && |w.jobs| < max && remaining > 0 {
        StartKeepsSlots(max, taken, k, a, remaining);
      }
    }
  }

  lemma NextKeepsSlots(max: nat, w: World, e: Event)
    requires Slots(max, w) && Enabled(w, e)
    ensures Slots(max, Next(max, w, e))
  {
    match e
    case TakeCall(k) => CallKeepsSlots(max, w, k); hide Slots, CallNext;
    case TakeResult(p) => ResultKeepsSlots(max, w, p); hide Slots, ResultNext;
    case TakeTimeout(p) => TimeoutKeepsSlots(max, w, p); hide Slots, TimeoutNext;
    case TakeDown(r) => DownKeepsSlots(max, w, r); hide Slots, DownNext;
    case Deliver(p, outcome) =>
      DeliverWork(w, p, outcome);
      hide RefsOk, WorkOk;
    case Exit(p) =>
      ExitWork(w, p);
      NotifyRefs(w.jobs, w.watch, w.downs, w.refs, Worker(p));
      hide RefsOk, WorkOk, NotifiedWatch, NotifiedDowns;
    case CallerDies(c) =>
      ClientWork(w, c);
      NotifyRefs(w.jobs, w.watch, w.downs, w.refs, Client(c));
      hide RefsOk, WorkOk, NotifiedWatch, NotifiedDowns;
    case _ => hide RefsOk, WorkOk, SlotsOk;
  }

  // ---- Where each call is ----

  ghost predicate Final(x: Place) {
    x.Answered? || x.Abandoned?
  }

  lemma TakenPlaces(jobs: map<Pid, Job>, calls: set<nat>, place: seq<Place>, k: nat, x: Place)
    requires PlacesOk(jobs, calls, place) && k in calls && Final(x)
    ensures k < |place| && place[k] == Waiting && PlacesOk(jobs, calls - {k}, place[k := x])
  {
  }

  lemma StartedPlaces(jobs: map<Pid, Job>, calls: set<nat>, place: seq<Place>, k: nat, p: Pid, job: Job)
    requires PlacesOk(jobs, calls, place) && k in calls && p !in jobs && job.from == Some(k)
    ensures k < |place| && PlacesOk(jobs[p := job], calls - {k}, place[k := Held(p)])
  {
  }

  lemma ReleasedPlaces(jobs: map<Pid, Job>, calls: set<nat>, place: seq<Place>, p: Pid, x: Place)
    requires PlacesOk(jobs, calls, place) && p in jobs && jobs[p].from.Some? && Final(x)
    ensures var k := jobs[p].from.value;
            && k < |place| && place[k] == Held(p)
            && PlacesOk(jobs - {p}, calls, place[k := x]) && PlacesOk(Detached(jobs, p), calls, place[k := x])
  {
  }

  lemma IdlePlaces(jobs: map<Pid, Job>, calls: set<nat>, place: seq<Place>, p: Pid)
    requires PlacesOk(jobs, calls, place) && p in jobs && jobs[p].from.None?
    ensures PlacesOk(jobs - {p}, calls, place) && PlacesOk(Detached(jobs, p), calls, place)
  {
  }

  lemma AnsweredLog(asked: seq<Asked>, place: seq<Place>, log: seq<Answer>, dead: set<Caller>, a: Answer)
    requires LogOk(asked, place, log, dead) && a.call < |place| && !Final(place[a.call])
    ensures LogOk(asked, place[a.call := Answered(|log|)], log + [a], dead)
  {
  }

  lemma MovedLog(asked: seq<Asked>, place: seq<Place>, log: seq<Answer>, dead: set<Caller>, k: nat, x: Place)
    requires LogOk(asked, place, log, dead) && k < |place| && !Final(place[k])
    requires x.Held? || (x.Abandoned? && asked[k].caller in dead)
    ensures LogOk(asked, place[k := x], log, dead)
  {
  }

  /** A job that is answered, or whose caller is gone, is where the history says. */
  lemma ReleaseKeepsConserved(w: World, p: Pid, jobs: map<Pid, Job>, outcome: Outcome, cause: Cause)
    requires Conserved(w) && p in w.jobs
    requires jobs == w.jobs - {p} || jobs == Detached(w.jobs, p)
    ensures Conserved(ReplyIf(w.(jobs := jobs), w.jobs[p].from, outcome, cause))
  {
    hide PlacesOk, LogOk, Detached;
    if w.jobs[p].from.Some? {
      ReleasedPlaces(w.jobs, w.calls, w.place, p, Answered(|w.log|));
      AnsweredLog(w.asked, w.place, w.log, w.dead, Answer(w.jobs[p].from.value, outcome, w.clock, cause));
    } else {
      IdlePlaces(w.jobs, w.calls, w.place, p);
    }
  }

  /** What `Conserved` is about. */
  ghost predicate SameCalls(a: World, b: World) {
    && a.jobs == b.jobs && a.calls == b.calls && a.place == b.place
    && a.asked == b.asked && a.log == b.log && a.dead == b.dead
  }

  lemma SameConserved(a: World, b: World)
    requires Conserved(a) && SameCalls(a, b)
    ensures Conserved(b)
  {
    hide PlacesOk, LogOk;
  }

  lemma ReplySame(a: World, b: World, from: Option<nat>, outcome: Outcome, cause: Cause)
    requires SameCalls(a, b) && a.clock == b.clock
    ensures SameCalls(ReplyIf(a, from, outcome, cause), ReplyIf(b, from, outcome, cause))
  {
  }

  lemma ResultKeepsConserved(w: World, p: Pid)
    requires Conserved(w) && p in w.results
    ensures Conserved(ResultNext(w, p))
  {
    var taken := w.(results := w.results - {p});
    if p in w.jobs {
      var outcome := if w.clock >= w.jobs[p].deadline then Err(Timeout) else w.results[p];
      var idle := w.(jobs := w.jobs - {p});
      hide Conserved, ReplyIf, Detached;
      ReplySame(idle, Cleanup(taken, p), w.jobs[p].from, outcome, Reported(p));
      ReleaseKeepsConserved(w, p, idle.jobs, outcome, Reported(p));
      SameConserved(ReplyIf(idle, w.jobs[p].from, outcome, Reported(p)), ResultNext(w, p));
    } else {
      hide PlacesOk, LogOk;
    }
  }

  lemma TimeoutKeepsConserved(w: World, p: Pid)
    requires Conserved(w)
    ensures Conserved(TimeoutNext(w, p))
  {
    hide Conserved;
    var taken := w.(timeouts := w.timeouts - {p});
    if p in w.jobs {
      var idle := w.(jobs := Detached(w.jobs, p));
      ReplySame(idle, Detach(taken, p), w.jobs[p].from, Err(Timeout), Expired(p));
      ReleaseKeepsConserved(w, p, idle.jobs, Err(Timeout), Expired(p));
      SameConserved(ReplyIf(idle, w.jobs[p].from, Err(Timeout), Expired(p)), TimeoutNext(w, p));
    } else {
      SameConserved(w, taken);
    }
  }

  lemma WorkerDownKeepsConserved(w: World, p: Pid, r: Ref)
    requires Conserved(w) && p in w.jobs
    ensures Conserved(WorkerDown(w, p, r))
  {
    hide Conserved, ReplyIf, Detached;
    var idle := w.(jobs := w.jobs - {p});
    var from := w.jobs[p].from;
    ReplySame(idle, Cleanup(w.(downs := w.downs - {r}), p), from, Err(Trap), Crashed(p));
    ReleaseKeepsConserved(w, p, idle.jobs, Err(Trap), Crashed(p));
    SameConserved(ReplyIf(idle, from, Err(Trap), Crashed(p)), WorkerDown(w, p, r));
  }

  lemma CallerDownKeepsConserved(w: World, p: Pid, r: Ref)
    requires Conserved(w) && p in w.jobs
    requires w.jobs[p].from.Some? ==>
               w.jobs[p].from.value < |w.asked| && w.asked[w.jobs[p].from.value].caller in w.dead
    ensures Conserved(CallerDown(w, p, r))
  {
    hide PlacesOk, LogOk, Detached;
    if w.jobs[p].from.Some? {
      ReleasedPlaces(w.jobs, w.calls, w.place, p, Abandoned);
      MovedLog(w.asked, w.place, w.log, w.dead, w.jobs[p].from.value, Abandoned);
    } else {
      IdlePlaces(w.jobs, w.calls, w.place, p);
    }
  }

  lemma DownOfKeepsConserved(w: World, p: Pid, r: Ref)
    requires Conserved(w) && Watched(w) && r in w.downs && Watches(w, p, r)
    ensures Conserved(DownOf(w, p, r))
  {
    hide Conserved, WorkerDown, CallerDown;
    if w.jobs[p].monitor == r {
      WorkerDownKeepsConserved(w, p, r);
    } else {
      CallerDownKeepsConserved(w, p, r);
    }
  }

  lemma DownKeepsConserved(w: World, r: Ref)
    requires Conserved(w) && Watched(w) && r in w.downs
    ensures Conserved(DownNext(w, r))
  {
    hide Conserved, Watched;
    if exists p :: Watches(w, p, r) {
      var p :| Watches(w, p, r) && DownNext(w, r) == DownOf(w, p, r);
      DownOfKeepsConserved(w, p, r);
    } else {
      SameConserved(w, w.(downs := w.downs - {r}));
    }
  }

  lemma PlaceOfEach(w: World)
    requires Conserved(w)
    ensures |w.place| == |w.asked|
  {
  }

  lemma StartKeepsConserved(w: World, k: nat, a: Asked, remaining: nat)
    requires Conserved(w) && k in w.calls && w.spawned !in w.jobs
    ensures Conserved(Start(w.(calls := w.calls - {k}), k, a, remaining))
  {
    hide PlacesOk, LogOk, StartWatch, StartDowns;
    TakenPlaces(w.jobs, w.calls, w.place, k, Abandoned);
    StartedPlaces(w.jobs, w.calls, w.place, k, w.spawned, Job(Some(k), w.refs, w.refs + 1, a.started + a.timeout));
    MovedLog(w.asked, w.place, w.log, w.dead, k, Held(w.spawned));
  }

  lemma RefuseKeepsConserved(w: World, k: nat, kind: Kind)
    requires Conserved(w) && k in w.calls
    ensures Conserved(Reply(w.(calls := w.calls - {k}), k, Err(kind), Refused(|w.jobs|)))
  {
    hide PlacesOk, LogOk;
    TakenPlaces(w.jobs, w.calls, w.place, k, Answered(|w.log|));
    AnsweredLog(w.asked, w.place, w.log, w.dead, Answer(k, Err(kind), w.clock, Refused(|w.jobs|)));
  }

  lemma CallKeepsConserved(max: nat, w: World, k: nat)
    requires Conserved(w) && k in w.calls && w.spawned !in w.jobs
    ensures Conserved(CallNext(max, w, k))
  {
    TakenPlaces(w.jobs, w.calls, w.place, k, Abandoned);
    PlaceOfEach(w);
    hide Conserved, Start, Reply;
    var a := w.asked[k];
    var remaining := a.timeout - (w.clock - a.started);
    if a.refusal.Some? {
      RefuseKeepsConserved(w, k, a.refusal.value);
    } else if |w.jobs| >= max {
      RefuseKeepsConserved(w, k, Busy);
    } else if remaining <= 0 {
      RefuseKeepsConserved(w, k, Timeout);
    } else {
      StartKeepsConserved(w, k, a, remaining);
    }
  }

  lemma AskKeepsConserved(max: nat, w: World, e: Event)
    requires Conserved(w) && e.Ask? && Enabled(w, e)
    ensures Conserved(Next(max, w, e))
  {
  }

  lemma MoreDead(asked: seq<Asked>, place: seq<Place>, log: seq<Answer>, dead: set<Caller>, c: Caller)
    requires LogOk(asked, place, log, dead)
    ensures LogOk(asked, place, log, dead + {c})
  {
  }

  lemma NextKeepsConserved(max: nat, w: World, e: Event)
    requires Conserved(w) && Watched(w) && Slots(max, w) && Enabled(w, e)
    ensures Conserved(Next(max, w, e))
  {
    hide Watched, Slots;
    NextPidIsFree(max, w);
    match e
    case Ask(_, _, _) => AskKeepsConserved(max, w, e); hide Conserved;
    case TakeCall(k) => CallKeepsConserved(max, w, k); hide Conserved, CallNext;
    case TakeResult(p) => ResultKeepsConserved(w, p); hide Conserved, ResultNext;
    case TakeTimeout(p) => TimeoutKeepsConserved(w, p); hide Conserved, TimeoutNext;
    case TakeDown(r) => DownKeepsConserved(w, r); hide Conserved, DownNext;
    case CallerDies(c) =>
      MoreDead(w.asked, w.place, w.log, w.dead, c);
      hide PlacesOk, LogOk, NotifiedDowns, NotifiedWatch;
    case _ => hide PlacesOk, LogOk, NotifiedDowns, NotifiedWatch;
  }

  // ---- Timers ----

  lemma StartTimed(jobs: map<Pid, Job>, armed: map<Pid, nat>, timeouts: set<Pid>, cancelled: set<Pid>,
                   spawned: nat, clock: nat, job: Job, due: nat)
    requires ArmedOk(jobs, armed, timeouts, cancelled, spawned) && TimersOk(jobs, armed, timeouts, clock)
    requires job.from.Some? && job.deadline == due
    ensures ArmedOk(jobs[spawned := job], armed[spawned := due], timeouts, cancelled, spawned + 1)
    ensures TimersOk(jobs[spawned := job], armed[spawned := due], timeouts, clock)
  {
  }

  lemma CleanupTimed(jobs: map<Pid, Job>, armed: map<Pid, nat>, timeouts: set<Pid>, cancelled: set<Pid>,
                     spawned: nat, clock: nat, p: Pid)
    requires ArmedOk(jobs, armed, timeouts, cancelled, spawned) && TimersOk(jobs, armed, timeouts, clock)
    ensures ArmedOk(jobs - {p}, armed - {p}, timeouts, cancelled, spawned)
    ensures TimersOk(jobs - {p}, armed - {p}, timeouts, clock)
  {
  }

  lemma DetachTimed(jobs: map<Pid, Job>, armed: map<Pid, nat>, timeouts: set<Pid>, cancelled: set<Pid>,
                    spawned: nat, clock: nat, p: Pid, left: set<Pid>)
    requires ArmedOk(jobs, armed, timeouts, cancelled, spawned) && TimersOk(jobs, armed, timeouts, clock)
    requires p in jobs && timeouts - {p} <= left <= timeouts
    ensures ArmedOk(Detached(jobs, p), armed, left, cancelled + {p}, spawned)
    ensures TimersOk(Detached(jobs, p), armed, left, clock)
  {
  }

  lemma FireTimed(jobs: map<Pid, Job>, armed: map<Pid, nat>, timeouts: set<Pid>, cancelled: set<Pid>,
                  spawned: nat, clock: nat, p: Pid)
    requires ArmedOk(jobs, armed, timeouts, cancelled, spawned) && TimersOk(jobs, armed, timeouts, clock)
    requires p in armed && armed[p] <= clock
    ensures ArmedOk(jobs, armed - {p}, timeouts + {p}, cancelled, spawned)
    ensures TimersOk(jobs, armed - {p}, timeouts + {p}, clock)
  {
  }

  lemma StaleTimed(jobs: map<Pid, Job>, armed: map<Pid, nat>, timeouts: set<Pid>, cancelled: set<Pid>,
                   spawned: nat, clock: nat, p: Pid)
    requires ArmedOk(jobs, armed, timeouts, cancelled, spawned) && TimersOk(jobs, armed, timeouts, clock)
    requires p !in jobs
    ensures ArmedOk(jobs, armed, timeouts - {p}, cancelled, spawned)
    ensures TimersOk(jobs, armed, timeouts - {p}, clock)
  {
  }

  lemma DownOfKeepsTimed(w: World, p: Pid, r: Ref)
    requires Timed(w) && Watches(w, p, r)
    ensures Timed(DownOf(w, p, r))
  {
    hide ArmedOk, TimersOk, StartedOk, Detached;
    if w.jobs[p].monitor == r {
      hide CallerDown;
      CleanupTimed(w.jobs, w.armed, w.timeouts, w.cancelled, w.spawned, w.clock, p);
    } else {
      hide WorkerDown;
      DetachTimed(w.jobs, w.armed, w.timeouts, w.cancelled, w.spawned, w.clock, p, w.timeouts);
    }
  }

  lemma DownKeepsTimed(w: World, r: Ref)
    requires Timed(w)
    ensures Timed(DownNext(w, r))
  {
    hide ArmedOk, TimersOk, StartedOk, DownOf;
    if exists p :: Watches(w, p, r) {
      var p :| Watches(w, p, r) && DownNext(w, r) == DownOf(w, p, r);
      DownOfKeepsTimed(w, p, r);
    }
  }

  lemma TimeoutKeepsTimed(w: World, p: Pid)
    requires Timed(w)
    ensures Timed(TimeoutNext(w, p))
  {
    hide ArmedOk, TimersOk, StartedOk, Detached;
    if p in w.jobs {
      DetachTimed(w.jobs, w.armed, w.timeouts, w.cancelled, w.spawned, w.clock, p, w.timeouts - {p});
    } else {
      StaleTimed(w.jobs, w.armed, w.timeouts, w.cancelled, w.spawned, w.clock, p);
    }
  }

  lemma ResultKeepsTimed(w: World, p: Pid)
    requires Timed(w) && p in w.results
    ensures Timed(ResultNext(w, p))
  {
    hide ArmedOk, TimersOk, StartedOk;
    CleanupTimed(w.jobs, w.armed, w.timeouts, w.cancelled, w.spawned, w.clock, p);
  }

  lemma StartKeepsTimed(w: World, k: nat, a: Asked, remaining: nat)
    requires Timed(w) && a.timeout - (w.clock - a.started) == remaining
    ensures Timed(Start(w, k, a, remaining))
  {
    hide ArmedOk, TimersOk, StartedOk, StartWatch, StartDowns;
    StartTimed(w.jobs, w.armed, w.timeouts, w.cancelled, w.spawned, w.clock,
               Job(Some(k), w.refs, w.refs + 1, a.started + a.timeout), w.clock + remaining);
  }

  lemma CallKeepsTimed(max: nat, w: World, k: nat)
    requires Timed(w)
    ensures Timed(CallNext(max, w, k))
  {
    hide ArmedOk, TimersOk, StartedOk, Start;
    if k < |w.asked| && w.asked[k].refusal.None? && |w.jobs| < max {
      var a := w.asked[k];
      var remaining := a.timeout - (w.clock - a.started);
      if remaining > 0 {
        StartKeepsTimed(w.(calls := w.calls - {k}), k, a, remaining);
      }
    }
  }

  lemma TickKeepsTimed(w: World, clock: nat)
    requires Timed(w) && w.clock <= clock
    ensures Timed(w.(clock := clock))
  {
  }

  lemma AskKeepsStarted(asked: seq<Asked>, clock: nat, a: Asked)
    requires StartedOk(asked, clock) && a.started <= clock
    ensures StartedOk(asked + [a], clock)
  {
  }

  lemma NextKeepsTimed(max: nat, w: World, e: Event)
    requires Timed(w) && Enabled(w, e)
    ensures Timed(Next(max, w, e))
  {
    match e
    case Ask(caller, timeout, refusal) =>
      AskKeepsStarted(w.asked, w.clock, Asked(caller, w.clock, timeout, refusal));
      hide ArmedOk, TimersOk, StartedOk;
    case TakeCall(k) => CallKeepsTimed(max, w, k); hide Timed, CallNext;
    case TakeResult(p) => ResultKeepsTimed(w, p); hide Timed, ResultNext;
    case TakeTimeout(p) => TimeoutKeepsTimed(w, p); hide Timed, TimeoutNext;
    case TakeDown(r) => DownKeepsTimed(w, r); hide Timed, DownNext;
    case Fire(p) =>
      FireTimed(w.jobs, w.armed, w.timeouts, w.cancelled, w.spawned, w.clock, p);
      hide ArmedOk, TimersOk, StartedOk;
    case Tick(elapsed) => TickKeepsTimed(w, w.clock + elapsed); hide Timed;
    case _ => hide ArmedOk, TimersOk, StartedOk, NotifiedDowns, NotifiedWatch;
  }

  // ---- Callers ----

  lemma StartCallers(w: World, k: nat, job: Job)
    requires Watched(w) && RefsOk(w.jobs, w.watch, w.downs, w.refs) && k < |w.asked|
    requires job == Job(Some(k), w.refs, w.refs + 1, w.asked[k].started + w.asked[k].timeout)
    ensures CallersOk(w.jobs[w.spawned := job], w.asked, w.owner[w.spawned := k], StartWatch(w, w.asked[k].caller),
                      StartDowns(w, w.asked[k].caller), w.dead)
  {
  }

  lemma CleanupCallers(w: World, p: Pid, gone: set<Ref>)
    requires Watched(w)
    ensures CallersOk(w.jobs - {p}, w.asked, w.owner, w.watch - gone, w.downs - gone, w.dead)
    ensures CallersOk(w.jobs, w.asked, w.owner, w.watch, w.downs - gone, w.dead)
  {
  }

  lemma DetachCallers(w: World, p: Pid, gone: set<Ref>)
    requires Watched(w) && p in w.jobs
    ensures CallersOk(Detached(w.jobs, p), w.asked, w.owner, w.watch, w.downs - gone, w.dead)
  {
  }

  lemma NotifyCallers(w: World, target: Target, dead: set<Caller>)
    requires Watched(w) && w.dead <= dead && (target.Client? ==> target.caller in dead)
    ensures CallersOk(w.jobs, w.asked, w.owner, NotifiedWatch(w.watch, target),
                      NotifiedDowns(w.watch, w.downs, target), dead)
  {
  }

  lemma AskCallers(w: World, a: Asked)
    requires Watched(w)
    ensures CallersOk(w.jobs, w.asked + [a], w.owner, w.watch, w.downs, w.dead)
  {
  }

  lemma DownOfKeepsWatched(w: World, p: Pid, r: Ref)
    requires Watched(w) && Watches(w, p, r)
    ensures Watched(DownOf(w, p, r))
  {
    hide CallersOk, Detached;
    if w.jobs[p].monitor == r {
      hide CallerDown;
      var gone := {w.jobs[p].monitor, w.jobs[p].callerMonitor};
      CleanupCallers(w, p, gone);
      assert w.downs - {r} - gone == w.downs - gone;
    } else {
      hide WorkerDown;
      DetachCallers(w, p, {r});
    }
  }

  lemma DownKeepsWatched(w: World, r: Ref)
    requires Watched(w)
    ensures Watched(DownNext(w, r))
  {
    hide CallersOk, DownOf;
    if exists p :: Watches(w, p, r) {
      var p :| Watches(w, p, r) && DownNext(w, r) == DownOf(w, p, r);
      DownOfKeepsWatched(w, p, r);
    } else {
      CleanupCallers(w, 0, {r});
    }
  }

  lemma TimeoutKeepsWatched(w: World, p: Pid)
    requires Watched(w)
    ensures Watched(TimeoutNext(w, p))
  {
    hide CallersOk, Detached;
    if p in w.jobs {
      DetachCallers(w, p, {});
      assert w.downs - {} == w.downs;
    }
  }

  lemma ResultKeepsWatched(w: World, p: Pid)
    requires Watched(w) && p in w.results
    ensures Watched(ResultNext(w, p))
  {
    hide CallersOk;
    if p in w.jobs {
      CleanupCallers(w, p, {w.jobs[p].monitor, w.jobs[p].callerMonitor});
    }
  }

  lemma CallKeepsWatched(max: nat, w: World, k: nat)
    requires Watched(w) && RefsOk(w.jobs, w.watch, w.downs, w.refs)
    ensures Watched(CallNext(max, w, k))
  {
    hide CallersOk, RefsOk, StartWatch, StartDowns;
    if k < |w.asked| && w.asked[k].refusal.None? && |w.jobs| < max {
      var a := w.asked[k];
      if a.timeout - (w.clock - a.started) > 0 {
        var taken := w.(calls := w.calls - {k});
        StartCallers(taken, k, Job(Some(k), w.refs, w.refs + 1, a.started + a.timeout));
      }
    }
  }

  lemma NextKeepsWatched(max: nat, w: World, e: Event)
    requires Watched(w) && Slots(max, w) && Enabled(w, e)
    ensures Watched(Next(max, w, e))
  {
    match e
    case Ask(caller, timeout, refusal) =>
      AskCallers(w, Asked(caller, w.clock, timeout, refusal));
      hide CallersOk, Slots;
    case TakeCall(k) => CallKeepsWatched(max, w, k); hide Watched, CallNext, RefsOk, WorkOk, SlotsOk;
    case TakeResult(p) => ResultKeepsWatched(w, p); hide Watched, ResultNext, Slots;
    case TakeTimeout(p) => TimeoutKeepsWatched(w, p); hide Watched, TimeoutNext, Slots;
    case TakeDown(r) => DownKeepsWatched(w, r); hide Watched, DownNext, Slots;
    case Exit(p) => NotifyCallers(w, Worker(p), w.dead); hide CallersOk, Slots, NotifiedDowns, NotifiedWatch;
    case CallerDies(c) =>
      NotifyCallers(w, Client(c), w.dead + {c});
      hide CallersOk, Slots, NotifiedDowns, NotifiedWatch;
    case _ => hide CallersOk, Slots;
  }

  // ---- Answers ----

  lemma AnswerIsMeant(max: nat, w: World, a: Answer)
    requires Meant(max, w) && AnswerOk(max, w.asked, w.owner, w.sent, w.workers, a)
    ensures AnswersOk(max, w.asked, w.owner, w.sent, w.workers, w.log + [a], w.spawned)
  {
    hide AnswerOk;
  }

  /** More is asked, started and sent, and fewer workers live: old answers mean what they meant. */
  lemma LaterAnswers(max: nat, w: World, asked: seq<Asked>, owner: map<Pid, nat>, sent: map<Pid, Outcome>,
                     workers: map<Pid, Work>, spawned: nat)
    requires Meant(max, w) && w.asked <= asked && w.spawned <= spawned
    requires forall p :: p in w.owner ==> p in owner && owner[p] == w.owner[p]
    requires forall p :: p in owner ==> p < spawned
    requires forall p :: p in w.sent ==> p in sent && sent[p] == w.sent[p]
    requires forall p :: p in w.owner && p in workers ==> p in w.workers
    requires forall p :: p in w.owner && p in sent ==> p in w.sent || p in w.workers
    ensures AnswersOk(max, asked, owner, sent, workers, w.log, spawned)
  {
    forall i | 0 <= i < |w.log| ensures AnswerOk(max, asked, owner, sent, workers, w.log[i]) {
      assert AnswerOk(max, w.asked, w.owner, w.sent, w.workers, w.log[i]);
      assert asked[w.log[i].call] == w.asked[w.log[i].call];
    }
  }

  lemma CallKeepsMeant(max: nat, w: World, k: nat)
    requires Meant(max, w) && |w.jobs| <= max
    ensures Meant(max, CallNext(max, w, k))
  {
    if k < |w.asked| {
      var a := w.asked[k];
      var remaining := a.timeout - (w.clock - a.started);
      if a.refusal.None? && |w.jobs| < max && remaining > 0 {
        assert w.spawned !in w.owner;
        LaterAnswers(max, w, w.asked, w.owner[w.spawned := k], w.sent, w.workers[w.spawned := Working], w.spawned + 1);
        hide AnswersOk, StartWatch, StartDowns;
      } else {
        var outcome :=
          if a.refusal.Some? then Err(a.refusal.value) else if |w.jobs| >= max then Err(Busy) else Err(Timeout);
        AnswerIsMeant(max, w, Answer(k, outcome, w.clock, Refused(|w.jobs|)));
        hide AnswersOk, StartWatch, StartDowns;
      }
    }
  }

  lemma ResultKeepsMeant(max: nat, w: World, p: Pid)
    requires Meant(max, w) && Watched(w) && Slots(max, w) && p in w.results
    ensures Meant(max, ResultNext(w, p))
  {
    if p in w.jobs && w.jobs[p].from.Some? {
      var outcome := if w.clock >= w.jobs[p].deadline then Err(Timeout) else w.results[p];
      hide AnswersOk, RefsOk, SlotsOk;
      AnswerIsMeant(max, w, Answer(w.jobs[p].from.value, outcome, w.clock, Reported(p)));
    }
    hide AnswersOk, Slots, Watched;
  }

  lemma TimeoutKeepsMeant(max: nat, w: World, p: Pid)
    requires Meant(max, w) && Watched(w) && Timed(w) && p in w.timeouts
    ensures Meant(max, TimeoutNext(w, p))
  {
    hide AnswersOk;
    if p in w.jobs && w.jobs[p].from.Some? {
      AnswerIsMeant(max, w, Answer(w.jobs[p].from.value, Err(Timeout), w.clock, Expired(p)));
    }
  }

  lemma WorkerDownKeepsMeant(max: nat, w: World, p: Pid, r: Ref)
    requires Meant(max, w) && Watched(w) && Slots(max, w)
    requires Enabled(w, TakeDown(r)) && p in w.jobs && w.jobs[p].monitor == r
    ensures Meant(max, WorkerDown(w, p, r))
  {
    assert p !in w.sent && p !in w.workers;
    hide AnswersOk, RefsOk, SlotsOk, WorkOk;
    if w.jobs[p].from.Some? {
      AnswerIsMeant(max, w, Answer(w.jobs[p].from.value, Err(Trap), w.clock, Crashed(p)));
    }
    hide Slots, Watched;
  }

  lemma DownOfKeepsMeant(max: nat, w: World, p: Pid, r: Ref)
    requires Meant(max, w) && Watched(w) && Slots(max, w) && Enabled(w, TakeDown(r)) && Watches(w, p, r)
    ensures Meant(max, DownOf(w, p, r))
  {
    hide Slots, Watched;
    if w.jobs[p].monitor == r {
      hide Meant, WorkerDown, CallerDown, Enabled;
      WorkerDownKeepsMeant(max, w, p, r);
    } else {
      hide AnswersOk, WorkerDown, Enabled, Detached;
    }
  }

  lemma DownKeepsMeant(max: nat, w: World, r: Ref)
    requires Meant(max, w) && Watched(w) && Slots(max, w) && Enabled(w, TakeDown(r))
    ensures Meant(max, DownNext(w, r))
  {
    hide AnswersOk, DownOf, Slots, Watched, Enabled;
    if exists p :: Watches(w, p, r) {
      var p :| Watches(w, p, r) && DownNext(w, r) == DownOf(w, p, r);
      DownOfKeepsMeant(max, w, p, r);
    }
  }

  lemma DeliverKeepsMeant(max: nat, w: World, p: Pid, outcome: Outcome)
    requires Meant(max, w) && Slots(max, w) && Enabled(w, Deliver(p, outcome))
    ensures Meant(max, Next(max, w, Deliver(p, outcome)))
  {
    assert p !in w.sent;
    LaterAnswers(max, w, w.asked, w.owner, w.sent[p := outcome], w.workers[p := Delivered], w.spawned);
  }

  lemma ExitKeepsMeant(max: nat, w: World, p: Pid)
    requires Meant(max, w)
    ensures AnswersOk(max, w.asked, w.owner, w.sent, w.workers - {p}, w.log, w.spawned)
  {
    LaterAnswers(max, w, w.asked, w.owner, w.sent, w.workers - {p}, w.spawned);
  }

  lemma AskKeepsMeant(max: nat, w: World, a: Asked)
    requires Meant(max, w)
    ensures AnswersOk(max, w.asked + [a], w.owner, w.sent, w.workers, w.log, w.spawned)
  {
    LaterAnswers(max, w, w.asked + [a], w.owner, w.sent, w.workers, w.spawned);
  }

  lemma NextKeepsMeant(max: nat, w: World, e: Event)
    requires Meant(max, w) && Watched(w) && Timed(w) && Slots(max, w) && Enabled(w, e)
    ensures Meant(max, Next(max, w, e))
  {
    match e
    case Ask(caller, timeout, refusal) =>
      AskKeepsMeant(max, w, Asked(caller, w.clock, timeout, refusal));
      hide AnswersOk, Slots, Watched, Timed;
    case TakeCall(k) => CallKeepsMeant(max, w, k); hide Meant, CallNext, Slots, Watched, Timed;
    case TakeResult(p) => ResultKeepsMeant(max, w, p); hide Meant, ResultNext, Slots, Watched, Timed;
    case TakeTimeout(p) => TimeoutKeepsMeant(max, w, p); hide Meant, TimeoutNext, Slots, Watched, Timed;
    case TakeDown(r) => DownKeepsMeant(max, w, r); hide Meant, DownNext, Slots, Watched, Timed;
    case Deliver(p, outcome) => DeliverKeepsMeant(max, w, p, outcome); hide Meant, Slots, Watched, Timed;
    case Exit(p) => ExitKeepsMeant(max, w, p); hide AnswersOk, Slots, Watched, Timed, NotifiedDowns, NotifiedWatch;
    case _ => hide AnswersOk, Slots, Watched, Timed, NotifiedDowns, NotifiedWatch;
  }

  // ---- Nothing is left behind ----

  lemma CleanupTidy(jobs: map<Pid, Job>, armed: map<Pid, nat>, watch: map<Ref, Target>, downs: set<Ref>, p: Pid)
    requires TidyOk(jobs, armed, watch, downs) && p in jobs
    ensures var gone := {jobs[p].monitor, jobs[p].callerMonitor};
            TidyOk(jobs - {p}, armed - {p}, watch - gone, downs - gone)
  {
    var gone := {jobs[p].monitor, jobs[p].callerMonitor};
    forall r | r in watch - gone || r in downs - gone ensures Owned(jobs - {p}, r) {
      var q :| q in jobs && (jobs[q].monitor == r || jobs[q].callerMonitor == r);
      assert q in jobs - {p};
    }
  }

  lemma DetachTidy(jobs: map<Pid, Job>, armed: map<Pid, nat>, watch: map<Ref, Target>, downs: set<Ref>, p: Pid)
    requires TidyOk(jobs, armed, watch, downs) && p in jobs
    ensures TidyOk(Detached(jobs, p), armed, watch, downs)
  {
    forall r | r in watch || r in downs ensures Owned(Detached(jobs, p), r) {
      var q :| q in jobs && (jobs[q].monitor == r || jobs[q].callerMonitor == r);
      assert q in Detached(jobs, p);
    }
  }

  lemma FewerTidy(jobs: map<Pid, Job>, armed: map<Pid, nat>, watch: map<Ref, Target>, downs: set<Ref>, r: Ref, p: Pid)
    requires TidyOk(jobs, armed, watch, downs)
    ensures TidyOk(jobs, armed - {p}, watch, downs - {r}) && TidyOk(jobs, armed, watch, downs - {r})
    ensures TidyOk(jobs, armed - {p}, watch, downs)
  {
    hide Owned;
  }

  lemma NotifyTidy(jobs: map<Pid, Job>, armed: map<Pid, nat>, watch: map<Ref, Target>, downs: set<Ref>, target: Target)
    requires TidyOk(jobs, armed, watch, downs)
    ensures TidyOk(jobs, armed, NotifiedWatch(watch, target), NotifiedDowns(watch, downs, target))
  {
    hide Owned;
  }

  lemma StartTidy(w: World, job: Job, caller: Caller, due: nat)
    requires Tidy(w) && w.spawned !in w.jobs && job.monitor == w.refs && job.callerMonitor == w.refs + 1
    ensures TidyOk(w.jobs[w.spawned := job], w.armed[w.spawned := due], StartWatch(w, caller), StartDowns(w, caller))
  {
    var jobs := w.jobs[w.spawned := job];
    forall r | r in StartWatch(w, caller) || r in StartDowns(w, caller) ensures Owned(jobs, r) {
      if r in w.watch || r in w.downs {
        var q :| q in w.jobs && (w.jobs[q].monitor == r || w.jobs[q].callerMonitor == r);
        assert q in jobs && jobs[q] == w.jobs[q];
      } else {
        assert jobs[w.spawned] == job;
      }
    }
  }

  lemma CallKeepsTidy(max: nat, w: World, k: nat)
    requires Tidy(w) && w.spawned !in w.jobs
    ensures Tidy(CallNext(max, w, k))
  {
    hide TidyOk, StartWatch, StartDowns;
    if k < |w.asked| && w.asked[k].refusal.None? && |w.jobs| < max {
      var a := w.asked[k];
      var remaining := a.timeout - (w.clock - a.started);
      if remaining > 0 {
        var taken := w.(calls := w.calls - {k});
        StartTidy(taken, Job(Some(k), w.refs, w.refs + 1, a.started + a.timeout), a.caller, w.clock + remaining);
      }
    }
  }

  lemma ResultKeepsTidy(w: World, p: Pid)
    requires Tidy(w) && p in w.results
    ensures Tidy(ResultNext(w, p))
  {
    hide TidyOk;
    if p in w.jobs {
      CleanupTidy(w.jobs, w.armed, w.watch, w.downs, p);
    }
  }

  lemma TimeoutKeepsTidy(w: World, p: Pid)
    requires Tidy(w)
    ensures Tidy(TimeoutNext(w, p))
  {
    hide TidyOk, Detached;
    if p in w.jobs {
      DetachTidy(w.jobs, w.armed, w.watch, w.downs, p);
    }
  }

  lemma DownOfKeepsTidy(w: World, p: Pid, r: Ref)
    requires Tidy(w) && Watches(w, p, r)
    ensures Tidy(DownOf(w, p, r))
  {
    hide TidyOk, Detached;
    if w.jobs[p].monitor == r {
      hide CallerDown;
      var gone := {w.jobs[p].monitor, w.jobs[p].callerMonitor};
      CleanupTidy(w.jobs, w.armed, w.watch, w.downs, p);
      assert w.downs - {r} - gone == w.downs - gone;
    } else {
      hide WorkerDown;
      DetachTidy(w.jobs, w.armed, w.watch, w.downs, p);
      FewerTidy(Detached(w.jobs, p), w.armed, w.watch, w.downs, r, p);
    }
  }

  lemma DownKeepsTidy(w: World, r: Ref)
    requires Tidy(w)
    ensures Tidy(DownNext(w, r))
  {
    hide TidyOk, DownOf;
    if exists p :: Watches(w, p, r) {
      var p :| Watches(w, p, r) && DownNext(w, r) == DownOf(w, p, r);
      DownOfKeepsTidy(w, p, r);
    } else {
      FewerTidy(w.jobs, w.armed, w.watch, w.downs, r, 0);
    }
  }

  lemma NextKeepsTidy(max: nat, w: World, e: Event)
    requires Tidy(w) && Slots(max, w) && Enabled(w, e)
    ensures Tidy(Next(max, w, e))
  {
    hide Slots, TidyOk;
    NextPidIsFree(max, w);
    match e
    case TakeCall(k) => CallKeepsTidy(max, w, k); hide CallNext, Tidy;
    case TakeResult(p) => ResultKeepsTidy(w, p); hide ResultNext, Tidy;
    case TakeTimeout(p) => TimeoutKeepsTidy(w, p); hide TimeoutNext, Tidy;
    case TakeDown(r) => DownKeepsTidy(w, r); hide DownNext, Tidy;
    case Exit(p) => NotifyTidy(w.jobs, w.armed, w.watch, w.downs, Worker(p)); hide NotifiedDowns, NotifiedWatch;
    case CallerDies(c) => NotifyTidy(w.jobs, w.armed, w.watch, w.downs, Client(c)); hide NotifiedDowns, NotifiedWatch;
    case Fire(p) => FewerTidy(w.jobs, w.armed, w.watch, w.downs, 0, p);
    case _ =>
  }

  lemma NextKeepsInv(max: nat, w: World, e: Event)
    requires Inv(max, w) && Enabled(w, e)
    ensures Inv(max, Next(max, w, e))
  {
    hide Slots, Conserved, Timed, Watched, Meant, Tidy, Next, Enabled;
    NextKeepsTidy(max, w, e);
    NextKeepsSlots(max, w, e);
    NextKeepsConserved(max, w, e);
    NextKeepsTimed(max, w, e);
    NextKeepsWatched(max, w, e);
    NextKeepsMeant(max, w, e);
  }

  // ---- Every run ----

  ghost predicate Possible(max: nat, w: World, es: seq<Event>)
    decreases |es|
  {
    es == [] || (Enabled(w, es[0]) && Possible(max, Next(max, w, es[0]), es[1..]))
  }

  ghost function After(max: nat, w: World, es: seq<Event>): World
    requires Possible(max, w, es)
    decreases |es|
  {
    if es == [] then w else After(max, Next(max, w, es[0]), es[1..])
  }

  lemma {:induction false} RunKeepsInv(max: nat, w: World, es: seq<Event>)
    requires Inv(max, w) && Possible(max, w, es)
    ensures Inv(max, After(max, w, es))
    decreases |es|
  {
    hide Inv, Next, Enabled;
    if es != [] {
      NextKeepsInv(max, w, es[0]);
      RunKeepsInv(max, Next(max, w, es[0]), es[1..]);
    }
  }

  ghost predicate IsAnswered(w: World, k: nat) {
    exists i :: 0 <= i < |w.log| && w.log[i].call == k
  }

  ghost predicate IsHeld(w: World, k: nat) {
    exists p :: p in w.jobs && w.jobs[p].from == Some(k)
  }

  lemma ConservedMeansOnce(w: World)
    requires Conserved(w)
    ensures forall i, j :: 0 <= i < j < |w.log| ==> w.log[i].call != w.log[j].call
    ensures forall k :: 0 <= k < |w.asked| && (k in w.calls || IsHeld(w, k)) ==> !IsAnswered(w, k)
    ensures forall k :: 0 <= k < |w.asked| && k !in w.calls && !IsHeld(w, k) ==>
              IsAnswered(w, k) || w.asked[k].caller in w.dead
  {
    forall k | 0 <= k < |w.asked| && k !in w.calls && !IsHeld(w, k)
      ensures IsAnswered(w, k) || w.asked[k].caller in w.dead
    {
      assert !w.place[k].Held?;
      if w.place[k].Answered? {
        assert w.log[w.place[k].index].call == k;
      }
    }
  }

  /** Whatever the interleaving of results, timers, worker deaths and caller deaths: no call is
      answered twice, a call that holds a slot or still waits in the mailbox is not answered yet, and
      a call that does neither has been answered, unless its caller is dead. */
  lemma AnsweredExactlyOnce(max: nat, es: seq<Event>)
    requires Possible(max, Boot, es)
    ensures var w := After(max, Boot, es);
            && (forall i, j :: 0 <= i < j < |w.log| ==> w.log[i].call != w.log[j].call)
            && (forall k :: 0 <= k < |w.asked| && (k in w.calls || IsHeld(w, k)) ==> !IsAnswered(w, k))
            && (forall k :: 0 <= k < |w.asked| && k !in w.calls && !IsHeld(w, k) ==>
                 IsAnswered(w, k) || w.asked[k].caller in w.dead)
  {
    BootInv(max);
    RunKeepsInv(max, Boot, es);
    hide Slots, Timed, Watched, Meant, Conserved, Tidy, Possible, After, IsAnswered, IsHeld;
    ConservedMeansOnce(After(max, Boot, es));
  }

  lemma {:induction false} SubsetSize<T>(a: set<T>, b: set<T>)
    requires a <= b
    ensures |a| <= |b|
    decreases |a|
  {
    if x :| x in a {
      SubsetSize(a - {x}, b - {x});
    }
  }

  /** A successful reply carries what the call's own worker sent, and is sent before the call's
      deadline. A reply that the worker stopped means that it stopped without sending a result, and
      a timer never reports a timeout before the deadline. A call that is refused when it is taken was
      invalid, or found every slot taken, or else came too late. */
  ghost predicate Honest(max: nat, w: World, a: Answer) {
    && a.call < |w.asked|
    && var due := w.asked[a.call].started + w.asked[a.call].timeout;
    && (a.outcome.Ok? ==>
         && a.at < due && a.cause.Reported?
         && var p := a.cause.pid; p in w.owner && w.owner[p] == a.call && p in w.sent && w.sent[p] == a.outcome)
    && (a.cause.Crashed? ==> a.cause.pid !in w.sent && a.cause.pid !in w.workers)
    && (a.cause.Expired? ==> a.at >= due)
    && (a.cause.Refused? ==>
         var refusal, running := w.asked[a.call].refusal, a.cause.running;
         && running <= max
         && (refusal.Some? ==> a.outcome == Err(refusal.value))
         && (refusal.None? && running == max ==> a.outcome == Err(Busy))
         && (refusal.None? && running < max ==> a.outcome == Err(Timeout) && a.at >= due))
  }

  lemma AnswersAreHonest(max: nat, w: World, i: nat)
    requires Meant(max, w) && i < |w.log|
    ensures Honest(max, w, w.log[i])
  {
    assert AnswerOk(max, w.asked, w.owner, w.sent, w.workers, w.log[i]);
  }

  lemma RepliesAreMeant(max: nat, es: seq<Event>)
    requires Possible(max, Boot, es)
    ensures var w := After(max, Boot, es);
            forall i :: 0 <= i < |w.log| ==> Honest(max, w, w.log[i])
  {
    BootInv(max);
    RunKeepsInv(max, Boot, es);
    var w := After(max, Boot, es);
    hide Conserved, Timed, Watched, Slots, Tidy, Meant, Possible, After, Honest;
    forall i | 0 <= i < |w.log| ensures Honest(max, w, w.log[i]) {
      AnswersAreHonest(max, w, i);
    }
  }

  /** A valid call that is told that the runtime is busy found a job in every slot. */
  ghost predicate NotKeptBack(max: nat, w: World, a: Answer) {
    && a.call < |w.asked|
    && (a.cause.Refused? && w.asked[a.call].refusal.None? && a.outcome == Err(Busy) ==> a.cause.running == max)
  }

  lemma NoneKeptBack(max: nat, w: World)
    requires Meant(max, w)
    ensures forall i :: 0 <= i < |w.log| ==> NotKeptBack(max, w, w.log[i])
  {
    forall i | 0 <= i < |w.log| ensures NotKeptBack(max, w, w.log[i]) {
      AnswersAreHonest(max, w, i);
    }
  }

  /** Capacity is held until the work stops: there are never more jobs than slots, every worker still
      at work has one, and so there are never more such workers than slots either. And no slot is kept
      back: a valid call is told that the runtime is busy only when every slot has a job. */
  lemma SlotsOutliveWork(max: nat, es: seq<Event>)
    requires Possible(max, Boot, es)
    ensures var w := After(max, Boot, es);
            var busy := set p | p in w.workers && w.workers[p].Working?;
            && |w.jobs| <= max && busy <= w.jobs.Keys && |busy| <= max
            && (forall i :: 0 <= i < |w.log| ==> NotKeptBack(max, w, w.log[i]))
  {
    BootInv(max);
    RunKeepsInv(max, Boot, es);
    hide Conserved, Timed, Watched, Meant, Tidy, RefsOk, WorkOk, After, Possible;
    var w := After(max, Boot, es);
    NoneKeptBack(max, w);
    hide NotKeptBack;
    var busy := set p | p in w.workers && w.workers[p].Working?;
    assert busy <= w.jobs.Keys;
    SubsetSize(busy, w.jobs.Keys);
    assert |w.jobs.Keys| == |w.jobs|;
  }

  /** Nothing is left to take: no message waits and no timer is due. */
  ghost predicate Quiet(w: World) {
    && w.calls == {} && w.results == map[] && w.timeouts == {} && w.downs == {}
    && (forall p :: p in w.armed ==> w.armed[p] > w.clock)
  }

  lemma QuietMeansDone(max: nat, w: World)
    requires Inv(max, w) && Quiet(w)
    ensures forall k :: 0 <= k < |w.asked| && IsHeld(w, k) ==> w.asked[k].started + w.asked[k].timeout > w.clock
    ensures forall p :: p in w.jobs ==>
              && p in w.workers && w.workers[p].Working?
              && (w.jobs[p].from.None? ==> p in w.cancelled)
  {
    hide Conserved, Meant, Tidy, RefsOk;
    forall k | 0 <= k < |w.asked| && IsHeld(w, k) ensures w.asked[k].started + w.asked[k].timeout > w.clock {
      var p :| p in w.jobs && w.jobs[p].from == Some(k);
      assert w.armed[p] == w.jobs[p].deadline;
    }
  }

  /** No call hangs and no slot leaks: once the mailbox is empty and no timer is due, every call
      whose deadline has passed is answered unless its caller is dead, every slot belongs to a worker
      still at work, and a worker that nobody waits for has been told to stop. */
  lemma NoCallHangs(max: nat, es: seq<Event>)
    requires Possible(max, Boot, es) && Quiet(After(max, Boot, es))
    ensures var w := After(max, Boot, es);
            && (forall k :: 0 <= k < |w.asked| && w.asked[k].started + w.asked[k].timeout <= w.clock ==>
                 IsAnswered(w, k) || w.asked[k].caller in w.dead)
            && (forall p :: p in w.jobs ==>
                 && p in w.workers && w.workers[p].Working?
                 && (w.jobs[p].from.None? ==> p in w.cancelled))
  {
    BootInv(max);
    RunKeepsInv(max, Boot, es);
    AnsweredExactlyOnce(max, es);
    hide Slots, Timed, Watched, Meant, Conserved, Tidy, Possible, After, IsAnswered, IsHeld, Quiet;
    QuietMeansDone(max, After(max, Boot, es));
  }

  lemma TidyMeansNoLeak(w: World)
    requires Tidy(w)
    ensures w.armed.Keys <= w.jobs.Keys
    ensures forall r :: r in w.watch || r in w.downs ==> exists p :: Watches(w, p, r)
    ensures w.jobs == map[] ==> w.armed == map[] && w.watch == map[] && w.downs == {}
  {
    forall r | r in w.watch || r in w.downs ensures exists p :: Watches(w, p, r) {
      assert Owned(w.jobs, r);
      var p :| p in w.jobs && (w.jobs[p].monitor == r || w.jobs[p].callerMonitor == r);
      assert Watches(w, p, r);
    }
    if w.jobs == map[] {
      assert forall r :: r in w.watch || r in w.downs ==> Owned(w.jobs, r);
      assert w.armed.Keys == {} && w.watch.Keys == {};
    }
  }

  /** Freeing a slot leaves nothing behind: timers, monitors and DOWN messages all belong to jobs, so
      when no job is left there are none, and a DOWN message always finds its job. */
  lemma NothingLeaks(max: nat, es: seq<Event>)
    requires Possible(max, Boot, es)
    ensures var w := After(max, Boot, es);
            && w.armed.Keys <= w.jobs.Keys
            && (forall r :: r in w.watch || r in w.downs ==> exists p :: Watches(w, p, r))
            && (w.jobs == map[] ==> w.armed == map[] && w.watch == map[] && w.downs == {})
  {
    BootInv(max);
    RunKeepsInv(max, Boot, es);
    hide Slots, Conserved, Timed, Watched, Meant, Tidy, Possible, After, Watches;
    TidyMeansNoLeak(After(max, Boot, es));
  }

  // ---- Admission ----

  /** The call holds a slot of its own that it did not hold before, with a worker at work, a timer that
      is due at its deadline, and nothing else changed for any other call. */
  ghost predicate Admitted(w: World, k: nat, after: World)
    requires k < |w.asked|
  {
    var due := w.asked[k].started + w.asked[k].timeout;
    exists p ::
      && p !in w.jobs && p !in w.workers && p in after.jobs
      && after.jobs == w.jobs[p := after.jobs[p]]
      && after.jobs[p].from == Some(k) && after.jobs[p].deadline == due
      && after.workers == w.workers[p := Working] && after.armed == w.armed[p := due]
      && after.owner == w.owner[p := k] && after.log == w.log
  }

  /** The call is answered at once and holds nothing. */
  ghost predicate TurnedAway(w: World, k: nat, kind: Kind, after: World) {
    && after.jobs == w.jobs && after.workers == w.workers && after.armed == w.armed
    && after.log == w.log + [Answer(k, Err(kind), w.clock, Refused(|w.jobs|))]
  }

  /** In every run, exactly: a call that the server takes is admitted if and only if validation found
      nothing, a slot is free and time is left; otherwise it is answered with what validation found, or
      else as busy if no slot is free, or else as timed out. */
  lemma AdmittedExactly(max: nat, es: seq<Event>, k: nat)
    requires Possible(max, Boot, es) && Enabled(After(max, Boot, es), TakeCall(k))
    ensures var w := After(max, Boot, es);
            && k < |w.asked|
            && var a, after := w.asked[k], Next(max, w, TakeCall(k));
               var due := a.started + a.timeout;
               && (Admitted(w, k, after) <==> a.refusal.None? && |w.jobs| < max && w.clock < due)
               && (a.refusal.Some? ==> TurnedAway(w, k, a.refusal.value, after))
               && (a.refusal.None? ==>
                    && (TurnedAway(w, k, Busy, after) <==> |w.jobs| >= max)
                    && (TurnedAway(w, k, Timeout, after) <==> |w.jobs| < max && w.clock >= due))
  {
    BootInv(max);
    hide Inv, Possible, After, Admitted, TurnedAway, CallNext;
    RunKeepsInv(max, Boot, es);
    var w := After(max, Boot, es);
    TakenCall(max, w, k);
    CallIsDecided(max, w, k);
  }

  lemma TakenCall(max: nat, w: World, k: nat)
    requires Inv(max, w) && k in w.calls
    ensures k < |w.asked| && w.spawned !in w.jobs && w.spawned !in w.workers
  {
    NextPidIsFree(max, w);
    hide Timed, Watched, Meant, Tidy, RefsOk;
  }

  lemma CallIsDecided(max: nat, w: World, k: nat)
    requires k < |w.asked| && w.spawned !in w.jobs && w.spawned !in w.workers
    ensures var a, after := w.asked[k], CallNext(max, w, k);
            var due := a.started + a.timeout;
            && (Admitted(w, k, after) <==> a.refusal.None? && |w.jobs| < max && w.clock < due)
            && (a.refusal.Some? ==> TurnedAway(w, k, a.refusal.value, after))
            && (a.refusal.None? ==>
                 && (TurnedAway(w, k, Busy, after) <==> |w.jobs| >= max)
                 && (TurnedAway(w, k, Timeout, after) <==> |w.jobs| < max && w.clock >= due))
  {
    hide CallNext, Admitted, TurnedAway;
    var a := w.asked[k];
    if a.refusal.None? && |w.jobs| < max && w.clock < a.started + a.timeout {
      CallAdmits(max, w, k);
    } else {
      CallTurnsAway(max, w, k);
    }
  }

  lemma CallAdmits(max: nat, w: World, k: nat)
    requires k < |w.asked| && w.spawned !in w.jobs && w.spawned !in w.workers
    requires w.asked[k].refusal.None? && |w.jobs| < max && w.clock < w.asked[k].started + w.asked[k].timeout
    ensures Admitted(w, k, CallNext(max, w, k)) && forall kind :: !TurnedAway(w, k, kind, CallNext(max, w, k))
  {
    hide Start, Admitted, TurnedAway;
    var taken, a := w.(calls := w.calls - {k}), w.asked[k];
    StartAdmits(taken, k, a);
    AdmittedLater(w, k, taken, CallNext(max, w, k));
  }

  lemma CallTurnsAway(max: nat, w: World, k: nat)
    requires k < |w.asked|
    requires var a := w.asked[k]; a.refusal.Some? || |w.jobs| >= max || w.clock >= a.started + a.timeout
    ensures var a, after := w.asked[k], CallNext(max, w, k);
            var kind := if a.refusal.Some? then a.refusal.value else if |w.jobs| >= max then Busy else Timeout;
            TurnedAway(w, k, kind, after) && !Admitted(w, k, after)
            && forall other :: TurnedAway(w, k, other, after) ==> other == kind
  {
    hide Start, Admitted;
    var a, after := w.asked[k], CallNext(max, w, k);
    var kind := if a.refusal.Some? then a.refusal.value else if |w.jobs| >= max then Busy else Timeout;
    assert TurnedAway(w, k, kind, after);
    hide CallNext, TurnedAway;
    NotBoth(w, k, kind, after);
  }

  lemma StartAdmits(w: World, k: nat, a: Asked)
    requires k < |w.asked| && a == w.asked[k] && w.clock < a.started + a.timeout
    requires w.spawned !in w.jobs && w.spawned !in w.workers
    ensures Admitted(w, k, Start(w, k, a, a.started + a.timeout - w.clock))
  {
    hide StartWatch, StartDowns;
    var p, after := w.spawned, Start(w, k, a, a.started + a.timeout - w.clock);
    assert after.jobs == w.jobs[p := after.jobs[p]];
  }

  lemma AdmittedLater(w: World, k: nat, taken: World, after: World)
    requires k < |w.asked| && taken == w.(calls := taken.calls) && Admitted(taken, k, after)
    ensures Admitted(w, k, after) && forall kind :: !TurnedAway(w, k, kind, after)
  {
    assert forall kind :: |w.log + [Answer(k, Err(kind), w.clock, Refused(|w.jobs|))]| == |w.log| + 1;
  }

  /** A call is turned away for one reason, and then it is not admitted. */
  lemma NotBoth(w: World, k: nat, kind: Kind, after: World)
    requires k < |w.asked| && TurnedAway(w, k, kind, after)
    ensures !Admitted(w, k, after) && forall other :: TurnedAway(w, k, other, after) ==> other == kind
  {
    assert after.log[|w.log|].outcome == Err(kind) && after.log != w.log;
  }
}
