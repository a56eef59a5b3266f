/** The per-execution callback broker: what it admits, runs, answers and kills, for arbitrary
    request frames. */
module Broker {
  import opened Text
  import opened Wrappers
  import opened Wire

  type Pid = nat

  // ---- Request frames, as decoded from bytes that may be forged ----

  datatype Name = Utf8(text: string) | Binary(size: nat)

  datatype Argument = JsonText(text: string) | NotJson(size: nat)

  /** A member of the frame's request list; `Malformed` if it lacks the three expected fields. */
  datatype Entry = Malformed | Entry(id: int, name: Name, argument: Argument)

  /** `entries` is `None` when the bytes are not a JSON object with a request list. */
  datatype Frame = Frame(size: nat, entries: Option<seq<Entry>>)

  // ---- Broker state ----

  /** What a callback process sends back. */
  datatype Report = Reply(completion: Completion) | Fatal(message: string)

  datatype Job = Job(id: nat, result: Option<Report>)

  /** `spawned` counts the processes started so far and supplies the next pid. */
  datatype State = State(seen: set<nat>, jobs: map<Pid, Job>, spawned: nat)

  const Idle := State({}, map[], 0)

  // ---- Encoding answers ----

  const DENIED_CODE := "capability_denied"
  const DENIED_MESSAGE := "Callback is not granted"
  const FAILED_CODE := "callback_failed"
  const FAILED_MESSAGE := "Host callback failed"
  const INVALID_MESSAGE := "Host callback returned an invalid result"

  function EncodeError(l: Limits, id: nat, code: string, message: string): (r: Report)
    ensures r.Reply? ==> r.completion.id == id && WithinOutputBudget(r.completion, l.maxOutput)
  {
    if Bytes(ErrorText(code, message)) <= l.maxOutput then Reply(Rejected(id, code, message))
    else Fatal("callback error exceeds max_callback_output")
  }

  /** How a host callback ends: a JSON value, a declared error, anything else, or an exception. */
  datatype Outcome = Value(text: string) | Declared(code: string, message: string) | Invalid | Raised

  function Invoke(l: Limits, id: nat, outcome: Outcome): (r: Report)
    ensures r.Reply? ==> r.completion.id == id && WithinOutputBudget(r.completion, l.maxOutput)
  {
    match outcome
    case Value(text) =>
      if Bytes(text) <= l.maxOutput then Reply(Resolved(id, text))
      else Fatal("callback result exceeds max_callback_output")
    case Declared(code, message) => EncodeError(l, id, code, message)
    case Invalid => EncodeError(l, id, FAILED_CODE, INVALID_MESSAGE)
    case Raised => EncodeError(l, id, FAILED_CODE, FAILED_MESSAGE)
  }

  // ---- Dispatch ----

  predicate Admitted(l: Limits, b: State, id: nat) {
    id <= 1024 && id !in b.seen && |b.seen| < l.maxCalls && |b.jobs| < l.maxConcurrency
  }

  predicate ValidPayload(l: Limits, e: Entry)
    requires e.Entry?
  {
    && (match e.argument case JsonText(t) => Bytes(t) case NotJson(n) => n) <= l.maxInput
    && e.name.Utf8? && 1 <= Bytes(e.name.text) <= MAX_NAME
  }

  datatype Verdict = Refused(message: string) | Accepted(state: State, replies: seq<Completion>)

  function DispatchRequest(l: Limits, b: State, e: Entry): Verdict {
    if e.Malformed? || e.id <= 0 then Refused("invalid callback request")
    else if !Admitted(l, b, e.id) || !ValidPayload(l, e) || e.argument.NotJson? then
      Refused("invalid callback request or callback budget exceeded")
    else DispatchGranted(l, b.(seen := b.seen + {e.id}), e.id, e.name.text)
  }

  function DispatchGranted(l: Limits, b: State, id: nat, name: string): Verdict {
    if name in l.granted then
      Accepted(b.(jobs := b.jobs[b.spawned := Job(id, None)], spawned := b.spawned + 1), [])
    else match EncodeError(l, id, DENIED_CODE, DENIED_MESSAGE)
      case Fatal(message) => Refused(message)
      case Reply(c) => Accepted(b, [c])
  }

  /** The state when the batch ended, the answers sent on the way, and why it was cut short. */
  datatype Batch = Batch(state: State, replies: seq<Completion>, refusal: Option<string>)

  function DispatchBatch(l: Limits, b: State, entries: seq<Entry>): Batch
    decreases |entries|
  {
    if entries == [] then Batch(b, [], None)
    else match DispatchRequest(l, b, entries[0])
      case Refused(message) => Batch(b, [], Some(message))
      case Accepted(b', replies) =>
        var rest := DispatchBatch(l, b', entries[1..]);
        rest.(replies := replies + rest.replies)
  }

  function Dispatch(l: Limits, b: State, f: Frame): Batch {
    if f.size <= RequestLimit(l) && f.entries.Some? && |f.entries.value| <= l.maxConcurrency then
      DispatchBatch(l, b, f.entries.value)
    else Batch(b, [], Some("invalid or oversized callback request frame"))
  }

  // ---- The receive loop ----

  datatype Msg =
    | Requests(frame: Frame)
    | Result(pid: Pid, report: Report)
    | Down(pid: Pid)
    | TimedOut(pid: Pid)
    | ParentDown
    | Stop
    | Other

  datatype Ending = Quiet | Failure(kind: Kind, message: string)

  datatype Reaction = Reaction(state: State, replies: seq<Completion>, ending: Option<Ending>)

  /** One turn of the loop. */
  function React(l: Limits, b: State, m: Msg): Reaction {
    match m
    case Requests(f) =>
      var batch := Dispatch(l, b, f);
      Reaction(batch.state, batch.replies,
               if batch.refusal.Some? then Some(Failure(CallbackLimit, batch.refusal.value)) else None)
    case Result(pid, report) =>
      Reaction(if pid in b.jobs then b.(jobs := b.jobs[pid := b.jobs[pid].(result := Some(report))]) else b, [], None)
    case Down(pid) => if pid in b.jobs then Finish(l, b, pid) else Reaction(b, [], None)
    case TimedOut(pid) =>
      Reaction(b, [], if pid in b.jobs then Some(Failure(CallbackTimeout, "host callback timed out")) else None)
    case ParentDown => Reaction(b, [], Some(Quiet))
    case Stop => Reaction(b, [], Some(Quiet))
    case Other => Reaction(b, [], None)
  }

  /** What the answer to a finished job is: its own report, or a generic failure. */
  function Answer(l: Limits, job: Job): Report {
    match job.result
    case Some(report) => report
    case None => EncodeError(l, job.id, FAILED_CODE, FAILED_MESSAGE)
  }

  function Finish(l: Limits, b: State, pid: Pid): Reaction
    requires pid in b.jobs
  {
    var left := b.(jobs := b.jobs - {pid});
    match Answer(l, b.jobs[pid])
    case Fatal(message) => Reaction(left, [], Some(Failure(CallbackLimit, message)))
    case Reply(c) => Reaction(left, [c], None)
  }

  // ---- Broker safety, one state ----

  function JobIds(jobs: map<Pid, Job>): set<nat> {
    set p | p in jobs :: jobs[p].id
  }

  function Ids(cs: seq<Completion>): set<nat> {
    set k | 0 <= k < |cs| :: cs[k].id
  }

  ghost predicate Distinct(cs: seq<Completion>) {
    forall j, k :: 0 <= j < k < |cs| ==> cs[j].id != cs[k].id
  }

  /** No id runs twice. */
  ghost predicate Injective(jobs: map<Pid, Job>) {
    forall p, q :: p in jobs && q in jobs && p != q ==> jobs[p].id != jobs[q].id
  }

  /** A report under the id of the job it belongs to. */
  ghost predicate ReportFor(id: nat, r: Report) {
    r.Reply? ==> r.completion.id == id
  }

  /** Every admitted id is either a live job's or answered, never both and never twice. */
  ghost predicate Ledger(seen: set<nat>, jobs: map<Pid, Job>, answered: seq<Completion>) {
    && Injective(jobs)
    && Distinct(answered)
    && JobIds(jobs) !! Ids(answered)
    && seen == JobIds(jobs) + Ids(answered)
  }

  ghost predicate Bounded(l: Limits, b: State) {
    && |b.jobs| <= l.maxConcurrency
    && |b.seen| <= l.maxCalls
    && (forall id :: id in b.seen ==> 1 <= id <= 1024)
  }

  ghost predicate Tracked(b: State) {
    forall p :: p in b.jobs ==>
      && p < b.spawned
      && (b.jobs[p].result.Some? ==> ReportFor(b.jobs[p].id, b.jobs[p].result.value))
  }

  /** What holds of the broker, given all the answers it has sent so far. */
  ghost predicate Safe(l: Limits, b: State, answered: seq<Completion>) {
    Bounded(l, b) && Ledger(b.seen, b.jobs, answered) && Tracked(b)
  }

  lemma AnswerOne(cs: seq<Completion>, c: Completion)
    requires Distinct(cs) && c.id !in Ids(cs)
    ensures Distinct(cs + [c]) && Ids(cs + [c]) == Ids(cs) + {c.id}
  {
    var after := cs + [c];
    forall id | id in Ids(cs) + {c.id} ensures id in Ids(after) {
      if id in Ids(cs) {
        var k :| 0 <= k < |cs| && cs[k].id == id;
        assert after[k].id == id;
      } else {
        assert after[|cs|].id == id;
      }
    }
    forall j, k | 0 <= j < k < |after| ensures after[j].id != after[k].id {
      assert after[j] == cs[j];
      assert cs[j].id in Ids(cs);
    }
  }

  lemma AddJob(jobs: map<Pid, Job>, pid: Pid, id: nat)
    requires pid !in jobs && id !in JobIds(jobs) && Injective(jobs)
    ensures var after := jobs[pid := Job(id, None)];
            Injective(after) && JobIds(after) == JobIds(jobs) + {id} && |after| == |jobs| + 1
  {
    var after := jobs[pid := Job(id, None)];
    forall i | i in JobIds(jobs) + {id} ensures i in JobIds(after) {
      if i in JobIds(jobs) {
        var p :| p in jobs && jobs[p].id == i;
        assert after[p].id == i;
      } else {
        assert after[pid].id == i;
      }
    }
    forall p, q | p in after && q in after && p != q ensures after[p].id != after[q].id {
      if p in jobs {
        assert jobs[p].id in JobIds(jobs);
      }
      if q in jobs {
        assert jobs[q].id in JobIds(jobs);
      }
    }
  }

  lemma DropJob(jobs: map<Pid, Job>, pid: Pid)
    requires pid in jobs && Injective(jobs)
    ensures var after := jobs - {pid};
            && Injective(after) && |after| == |jobs| - 1
            && JobIds(after) == JobIds(jobs) - {jobs[pid].id} && jobs[pid].id in JobIds(jobs)
  {
    var after := jobs - {pid};
    assert after.Keys == jobs.Keys - {pid};
    assert |after.Keys| == |jobs.Keys| - 1;
    forall i | i in JobIds(jobs) - {jobs[pid].id} ensures i in JobIds(after) {
      var p :| p in jobs && jobs[p].id == i;
      assert p in after && after[p].id == i;
    }
  }

  lemma StoreResult(jobs: map<Pid, Job>, pid: Pid, r: Report)
    requires pid in jobs
    ensures var after := jobs[pid := jobs[pid].(result := Some(r))];
            after.Keys == jobs.Keys && |after| == |jobs| && JobIds(after) == JobIds(jobs)
            && (Injective(jobs) ==> Injective(after))
  {
    var after := jobs[pid := jobs[pid].(result := Some(r))];
    assert after.Keys == jobs.Keys;
    assert |after.Keys| == |jobs.Keys|;
    forall i | i in JobIds(jobs) ensures i in JobIds(after) {
      var p :| p in jobs && jobs[p].id == i;
      assert after[p].id == i;
    }
    forall i | i in JobIds(after) ensures i in JobIds(jobs) {
      var p :| p in after && after[p].id == i;
      assert jobs[p].id == i;
    }
  }

  /** `after` continues `b`: no job is lost or changed, and new jobs have fresh pids. */
  ghost predicate Extends(b: State, after: State) {
    && after.spawned >= b.spawned
    && (forall p :: p in b.jobs ==> p in after.jobs && after.jobs[p] == b.jobs[p])
    && (forall p :: p in after.jobs && p !in b.jobs ==> p >= b.spawned && after.jobs[p].result == None)
  }

  lemma LedgerStart(seen: set<nat>, jobs: map<Pid, Job>, answered: seq<Completion>, pid: Pid, id: nat)
    requires Ledger(seen, jobs, answered) && id !in seen && pid !in jobs
    ensures Ledger(seen + {id}, jobs[pid := Job(id, None)], answered)
    ensures |jobs[pid := Job(id, None)]| == |jobs| + 1
  {
    AddJob(jobs, pid, id);
  }

  lemma StartExtends(b: State, id: nat)
    requires Tracked(b)
    ensures var after := State(b.seen + {id}, b.jobs[b.spawned := Job(id, None)], b.spawned + 1);
            Tracked(after) && Extends(b, after) && b.spawned !in b.jobs
  {
  }

  lemma StartKeepsSafe(l: Limits, b: State, id: nat, answered: seq<Completion>)
    requires Safe(l, b, answered) && Admitted(l, b, id) && id >= 1
    ensures var after := State(b.seen + {id}, b.jobs[b.spawned := Job(id, None)], b.spawned + 1);
            Safe(l, after, answered) && Extends(b, after)
  {
    hide Ledger, Tracked, Extends;
    StartExtends(b, id);
    LedgerStart(b.seen, b.jobs, answered, b.spawned, id);
  }

  lemma LedgerAnswer(seen: set<nat>, jobs: map<Pid, Job>, answered: seq<Completion>, c: Completion)
    requires Ledger(seen, jobs, answered) && c.id !in seen
    ensures Ledger(seen + {c.id}, jobs, answered + [c])
  {
    AnswerOne(answered, c);
  }

  lemma DenyKeepsSafe(l: Limits, b: State, c: Completion, answered: seq<Completion>)
    requires Safe(l, b, answered) && Admitted(l, b, c.id) && c.id >= 1
    ensures var after := b.(seen := b.seen + {c.id});
            Safe(l, after, answered + [c]) && Extends(b, after)
  {
    hide Ledger;
    LedgerAnswer(b.seen, b.jobs, answered, c);
  }

  /** An accepted request either starts a job or is answered with a denial. */
  ghost predicate Step(l: Limits, b: State, v: Verdict) {
    v.Accepted? ==>
      || (exists id: nat :: Admitted(l, b, id) && id >= 1 && v == Started(b, id))
      || (exists c: Completion :: Admitted(l, b, c.id) && c.id >= 1 && v == Denied(b, c))
  }

  function Started(b: State, id: nat): Verdict {
    Accepted(State(b.seen + {id}, b.jobs[b.spawned := Job(id, None)], b.spawned + 1), [])
  }

  function Denied(b: State, c: Completion): Verdict {
    Accepted(b.(seen := b.seen + {c.id}), [c])
  }

  lemma RequestSteps(l: Limits, b: State, e: Entry)
    ensures Step(l, b, DispatchRequest(l, b, e))
  {
    hide EncodeError;
    var v := DispatchRequest(l, b, e);
    if v.Accepted? {
      var id: nat := e.id;
      if e.name.text in l.granted {
        assert v == Started(b, id);
      } else {
        assert v == Denied(b, v.replies[0]);
      }
    }
  }

  lemma StepKeepsSafe(l: Limits, b: State, v: Verdict, answered: seq<Completion>)
    requires Safe(l, b, answered) && Step(l, b, v) && v.Accepted?
    ensures Safe(l, v.state, answered + v.replies) && Extends(b, v.state)
  {
    hide Bounded, Ledger, Tracked, Extends, Admitted;
    if id: nat :| Admitted(l, b, id) && id >= 1 && v == Started(b, id) {
      StartKeepsSafe(l, b, id, answered);
      assert answered + [] == answered;
    } else {
      var c: Completion :| Admitted(l, b, c.id) && c.id >= 1 && v == Denied(b, c);
      DenyKeepsSafe(l, b, c, answered);
    }
  }

  /** A batch keeps the broker safe however far it gets, even when a later entry is refused. */
  lemma {:induction false} BatchKeepsSafe(l: Limits, b: State, entries: seq<Entry>, answered: seq<Completion>)
    requires Safe(l, b, answered)
    ensures var r := DispatchBatch(l, b, entries);
            Safe(l, r.state, answered + r.replies) && Extends(b, r.state)
    decreases |entries|
  {
    hide DispatchRequest, Step, Bounded, Ledger, Tracked;
    assert answered + [] == answered;
    if entries != [] {
      RequestSteps(l, b, entries[0]);
      var v := DispatchRequest(l, b, entries[0]);
      if v.Accepted? {
        StepKeepsSafe(l, b, v, answered);
        BatchKeepsSafe(l, v.state, entries[1..], answered + v.replies);
        var rest := DispatchBatch(l, v.state, entries[1..]);
        assert answered + (v.replies + rest.replies) == answered + v.replies + rest.replies;
      }
    }
  }

  lemma LedgerFinish(seen: set<nat>, jobs: map<Pid, Job>, answered: seq<Completion>, pid: Pid, c: Completion)
    requires Ledger(seen, jobs, answered) && pid in jobs && c.id == jobs[pid].id
    ensures Ledger(seen, jobs - {pid}, answered + [c])
    ensures |jobs - {pid}| == |jobs| - 1
  {
    DropJob(jobs, pid);
    AnswerOne(answered, c);
  }

  lemma FinishKeepsSafe(l: Limits, b: State, pid: Pid, answered: seq<Completion>)
    requires Safe(l, b, answered) && pid in b.jobs
    ensures var r := Finish(l, b, pid);
            && (r.ending.None? ==> Safe(l, r.state, answered + r.replies))
            && r.state.jobs == b.jobs - {pid} && r.state.spawned == b.spawned
  {
    var r := Finish(l, b, pid);
    if r.ending.None? {
      LedgerFinish(b.seen, b.jobs, answered, pid, r.replies[0]);
    }
  }

  lemma ResultKeepsSafe(l: Limits, b: State, pid: Pid, r: Report, answered: seq<Completion>)
    requires Safe(l, b, answered)
    requires pid in b.jobs ==> ReportFor(b.jobs[pid].id, r)
    ensures Safe(l, React(l, b, Result(pid, r)).state, answered)
  {
    if pid in b.jobs {
      StoreResult(b.jobs, pid, r);
    }
  }
}
