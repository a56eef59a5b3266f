/** Where the broker's answers come from, over all its runs. */
module Answers {
  import opened Text
  import opened Wrappers
  import opened Wire
  import opened Broker
  import opened BrokerRun

  // ---- The processes of a run ----

  /** The ids that the processes of a run were started for, dead ones included. */
  function WithJobs(own: map<Pid, nat>, jobs: map<Pid, Job>): map<Pid, nat> {
    own + map p | p in jobs :: jobs[p].id
  }

  ghost function Owners(l: Limits, w: World, es: seq<Event>, own: map<Pid, nat>): map<Pid, nat>
    requires Possible(l, w, es)
    decreases |es|
  {
    if es == [] then own
    else
      var after := Next(l, w, es[0]);
      Owners(l, after, es[1..], WithJobs(own, after.broker.jobs))
  }

  ghost predicate Owned(b: State, own: map<Pid, nat>) {
    && (forall p :: p in b.jobs ==> p in own && own[p] == b.jobs[p].id)
    && (forall p :: p in own ==> p < b.spawned && own[p] in b.seen)
    && NoIdTwice(own)
  }

  ghost predicate NoIdTwice(own: map<Pid, nat>) {
    forall p, q :: p in own && q in own && p != q ==> own[p] != own[q]
  }

  // ---- Where an answer comes from ----

  predicate IsDenial(c: Completion) {
    c == Rejected(c.id, DENIED_CODE, DENIED_MESSAGE)
  }

  predicate IsFailure(c: Completion) {
    c == Rejected(c.id, FAILED_CODE, FAILED_MESSAGE)
  }

  /** A process that was started for the answer's id and is gone reported the answer, or reported
      nothing and the answer is the generic failure. */
  ghost predicate Reported(b: State, reports: map<Pid, Report>, own: map<Pid, nat>, c: Completion, p: Pid) {
    && p in own && own[p] == c.id && p !in b.jobs
    && if p in reports then reports[p] == Reply(c) else IsFailure(c)
  }

  /** Nothing ran under the id and the answer denies it, or the answer is its process's. */
  ghost predicate Sourced(b: State, reports: map<Pid, Report>, own: map<Pid, nat>, c: Completion) {
    || (IsDenial(c) && forall p :: p in own ==> own[p] != c.id)
    || exists p :: Reported(b, reports, own, c, p)
  }

  ghost predicate AllSourced(w: World, own: map<Pid, nat>, cs: seq<Completion>) {
    forall k :: 0 <= k < |cs| ==> Sourced(w.broker, w.reports, own, cs[k])
  }

  ghost predicate Kept(l: Limits, w: World, own: map<Pid, nat>) {
    && Good(l, w) && Budgeted(l, w) && (w.phase.Live? ==> Faithful(w))
    && Owned(w.broker, own) && AllSourced(w, own, w.answered)
  }

  // ---- Batches ----

  ghost predicate AllDenials(cs: seq<Completion>) {
    forall k :: 0 <= k < |cs| ==> IsDenial(cs[k])
  }

  lemma Encoded(l: Limits, id: nat, code: string, message: string)
    ensures var r := EncodeError(l, id, code, message);
            r.Reply? ==> r.completion == Rejected(id, code, message)
  {
  }

  lemma GrantedDenies(l: Limits, b: State, id: nat, name: string)
    ensures var v := DispatchGranted(l, b, id, name); v.Accepted? ==> AllDenials(v.replies)
  {
    hide EncodeError;
    Encoded(l, id, DENIED_CODE, DENIED_MESSAGE);
  }

  lemma RequestDenies(l: Limits, b: State, e: Entry)
    ensures var v := DispatchRequest(l, b, e); v.Accepted? ==> AllDenials(v.replies)
  {
    hide Admitted, AllDenials, DispatchGranted;
    if e.Entry? && e.id > 0 && e.name.Utf8? {
      GrantedDenies(l, b.(seen := b.seen + {e.id as nat}), e.id, e.name.text);
    }
  }

  lemma DenialsConcat(a: seq<Completion>, b: seq<Completion>)
    requires AllDenials(a) && AllDenials(b)
    ensures AllDenials(a + b)
  {
    hide IsDenial;
  }

  /** A batch answers only with denials. */
  lemma {:induction false} BatchDenies(l: Limits, b: State, entries: seq<Entry>)
    ensures AllDenials(DispatchBatch(l, b, entries).replies)
    decreases |entries|
  {
    hide DispatchRequest, IsDenial;
    if entries != [] {
      RequestDenies(l, b, entries[0]);
      var v := DispatchRequest(l, b, entries[0]);
      if v.Accepted? {
        BatchDenies(l, v.state, entries[1..]);
        DenialsConcat(v.replies, DispatchBatch(l, v.state, entries[1..]).replies);
      }
    }
  }

  /** What a batch starts and what it answers have ids that were not in use, and not the same. */
  lemma BatchIsFresh(b: State, after: State, answered: seq<Completion>, replies: seq<Completion>)
    requires Ledger(b.seen, b.jobs, answered) && Ledger(after.seen, after.jobs, answered + replies) && Extends(b, after)
    ensures forall p :: p in after.jobs && p !in b.jobs ==> after.jobs[p].id !in b.seen
    ensures forall k :: 0 <= k < |replies| ==> replies[k].id !in b.seen && replies[k].id !in JobIds(after.jobs)
    ensures b.seen <= after.seen && JobIds(after.jobs) <= after.seen
    ensures JobIds(after.jobs) !! Ids(answered)
  {
    var all := answered + replies;
    forall k | 0 <= k < |replies| ensures replies[k].id !in Ids(answered) && replies[k].id in Ids(all) {
      assert all[|answered| + k] == replies[k];
      forall j | 0 <= j < |answered| ensures answered[j].id != replies[k].id {
        assert all[j] == answered[j];
      }
    }
    forall i | i in Ids(answered) ensures i in Ids(all) {
      var k :| 0 <= k < |answered| && answered[k].id == i;
      assert all[k].id == i;
    }
    forall i | i in JobIds(b.jobs) ensures i in JobIds(after.jobs) {
      var p :| p in b.jobs && b.jobs[p].id == i;
      assert after.jobs[p].id == i;
    }
    forall p | p in after.jobs && p !in b.jobs ensures after.jobs[p].id !in b.seen {
      assert after.jobs[p].id in JobIds(after.jobs);
      forall q | q in b.jobs ensures b.jobs[q].id != after.jobs[p].id {
      }
    }
  }

  lemma BatchKeepsOwned(b: State, after: State, own: map<Pid, nat>)
    requires Owned(b, own) && Extends(b, after) && Injective(after.jobs) && b.seen <= after.seen
    requires forall p :: p in after.jobs ==> p < after.spawned && after.jobs[p].id in after.seen
    requires forall p :: p in after.jobs && p !in b.jobs ==> after.jobs[p].id !in b.seen
    ensures Owned(after, WithJobs(own, after.jobs))
  {
    var now := WithJobs(own, after.jobs);
    forall p, q | p in now && q in now && p != q ensures now[p] != now[q] {
      if p in after.jobs && p !in b.jobs {
        assert q in own ==> own[q] in b.seen;
      }
      if q in after.jobs && q !in b.jobs {
        assert p in own ==> own[p] in b.seen;
      }
    }
  }

  lemma BatchKeepsSourced(b: State, after: State, reports: map<Pid, Report>, own: map<Pid, nat>, c: Completion)
    requires Owned(b, own) && Sourced(b, reports, own, c) && Extends(b, after)
    requires c.id !in JobIds(after.jobs)
    ensures Sourced(after, reports, WithJobs(own, after.jobs), c)
  {
    hide IsDenial, IsFailure;
    if p :| Reported(b, reports, own, c, p) {
      assert Reported(after, reports, WithJobs(own, after.jobs), c, p);
    }
  }

  lemma DenialIsSourced(b: State, after: State, reports: map<Pid, Report>, own: map<Pid, nat>, c: Completion)
    requires Owned(b, own) && IsDenial(c) && c.id !in b.seen && c.id !in JobIds(after.jobs)
    ensures Sourced(after, reports, WithJobs(own, after.jobs), c)
  {
  }

  lemma JobsOfSafe(l: Limits, b: State, answered: seq<Completion>)
    requires Safe(l, b, answered)
    ensures Injective(b.jobs)
    ensures forall p :: p in b.jobs ==> p < b.spawned && b.jobs[p].id in JobIds(b.jobs) && b.jobs[p].id in b.seen
  {
    hide Bounded, Ids;
  }

  lemma RequestsKeepSourced(l: Limits, w: World, own: map<Pid, nat>)
    requires Good(l, w) && w.phase.Live? && w.inbox != [] && w.inbox[0].Requests?
    requires Owned(w.broker, own) && AllSourced(w, own, w.answered)
    ensures var after := HandleNext(l, w);
            var now := WithJobs(own, after.broker.jobs);
            Owned(after.broker, now) && AllSourced(after, now, after.answered)
  {
    hide React, Sourced, IsDenial, Accounted, OwnIds, WithJobs, Owned, Bounded, Tracked, Ledger, Distinct;
    var b, f, after := w.broker, w.inbox[0].frame, HandleNext(l, w);
    var r := React(l, b, w.inbox[0]);
    TurnOnRequests(l, b, f, w.answered);
    BatchIsFresh(b, r.state, w.answered, r.replies);
    JobsOfSafe(l, r.state, w.answered + r.replies);
    assert forall k :: 0 <= k < |w.answered| ==> w.answered[k].id in Ids(w.answered);
    hide Ledger, Ids, JobIds, Good;
    BatchKeepsOwned(b, r.state, own);
    forall k | 0 <= k < |after.answered|
      ensures Sourced(after.broker, after.reports, WithJobs(own, after.broker.jobs), after.answered[k])
    {
      if k < |w.answered| {
        BatchKeepsSourced(b, r.state, w.reports, own, w.answered[k]);
      } else {
        DenialIsSourced(b, r.state, w.reports, own, r.replies[k - |w.answered|]);
      }
    }
  }

  lemma TurnOnRequests(l: Limits, b: State, f: Frame, answered: seq<Completion>)
    requires Safe(l, b, answered)
    ensures var r := React(l, b, Requests(f));
            Safe(l, r.state, answered + r.replies) && Extends(b, r.state)
            && AllDenials(r.replies)
  {
    hide Bounded, Ledger, Tracked, DispatchBatch, IsDenial;
    assert answered + [] == answered;
    if f.entries.Some? {
      BatchKeepsSafe(l, b, f.entries.value, answered);
      BatchDenies(l, b, f.entries.value);
    }
  }

  // ---- Exits ----

  /** A turn that starts nothing and ends at most the process of the message. */
  lemma FewerJobsKeepSourced(b: State, after: State, reports: map<Pid, Report>, own: map<Pid, nat>, c: Completion)
    requires Sourced(b, reports, own, c) && after.jobs.Keys <= b.jobs.Keys
    ensures Sourced(after, reports, own, c)
  {
    hide IsDenial, IsFailure;
    if p :| Reported(b, reports, own, c, p) {
      assert Reported(after, reports, own, c, p);
    }
  }

  lemma FewerJobsKeepOwned(b: State, after: State, own: map<Pid, nat>)
    requires Owned(b, own) && after.seen == b.seen && after.spawned == b.spawned
    requires forall p :: p in after.jobs ==> p in b.jobs && after.jobs[p].id == b.jobs[p].id
    ensures Owned(after, own) && WithJobs(own, after.jobs) == own
  {
    assert WithJobs(own, after.jobs) == own;
  }

  /** What a turn on anything but requests does. */
  lemma TurnOnOther(l: Limits, b: State, m: Msg)
    requires !m.Requests?
    ensures var r := React(l, b, m);
            && r.state.seen == b.seen && r.state.spawned == b.spawned
            && (forall p :: p in r.state.jobs ==> p in b.jobs && r.state.jobs[p].id == b.jobs[p].id)
            && (!(m.Down? && m.pid in b.jobs) ==> r.replies == [])
            && (m.Down? ==> m.pid !in r.state.jobs)
  {
    hide EncodeError;
  }

  lemma ReportIsStored(l: Limits, w: World, p: Pid)
    requires Faithful(w) && w.inbox != [] && w.inbox[0] == Down(p) && p in w.broker.jobs
    ensures w.broker.jobs[p].result == if p in w.reports then Some(w.reports[p]) else None
  {
    assert p in w.reports ==> !Queued(w.inbox, p, w.reports[p]);
  }

  lemma FinishReplies(l: Limits, b: State, p: Pid)
    requires Tracked(b) && p in b.jobs
    ensures var r := Finish(l, b, p);
            forall k :: 0 <= k < |r.replies| ==>
              && r.replies[k].id == b.jobs[p].id
              && (if b.jobs[p].result.Some? then b.jobs[p].result.value == Reply(r.replies[k])
                  else IsFailure(r.replies[k]))
  {
    hide EncodeError, IsFailure;
    FailureEncodes(l, b.jobs[p].id);
  }

  lemma FailureEncodes(l: Limits, id: nat)
    ensures var r := EncodeError(l, id, FAILED_CODE, FAILED_MESSAGE);
            r.Reply? ==> r.completion.id == id && IsFailure(r.completion)
  {
    hide EncodeError;
    Encoded(l, id, FAILED_CODE, FAILED_MESSAGE);
  }

  lemma ExitIsFinish(l: Limits, b: State, p: Pid)
    requires p in b.jobs
    ensures React(l, b, Down(p)) == Finish(l, b, p)
  {
    hide Finish;
  }

  /** What the exit of a process is answered with. */
  lemma ExitReplies(l: Limits, w: World, p: Pid)
    requires Good(l, w) && Faithful(w) && w.phase.Live?
    requires w.inbox != [] && w.inbox[0] == Down(p) && p in w.broker.jobs
    ensures var r := React(l, w.broker, w.inbox[0]);
            forall k :: 0 <= k < |r.replies| ==>
              && r.replies[k].id == w.broker.jobs[p].id
              && (if p in w.reports then w.reports[p] == Reply(r.replies[k]) else IsFailure(r.replies[k]))
  {
    hide Faithful, IsFailure, Accounted, OwnIds, Bounded, Distinct, Ids, Ledger, React, Finish, Tracked;
    ReportIsStored(l, w, p);
    FinishReplies(l, w.broker, p);
    ExitIsFinish(l, w.broker, p);
  }

  lemma ExitIsSourced(l: Limits, w: World, own: map<Pid, nat>)
    requires Good(l, w) && Faithful(w) && w.phase.Live? && Owned(w.broker, own)
    requires w.inbox != [] && w.inbox[0].Down? && w.inbox[0].pid in w.broker.jobs
    ensures var r := React(l, w.broker, w.inbox[0]);
            forall k :: 0 <= k < |r.replies| ==> Sourced(r.state, w.reports, own, r.replies[k])
  {
    var p := w.inbox[0].pid;
    ExitReplies(l, w, p);
    TurnOnOther(l, w.broker, w.inbox[0]);
    var r := React(l, w.broker, w.inbox[0]);
    hide Good, Faithful, React, IsDenial, IsFailure;
    forall k | 0 <= k < |r.replies| ensures Sourced(r.state, w.reports, own, r.replies[k]) {
      assert Reported(r.state, w.reports, own, r.replies[k], p);
    }
  }

  lemma OtherKeepsSourced(l: Limits, w: World, own: map<Pid, nat>)
    requires Good(l, w) && Faithful(w) && w.phase.Live? && w.inbox != [] && !w.inbox[0].Requests?
    requires Owned(w.broker, own) && AllSourced(w, own, w.answered)
    ensures var after := HandleNext(l, w);
            && WithJobs(own, after.broker.jobs) == own
            && Owned(after.broker, own) && AllSourced(after, own, after.answered)
  {
    hide React, Sourced, Good, Faithful, Owned, WithJobs;
    var m, after := w.inbox[0], HandleNext(l, w);
    TurnOnOther(l, w.broker, m);
    FewerJobsKeepOwned(w.broker, after.broker, own);
    if m.Down? && m.pid in w.broker.jobs {
      ExitIsSourced(l, w, own);
    }
    forall k | 0 <= k < |after.answered| ensures Sourced(after.broker, after.reports, own, after.answered[k]) {
      if k < |w.answered| {
        FewerJobsKeepSourced(w.broker, after.broker, w.reports, own, w.answered[k]);
      }
    }
  }

  // ---- Events outside the broker ----

  lemma ReportKeepsSourced(b: State, reports: map<Pid, Report>, own: map<Pid, nat>, c: Completion, pid: Pid, r: Report)
    requires Sourced(b, reports, own, c) && pid in b.jobs
    ensures Sourced(b, reports[pid := r], own, c)
  {
    hide IsDenial, IsFailure;
    if p :| Reported(b, reports, own, c, p) {
      assert Reported(b, reports[pid := r], own, c, p);
    }
  }

  lemma OutsideKeepsSourced(l: Limits, w: World, e: Event, own: map<Pid, nat>)
    requires Good(l, w) && Enabled(w, e) && !e.Handle?
    requires Owned(w.broker, own) && AllSourced(w, own, w.answered)
    ensures var after := Next(l, w, e);
            && WithJobs(own, after.broker.jobs) == own
            && Owned(after.broker, own) && AllSourced(after, own, after.answered)
  {
    var after := Next(l, w, e);
    FewerJobsKeepOwned(w.broker, after.broker, own);
    assert w.procs.Keys <= w.broker.jobs.Keys;
    hide Sourced, Owned, WithJobs, Good, Invoke, HandleNext;
    if e.Speak? {
      var r := Invoke(l, w.procs[e.pid].id, e.outcome);
      forall k | 0 <= k < |w.answered| ensures Sourced(w.broker, after.reports, own, w.answered[k]) {
        ReportKeepsSourced(w.broker, w.reports, own, w.answered[k], e.pid, r);
      }
    }
  }

  // ---- Whole runs ----

  lemma NextKeepsKept(l: Limits, w: World, e: Event, own: map<Pid, nat>)
    requires Kept(l, w, own) && Enabled(w, e)
    ensures var after := Next(l, w, e);
            Kept(l, after, WithJobs(own, after.broker.jobs))
  {
    hide Good, Budgeted, Faithful, Owned, AllSourced, Next, Enabled, WithJobs;
    NextKeepsGood(l, w, e);
    NextKeepsBudgeted(l, w, e);
    NextKeepsLiveFaithful(l, w, e);
    NextKeepsSourced(l, w, e, own);
  }

  lemma NextKeepsSourced(l: Limits, w: World, e: Event, own: map<Pid, nat>)
    requires Good(l, w) && (w.phase.Live? ==> Faithful(w)) && Enabled(w, e)
    requires Owned(w.broker, own) && AllSourced(w, own, w.answered)
    ensures var after := Next(l, w, e);
            var now := WithJobs(own, after.broker.jobs);
            Owned(after.broker, now) && AllSourced(after, now, after.answered)
  {
    hide Good, Faithful, Owned, AllSourced, HandleNext, Invoke, WithJobs;
    if !e.Handle? {
      OutsideKeepsSourced(l, w, e, own);
    } else if w.inbox[0].Requests? {
      RequestsKeepSourced(l, w, own);
    } else {
      OtherKeepsSourced(l, w, own);
    }
  }

  lemma {:induction false} RunKeepsKept(l: Limits, w: World, es: seq<Event>, own: map<Pid, nat>)
    requires Kept(l, w, own) && Possible(l, w, es)
    ensures Kept(l, After(l, w, es), Owners(l, w, es, own))
    decreases |es|
  {
    hide Kept, Next, Enabled, WithJobs;
    if es != [] {
      NextKeepsKept(l, w, es[0], own);
      var after := Next(l, w, es[0]);
      RunKeepsKept(l, after, es[1..], WithJobs(own, after.broker.jobs));
    }
  }

  lemma StartKept(l: Limits)
    ensures Kept(l, Start, map[])
  {
    StartGood(l);
    hide Good;
  }

  lemma RunIsKept(l: Limits, es: seq<Event>)
    requires Possible(l, Start, es)
    ensures Kept(l, After(l, Start, es), Owners(l, Start, es, map[]))
  {
    StartKept(l);
    RunKeepsKept(l, Start, es, map[]);
  }

  // ---- What callbacks said ----

  /** The outcome of each callback that has ended in a run. */
  function WithOutcome(told: map<Pid, Outcome>, e: Event): map<Pid, Outcome> {
    if e.Speak? then told[e.pid := e.outcome] else told
  }

  ghost function Outcomes(l: Limits, w: World, es: seq<Event>, told: map<Pid, Outcome>): map<Pid, Outcome>
    requires Possible(l, w, es)
    decreases |es|
  {
    if es == [] then told else Outcomes(l, Next(l, w, es[0]), es[1..], WithOutcome(told, es[0]))
  }

  /** An outcome that is an error with this code and message: one that the callback declares, or the
      broker's own for a result of another form and for an exception. */
  predicate Says(o: Outcome, code: string, message: string) {
    || o == Declared(code, message)
    || (o.Invalid? && code == FAILED_CODE && message == INVALID_MESSAGE)
    || (o.Raised? && code == FAILED_CODE && message == FAILED_MESSAGE)
  }

  predicate ErrorFits(l: Limits, code: string, message: string) {
    Bytes(ErrorText(code, message)) <= l.maxOutput
  }

  /** A report says what the callback said: its value, or its error, as long as they fit. */
  ghost predicate Conveys(l: Limits, id: nat, o: Outcome, r: Report) {
    && (forall text :: r == Reply(Resolved(id, text)) <==> o == Value(text) && Bytes(text) <= l.maxOutput)
    && (forall code, message ::
          r == Reply(Rejected(id, code, message)) <==> Says(o, code, message) && ErrorFits(l, code, message))
    && (r.Fatal? <==> if o.Value? then Bytes(o.text) > l.maxOutput
                      else forall code, message :: Says(o, code, message) ==> !ErrorFits(l, code, message))
    && (r.Reply? ==> r.completion.id == id)
  }

  lemma ErrorConveys(l: Limits, id: nat, code: string, message: string)
    ensures EncodeError(l, id, code, message)
         == if ErrorFits(l, code, message) then Reply(Rejected(id, code, message))
            else Fatal("callback error exceeds max_callback_output")
  {
  }

  /** Exactly what a callback's process reports. */
  lemma InvokeConveys(l: Limits, id: nat, o: Outcome)
    ensures Conveys(l, id, o, Invoke(l, id, o))
  {
    hide Bytes, ErrorText, EncodeError, ErrorFits;
    match o
    case Value(text) =>
    case Declared(code, message) => ErrorConveys(l, id, code, message);
    case Invalid => ErrorConveys(l, id, FAILED_CODE, INVALID_MESSAGE);
    case Raised => ErrorConveys(l, id, FAILED_CODE, FAILED_MESSAGE);
  }

  ghost predicate Recorded(l: Limits, reports: map<Pid, Report>, own: map<Pid, nat>, told: map<Pid, Outcome>) {
    && told.Keys == reports.Keys
    && forall p :: p in told ==> p in own && Conveys(l, own[p], told[p], reports[p])
  }

  lemma ReportRecorded(l: Limits, reports: map<Pid, Report>, own: map<Pid, nat>, told: map<Pid, Outcome>,
                       p: Pid, o: Outcome, r: Report)
    requires Recorded(l, reports, own, told) && p in own && Conveys(l, own[p], o, r)
    ensures Recorded(l, reports[p := r], own, told[p := o])
  {
    hide Conveys;
  }

  lemma MoreOwners(l: Limits, reports: map<Pid, Report>, own: map<Pid, nat>, now: map<Pid, nat>,
                   told: map<Pid, Outcome>)
    requires Recorded(l, reports, own, told) && forall p :: p in own ==> p in now && now[p] == own[p]
    ensures Recorded(l, reports, now, told)
  {
    hide Conveys;
  }

  lemma ProcessIsOwned(l: Limits, w: World, own: map<Pid, nat>, p: Pid)
    requires Good(l, w) && Owned(w.broker, own) && p in w.procs
    ensures p in own && own[p] == w.procs[p].id && WithJobs(own, w.broker.jobs) == own
  {
    FewerJobsKeepOwned(w.broker, w.broker, own);
    hide Bounded, Ledger, Tracked, Downs, WithJobs, Distinct, Ids, NoIdTwice;
  }

  lemma SpeakNext(l: Limits, w: World, e: Event)
    requires Enabled(w, e) && e.Speak?
    ensures var after := Next(l, w, e);
            after.broker == w.broker && after.reports == w.reports[e.pid := Invoke(l, w.procs[e.pid].id, e.outcome)]
  {
    hide Invoke;
  }

  lemma ReportsStay(l: Limits, w: World, e: Event)
    requires Enabled(w, e) && !e.Speak?
    ensures Next(l, w, e).reports == w.reports && (!e.Handle? ==> Next(l, w, e).broker == w.broker)
    ensures e.Handle? ==> Next(l, w, e).broker == React(l, w.broker, w.inbox[0]).state
  {
    hide React, Invoke;
  }

  lemma OwnersGrow(b: State, after: State, own: map<Pid, nat>)
    requires Owned(b, own)
    requires forall p :: p in after.jobs && p in b.jobs ==> after.jobs[p].id == b.jobs[p].id
    requires forall p :: p in after.jobs && p !in b.jobs ==> p >= b.spawned
    ensures var now := WithJobs(own, after.jobs); forall p :: p in own ==> p in now && now[p] == own[p]
  {
    hide NoIdTwice;
  }

  lemma OwnersStay(l: Limits, w: World, e: Event, own: map<Pid, nat>)
    requires Good(l, w) && Owned(w.broker, own) && Enabled(w, e) && !e.Speak?
    ensures var now := WithJobs(own, Next(l, w, e).broker.jobs);
            forall p :: p in own ==> p in now && now[p] == own[p]
  {
    ReportsStay(l, w, e);
    if e.Handle? {
      TurnKeepsIds(l, w);
    }
    hide Good, React, Next, WithJobs, Owned;
    OwnersGrow(w.broker, Next(l, w, e).broker, own);
  }

  lemma TurnKeepsIds(l: Limits, w: World)
    requires Good(l, w) && Enabled(w, Handle)
    ensures JobsAfter(w.broker, w.inbox[0], React(l, w.broker, w.inbox[0]))
  {
    var m := w.inbox[0];
    assert m.Result? && m.pid in w.broker.jobs ==> ReportFor(w.broker.jobs[m.pid].id, m.report);
    hide React, Bounded, Ledger, Tracked, Accounted, JobsAfter;
    ReactJobs(l, w.broker, m, w.answered);
  }

  lemma NextKeepsRecorded(l: Limits, w: World, e: Event, own: map<Pid, nat>, told: map<Pid, Outcome>)
    requires Good(l, w) && Owned(w.broker, own) && Recorded(l, w.reports, own, told) && Enabled(w, e)
    ensures var after := Next(l, w, e);
            Recorded(l, after.reports, WithJobs(own, after.broker.jobs), WithOutcome(told, e))
  {
    hide Good, Owned, Recorded, Next, WithJobs, React, Invoke;
    if e.Speak? {
      ProcessIsOwned(l, w, own, e.pid);
      SpeakNext(l, w, e);
      var report := Invoke(l, own[e.pid], e.outcome);
      InvokeConveys(l, own[e.pid], e.outcome);
      hide Conveys;
      ReportRecorded(l, w.reports, own, told, e.pid, e.outcome, report);
    } else {
      ReportsStay(l, w, e);
      OwnersStay(l, w, e, own);
      MoreOwners(l, w.reports, own, WithJobs(own, Next(l, w, e).broker.jobs), told);
    }
  }

  lemma {:induction false} RunKeepsRecorded(l: Limits, w: World, es: seq<Event>, own: map<Pid, nat>,
                                            told: map<Pid, Outcome>)
    requires Kept(l, w, own) && Recorded(l, w.reports, own, told) && Possible(l, w, es)
    ensures Recorded(l, After(l, w, es).reports, Owners(l, w, es, own), Outcomes(l, w, es, told))
    decreases |es|
  {
    hide Good, Budgeted, Faithful, Owned, AllSourced, Recorded, Next, Enabled, WithJobs, WithOutcome;
    if es != [] {
      NextKeepsKept(l, w, es[0], own);
      hide Kept;
      NextKeepsRecorded(l, w, es[0], own, told);
      var after := Next(l, w, es[0]);
      RunKeepsRecorded(l, after, es[1..], WithJobs(own, after.broker.jobs), WithOutcome(told, es[0]));
    }
  }

  /** The process was started for the answer's id and is gone, and the answer is what its callback said,
      or the generic failure of a callback that never ended. */
  ghost predicate Said(l: Limits, b: State, own: map<Pid, nat>, told: map<Pid, Outcome>, c: Completion, p: Pid) {
    && p in own && own[p] == c.id && p !in b.jobs
    && if p in told then Conveys(l, c.id, told[p], Reply(c)) else IsFailure(c)
  }

  ghost predicate Origin(l: Limits, b: State, own: map<Pid, nat>, told: map<Pid, Outcome>, c: Completion) {
    || (IsDenial(c) && forall p :: p in own ==> own[p] != c.id)
    || exists p :: Said(l, b, own, told, c, p)
  }

  lemma SourcedHasOrigin(l: Limits, w: World, own: map<Pid, nat>, told: map<Pid, Outcome>, c: Completion)
    requires Recorded(l, w.reports, own, told) && Sourced(w.broker, w.reports, own, c)
    ensures Origin(l, w.broker, own, told, c)
  {
    hide IsDenial, IsFailure, Conveys;
    if p :| Reported(w.broker, w.reports, own, c, p) {
      assert Said(l, w.broker, own, told, c, p);
    }
  }

  /** A process that is gone while the broker lives has been answered. */
  lemma GoneIsAnswered(l: Limits, w: World, own: map<Pid, nat>, told: map<Pid, Outcome>, p: Pid) returns (k: nat)
    requires Kept(l, w, own) && w.phase.Live? && p in own && p !in w.broker.jobs
    requires forall j :: 0 <= j < |w.answered| ==> Origin(l, w.broker, own, told, w.answered[j])
    ensures k < |w.answered| && Said(l, w.broker, own, told, w.answered[k], p)
  {
    hide Budgeted, Faithful, AllSourced, Accounted, OwnIds, Bounded, Conveys, IsDenial, IsFailure;
    assert own[p] !in JobIds(w.broker.jobs);
    assert own[p] in Ids(w.answered);
    k :| 0 <= k < |w.answered| && w.answered[k].id == own[p];
    assert Origin(l, w.broker, own, told, w.answered[k]);
  }

  /** In every run, for arbitrary frames: no two processes are started for the same id, and each answer
      that the broker has sent is within the output budget and is the denial of an id that no process
      was started for, or what the callback of its id said, or the generic failure of a callback that
      never ended. And while the broker lives, every process that is gone has been answered so. */
  lemma AnswersAreSourced(l: Limits, es: seq<Event>)
    requires Possible(l, Start, es)
    ensures var w, own := After(l, Start, es), Owners(l, Start, es, map[]);
            var told := Outcomes(l, Start, es, map[]);
            && NoIdTwice(own) && AllWithin(l, w.answered)
            && (forall k :: 0 <= k < |w.answered| ==> Origin(l, w.broker, own, told, w.answered[k]))
            && (w.phase.Live? ==> forall p :: p in own && p !in w.broker.jobs ==>
                 exists k :: 0 <= k < |w.answered| && Said(l, w.broker, own, told, w.answered[k], p))
  {
    RunIsKept(l, es);
    StartKept(l);
    RunKeepsRecorded(l, Start, es, map[], map[]);
    hide Possible, After, Owners, Outcomes, Good, Faithful, AllWithin, NoIdTwice, Recorded, Origin, Sourced, Said;
    var w, own := After(l, Start, es), Owners(l, Start, es, map[]);
    var told := Outcomes(l, Start, es, map[]);
    forall k | 0 <= k < |w.answered| ensures Origin(l, w.broker, own, told, w.answered[k]) {
      SourcedHasOrigin(l, w, own, told, w.answered[k]);
    }
    if w.phase.Live? {
      forall p | p in own && p !in w.broker.jobs
        ensures exists k :: 0 <= k < |w.answered| && Said(l, w.broker, own, told, w.answered[k], p)
      {
        var k := GoneIsAnswered(l, w, own, told, p);
      }
    }
  }

  /** A callback whose value or error does not fit ends the run when its process exits; any other is
      answered with what it said. */
  lemma ExitAnswersOutcome(l: Limits, es: seq<Event>, p: Pid)
    requires Possible(l, Start, es)
    requires var w := After(l, Start, es);
             w.phase.Live? && w.inbox != [] && w.inbox[0] == Down(p) && p in w.broker.jobs
    ensures var w, told := After(l, Start, es), Outcomes(l, Start, es, map[]);
            var r := React(l, w.broker, w.inbox[0]);
            p in told ==> exists report ::
              && Conveys(l, w.broker.jobs[p].id, told[p], report)
              && (match report
                  case Reply(c) => r.replies == [c] && r.ending.None?
                  case Fatal(message) => r.replies == [] && r.ending == Some(Failure(CallbackLimit, message)))
  {
    RunIsKept(l, es);
    StartKept(l);
    RunKeepsRecorded(l, Start, es, map[], map[]);
    var w, own := After(l, Start, es), Owners(l, Start, es, map[]);
    hide Possible, After, Owners, Outcomes, Good, Faithful, Budgeted, AllSourced, React, Conveys, NoIdTwice;
    ExitAnswersReport(l, w, p);
  }
}
