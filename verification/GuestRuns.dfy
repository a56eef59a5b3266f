/** What calls, jobs and advances do, exactly: when a guest passes a quota, what a call returns, and
    what the driver reports. */
module GuestRuns {
  import opened Text
  import opened Wrappers
  import opened Wire
  import opened Bridge

  // ---- Quotas ----

  /** The guest has no call left, or too many calls are pending. */
  predicate OverCalls(l: Limits, g: Guest) {
    g.count + 1 > l.maxCalls || |g.pending| >= l.maxConcurrency
  }

  predicate OverInput(l: Limits, c: Call) {
    GoodName(c.name) && c.argument.Json? && Bytes(c.argument.text) > l.maxInput
  }

  predicate Breaks(l: Limits, g: Guest, c: Call) {
    OverCalls(l, g) || OverInput(l, c)
  }

  /** Exactly what an atomic call does to the guest and returns to it. */
  lemma AtomicCallExactly(l: Limits, g: Guest, c: Call)
    requires Atomic(c)
    ensures var (after, r) := CallEffect(l, g, c);
            var accepted := !Breaks(l, g, c) && GoodName(c.name) && c.argument.Json?;
            && (after.fatal <==> g.fatal || Breaks(l, g, c))
            && (accepted ==> after == RegisterRequest(g, Request(g.count + 1, c.name.text, c.argument.text)))
            && (!accepted ==> after == g.(count := g.count + 1, fatal := after.fatal))
            && (r == Thrown <==> OverCalls(l, g))
            && (forall id :: r == Outstanding(id) <==> accepted && id == g.count + 1)
            && (r == RejectedPromise <==> !OverCalls(l, g) && !accepted)
  {
    hide Bytes;
    var entered := g.(count := g.count + 1);
    assert CallsEffect(l, entered, c.nested) == entered;
  }

  /** A call as it is made: the guest that makes it is the one that its check sees. */
  datatype Moment = Moment(guest: Guest, call: Call)

  /** The calls of a call, with those that its hooks make. */
  ghost function CallTrace(l: Limits, g: Guest, c: Call): seq<Moment>
    decreases c, 1
  {
    [Moment(g, c)]
    + if OverCalls(l, g) || !GoodName(c.name) then [] else CallsTrace(l, g.(count := g.count + 1), c.nested)
  }

  ghost function CallsTrace(l: Limits, g: Guest, cs: seq<Call>): seq<Moment>
    decreases cs, 0
  {
    if cs == [] then [] else CallTrace(l, g, cs[0]) + CallsTrace(l, CallEffect(l, g, cs[0]).0, cs[1..])
  }

  ghost predicate AnyBreaks(l: Limits, ms: seq<Moment>) {
    exists k :: 0 <= k < |ms| && Breaks(l, ms[k].guest, ms[k].call)
  }

  lemma AnyBreaksConcat(l: Limits, a: seq<Moment>, b: seq<Moment>)
    ensures AnyBreaks(l, a + b) <==> AnyBreaks(l, a) || AnyBreaks(l, b)
  {
    hide Breaks;
    var all := a + b;
    if k :| 0 <= k < |a| && Breaks(l, a[k].guest, a[k].call) {
      assert all[k] == a[k];
    }
    if k :| 0 <= k < |b| && Breaks(l, b[k].guest, b[k].call) {
      assert all[|a| + k] == b[k];
    }
  }

  lemma OneBreaks(l: Limits, m: Moment)
    ensures AnyBreaks(l, [m]) <==> Breaks(l, m.guest, m.call)
  {
    hide Breaks;
    assert [m][0] == m;
  }

  /** Reentrant or not, a call makes the guest fatal exactly if it, or a call of one of its hooks that
      is made, passes a quota. */
  lemma {:induction false} CallFatalExactly(l: Limits, g: Guest, c: Call)
    ensures CallEffect(l, g, c).0.fatal <==> g.fatal || AnyBreaks(l, CallTrace(l, g, c))
    decreases c, 1
  {
    hide Bytes, AnyBreaks;
    var entered := g.(count := g.count + 1);
    OneBreaks(l, Moment(g, c));
    if OverCalls(l, g) || !GoodName(c.name) {
      assert [Moment(g, c)] + [] == [Moment(g, c)];
    } else {
      CallsFatalExactly(l, entered, c.nested);
      AnyBreaksConcat(l, [Moment(g, c)], CallsTrace(l, entered, c.nested));
    }
  }

  lemma {:induction false} CallsFatalExactly(l: Limits, g: Guest, cs: seq<Call>)
    ensures CallsEffect(l, g, cs).fatal <==> g.fatal || AnyBreaks(l, CallsTrace(l, g, cs))
    decreases cs, 0
  {
    hide CallEffect, CallTrace, Breaks;
    if cs != [] {
      var after := CallEffect(l, g, cs[0]).0;
      CallFatalExactly(l, g, cs[0]);
      CallsFatalExactly(l, after, cs[1..]);
      AnyBreaksConcat(l, CallTrace(l, g, cs[0]), CallsTrace(l, after, cs[1..]));
    }
  }

  // ---- Jobs ----

  function CallsOf(jobs: seq<Job>): seq<Call> {
    if jobs == [] then [] else jobs[0].calls + CallsOf(jobs[1..])
  }

  lemma {:induction false} CallsEffectConcat(l: Limits, g: Guest, a: seq<Call>, b: seq<Call>)
    ensures CallsEffect(l, g, a + b) == CallsEffect(l, CallsEffect(l, g, a), b)
    decreases |a|
  {
    hide CallEffect;
    if a == [] {
      assert a + b == b;
    } else {
      assert (a + b)[0] == a[0] && (a + b)[1..] == a[1..] + b;
      CallsEffectConcat(l, CallEffect(l, g, a[0]).0, a[1..], b);
    }
  }

  /** The first `n` jobs have run, all their calls in order; only the last has settled the root. */
  ghost predicate Ran(l: Limits, i: Instance, n: nat, ran: Instance)
    requires i.root.Some?
  {
    && n <= |i.jobs| && ran.jobs == i.jobs[n..]
    && ran.guest == CallsEffect(l, i.guest, CallsOf(i.jobs[..n]))
    && ran.root == (if n == 0 then i.root else Some(i.jobs[n - 1].root))
    && (n > 0 ==> i.root == Some(Unsettled))
    && (forall k :: 0 <= k < n - 1 ==> i.jobs[k].root == Unsettled)
  }

  /** Jobs run in order until one settles the root or none is left, and not one more. */
  lemma {:induction false} JobsRunExactly(l: Limits, i: Instance) returns (n: nat)
    requires i.root.Some?
    ensures Ran(l, i, n, RunJobs(l, i))
    ensures var ran := RunJobs(l, i); ran.root != Some(Unsettled) || ran.jobs == []
    decreases |i.jobs|
  {
    hide CallsEffect, CallsOf;
    if i.root.value != Unsettled || i.jobs == [] {
      n := 0;
      NoCalls(l, i.guest);
      assert i.jobs[..0] == [] && i.jobs[0..] == i.jobs;
      assert Ran(l, i, n, i);
    } else {
      var job, rest := i.jobs[0], i.jobs[1..];
      hide Ran;
      var mid := Instance(CallsEffect(l, i.guest, job.calls), Some(job.root), rest);
      var m := JobsRunExactly(l, mid);
      n := m + 1;
      RanCons(l, i, m, RunJobs(l, mid));
    }
  }

  lemma RanCons(l: Limits, i: Instance, m: nat, ran: Instance)
    requires i.root == Some(Unsettled) && i.jobs != []
    requires var mid := Instance(CallsEffect(l, i.guest, i.jobs[0].calls), Some(i.jobs[0].root), i.jobs[1..]);
             Ran(l, mid, m, ran)
    ensures Ran(l, i, m + 1, ran)
  {
    hide CallsEffect;
    var rest := i.jobs[1..];
    assert i.jobs[..m + 1][1..] == rest[..m] && rest[m..] == i.jobs[m + 1..];
    CallsEffectConcat(l, i.guest, i.jobs[0].calls, CallsOf(rest[..m]));
    assert forall k :: 0 < k < m ==> i.jobs[k] == rest[k - 1];
  }

  lemma NoCalls(l: Limits, g: Guest)
    ensures CallsOf([]) == [] && CallsEffect(l, g, []) == g
  {
  }

  ghost function JobsTrace(l: Limits, i: Instance): seq<Moment>
    requires i.root.Some?
    decreases |i.jobs|
  {
    if i.root.value != Unsettled || i.jobs == [] then []
    else
      var job := i.jobs[0];
      CallsTrace(l, i.guest, job.calls)
      + JobsTrace(l, Instance(CallsEffect(l, i.guest, job.calls), Some(job.root), i.jobs[1..]))
  }

  lemma {:induction false} JobsFatalExactly(l: Limits, i: Instance)
    requires i.root.Some?
    ensures RunJobs(l, i).guest.fatal <==> i.guest.fatal || AnyBreaks(l, JobsTrace(l, i))
    decreases |i.jobs|
  {
    hide CallsEffect, CallsTrace, Breaks;
    if i.root.value == Unsettled && i.jobs != [] {
      var job := i.jobs[0];
      var mid := Instance(CallsEffect(l, i.guest, job.calls), Some(job.root), i.jobs[1..]);
      CallsFatalExactly(l, i.guest, job.calls);
      JobsFatalExactly(l, mid);
      AnyBreaksConcat(l, CallsTrace(l, i.guest, job.calls), JobsTrace(l, mid));
    }
  }

  // ---- Completions ----

  function IdSet(values: seq<Completion>): set<nat> {
    set k | 0 <= k < |values| :: values[k].id
  }

  ghost predicate Expected(g: Guest, values: seq<Completion>) {
    && (forall k :: 0 <= k < |values| ==> values[k].id in g.pending)
    && (forall j, k :: 0 <= j < k < |values| ==> values[j].id != values[k].id)
  }

  /** Completions are delivered exactly if each is of its own pending call; then exactly those calls are
      settled, in order. */
  lemma {:induction false} DeliverExactly(g: Guest, values: seq<Completion>)
    ensures Deliver(g, values).Delivered? <==> Expected(g, values)
    ensures Expected(g, values) ==>
              Deliver(g, values).guest == g.(pending := g.pending - IdSet(values), settled := g.settled + values)
    decreases |values|
  {
    if values == [] {
      assert g.pending - IdSet(values) == g.pending && g.settled + values == g.settled;
    } else if values[0].id in g.pending {
      var head, rest := values[0], values[1..];
      var after := g.(pending := g.pending - {head.id}, settled := g.settled + [head]);
      DeliverExactly(after, rest);
      ExpectedRest(g, values, after);
      assert g.settled + [head] + rest == g.settled + values;
      assert IdSet(values) == {head.id} + IdSet(rest) by {
        assert forall k :: 0 < k < |values| ==> values[k] == rest[k - 1];
        assert forall k :: 0 <= k < |rest| ==> rest[k] == values[k + 1];
      }
      assert g.pending - {head.id} - IdSet(rest) == g.pending - IdSet(values);
    }
  }

  lemma ExpectedRest(g: Guest, values: seq<Completion>, after: Guest)
    requires values != [] && values[0].id in g.pending && after.pending == g.pending - {values[0].id}
    ensures Expected(g, values) <==> Expected(after, values[1..])
  {
    var rest := values[1..];
    assert forall k :: 0 < k < |values| ==> values[k] == rest[k - 1];
    assert forall k :: 0 <= k < |rest| ==> rest[k] == values[k + 1];
  }

  // ---- Advances ----

  /** The instance after delivery and jobs. */
  function Stepped(l: Limits, i: Instance, values: seq<Completion>): Instance
    requires i.root.Some?
  {
    RunJobs(l, i.(guest := Deliver(i.guest, values).guest))
  }

  predicate FrameFits(l: Limits, usizeMax: nat, g: Guest) {
    Bytes(StateText(false, g.fatal, g.requests)) <= NativeRequestLimit(l, usizeMax)
  }

  /** Exactly what an advance reports that delivers its completions and meets no fault. */
  lemma AdvanceExactly(l: Limits, usizeMax: nat, maxDiagnostic: nat, i: Instance, values: seq<Completion>, size: nat)
    requires MAX_TRANSPORT <= usizeMax && size <= CompletionLimit(l, usizeMax)
    requires i.root.Some? && Expected(i.guest, values)
    ensures var ran := Stepped(l, i, values);
            var (after, p) := AdvanceEffect(l, usizeMax, maxDiagnostic, i, values, size, false, None);
            var fatal, root, fits := ran.guest.fatal, ran.root.value, FrameFits(l, usizeMax, ran.guest);
            && after == ran.(guest := ran.guest.(requests := []))
            && (p == Done <==> !fatal && root == Fulfilled)
            && (forall rs :: p == Pending(rs) <==> !fatal && root == Unsettled && fits && rs == ran.guest.requests)
            && (p == Failed(JsError) <==> !fatal && root.RejectedWith? && Bytes(root.message) <= maxDiagnostic)
            && (p == Failed(DiagnosticLimit) <==> !fatal && root.RejectedWith? && Bytes(root.message) > maxDiagnostic)
            && (p == Failed(CallbackLimit) <==> fatal && (root != Unsettled || fits))
            && (p == Failed(Trap) <==> root == Unsettled && !fits)
  {
    DeliverExactly(i.guest, values);
    RequestLimitsAgree(l, usizeMax);
    SmallStateFits(true, true);
    SmallStateFits(true, false);
    StateFits(true, true, [], l);
    StateFits(true, false, [], l);
    hide Deliver, RunJobs, Bytes, StateText, NativeRequestLimit, CompletionLimit, Expected;
  }

  /** A fault is what the advance reports, whatever the guest did; a completion of no pending call is
      reported as the guest's error; a run that is stopped is not stepped. */
  lemma AdvanceFails(l: Limits, usizeMax: nat, maxDiagnostic: nat, i: Instance,
                     values: seq<Completion>, size: nat, stopped: bool, fault: Option<Kind>)
    ensures var (after, p) := AdvanceEffect(l, usizeMax, maxDiagnostic, i, values, size, stopped, fault);
            && (fault.Some? ==> p == Failed(fault.value))
            && (stopped || size > CompletionLimit(l, usizeMax) ==> after == i && p.Failed?)
            && (!Expected(i.guest, values) ==> p.Failed?)
  {
    DeliverExactly(i.guest, values);
    hide Deliver, RunJobs, Bytes, StateText, NativeRequestLimit, CompletionLimit, Expected;
  }

  /** The calls that an advance makes. */
  ghost function AdvanceTrace(l: Limits, usizeMax: nat, i: Instance, input: Input): seq<Moment> {
    if input.stopped || input.size > CompletionLimit(l, usizeMax) then []
    else if i.root.None? || !Expected(i.guest, input.values) then []
    else JobsTrace(l, i.(guest := Deliver(i.guest, input.values).guest))
  }

  function Advanced(l: Limits, usizeMax: nat, maxDiagnostic: nat, i: Instance, input: Input): (Instance, Progress) {
    AdvanceEffect(l, usizeMax, maxDiagnostic, Resume(i, input), input.values, input.size, input.stopped, input.fault)
  }

  lemma AdvanceFatalExactly(l: Limits, usizeMax: nat, maxDiagnostic: nat, i: Instance, input: Input)
    ensures Advanced(l, usizeMax, maxDiagnostic, i, input).0.guest.fatal
            <==> i.guest.fatal || AnyBreaks(l, AdvanceTrace(l, usizeMax, Resume(i, input), input))
    ensures Plausible(i) ==> Plausible(Advanced(l, usizeMax, maxDiagnostic, i, input).0)
  {
    var resumed := Resume(i, input);
    DeliverExactly(i.guest, input.values);
    DeliverKeepsFatal(i.guest, input.values);
    var delivered := resumed.(guest := Deliver(i.guest, input.values).guest);
    if delivered.root.Some? {
      JobsFatalExactly(l, delivered);
    }
    hide Deliver, RunJobs, JobsTrace, Breaks, Bytes, StateText, NativeRequestLimit, CompletionLimit, Expected;
  }

  /** The instance after a series of advances. */
  function AfterAll(l: Limits, usizeMax: nat, maxDiagnostic: nat, i: Instance, inputs: seq<Input>): Instance
    decreases |inputs|
  {
    if inputs == [] then i
    else AfterAll(l, usizeMax, maxDiagnostic, Advanced(l, usizeMax, maxDiagnostic, i, inputs[0]).0, inputs[1..])
  }

  /** A guest that passes a quota, in any call of any job, ends its run: that advance and every later one
      fail, whatever the guest does with the error, however its root settles and whatever is fed to it. */
  lemma {:induction false} QuotaEndsSeries(l: Limits, usizeMax: nat, maxDiagnostic: nat, i: Instance,
                                           inputs: seq<Input>, k: nat)
    requires Plausible(i) && k < |inputs|
    requires var before := AfterAll(l, usizeMax, maxDiagnostic, i, inputs[..k]);
             AnyBreaks(l, AdvanceTrace(l, usizeMax, Resume(before, inputs[k]), inputs[k]))
    ensures var all := Advances(l, usizeMax, maxDiagnostic, i, inputs);
            |all| == |inputs| && forall j :: k <= j < |all| ==> all[j].Failed?
    decreases |inputs|
  {
    AdvanceFatalExactly(l, usizeMax, maxDiagnostic, i, inputs[0]);
    var after := Advanced(l, usizeMax, maxDiagnostic, i, inputs[0]).0;
    if k == 0 {
      assert inputs[..0] == [];
      FatalAdvanceFails(l, usizeMax, maxDiagnostic, Resume(i, inputs[0]), inputs[0].values,
                        inputs[0].size, inputs[0].stopped, inputs[0].fault);
      hide AdvanceEffect, AdvanceTrace, AnyBreaks;
      FatalIsSticky(l, usizeMax, maxDiagnostic, after, inputs[1..]);
    } else {
      hide AdvanceEffect, AdvanceTrace, AnyBreaks;
      assert inputs[..k][1..] == inputs[1..][..k - 1] && inputs[1..][k - 1] == inputs[k];
      QuotaEndsSeries(l, usizeMax, maxDiagnostic, after, inputs[1..], k - 1);
    }
  }
}
