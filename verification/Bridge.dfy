/** The guest side of the protocol: the `Javex.Host.call` bridge, the provider step that drives it,
    and the execution driver's reading of a step's record. */
module Bridge {
  import opened Text
  import opened Wrappers
  import opened Wire

  /** What a guest passes as a callback name. */
  datatype Name = NotAString | Str(text: string)

  /** What `JSON.stringify` makes of a callback argument. */
  datatype Stringified = Undefined | Throws | Json(text: string)

  /** A guest call. `nested` are the calls that `toJSON` hooks make while the argument is
      stringified; a call without any is atomic. */
  datatype Call = Call(name: Name, nested: seq<Call>, argument: Stringified)

  datatype Returned = Thrown | RejectedPromise | Outstanding(id: nat)

  /** The bridge's closure variables. `pending` holds the keys of its map; `settled` lists the
      resolve and reject functions it has invoked, in order. */
  datatype Guest = Guest(
    count: nat,
    pending: set<nat>,
    requests: seq<Request>,
    fatal: bool,
    settled: seq<Completion>)

  const Fresh := Guest(0, {}, [], false, [])

  predicate GoodName(name: Name) {
    name.Str? && name.text != "" && Bytes(name.text) <= MAX_NAME
  }

  // ---- The specification of a call ----

  function CallEffect(l: Limits, g: Guest, c: Call): (Guest, Returned)
    decreases c, 1
  {
    var id := g.count + 1;
    var entered := g.(count := id);
    if id > l.maxCalls || |g.pending| >= l.maxConcurrency then (entered.(fatal := true), Thrown)
    else if !GoodName(c.name) then (entered, RejectedPromise)
    else Register(l, CallsEffect(l, entered, c.nested), id, c)
  }

  /** What `call` does once its argument is stringified. */
  function Register(l: Limits, g: Guest, id: nat, c: Call): (Guest, Returned)
    requires GoodName(c.name)
  {
    match c.argument
    case Undefined => (g, RejectedPromise)
    case Throws => (g, RejectedPromise)
    case Json(text) =>
      if Bytes(text) > l.maxInput then (g.(fatal := true), RejectedPromise)
      else
        (g.(pending := g.pending + {id}, requests := g.requests + [Request(id, c.name.text, text)]),
         Outstanding(id))
  }

  function CallsEffect(l: Limits, g: Guest, cs: seq<Call>): Guest
    decreases cs, 0
  {
    if cs == [] then g else CallsEffect(l, CallEffect(l, g, cs[0]).0, cs[1..])
  }

  lemma {:induction false} CallsEffectAppend(l: Limits, g: Guest, cs: seq<Call>, c: Call)
    ensures CallsEffect(l, g, cs + [c]) == CallEffect(l, CallsEffect(l, g, cs), c).0
    decreases |cs|
  {
    if cs == [] {
      assert (cs + [c])[0] == c && (cs + [c])[1..] == [];
      var after := CallEffect(l, g, c).0;
      assert CallsEffect(l, after, []) == after;
    } else {
      assert (cs + [c])[0] == cs[0] && (cs + [c])[1..] == cs[1..] + [c];
      CallsEffectAppend(l, CallEffect(l, g, cs[0]).0, cs[1..], c);
    }
  }

  // ---- The specification of delivering completions ----

  datatype Delivery = Delivered(guest: Guest) | UnknownCompletion(guest: Guest)

  function Deliver(g: Guest, values: seq<Completion>): Delivery
    decreases |values|
  {
    if values == [] then Delivered(g)
    else if values[0].id !in g.pending then UnknownCompletion(g)
    else Deliver(g.(pending := g.pending - {values[0].id}, settled := g.settled + [values[0]]), values[1..])
  }

  // ---- The specification of a provider step ----

  datatype Root = Unsettled | Fulfilled | RejectedWith(message: string)

  /** One runnable job of the engine: the calls it makes and what it makes of the root promise. */
  datatype Job = Job(calls: seq<Call>, root: Root)

  datatype Record = State(done: bool, fatal: bool, requests: seq<Request>) | Diagnostic(message: string)

  datatype Instance = Instance(guest: Guest, root: Option<Root>, jobs: seq<Job>)

  function RunJobs(l: Limits, i: Instance): Instance
    requires i.root.Some?
    ensures RunJobs(l, i).root.Some?
    decreases |i.jobs|
  {
    if i.root.value != Unsettled || i.jobs == [] then i
    else RunJobs(l, Instance(CallsEffect(l, i.guest, i.jobs[0].calls), Some(i.jobs[0].root), i.jobs[1..]))
  }

  function Report(i: Instance): (Instance, Record)
    requires i.root.Some?
  {
    var done := i.root.value != Unsettled;
    var reported := i.(guest := i.guest.(requests := []));
    if !i.guest.fatal && i.root.value.RejectedWith? then (reported, Diagnostic(i.root.value.message))
    else (reported, State(done, i.guest.fatal, if done then [] else i.guest.requests))
  }

  function StepEffect(l: Limits, i: Instance, values: seq<Completion>): (Instance, Record) {
    match Deliver(i.guest, values)
    case UnknownCompletion(g) => (i.(guest := g), Diagnostic("Unknown callback completion"))
    case Delivered(g) =>
      if i.root.None? then (i.(guest := g), State(true, false, []))
      else Report(RunJobs(l, i.(guest := g)))
  }

  // ---- The specification of an advance ----

  datatype Progress = Done | Pending(requests: seq<Request>) | Failed(kind: Kind)

  /** What the driver makes of a record. */
  function Judge(l: Limits, usizeMax: nat, maxDiagnostic: nat, r: Record): Progress {
    match r
    case Diagnostic(message) => Failed(if Bytes(message) > maxDiagnostic then DiagnosticLimit else JsError)
    case State(done, fatal, requests) =>
      if Bytes(StateText(done, fatal, requests)) > NativeRequestLimit(l, usizeMax) then Failed(Trap)
      else if fatal then Failed(CallbackLimit)
      else if done then Done
      else Pending(requests)
  }

  /** One driver input: the completions delivered, the size of their text, the sandbox's verdict
      and the jobs that became runnable. `stopped` says that the run had been cancelled, or was past its
      deadline, before the step; `fault` is what the sandbox finds on the way out: cancellation, the
      deadline, an exceeded quota or a trap. It takes precedence over the record. */
  datatype Input = Input(values: seq<Completion>, size: nat, stopped: bool, fault: Option<Kind>, jobs: seq<Job>)

  function AdvanceEffect(l: Limits, usizeMax: nat, maxDiagnostic: nat, i: Instance,
                         values: seq<Completion>, size: nat, stopped: bool, fault: Option<Kind>): (Instance, Progress)
  {
    if stopped || size > CompletionLimit(l, usizeMax) then
      (i, Failed(if fault.Some? then fault.value else Trap))
    else
      var (stepped, record) := StepEffect(l, i, values);
      (stepped, if fault.Some? then Failed(fault.value) else Judge(l, usizeMax, maxDiagnostic, record))
  }

  // ---- Fatal quotas are sticky ----

  lemma {:induction false} CallKeepsFatal(l: Limits, g: Guest, c: Call)
    requires g.fatal
    ensures CallEffect(l, g, c).0.fatal
    decreases c, 1
  {
    var entered := g.(count := g.count + 1);
    CallsKeepFatal(l, entered, c.nested);
  }

  lemma {:induction false} CallsKeepFatal(l: Limits, g: Guest, cs: seq<Call>)
    requires g.fatal
    ensures CallsEffect(l, g, cs).fatal
    decreases cs, 0
  {
    if cs != [] {
      CallKeepsFatal(l, g, cs[0]);
      CallsKeepFatal(l, CallEffect(l, g, cs[0]).0, cs[1..]);
    }
  }

  lemma {:induction false} DeliverKeepsFatal(g: Guest, values: seq<Completion>)
    ensures Deliver(g, values).guest.fatal == g.fatal
    ensures Deliver(g, values).guest.requests == g.requests
    decreases |values|
  {
    if values != [] && values[0].id in g.pending {
      DeliverKeepsFatal(g.(pending := g.pending - {values[0].id}, settled := g.settled + [values[0]]), values[1..]);
    }
  }

  lemma {:induction false} JobsKeepFatal(l: Limits, i: Instance)
    requires i.guest.fatal && i.root.Some?
    ensures RunJobs(l, i).guest.fatal
    decreases |i.jobs|
  {
    if i.root.value == Unsettled && i.jobs != [] {
      CallsKeepFatal(l, i.guest, i.jobs[0].calls);
      JobsKeepFatal(l, Instance(CallsEffect(l, i.guest, i.jobs[0].calls), Some(i.jobs[0].root), i.jobs[1..]));
    }
  }

  /** No guest code runs before the root promise exists. */
  ghost predicate Plausible(i: Instance) {
    i.root.None? ==> !i.guest.fatal
  }

  /** One advance of a guest that has hit a terminal quota: whatever completions arrive, whatever
      the guest's jobs do and however the root settles, it fails, and stays fatal. */
  lemma FatalAdvanceFails(l: Limits, usizeMax: nat, maxDiagnostic: nat, i: Instance,
                          values: seq<Completion>, size: nat, stopped: bool, fault: Option<Kind>)
    requires Plausible(i)
    requires i.guest.fatal || AdvanceEffect(l, usizeMax, maxDiagnostic, i, values, size, stopped, fault).0.guest.fatal
    ensures var (after, progress) := AdvanceEffect(l, usizeMax, maxDiagnostic, i, values, size, stopped, fault);
            && progress.Failed? && after.guest.fatal && Plausible(after)
  {
    DeliverKeepsFatal(i.guest, values);
    var delivered := i.(guest := Deliver(i.guest, values).guest);
    if i.guest.fatal {
      JobsKeepFatal(l, delivered);
    }
  }

  /** A settled root never masks a terminal quota: if delivering and running jobs leaves the guest
      fatal and the root settled, fulfilled or rejected, the advance reports the quota. */
  lemma SettledRootReportsQuota(l: Limits, usizeMax: nat, maxDiagnostic: nat, i: Instance,
                                values: seq<Completion>, size: nat)
    requires MAX_TRANSPORT <= usizeMax && size <= CompletionLimit(l, usizeMax)
    requires Deliver(i.guest, values).Delivered? && i.root.Some?
    requires var ran := RunJobs(l, i.(guest := Deliver(i.guest, values).guest));
             ran.guest.fatal && ran.root.value != Unsettled
    ensures AdvanceEffect(l, usizeMax, maxDiagnostic, i, values, size, false, None).1 == Failed(CallbackLimit)
  {
    StateFits(true, true, [], l);
    RequestLimitsAgree(l, usizeMax);
    SmallStateFits(true, true);
  }

  lemma SmallStateFits(done: bool, fatal: bool)
    ensures Bytes(StateText(done, fatal, [])) <= MAX_TRANSPORT
  {
    StateFits(done, fatal, [], Limits(0, 0, 0, 0, {}));
  }

  function Resume(i: Instance, input: Input): Instance {
    i.(jobs := i.jobs + input.jobs)
  }

  /** The progress that each of a series of advances reports. */
  function Advances(l: Limits, usizeMax: nat, maxDiagnostic: nat, i: Instance, inputs: seq<Input>): seq<Progress>
    decreases |inputs|
  {
    if inputs == [] then []
    else
      var (after, progress) := AdvanceEffect(l, usizeMax, maxDiagnostic, Resume(i, inputs[0]), inputs[0].values,
                                             inputs[0].size, inputs[0].stopped, inputs[0].fault);
      [progress] + Advances(l, usizeMax, maxDiagnostic, after, inputs[1..])
  }

  /** Once the guest is fatal, every later advance of every series fails. */
  lemma {:induction false} FatalIsSticky(l: Limits, usizeMax: nat, maxDiagnostic: nat, i: Instance, inputs: seq<Input>)
    requires i.guest.fatal && Plausible(i)
    ensures var all := Advances(l, usizeMax, maxDiagnostic, i, inputs);
            |all| == |inputs| && forall k :: 0 <= k < |all| ==> all[k].Failed?
    decreases |inputs|
  {
    if inputs != [] {
      var resumed := Resume(i, inputs[0]);
      FatalAdvanceFails(l, usizeMax, maxDiagnostic, resumed, inputs[0].values,
                        inputs[0].size, inputs[0].stopped, inputs[0].fault);
      var (after, progress) := AdvanceEffect(l, usizeMax, maxDiagnostic, resumed, inputs[0].values,
                                             inputs[0].size, inputs[0].stopped, inputs[0].fault);
      FatalIsSticky(l, usizeMax, maxDiagnostic, after, inputs[1..]);
    }
  }

  // ---- How many calls can be pending ----

  function Depth(c: Call): (n: nat)
    ensures n >= 1
    decreases c, 1
  {
    1 + Depths(c.nested)
  }

  function Depths(cs: seq<Call>): nat
    decreases cs, 0
  {
    if cs == [] then 0 else Max(Depth(cs[0]), Depths(cs[1..]))
  }

  predicate Atomic(c: Call) {
    c.nested == []
  }

  /** The concurrency is looked at (bridge.js:19) before the hooks run (bridge.js:28), so the bound grows by one for
      every level of nesting. For atomic calls it is the configured bound itself. */
  lemma {:induction false} PendingBound(l: Limits, g: Guest, c: Call)
    ensures |CallEffect(l, g, c).0.pending| <= Max(|g.pending|, l.maxConcurrency + Depth(c) - 1)
    decreases c, 1
  {
    var id := g.count + 1;
    if !(id > l.maxCalls || |g.pending| >= l.maxConcurrency) {
      var entered := g.(count := id);
      PendingBounds(l, entered, c.nested);
    }
  }

  lemma {:induction false} PendingBounds(l: Limits, g: Guest, cs: seq<Call>)
    requires l.maxConcurrency >= 1
    ensures |CallsEffect(l, g, cs).pending| <= Max(|g.pending|, l.maxConcurrency + Depths(cs) - 1)
    decreases cs, 0
  {
    hide CallEffect, Depth;
    if cs != [] {
      PendingBound(l, g, cs[0]);
      PendingBounds(l, CallEffect(l, g, cs[0]).0, cs[1..]);
    }
  }

  /** `depth` calls, each made by a hook of the one around it. */
  function Chain(depth: nat): Call
    requires depth >= 1
    ensures Depth(Chain(depth)) == depth
  {
    if depth == 1 then Call(Str("f"), [], Json("0"))
    else
      var inner := Chain(depth - 1);
      assert [inner][1..] == [];
      assert Depths([inner]) == Max(Depth(inner), Depths([inner][1..]));
      Call(Str("f"), [inner], Json("0"))
  }

  /** The bound is attained at every depth: a guest one short of its concurrency limit passes it
      by `depth - 1`. */
  lemma {:induction false} ReentrancyExceedsConcurrency(l: Limits, g: Guest, depth: nat)
    requires depth >= 1
    requires |g.pending| == l.maxConcurrency - 1 && g.count + depth <= l.maxCalls
    requires l.maxInput >= 1
    requires forall id :: id in g.pending ==> id <= g.count
    ensures var after := CallEffect(l, g, Chain(depth)).0;
            && |after.pending| == l.maxConcurrency + depth - 1
            && after.count == g.count + depth
            && (forall id :: id in after.pending ==> id <= after.count)
            && (forall id :: id in after.pending && id !in g.pending ==> id > g.count)
    decreases depth
  {
    var id := g.count + 1;
    var entered := g.(count := id);
    ChainCall(l, g, depth);
    hide CallEffect;
    if depth > 1 {
      ReentrancyExceedsConcurrency(l, entered, depth - 1);
    }
  }

  /** A call of a chain registers itself after the chain inside it. */
  lemma ChainCall(l: Limits, g: Guest, depth: nat)
    requires depth >= 1 && g.count < l.maxCalls && |g.pending| < l.maxConcurrency && l.maxInput >= 1
    ensures var id := g.count + 1;
            var entered := g.(count := id);
            var inner := if depth == 1 then entered else CallEffect(l, entered, Chain(depth - 1)).0;
            var after := CallEffect(l, g, Chain(depth)).0;
            after.pending == inner.pending + {id} && after.count == inner.count
  {
    assert Bytes("f") == 1 && Bytes("0") == 1 by {
      AsciiBytes("f");
      AsciiBytes("0");
    }
    var entered := g.(count := g.count + 1);
    if depth == 1 {
      assert CallsEffect(l, entered, []) == entered;
    } else {
      var inner := CallEffect(l, entered, Chain(depth - 1)).0;
      assert Chain(depth).nested == [Chain(depth - 1)] && Chain(depth).nested[1..] == [];
      assert CallsEffect(l, inner, []) == inner;
      assert CallsEffect(l, entered, Chain(depth).nested) == inner;
    }
  }

  // ---- What atomic calls and deliveries keep ----

  ghost predicate IdsOf(g: Guest, l: Limits) {
    && (forall id :: id in g.pending ==> 1 <= id <= g.count && id <= l.maxCalls)
    && (forall k :: 0 <= k < |g.settled| ==>
         && 1 <= g.settled[k].id <= g.count && g.settled[k].id <= l.maxCalls
         && g.settled[k].id !in g.pending)
    && (forall j, k :: 0 <= j < k < |g.settled| ==> g.settled[j].id != g.settled[k].id)
  }

  /** Every promise is settled at most once, under its own id, and ids are never reused. */
  ghost predicate Sound(g: Guest, l: Limits) {
    && IdsOf(g, l)
    && |g.pending| <= l.maxConcurrency
    && (forall k :: 0 <= k < |g.requests| ==> WithinGuestQuota(g.requests[k], l.maxInput))
  }

  /** An atomic call either registers one request under a fresh id or leaves the map alone. */
  lemma AtomicCallEffect(l: Limits, g: Guest, c: Call)
    requires Atomic(c)
    ensures var after := CallEffect(l, g, c).0;
            && after.count == g.count + 1 && after.settled == g.settled
            && ((after.pending == g.pending && after.requests == g.requests)
                || (exists r: Request ::
                      && after == RegisterRequest(g, r)
                      && r.id == g.count + 1 <= l.maxCalls && |g.pending| < l.maxConcurrency
                      && GoodName(Str(r.name)) && Bytes(r.argument) <= l.maxInput))
  {
    hide Bytes;
    var entered := g.(count := g.count + 1);
    assert CallsEffect(l, entered, c.nested) == entered;
    if !(entered.count > l.maxCalls || |g.pending| >= l.maxConcurrency) && GoodName(c.name) && c.argument.Json? {
      var r := Request(entered.count, c.name.text, c.argument.text);
      assert CallEffect(l, g, c).0 == RegisterRequest(g, r) || Bytes(c.argument.text) > l.maxInput;
    }
  }

  function RegisterRequest(g: Guest, r: Request): Guest {
    g.(count := g.count + 1, pending := g.pending + {r.id}, requests := g.requests + [r])
  }

  lemma RegisterKeepsSound(l: Limits, g: Guest, r: Request)
    requires Sound(g, l) && r.id == g.count + 1 <= l.maxCalls <= 9999 && |g.pending| < l.maxConcurrency
    requires GoodName(Str(r.name)) && Bytes(r.argument) <= l.maxInput
    ensures Sound(RegisterRequest(g, r), l)
  {
    hide Bytes;
    var after := RegisterRequest(g, r);
    assert WithinGuestQuota(r, l.maxInput);
    assert |after.pending| == |g.pending| + 1;
    assert forall k :: 0 <= k < |g.requests| ==> after.requests[k] == g.requests[k];
  }

  lemma AtomicCallKeepsSound(l: Limits, g: Guest, c: Call)
    requires Sound(g, l) && Atomic(c) && l.maxCalls <= 9999
    ensures Sound(CallEffect(l, g, c).0, l)
    ensures CallEffect(l, g, c).0.settled == g.settled
  {
    AtomicCallEffect(l, g, c);
    var after := CallEffect(l, g, c).0;
    hide CallEffect, Bytes, GoodName;
    if r: Request :| && after == RegisterRequest(g, r)
                     && r.id == g.count + 1 <= l.maxCalls && |g.pending| < l.maxConcurrency
                     && GoodName(Str(r.name)) && Bytes(r.argument) <= l.maxInput {
      RegisterKeepsSound(l, g, r);
    }
  }

  lemma DeliverKeepsSound(l: Limits, g: Guest, c: Completion)
    requires Sound(g, l) && c.id in g.pending
    ensures Deliver(g, [c]).Delivered?
    ensures var after := Deliver(g, [c]).guest;
            && Sound(after, l)
            && after == g.(pending := g.pending - {c.id}, settled := g.settled + [c])
  {
    var after := g.(pending := g.pending - {c.id}, settled := g.settled + [c]);
    assert Deliver(after, []) == Delivered(after);
    assert [c][1..] == [];
  }

  // ---- The provider instance itself ----

  /** One provider instance: the bridge closure's variables, the root promise and the engine's
      queue of runnable jobs. */
  class Provider {
    const limits: Limits
    const usizeMax: nat
    const maxDiagnostic: nat
    var count: nat
    var pending: set<nat>
    var requests: seq<Request>
    var fatal: bool
    var settled: seq<Completion>
    var root: Option<Root>
    var jobs: seq<Job>

    constructor (limits: Limits, usizeMax: nat, maxDiagnostic: nat)
      ensures this.limits == limits && this.usizeMax == usizeMax && this.maxDiagnostic == maxDiagnostic
      ensures Now() == Instance(Fresh, None, [])
    {
      this.limits, this.usizeMax, this.maxDiagnostic := limits, usizeMax, maxDiagnostic;
      count, pending, requests, fatal, settled := 0, {}, [], false, [];
      root, jobs := None, [];
    }

    function GuestNow(): Guest
      reads this
    {
      Guest(count, pending, requests, fatal, settled)
    }

    function Now(): Instance
      reads this
    {
      Instance(GuestNow(), root, jobs)
    }

    method HostCall(c: Call) returns (r: Returned)
      modifies this`count, this`pending, this`requests, this`fatal
      ensures (GuestNow(), r) == CallEffect(limits, old(GuestNow()), c)
      decreases c, 1
    {
      count := count + 1;
      var id := count;
      if id > limits.maxCalls || |pending| >= limits.maxConcurrency {
        fatal := true;
        return Thrown;
      }
      if !GoodName(c.name) {
        return RejectedPromise;
      }
      ghost var entered := GuestNow();
      RunCalls(c.nested);
      match c.argument
      case Undefined => r := RejectedPromise;
      case Throws => r := RejectedPromise;
      case Json(text) =>
        if Bytes(text) > limits.maxInput {
          fatal := true;
          return RejectedPromise;
        }
        pending := pending + {id};
        requests := requests + [Request(id, c.name.text, text)];
        r := Outstanding(id);
    }

    method RunCalls(calls: seq<Call>)
      modifies this`count, this`pending, this`requests, this`fatal
      ensures GuestNow() == CallsEffect(limits, old(GuestNow()), calls)
      decreases calls, 0
    {
      for i := 0 to |calls|
        invariant GuestNow() == CallsEffect(limits, old(GuestNow()), calls[..i])
      {
        CallsEffectAppend(limits, old(GuestNow()), calls[..i], calls[i]);
        assert calls[..i + 1] == calls[..i] + [calls[i]];
        var _ := HostCall(calls[i]);
      }
      assert calls[..|calls|] == calls;
    }

    /** Returns false when a completion matches no pending call. */
    method Complete(values: seq<Completion>) returns (ok: bool)
      modifies this`pending, this`settled
      ensures ok == Deliver(old(GuestNow()), values).Delivered?
      ensures GuestNow() == Deliver(old(GuestNow()), values).guest
    {
      var i := 0;
      while i < |values|
        invariant 0 <= i <= |values|
        invariant Deliver(GuestNow(), values[i..]) == Deliver(old(GuestNow()), values)
        invariant count == old(count) && requests == old(requests) && fatal == old(fatal)
      {
        var completion := values[i];
        assert values[i..][0] == completion && values[i..][1..] == values[i + 1..];
        if completion.id !in pending {
          return false;
        }
        pending := pending - {completion.id};
        settled := settled + [completion];
        i := i + 1;
      }
      return true;
    }

    /** One step: deliver, then run jobs until the root settles or none is runnable. When it
        reports an unsettled root, no job is left. */
    method Step(values: seq<Completion>) returns (record: Record)
      modifies this
      ensures (Now(), record) == StepEffect(limits, old(Now()), values)
      ensures record.State? && !record.done ==> jobs == [] && root == Some(Unsettled)
    {
      var ok := Complete(values);
      if !ok {
        return Diagnostic("Unknown callback completion");
      }
      if root == None {
        return State(true, false, []);
      }
      var done := false;
      var rejection: Option<string> := None;
      ghost var delivered := Now();
      while true
        invariant root.Some? && RunJobs(limits, Now()) == RunJobs(limits, delivered)
        invariant rejection == None
        decreases |jobs|
      {
        match root.value
        case Fulfilled => done := true; break;
        case RejectedWith(message) => rejection := Some(message); done := true; break;
        case Unsettled =>
          if jobs == [] {
            break;
          }
          var job := jobs[0];
          jobs := jobs[1..];
          RunCalls(job.calls);
          root := Some(job.root);
      }
      var out := requests;
      requests := [];
      if !fatal && rejection.Some? {
        return Diagnostic(rejection.value);
      }
      record := State(done, fatal, if done then [] else out);
    }

    method Advance(values: seq<Completion>, size: nat, stopped: bool, fault: Option<Kind>) returns (progress: Progress)
      modifies this
      ensures (Now(), progress)
           == AdvanceEffect(limits, usizeMax, maxDiagnostic, old(Now()), values, size, stopped, fault)
    {
      if stopped || size > CompletionLimit(limits, usizeMax) {
        return Failed(if fault.Some? then fault.value else Trap);
      }
      var record := Step(values);
      if fault.Some? {
        return Failed(fault.value);
      }
      match record
      case Diagnostic(message) =>
        return Failed(if Bytes(message) > maxDiagnostic then DiagnosticLimit else JsError);
      case State(done, fatal, out) =>
        if Bytes(StateText(done, fatal, out)) > NativeRequestLimit(limits, usizeMax) {
          return Failed(Trap);
        }
        if fatal {
          return Failed(CallbackLimit);
        }
        if done {
          return Done;
        }
        return Pending(out);
    }
  }
}
