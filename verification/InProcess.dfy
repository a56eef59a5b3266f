/** The whole protocol on the in-process backend: guest bridge, execution driver, broker and
    callback processes, as one transition system over explicit queues. Calls are atomic and names
    well-formed; everything else is arbitrary. */
module InProcess {
  import opened Text
  import opened Wrappers
  import opened Wire
  import opened BrokerRun
  import opened Flow
  import B = Broker
  import G = Bridge

  /** `decodes` says which argument texts the broker's JSON decoder accepts. The guest's own JSON writes
      an unpaired surrogate as an escape, which a strict decoder rejects. */
  datatype Config = Config(limits: Limits, usizeMax: nat, maxDiagnostic: nat, decodes: string -> bool)

  ghost predicate Proper(c: Config) {
    Validated(c.limits) && MAX_TRANSPORT <= c.usizeMax
  }

  datatype Outcome = Returned(output: string) | Errored(kind: Kind)

  /** The driver runs the guest, waits for a signal, or has its result. */
  datatype Phase = Running | Waiting | Finished(outcome: Outcome)

  /** `wire` are request frames sent to the broker that have not reached its mailbox. */
  datatype System = System(guest: G.Guest, phase: Phase, wire: seq<B.Frame>, world: World)

  const Boot := System(G.Fresh, Running, [], Start)

  datatype Event =
    | GuestCall(call: G.Call)
    | GuestYield(root: G.Root, fault: Option<Kind>, output: string)  // a step ends; the driver judges it
    | Carry                                                          // a frame reaches the broker
    | Broker(event: BrokerRun.Event)                                 // the broker or a callback process acts
    | Receive                                                        // the driver takes a signal
    | Cancel                                                         // the driver is told to give up
    | StopBroker                                                     // the driver, finished, stops the broker

  predicate Enabled(s: System, e: Event) {
    match e
    case GuestCall(c) => s.phase.Running? && G.Atomic(c)
    case GuestYield(_, _, _) => s.phase.Running?
    case Carry => s.wire != []
    case Broker(b) => !b.Post? && !b.Take? && BrokerRun.Enabled(s.world, b)
    case Receive => s.phase.Waiting? && s.world.mail != []
    case Cancel => s.phase.Waiting?
    case StopBroker => s.phase.Finished?
  }

  function EntryOf(c: Config, r: Request): B.Entry {
    B.Entry(r.id, B.Utf8(r.name),
            if c.decodes(r.argument) then B.JsonText(r.argument) else B.NotJson(Bytes(r.argument)))
  }

  function Entries(c: Config, rs: seq<Request>): (es: seq<B.Entry>)
    ensures |es| == |rs| && forall k :: 0 <= k < |rs| ==> es[k] == EntryOf(c, rs[k])
  {
    if rs == [] then [] else [EntryOf(c, rs[0])] + Entries(c, rs[1..])
  }

  /** A state frame as the broker decodes it. */
  function FrameOf(c: Config, rs: seq<Request>): B.Frame {
    B.Frame(Bytes(StateText(false, false, rs)), Some(Entries(c, rs)))
  }

  function Judged(c: Config, guest: G.Guest, root: G.Root, fault: Option<Kind>): (G.Guest, G.Progress) {
    var (instance, record) := G.Report(G.Instance(guest, Some(root), []));
    (instance.guest,
     if fault.Some? then G.Failed(fault.value) else G.Judge(c.limits, c.usizeMax, c.maxDiagnostic, record))
  }

  function YieldNext(c: Config, s: System, e: Event): System
    requires e.GuestYield?
  {
    var (guest, progress) := Judged(c, s.guest, e.root, e.fault);
    match progress
    case Done => s.(guest := guest, phase := Finished(Returned(e.output)))
    case Failed(kind) => s.(guest := guest, phase := Finished(Errored(kind)))
    case Pending(requests) => s.(guest := guest, phase := Waiting, wire := s.wire + [FrameOf(c, requests)])
  }

  /** How the driver continues with a completion: a failure is the end. */
  function Fed(c: Config, guest: G.Guest, completion: Completion): (G.Guest, Phase) {
    if Bytes(CompletionText(completion)) > CompletionLimit(c.limits, c.usizeMax) then (guest, Finished(Errored(Trap)))
    else match G.Deliver(guest, [completion])
      case Delivered(after) => (after, Running)
      case UnknownCompletion(after) => (after, Finished(Errored(JsError)))
  }

  function ReceiveNext(c: Config, s: System): System
    requires s.world.mail != []
  {
    var taken := s.(world := s.world.(mail := s.world.mail[1..]));
    match s.world.mail[0]
    case CallbackError(kind, _) => taken.(phase := Finished(Errored(kind)))
    case CallbackReply(completion) =>
      var (guest, phase) := Fed(c, s.guest, completion);
      taken.(guest := guest, phase := phase)
  }

  function Next(c: Config, s: System, e: Event): System
    requires Enabled(s, e)
  {
    match e
    case GuestCall(call) => s.(guest := G.CallEffect(c.limits, s.guest, call).0)
    case GuestYield(_, _, _) => YieldNext(c, s, e)
    case Carry => s.(wire := s.wire[1..], world := s.world.(inbox := s.world.inbox + [B.Requests(s.wire[0])]))
    case Broker(b) => s.(world := BrokerRun.Next(c.limits, s.world, b))
    case Receive => ReceiveNext(c, s)
    case Cancel => s.(phase := Finished(Errored(Cancelled)))
    case StopBroker => s.(world := s.world.(inbox := s.world.inbox + [B.Stop]))
  }

  // ---- Where every id is ----

  function LiveSum(w: World): multiset<nat> {
    if w.phase.Live? then JobSum(w.broker) else multiset{}
  }

  /** The ids buffered in the guest, in frames on their way, running as jobs, and in answers on
      their way back. */
  function InFlight(s: System): multiset<nat> {
    Sum(s.guest.requests, RequestId) + Sum(s.wire, FrameIds) + Sum(s.world.inbox, MsgIds)
    + LiveSum(s.world) + Sum(s.world.mail, SignalIds)
  }

  /** No id is in two places, and none is anywhere that the guest does not hold pending; while the
      run and the broker live, every pending id is somewhere. */
  ghost predicate Conserved(s: System) {
    && InFlight(s) <= multiset(s.guest.pending)
    && (!s.phase.Finished? && s.world.phase.Live? ==> InFlight(s) == multiset(s.guest.pending))
  }

  function Completions(mail: seq<Signal>): seq<Completion> {
    if mail == [] then []
    else (if mail[0].CallbackReply? then [mail[0].completion] else []) + Completions(mail[1..])
  }

  /** The completions the guest has consumed are, in order, those the broker has sent. */
  ghost predicate InSequence(settled: seq<Completion>, w: World) {
    w.answered == settled + Completions(w.mail)
  }

  ghost predicate QueuesHonest(l: Limits, wire: seq<B.Frame>, inbox: seq<B.Msg>) {
    && (forall k :: 0 <= k < |wire| ==> HonestFrame(l, wire[k]))
    && (forall k :: 0 <= k < |inbox| && inbox[k].Requests? ==> HonestFrame(l, inbox[k].frame))
  }

  ghost predicate ErrorSent(mail: seq<Signal>) {
    exists k :: 0 <= k < |mail| && mail[k].CallbackError?
  }

  ghost predicate NobodyStops(inbox: seq<B.Msg>) {
    forall k :: 0 <= k < |inbox| ==> !inbox[k].Stop? && !inbox[k].ParentDown?
  }

  ghost predicate Orderly(s: System) {
    && (s.phase.Waiting? ==> s.guest.requests == [])
    && (!s.phase.Finished? ==>
         && NobodyStops(s.world.inbox)
         && (s.world.phase.Live? || ErrorSent(s.world.mail)))
  }

  ghost predicate Inv(c: Config, s: System) {
    && G.Sound(s.guest, c.limits)
    && Good(c.limits, s.world)
    && Budgeted(c.limits, s.world)
    && Conserved(s)
    && InSequence(s.guest.settled, s.world)
    && QueuesHonest(c.limits, s.wire, s.world.inbox)
    && Orderly(s)
  }

  lemma BootInv(c: Config)
    ensures Inv(c, Boot)
  {
    StartGood(c.limits);
    assert B.JobIds(map[]) == {};
  }

  // ---- A guest call ----

  lemma CallKeepsConserved(c: Config, s: System, call: G.Call)
    requires Conserved(s) && G.Sound(s.guest, c.limits) && G.Atomic(call)
    ensures Conserved(s.(guest := G.CallEffect(c.limits, s.guest, call).0))
  {
    G.AtomicCallEffect(c.limits, s.guest, call);
    var after := G.CallEffect(c.limits, s.guest, call).0;
    hide G.CallEffect, Bytes;
    if after.pending != s.guest.pending || after.requests != s.guest.requests {
      var r: Request :| after == G.RegisterRequest(s.guest, r) && r.id == s.guest.count + 1;
      SumAppend(s.guest.requests, r, RequestId);
      AddOne(s.guest.pending, r.id);
    }
  }

  lemma CallKeepsInv(c: Config, s: System, call: G.Call)
    requires Proper(c) && Inv(c, s) && Enabled(s, GuestCall(call))
    ensures Inv(c, Next(c, s, GuestCall(call)))
  {
    CallKeepsConserved(c, s, call);
    G.AtomicCallKeepsSound(c.limits, s.guest, call);
    hide G.CallEffect, G.Sound, Good, Budgeted, Conserved, QueuesHonest, InSequence;
  }

  // ---- A yield ----

  lemma {:induction false} EntriesSum(c: Config, rs: seq<Request>)
    ensures Sum(Entries(c, rs), EntryId) == Sum(rs, RequestId)
  {
    if rs != [] {
      EntriesSum(c, rs[1..]);
      assert Entries(c, rs)[1..] == Entries(c, rs[1..]);
    }
  }

  lemma YieldEffect(c: Config, s: System, e: Event)
    requires Proper(c) && e.GuestYield?
    ensures var after := YieldNext(c, s, e);
            && after.guest == s.guest.(requests := []) && after.world == s.world
            && (|| (after.phase.Finished? && after.wire == s.wire)
                || (&& after.phase.Waiting? && after.wire == s.wire + [FrameOf(c, s.guest.requests)]
                    && FrameOf(c, s.guest.requests).size <= RequestLimit(c.limits)))
  {
    RequestLimitsAgree(c.limits, c.usizeMax);
    hide Bytes, StateText, NativeRequestLimit;
  }

  lemma PartsUnder(parts: multiset<nat>, a: multiset<nat>, b: multiset<nat>, c: multiset<nat>,
                   d: multiset<nat>, e: multiset<nat>)
    requires a + b + c + d + e <= parts
    ensures a <= parts && b <= parts && c <= parts && d <= parts && e <= parts
    ensures c + d <= parts
  {
  }

  lemma RequestsUnder(c: Config, s: System)
    requires G.Sound(s.guest, c.limits) && Conserved(s)
    ensures |s.guest.requests| <= c.limits.maxConcurrency
    ensures forall k :: 0 <= k < |s.guest.requests| ==> s.guest.requests[k].id in s.guest.pending
  {
    var rs := s.guest.requests;
    PartsUnder(multiset(s.guest.pending), Sum(rs, RequestId), Sum(s.wire, FrameIds),
               Sum(s.world.inbox, MsgIds), LiveSum(s.world), Sum(s.world.mail, SignalIds));
    hide InFlight, LiveSum;
    SumUnderSet(rs, RequestId, s.guest.pending);
    SumSize(rs, RequestId);
    SizeUnderSet(Sum(rs, RequestId), s.guest.pending);
    hide Sum;
    var ids: Request -> multiset<nat> := RequestId;
    assert forall k :: 0 <= k < |rs| ==> rs[k].id in ids(rs[k]);
  }

  lemma FrameIsHonest(c: Config, s: System)
    requires Proper(c) && G.Sound(s.guest, c.limits) && Conserved(s)
    requires FrameOf(c, s.guest.requests).size <= RequestLimit(c.limits)
    ensures HonestFrame(c.limits, FrameOf(c, s.guest.requests))
  {
    RequestsUnder(c, s);
    hide Conserved, Bytes, StateText, RequestLimit;
    forall k | 0 <= k < |s.guest.requests| ensures HonestEntry(c.limits, Entries(c, s.guest.requests)[k]) {
      EntryIsHonest(c, s.guest.requests[k]);
    }
  }

  lemma EntryIsHonest(c: Config, r: Request)
    requires WithinGuestQuota(r, c.limits.maxInput) && r.id <= 1024
    ensures HonestEntry(c.limits, EntryOf(c, r))
  {
    hide Bytes;
  }

  lemma YieldKeepsConserved(c: Config, s: System, e: Event)
    requires Proper(c) && Conserved(s) && e.GuestYield? && s.phase.Running?
    ensures Conserved(YieldNext(c, s, e))
  {
    YieldEffect(c, s, e);
    hide YieldNext, Bytes, StateText;
    SumAppend(s.wire, FrameOf(c, s.guest.requests), FrameIds);
    EntriesSum(c, s.guest.requests);
    assert FrameIds(FrameOf(c, s.guest.requests)) == Sum(s.guest.requests, RequestId);
    assert Sum([], RequestId) == multiset{};
    hide Sum, LiveSum, FrameOf, FrameIds;
  }

  lemma WireAppend(l: Limits, wire: seq<B.Frame>, inbox: seq<B.Msg>, f: B.Frame)
    requires QueuesHonest(l, wire, inbox) && HonestFrame(l, f)
    ensures QueuesHonest(l, wire + [f], inbox)
  {
    hide HonestFrame;
  }

  lemma YieldKeepsQueues(c: Config, s: System, e: Event)
    requires Proper(c) && Inv(c, s) && e.GuestYield? && Enabled(s, e)
    ensures QueuesHonest(c.limits, Next(c, s, e).wire, s.world.inbox)
  {
    YieldEffect(c, s, e);
    hide YieldNext, FrameOf, G.Sound, Good, Budgeted, Conserved, HonestFrame, InSequence, RequestLimit, QueuesHonest;
    if FrameOf(c, s.guest.requests).size <= RequestLimit(c.limits) {
      FrameIsHonest(c, s);
      WireAppend(c.limits, s.wire, s.world.inbox, FrameOf(c, s.guest.requests));
    }
  }

  lemma DroppingRequestsKeepsSound(g: G.Guest, l: Limits)
    requires G.Sound(g, l)
    ensures G.Sound(g.(requests := []), l)
  {
  }

  lemma YieldKeepsInv(c: Config, s: System, e: Event)
    requires Proper(c) && Inv(c, s) && e.GuestYield? && Enabled(s, e)
    ensures Inv(c, Next(c, s, e))
  {
    YieldKeepsConserved(c, s, e);
    YieldKeepsQueues(c, s, e);
    YieldEffect(c, s, e);
    DroppingRequestsKeepsSound(s.guest, c.limits);
    hide YieldNext, FrameOf, G.Sound, Good, Budgeted, Conserved, QueuesHonest, InSequence, RequestLimit;
  }

  // ---- A frame reaches the broker ----

  lemma CarryKeepsConserved(c: Config, s: System)
    requires Conserved(s) && s.wire != []
    ensures Conserved(Next(c, s, Carry))
  {
    var m := B.Requests(s.wire[0]);
    assert Sum(s.wire, FrameIds) == FrameIds(s.wire[0]) + Sum(s.wire[1..], FrameIds);
    SumAppend(s.world.inbox, m, MsgIds);
    assert MsgIds(m) == FrameIds(s.wire[0]);
    hide Sum, LiveSum, FrameIds, MsgIds, SignalIds, RequestId;
    RegroupCarry(Sum(s.guest.requests, RequestId), FrameIds(s.wire[0]), Sum(s.wire[1..], FrameIds),
                 Sum(s.world.inbox, MsgIds), LiveSum(s.world), Sum(s.world.mail, SignalIds));
  }

  lemma RegroupCarry(a: multiset<nat>, head: multiset<nat>, tail: multiset<nat>, c: multiset<nat>,
                     d: multiset<nat>, e: multiset<nat>)
    ensures a + (head + tail) + c + d + e == a + tail + (c + head) + d + e
  {
  }

  lemma CarryKeepsInv(c: Config, s: System)
    requires Inv(c, s) && Enabled(s, Carry)
    ensures Inv(c, Next(c, s, Carry))
  {
    hide G.Sound, Good, Budgeted, Conserved, QueuesHonest, Completions;
    var post := BrokerRun.Post(B.Requests(s.wire[0]));
    CarryKeepsConserved(c, s);
    assert BrokerRun.Enabled(s.world, post);
    NextKeepsGood(c.limits, s.world, post);
    NextKeepsBudgeted(c.limits, s.world, post);
    CarryKeepsQueues(c.limits, s.wire, s.world.inbox);
  }

  lemma CarryKeepsQueues(l: Limits, wire: seq<B.Frame>, inbox: seq<B.Msg>)
    requires QueuesHonest(l, wire, inbox) && wire != []
    ensures QueuesHonest(l, wire[1..], inbox + [B.Requests(wire[0])])
  {
    hide HonestFrame;
  }

  // ---- The broker handles a message ----

  lemma {:induction false} CompletionsConcat(a: seq<Signal>, b: seq<Signal>)
    ensures Completions(a + b) == Completions(a) + Completions(b)
  {
    if a == [] {
      assert a + b == b;
    } else {
      assert (a + b)[0] == a[0] && (a + b)[1..] == a[1..] + b;
      CompletionsConcat(a[1..], b);
    }
  }

  lemma {:induction false} CompletionsOfReplies(cs: seq<Completion>)
    ensures Completions(Replies(cs)) == cs
    ensures Sum(Replies(cs), SignalIds) == Sum(cs, CompletionId)
    decreases |cs|
  {
    if cs != [] {
      CompletionsOfReplies(cs[1..]);
      assert Replies(cs)[1..] == Replies(cs[1..]);
    }
  }

  lemma MailAfter(mail: seq<Signal>, replies: seq<Completion>, ending: Option<B.Ending>)
    ensures var after := mail + Replies(replies) + Errors(ending);
            && Completions(after) == Completions(mail) + replies
            && Sum(after, SignalIds) == Sum(mail, SignalIds) + Sum(replies, CompletionId)
  {
    CompletionsOfReplies(replies);
    CompletionsConcat(mail, Replies(replies));
    CompletionsConcat(mail + Replies(replies), Errors(ending));
    SumConcat(mail, Replies(replies), SignalIds);
    SumConcat(mail + Replies(replies), Errors(ending), SignalIds);
    assert Errors(ending)[..] == [] || Errors(ending)[1..] == [];
    assert Completions(Errors(ending)) == [];
    assert Sum(Errors(ending), SignalIds) == multiset{};
  }

  lemma {:induction false} CompletionsInMail(mail: seq<Signal>)
    ensures forall id :: id in B.Ids(Completions(mail)) ==> id in Sum(mail, SignalIds)
    decreases |mail|
  {
    if mail != [] {
      CompletionsInMail(mail[1..]);
      var rest := Completions(mail[1..]);
      forall id | id in B.Ids(Completions(mail)) ensures id in Sum(mail, SignalIds) {
        var k :| 0 <= k < |Completions(mail)| && Completions(mail)[k].id == id;
        if mail[0].CallbackReply? && k == 0 {
          assert id in SignalIds(mail[0]);
        } else {
          var j := if mail[0].CallbackReply? then k - 1 else k;
          assert Completions(mail)[k] == rest[j];
          assert id in B.Ids(rest);
        }
      }
    }
  }

  lemma IdsConcat(a: seq<Completion>, b: seq<Completion>)
    ensures B.Ids(a + b) == B.Ids(a) + B.Ids(b)
  {
    var ab := a + b;
    forall id | id in B.Ids(a) + B.Ids(b) ensures id in B.Ids(ab) {
      if id in B.Ids(a) {
        var k :| 0 <= k < |a| && a[k].id == id;
        assert ab[k].id == id;
      } else {
        var k :| 0 <= k < |b| && b[k].id == id;
        assert ab[|a| + k].id == id;
      }
    }
  }

  /** The ids 1..n. */
  function Range(n: nat): (r: set<nat>)
    ensures |r| == n && forall i :: i in r <==> 1 <= i <= n
  {
    if n == 0 then {} else Range(n - 1) + {n}
  }

  lemma {:induction false} InjectiveSize(jobs: map<B.Pid, B.Job>)
    requires B.Injective(jobs)
    ensures |B.JobIds(jobs)| == |jobs|
    decreases |jobs|
  {
    if jobs.Keys == {} {
      assert jobs == map[];
      assert B.JobIds(jobs) == {};
    } else {
      var p :| p in jobs.Keys;
      B.DropJob(jobs, p);
      InjectiveSize(jobs - {p});
    }
  }

  /** The ids of the frame at the head of the broker's mailbox are pending in the guest, and neither
      running, nor on their way back, nor settled: so the broker has not seen them. */
  lemma HeadIsUnseen(c: Config, s: System)
    requires Inv(c, s) && s.world.phase.Live? && s.world.inbox != [] && s.world.inbox[0].Requests?
    ensures var ids := FrameIds(s.world.inbox[0].frame);
            && ids + JobSum(s.world.broker) <= multiset(s.guest.pending)
            && forall id :: id in ids ==> id in s.guest.pending && id !in s.world.broker.seen
  {
    var w := s.world;
    var ids := FrameIds(w.inbox[0].frame);
    var pending := multiset(s.guest.pending);
    HeadUnder(s, ids);
    CompletionsInMail(w.mail);
    IdsConcat(s.guest.settled, Completions(w.mail));
    hide Sum, Completions, FrameIds, InFlight, Good, Budgeted, QueuesHonest, Orderly;
    forall id | id in ids ensures id in s.guest.pending && id !in w.broker.seen {
      assert (ids + JobSum(w.broker) + Sum(w.mail, SignalIds))[id] <= pending[id] <= 1;
      assert ids[id] >= 1;
      assert id !in JobSum(w.broker) && id !in Sum(w.mail, SignalIds);
      assert id !in B.Ids(s.guest.settled);
      assert w.broker.seen == B.JobIds(w.broker.jobs) + B.Ids(w.answered);
    }
  }

  lemma HeadUnder(s: System, ids: multiset<nat>)
    requires Conserved(s) && s.world.phase.Live? && s.world.inbox != []
    requires ids == MsgIds(s.world.inbox[0])
    ensures ids + JobSum(s.world.broker) + Sum(s.world.mail, SignalIds) <= multiset(s.guest.pending)
    ensures ids + JobSum(s.world.broker) <= multiset(s.guest.pending)
  {
    var tail := Sum(s.world.inbox[1..], MsgIds);
    assert Sum(s.world.inbox, MsgIds) == ids + tail;
    RegroupHead(multiset(s.guest.pending), Sum(s.guest.requests, RequestId), Sum(s.wire, FrameIds), ids, tail,
                LiveSum(s.world), Sum(s.world.mail, SignalIds));
  }

  lemma RegroupHead(all: multiset<nat>, a: multiset<nat>, b: multiset<nat>, head: multiset<nat>, tail: multiset<nat>,
                    d: multiset<nat>, e: multiset<nat>)
    requires a + b + (head + tail) + d + e <= all
    ensures head + d + e <= all && head + d <= all
  {
  }

  /** Pigeonhole: what the broker has seen and what the head frame asks for are distinct ids in
      1..maxCalls, and the running jobs and the asked ones are pending. */
  lemma HeadHasRoom(c: Config, s: System)
    requires Proper(c) && Inv(c, s)
    requires s.world.phase.Live? && s.world.inbox != [] && s.world.inbox[0].Requests?
    ensures var entries := s.world.inbox[0].frame.entries;
            entries.Some? && Room(c.limits, s.world.broker, |entries.value|)
  {
    var b := s.world.broker;
    var f := s.world.inbox[0].frame;
    assert HonestFrame(c.limits, f);
    HeadIsUnseen(c, s);
    FrameSize(c.limits, f);
    SeenInRange(c, s);
    var ids := FrameIds(f);
    assert |s.guest.pending| <= c.limits.maxConcurrency;
    assert B.Injective(b.jobs) && B.JobIds(b.jobs) <= b.seen && forall p :: p in b.jobs ==> p < b.spawned;
    hide Sum, FrameIds, HonestFrame, Inv, B.Injective, B.JobIds;
    InjectiveSize(b.jobs);
    SizeUnderSet(ids + JobSum(b), s.guest.pending);
    SizeUnderRange(ids, b.seen, c.limits.maxCalls, s.guest.pending);
  }

  lemma FrameSize(l: Limits, f: B.Frame)
    requires HonestFrame(l, f)
    ensures |FrameIds(f)| == |f.entries.value|
  {
    var es := f.entries.value;
    assert forall k :: 0 <= k < |es| ==> HonestEntry(l, es[k]);
    hide Bytes, RequestLimit;
    SumSize(es, EntryId);
  }

  lemma SeenInRange(c: Config, s: System)
    requires Inv(c, s) && s.world.phase.Live?
    ensures forall id :: id in s.world.broker.seen ==> 1 <= id <= c.limits.maxCalls
    ensures forall id :: id in s.guest.pending ==> 1 <= id <= c.limits.maxCalls
  {
    var w := s.world;
    var pending := multiset(s.guest.pending);
    PartsUnder(pending, Sum(s.guest.requests, RequestId), Sum(s.wire, FrameIds),
               Sum(w.inbox, MsgIds), LiveSum(w), Sum(w.mail, SignalIds));
    CompletionsInMail(w.mail);
    IdsConcat(s.guest.settled, Completions(w.mail));
    hide Sum, Completions, FrameIds, InFlight, Good, Budgeted, QueuesHonest, Orderly;
    forall id | id in w.broker.seen ensures 1 <= id <= c.limits.maxCalls {
      assert w.broker.seen == B.JobIds(w.broker.jobs) + B.Ids(w.answered);
      if id in B.JobIds(w.broker.jobs) {
        assert id in LiveSum(w);
        assert id in s.guest.pending;
      } else if id in B.Ids(Completions(w.mail)) {
        assert id in s.guest.pending;
      }
    }
  }

  lemma SizeUnderRange(ids: multiset<nat>, seen: set<nat>, n: nat, pending: set<nat>)
    requires ids <= multiset(pending)
    requires forall id :: id in ids ==> id !in seen
    requires forall id :: id in seen ==> 1 <= id <= n
    requires forall id :: id in pending ==> 1 <= id <= n
    ensures |seen| + |ids| <= n
  {
    var range := Range(n);
    forall id ensures (ids + multiset(seen))[id] <= multiset(range)[id] {
      assert ids[id] <= multiset(pending)[id];
    }
    assert ids + multiset(seen) <= multiset(range);
    SizeUnderSet(ids + multiset(seen), range);
  }

  lemma HeadIsWelcome(c: Config, s: System)
    requires Proper(c) && Inv(c, s) && s.world.phase.Live? && s.world.inbox != []
    ensures Welcome(c.limits, s.world.broker, s.world.inbox[0])
  {
    if s.world.inbox[0].Requests? {
      var f := s.world.inbox[0].frame;
      assert HonestFrame(c.limits, f);
      HeadHasRoom(c, s);
      HeadIsUnseen(c, s);
      assert forall k :: 0 <= k < |f.entries.value| ==> HonestEntry(c.limits, f.entries.value[k]);
      hide Inv, Conserved, Room, HonestFrame, Bytes;
      HeadDistinct(s.world.broker, f.entries.value, s.guest.pending);
    }
  }

  lemma HeadDistinct(b: B.State, es: seq<B.Entry>, pending: set<nat>)
    requires Sum(es, EntryId) <= multiset(pending)
    requires forall id :: id in Sum(es, EntryId) ==> id !in b.seen
    requires forall k :: 0 <= k < |es| ==> es[k].Entry? && es[k].id >= 1
    ensures Unseen(b, es)
  {
    var ids: B.Entry -> multiset<nat> := EntryId;
    SumUnderSet(es, ids, pending);
    hide Sum;
    assert forall k :: 0 <= k < |es| ==> es[k].id as nat in ids(es[k]);
  }

  lemma HandleShape(l: Limits, w: World)
    requires w.phase.Live? && w.inbox != []
    ensures var r := B.React(l, w.broker, w.inbox[0]);
            var after := BrokerRun.Next(l, w, Handle);
            && after.inbox == w.inbox[1..] && after.broker == r.state
            && after.mail == w.mail + Replies(r.replies) + Errors(r.ending)
            && after.answered == w.answered + r.replies
            && (after.phase.Live? <==> r.ending.None?)
  {
    hide B.React;
  }

  lemma HandleKeepsConserved(c: Config, s: System)
    requires Conserved(s) && s.world.phase.Live? && s.world.inbox != []
    requires B.Injective(s.world.broker.jobs) && B.Tracked(s.world.broker)
    requires Welcome(c.limits, s.world.broker, s.world.inbox[0])
    ensures Conserved(Next(c, s, Broker(Handle)))
  {
    var w := s.world;
    var m := w.inbox[0];
    var r := B.React(c.limits, w.broker, m);
    var after := Next(c, s, Broker(Handle));
    assert Sum(w.inbox, MsgIds) == MsgIds(m) + Sum(w.inbox[1..], MsgIds);
    assert InFlight(s) == Sum(s.guest.requests, RequestId) + Sum(s.wire, FrameIds) + Sum(w.inbox, MsgIds)
                          + JobSum(w.broker) + Sum(w.mail, SignalIds);
    hide Sum, B.React, MsgIds, SignalIds, RequestId, FrameIds, JobSum, Replies, Errors, BrokerRun.Next;
    HonestReact(c.limits, w.broker, m);
    MailAfter(w.mail, r.replies, r.ending);
    HandleShape(c.limits, w);
    hide Welcome, B.Injective, B.Tracked, Next;
    assert LiveSum(after.world) == if r.ending.None? then JobSum(r.state) else multiset{};
    hide LiveSum;
    RegroupHandle(multiset(s.guest.pending), Sum(s.guest.requests, RequestId), Sum(s.wire, FrameIds), MsgIds(m),
                  Sum(w.inbox[1..], MsgIds), JobSum(w.broker), Sum(w.mail, SignalIds),
                  JobSum(r.state), Sum(r.replies, CompletionId));
  }

  lemma RegroupHandle(all: multiset<nat>, a: multiset<nat>, b: multiset<nat>, head: multiset<nat>, tail: multiset<nat>,
                      jobs: multiset<nat>, mail: multiset<nat>, jobs': multiset<nat>, replies: multiset<nat>)
    ensures jobs' + replies == jobs + head ==>
              a + b + tail + jobs' + (mail + replies) == a + b + (head + tail) + jobs + mail
    ensures replies <= jobs + head && a + b + (head + tail) + jobs + mail <= all ==>
              a + b + tail + multiset{} + (mail + replies) <= all
  {
    if jobs' + replies == jobs + head {
      assert a + b + tail + jobs' + (mail + replies) == a + b + tail + mail + (jobs' + replies);
    }
    if replies <= jobs + head && a + b + (head + tail) + jobs + mail <= all {
      assert a + b + tail + multiset{} + (mail + replies) == a + b + tail + mail + replies;
      assert a + b + tail + mail + (jobs + head) == a + b + (head + tail) + jobs + mail;
    }
  }

  lemma HandleKeepsSequence(c: Config, s: System)
    requires InSequence(s.guest.settled, s.world) && s.world.phase.Live? && s.world.inbox != []
    ensures InSequence(s.guest.settled, BrokerRun.Next(c.limits, s.world, Handle))
  {
    var w := s.world;
    var r := B.React(c.limits, w.broker, w.inbox[0]);
    MailAfter(w.mail, r.replies, r.ending);
    HandleShape(c.limits, w);
    hide B.React, Completions, Replies, Errors, BrokerRun.Next;
    Associate(s.guest.settled, Completions(w.mail), r.replies);
  }

  lemma Associate(a: seq<Completion>, b: seq<Completion>, c: seq<Completion>)
    ensures a + b + c == a + (b + c)
  {
  }

  lemma HandleKeepsQueues(l: Limits, wire: seq<B.Frame>, inbox: seq<B.Msg>)
    requires QueuesHonest(l, wire, inbox) && inbox != []
    ensures QueuesHonest(l, wire, inbox[1..])
  {
    hide HonestFrame;
  }

  lemma HandleKeepsOrder(c: Config, s: System)
    requires Orderly(s) && s.world.phase.Live? && s.world.inbox != []
    ensures Orderly(Next(c, s, Broker(Handle)))
  {
    hide B.React, BrokerRun.Next, Replies, Errors, ErrorSent;
    var w := s.world;
    var r := B.React(c.limits, w.broker, w.inbox[0]);
    HandleShape(c.limits, w);
    if !s.phase.Finished? {
      EndingIsFailure(c, w.broker, w.inbox[0]);
      FailureIsSent(w.mail + Replies(r.replies), r.ending);
      NobodyStopsLater(w.inbox);
    }
  }

  lemma NobodyStopsLater(inbox: seq<B.Msg>)
    requires NobodyStops(inbox) && inbox != []
    ensures NobodyStops(inbox[1..])
  {
  }

  lemma FailureIsSent(mail: seq<Signal>, ending: Option<B.Ending>)
    requires ending.Some? ==> ending.value.Failure?
    ensures ending.Some? ==> ErrorSent(mail + Errors(ending))
  {
    if ending.Some? {
      assert (mail + Errors(ending))[|mail|].CallbackError?;
    }
  }

  lemma EndingIsFailure(c: Config, b: B.State, m: B.Msg)
    requires !m.Stop? && !m.ParentDown?
    ensures var r := B.React(c.limits, b, m);
            r.ending.Some? ==> r.ending.value.Failure?
  {
    hide B.Dispatch, B.Answer;
  }

  lemma HandleKeepsInv(c: Config, s: System)
    requires Proper(c) && Inv(c, s) && Enabled(s, Broker(Handle))
    ensures Inv(c, Next(c, s, Broker(Handle)))
  {
    hide G.Sound, Budgeted, Conserved, QueuesHonest, InSequence, Orderly, Welcome, BrokerRun.Next, B.React;
    HeadIsWelcome(c, s);
    HandleKeepsSequence(c, s);
    HandleKeepsOrder(c, s);
    HandleKeepsQueues(c.limits, s.wire, s.world.inbox);
    HandleShape(c.limits, s.world);
    assert B.Injective(s.world.broker.jobs) && B.Tracked(s.world.broker) by { hide Budgeted, B.Bounded, B.Tracked; }
    hide Good;
    NextKeepsGood(c.limits, s.world, Handle);
    NextKeepsBudgeted(c.limits, s.world, Handle);
    HandleKeepsConserved(c, s);
  }

  // ---- Everything else the broker's processes do ----

  lemma AddNothing(a: multiset<nat>)
    ensures multiset{} + a == a && a + multiset{} == a
  {
  }

  lemma SumRemove(ms: seq<B.Msg>, k: nat)
    requires k < |ms| && MsgIds(ms[k]) == multiset{}
    ensures Sum(ms[..k] + ms[k + 1..], MsgIds) == Sum(ms, MsgIds)
  {
    assert ms[k..][0] == ms[k] && ms[k..][1..] == ms[k + 1..];
    assert Sum(ms[k..], MsgIds) == MsgIds(ms[k]) + Sum(ms[k + 1..], MsgIds);
    hide Sum, MsgIds;
    AddNothing(Sum(ms[k + 1..], MsgIds));
    SumConcat(ms[..k], ms[k + 1..], MsgIds);
    assert ms == ms[..k] + ms[k..];
    SumConcat(ms[..k], ms[k..], MsgIds);
  }

  lemma SumPost(ms: seq<B.Msg>, m: B.Msg)
    requires MsgIds(m) == multiset{}
    ensures Sum(ms + [m], MsgIds) == Sum(ms, MsgIds)
  {
    hide Sum, MsgIds;
    SumAppend(ms, m, MsgIds);
    AddNothing(Sum(ms, MsgIds));
  }

  /** Callback processes and timers add no request and take no answer. */
  lemma AsideChanges(l: Limits, w: World, e: BrokerRun.Event)
    requires BrokerRun.Enabled(w, e) && !e.Handle? && !e.Post? && !e.Take?
    ensures var after := BrokerRun.Next(l, w, e);
            && Sum(after.inbox, MsgIds) == Sum(w.inbox, MsgIds)
            && after.broker == w.broker && after.mail == w.mail && after.answered == w.answered
            && (after.phase.Live? <==> w.phase.Live?)
            && (forall m :: m in after.inbox && (m.Requests? || m.Stop? || m.ParentDown?) ==> m in w.inbox)
  {
    hide B.Invoke;
    var after := BrokerRun.Next(l, w, e);
    if e.Reap? {
      SumRemove(w.inbox, e.index);
    } else {
      var m := after.inbox[|w.inbox|];
      assert after.inbox == w.inbox + [m];
      assert MsgIds(m) == multiset{};
      hide Sum, MsgIds;
      SumPost(w.inbox, m);
    }
  }

  lemma AsideKeepsQueues(c: Config, s: System, b: BrokerRun.Event)
    requires QueuesHonest(c.limits, s.wire, s.world.inbox) && Orderly(s) && Enabled(s, Broker(b)) && !b.Handle?
    ensures QueuesHonest(c.limits, s.wire, Next(c, s, Broker(b)).world.inbox) && Orderly(Next(c, s, Broker(b)))
  {
    AsideChanges(c.limits, s.world, b);
    hide BrokerRun.Next, HonestFrame, Sum;
    var after := Next(c, s, Broker(b));
    forall k | 0 <= k < |after.world.inbox| && after.world.inbox[k].Requests?
      ensures HonestFrame(c.limits, after.world.inbox[k].frame)
    {
      assert after.world.inbox[k] in s.world.inbox;
    }
    forall k | 0 <= k < |after.world.inbox| && !s.phase.Finished?
      ensures !after.world.inbox[k].Stop? && !after.world.inbox[k].ParentDown?
    {
      assert after.world.inbox[k] in after.world.inbox;
    }
  }

  lemma AsideKeepsInv(c: Config, s: System, b: BrokerRun.Event)
    requires Inv(c, s) && Enabled(s, Broker(b)) && !b.Handle?
    ensures Inv(c, Next(c, s, Broker(b)))
  {
    AsideChanges(c.limits, s.world, b);
    NextKeepsGood(c.limits, s.world, b);
    NextKeepsBudgeted(c.limits, s.world, b);
    AsideKeepsConserved(c, s, b);
    AsideKeepsQueues(c, s, b);
    hide G.Sound, Good, Budgeted, BrokerRun.Next, Conserved, Sum, Completions, QueuesHonest, Orderly;
  }

  lemma SameFlow(s: System, after: System)
    requires Conserved(s)
    requires after.guest == s.guest && after.wire == s.wire && after.phase == s.phase
    requires Sum(after.world.inbox, MsgIds) == Sum(s.world.inbox, MsgIds)
    requires after.world.broker == s.world.broker && after.world.mail == s.world.mail
    requires after.world.phase.Live? <==> s.world.phase.Live?
    ensures Conserved(after)
  {
    hide Sum, JobSum, MsgIds, SignalIds, RequestId, FrameIds;
    assert InFlight(after) == InFlight(s);
  }

  lemma AsideKeepsConserved(c: Config, s: System, b: BrokerRun.Event)
    requires Conserved(s) && Enabled(s, Broker(b)) && !b.Handle?
    ensures Conserved(Next(c, s, Broker(b)))
  {
    AsideChanges(c.limits, s.world, b);
    hide BrokerRun.Next, Conserved, Sum;
    SameFlow(s, Next(c, s, Broker(b)));
  }

  // ---- The driver takes a signal ----

  /** The state after the driver feeds the next answer to the guest. */
  function Answered(s: System): System
    requires s.world.mail != [] && s.world.mail[0].CallbackReply?
  {
    var completion := s.world.mail[0].completion;
    System(s.guest.(pending := s.guest.pending - {completion.id}, settled := s.guest.settled + [completion]),
           Running, s.wire, s.world.(mail := s.world.mail[1..]))
  }

  /** The next answer is to a pending call, and fits. */
  lemma NextAnswer(c: Config, s: System)
    requires Proper(c) && Inv(c, s) && s.world.mail != [] && s.world.mail[0].CallbackReply?
    ensures var completion := s.world.mail[0].completion;
            && completion.id in s.guest.pending
            && Bytes(CompletionText(completion)) <= CompletionLimit(c.limits, c.usizeMax)
  {
    var w := s.world;
    var completion := w.mail[0].completion;
    assert w.answered[|s.guest.settled|] == completion;
    assert WithinOutputBudget(completion, c.limits.maxOutput);
    assert SignalIds(w.mail[0]) == multiset{completion.id};
    assert Sum(w.mail, SignalIds) == multiset{completion.id} + Sum(w.mail[1..], SignalIds);
    assert InFlight(s) <= multiset(s.guest.pending);
    assert forall id :: id in s.guest.pending ==> id <= 1024;
    hide Inv, Sum, WithinOutputBudget, SignalIds, Conserved, LiveSum;
    PartsUnder(multiset(s.guest.pending), Sum(s.guest.requests, RequestId), Sum(s.wire, FrameIds),
               Sum(w.inbox, MsgIds), LiveSum(w), Sum(w.mail, SignalIds));
    assert completion.id in multiset{completion.id} + Sum(w.mail[1..], SignalIds);
    CompletionFits(completion, c.limits, c.usizeMax);
  }

  lemma AnswerKeepsConserved(c: Config, s: System)
    requires Conserved(s) && s.world.mail != [] && s.world.mail[0].CallbackReply?
    requires s.world.mail[0].completion.id in s.guest.pending
    requires s.phase.Waiting?
    ensures Conserved(Answered(s))
  {
    var id := s.world.mail[0].completion.id;
    var w := s.world;
    DropOne(s.guest.pending, id);
    assert SignalIds(w.mail[0]) == multiset{id};
    assert Sum(w.mail, SignalIds) == multiset{id} + Sum(w.mail[1..], SignalIds);
    hide Sum, SignalIds, RequestId, FrameIds, MsgIds, JobSum;
    RegroupTake(multiset(s.guest.pending - {id}), Sum(s.guest.requests, RequestId), Sum(s.wire, FrameIds),
                Sum(w.inbox, MsgIds), LiveSum(w), multiset{id}, Sum(w.mail[1..], SignalIds));
  }

  lemma RegroupTake(all: multiset<nat>, a: multiset<nat>, b: multiset<nat>, c: multiset<nat>, d: multiset<nat>,
                    head: multiset<nat>, tail: multiset<nat>)
    ensures a + b + c + d + (head + tail) <= all + head ==> a + b + c + d + tail <= all
    ensures a + b + c + d + (head + tail) == all + head ==> a + b + c + d + tail == all
  {
    var sum := a + b + c + d + tail;
    assert a + b + c + d + (head + tail) == sum + head;
    if sum + head <= all + head {
      forall x ensures sum[x] <= all[x] {
        assert (sum + head)[x] <= (all + head)[x];
      }
    }
    if sum + head == all + head {
      assert sum == (sum + head) - head;
      assert all == (all + head) - head;
    }
  }

  /** Taking an answer always succeeds: the call is known, the answer fits, and the guest runs. */
  lemma AnswerIsTaken(c: Config, s: System)
    requires Proper(c) && Inv(c, s) && Enabled(s, Receive) && s.world.mail[0].CallbackReply?
    ensures s.world.mail[0].completion.id in s.guest.pending
    ensures Next(c, s, Receive) == Answered(s) && G.Sound(Answered(s).guest, c.limits)
  {
    NextAnswer(c, s);
    G.DeliverKeepsSound(c.limits, s.guest, s.world.mail[0].completion);
    hide Bytes, CompletionText, CompletionLimit, G.Deliver, Good, Budgeted, Conserved;
  }

  lemma ReceiveKeepsInv(c: Config, s: System)
    requires Proper(c) && Inv(c, s) && Enabled(s, Receive)
    ensures Inv(c, Next(c, s, Receive))
  {
    hide Good, Budgeted, G.Sound, Conserved;
    assert BrokerRun.Enabled(s.world, Take);
    NextKeepsGood(c.limits, s.world, Take);
    NextKeepsBudgeted(c.limits, s.world, Take);
    assert BrokerRun.Next(c.limits, s.world, Take) == s.world.(mail := s.world.mail[1..]);
    hide BrokerRun.Next;
    if s.world.mail[0].CallbackReply? {
      AnswerIsTaken(c, s);
      AnswerKeepsConserved(c, s);
      AnswerKeepsOrder(c, s);
      hide G.Sound, Good, Budgeted, Conserved, QueuesHonest, InSequence, ReceiveNext, Orderly;
    } else {
      ErrorKeepsConserved(c, s);
      hide G.Sound, Good, Budgeted, Conserved, QueuesHonest;
    }
  }

  lemma AnswerKeepsOrder(c: Config, s: System)
    requires InSequence(s.guest.settled, s.world) && Orderly(s)
    requires s.world.mail != [] && s.world.mail[0].CallbackReply? && s.phase.Waiting?
    ensures InSequence(Answered(s).guest.settled, Answered(s).world) && Orderly(Answered(s))
  {
    var after := s.world.(mail := s.world.mail[1..]);
    if ErrorSent(s.world.mail) {
      var k :| 0 <= k < |s.world.mail| && s.world.mail[k].CallbackError?;
      assert after.mail[k - 1].CallbackError?;
    }
  }

  lemma ErrorKeepsConserved(c: Config, s: System)
    requires Conserved(s) && s.world.mail != [] && s.world.mail[0].CallbackError? && s.phase.Waiting?
    ensures Conserved(ReceiveNext(c, s))
  {
    assert SignalIds(s.world.mail[0]) == multiset{};
    assert Sum(s.world.mail, SignalIds) == multiset{} + Sum(s.world.mail[1..], SignalIds);
    assert multiset{} + Sum(s.world.mail[1..], SignalIds) == Sum(s.world.mail[1..], SignalIds);
    hide Sum, JobSum;
  }

  // ---- The driver gives up, or stops the broker ----

  lemma StopKeepsInv(c: Config, s: System)
    requires Inv(c, s) && Enabled(s, StopBroker)
    ensures Inv(c, Next(c, s, StopBroker))
  {
    hide G.Sound, Good, Budgeted, Conserved, Completions;
    var post := BrokerRun.Post(B.Stop);
    assert BrokerRun.Enabled(s.world, post);
    NextKeepsGood(c.limits, s.world, post);
    NextKeepsBudgeted(c.limits, s.world, post);
    assert BrokerRun.Next(c.limits, s.world, post) == s.world.(inbox := s.world.inbox + [B.Stop]);
    StopKeepsConserved(c, s);
    StopKeepsQueues(c.limits, s.wire, s.world.inbox);
    hide QueuesHonest, BrokerRun.Next;
  }

  lemma StopKeepsQueues(l: Limits, wire: seq<B.Frame>, inbox: seq<B.Msg>)
    requires QueuesHonest(l, wire, inbox)
    ensures QueuesHonest(l, wire, inbox + [B.Stop])
  {
    hide HonestFrame;
  }

  lemma StopKeepsConserved(c: Config, s: System)
    requires Conserved(s) && Enabled(s, StopBroker)
    ensures Conserved(Next(c, s, StopBroker))
  {
    assert MsgIds(B.Stop) == multiset{};
    hide Sum, MsgIds, Conserved;
    SumPost(s.world.inbox, B.Stop);
    SameFlow(s, Next(c, s, StopBroker));
  }

  lemma NextKeepsInv(c: Config, s: System, e: Event)
    requires Proper(c) && Inv(c, s) && Enabled(s, e)
    ensures Inv(c, Next(c, s, e))
  {
    match e
    case GuestCall(call) => CallKeepsInv(c, s, call);
    case GuestYield(_, _, _) => YieldKeepsInv(c, s, e);
    case Carry => CarryKeepsInv(c, s);
    case Broker(b) =>
      if b.Handle? {
        HandleKeepsInv(c, s);
      } else {
        AsideKeepsInv(c, s, b);
      }
    case Receive => ReceiveKeepsInv(c, s);
    case Cancel => CancelKeepsInv(c, s);
    case StopBroker => StopKeepsInv(c, s);
  }

  lemma CancelKeepsInv(c: Config, s: System)
    requires Inv(c, s) && Enabled(s, Cancel)
    ensures Inv(c, Next(c, s, Cancel))
  {
    hide G.Sound, Good, Budgeted, QueuesHonest, Sum, JobSum, Completions;
  }

  // ---- Whole runs ----

  ghost predicate Possible(c: Config, s: System, es: seq<Event>)
    decreases |es|
  {
    es == [] || (Enabled(s, es[0]) && Possible(c, Next(c, s, es[0]), es[1..]))
  }

  ghost function After(c: Config, s: System, es: seq<Event>): System
    requires Possible(c, s, es)
    decreases |es|
  {
    if es == [] then s else After(c, Next(c, s, es[0]), es[1..])
  }

  lemma {:induction false} RunKeepsInv(c: Config, s: System, es: seq<Event>)
    requires Proper(c) && Inv(c, s) && Possible(c, s, es)
    ensures Inv(c, After(c, s, es))
    decreases |es|
  {
    hide Inv, Next, Enabled;
    if es != [] {
      NextKeepsInv(c, s, es[0]);
      RunKeepsInv(c, Next(c, s, es[0]), es[1..]);
    }
  }

  ghost predicate Reachable(c: Config, s: System) {
    exists es :: Possible(c, Boot, es) && After(c, Boot, es) == s
  }

  lemma BootReachable(c: Config)
    ensures Reachable(c, Boot)
  {
    assert Possible(c, Boot, []) && After(c, Boot, []) == Boot;
  }

  lemma StepReachable(c: Config, s: System, e: Event)
    requires Reachable(c, s) && Enabled(s, e)
    ensures Reachable(c, Next(c, s, e))
  {
    hide Possible, After, Enabled, Next;
    var es :| Possible(c, Boot, es) && After(c, Boot, es) == s;
    RunOneMore(c, Boot, es, e);
  }

  lemma {:induction false} RunOneMore(c: Config, s: System, es: seq<Event>, e: Event)
    requires Possible(c, s, es) && Enabled(After(c, s, es), e)
    ensures Possible(c, s, es + [e]) && After(c, s, es + [e]) == Next(c, After(c, s, es), e)
    decreases |es|
  {
    hide Enabled, Next;
    if es == [] {
      assert es + [e] == [e] && [e][1..] == [];
      var after := Next(c, s, e);
      assert Possible(c, after, []) && After(c, after, []) == after;
    } else {
      assert (es + [e])[0] == es[0] && (es + [e])[1..] == es[1..] + [e];
      RunOneMore(c, Next(c, s, es[0]), es[1..], e);
    }
  }

  lemma ReachableInv(c: Config, s: System)
    requires Proper(c) && Reachable(c, s)
    ensures Inv(c, s)
  {
    BootInv(c);
    hide Inv, Possible, After;
    var es :| Possible(c, Boot, es) && After(c, Boot, es) == s;
    RunKeepsInv(c, Boot, es);
  }

  /** In every reachable state: the pending ids of a live run are, each once, the ids buffered in the
      guest, in request frames under way, running as jobs, or in answers under way; in any other state
      nothing is under way that is not pending. Answers are consumed in the order they were sent, ids settle
      at most once, and nothing settled is pending. */
  lemma IdConservation(c: Config, s: System)
    requires Proper(c) && Reachable(c, s)
    ensures InFlight(s) <= multiset(s.guest.pending)
    ensures !s.phase.Finished? && s.world.phase.Live? ==> InFlight(s) == multiset(s.guest.pending)
    ensures s.world.answered == s.guest.settled + Completions(s.world.mail)
    ensures B.Distinct(s.guest.settled)
    ensures forall k :: 0 <= k < |s.guest.settled| ==> s.guest.settled[k].id !in s.guest.pending
    ensures |s.guest.pending| <= c.limits.maxConcurrency && |s.world.answered| <= c.limits.maxCalls
  {
    ReachableInv(c, s);
    hide Reachable, InFlight, Completions, Budgeted, QueuesHonest, Orderly;
    assert |B.Ids(s.world.answered)| <= |s.world.broker.seen| by {
      SubsetSize(B.Ids(s.world.answered), s.world.broker.seen);
    }
    DistinctSize(s.world.answered);
  }

  /** In every reachable state, the answer the driver takes belongs to a pending call, fits the completion
      limit, and resumes the guest: "Unknown callback completion" is never thrown. */
  lemma NoUnknownCompletion(c: Config, s: System)
    requires Proper(c) && Reachable(c, s)
    requires Enabled(s, Receive) && s.world.mail[0].CallbackReply?
    ensures s.world.mail[0].completion.id in s.guest.pending
    ensures Next(c, s, Receive) == Answered(s)
  {
    ReachableInv(c, s);
    hide Reachable, Inv, Next;
    AnswerIsTaken(c, s);
  }

  /** In every reachable state, the broker takes the frame of an honest guest whole: never too long,
      never a duplicate id, never over the call count or the concurrency. It ends the run exactly if
      an argument does not decode, or a denial does not fit `max_callback_output` and some callback is
      not granted. */
  lemma HonestGuestIsNeverRefused(c: Config, s: System)
    requires Proper(c) && Reachable(c, s)
    requires Enabled(s, Broker(Handle)) && s.world.inbox[0].Requests?
    ensures var f := s.world.inbox[0].frame;
            && f.entries.Some?
            && (B.Dispatch(c.limits, s.world.broker, f).refusal.None?
                <==> AllDecode(f.entries.value) && (DenialFits(c.limits) || AllGranted(c.limits, f.entries.value)))
  {
    ReachableInv(c, s);
    hide Reachable, Inv, Welcome, DenialFits, AllDecode, AllGranted, B.Dispatch;
    HeadIsWelcome(c, s);
    WelcomeIsTaken(c.limits, s.world.broker, s.world.inbox[0]);
  }

  lemma WelcomeIsTaken(l: Limits, b: B.State, m: B.Msg)
    requires Welcome(l, b, m) && m.Requests?
    ensures m.frame.entries.Some?
    ensures B.Dispatch(l, b, m.frame).refusal.None?
            <==> AllDecode(m.frame.entries.value) && (DenialFits(l) || AllGranted(l, m.frame.entries.value))
  {
    hide Room, Unseen, AllHonest, AllDecode, DenialFits, AllGranted, B.DispatchBatch;
    HonestBatch(l, b, m.frame.entries.value);
  }

  // ---- An argument that does not decode ----

  /** One call with room for it. */
  ghost predicate Callable(c: Config, name: string, text: string) {
    && Proper(c) && c.limits.maxCalls >= 1
    && G.GoodName(G.Str(name)) && Bytes(text) <= c.limits.maxInput
  }

  /** The guest has made its first call and waits. */
  function Asked(c: Config, r: Request): System {
    System(G.Guest(1, {1}, [], false, []), Waiting, [FrameOf(c, [r])], Start)
  }

  lemma FirstCallReachable(c: Config, name: string, text: string)
    requires Callable(c, name, text)
    ensures Reachable(c, Asked(c, Request(1, name, text)))
  {
    var r := Request(1, name, text);
    var call := GuestCall(G.Call(G.Str(name), [], G.Json(text)));
    BootReachable(c);
    FirstCall(c, name, text);
    hide Next, Reachable, FrameOf, Bytes, Enabled;
    assert Enabled(Boot, call) by { FirstCallEnabled(call); }
    StepReachable(c, Boot, call);
    FirstYield(c, r);
    StepReachable(c, Next(c, Boot, call), GuestYield(G.Unsettled, None, ""));
  }

  lemma FirstCallEnabled(e: Event)
    requires e.GuestCall? && e.call.nested == []
    ensures Enabled(Boot, e)
  {
  }

  lemma FirstCall(c: Config, name: string, text: string)
    requires Callable(c, name, text)
    ensures Next(c, Boot, GuestCall(G.Call(G.Str(name), [], G.Json(text))))
         == Boot.(guest := G.Guest(1, {1}, [Request(1, name, text)], false, []))
  {
    hide Bytes;
    assert G.CallsEffect(c.limits, G.Fresh.(count := 1), []) == G.Fresh.(count := 1);
    assert {} + {1} == {1} && [] + [Request(1, name, text)] == [Request(1, name, text)];
  }

  lemma FirstYield(c: Config, r: Request)
    requires Callable(c, r.name, r.argument) && r.id == 1
    ensures var s := Boot.(guest := G.Guest(1, {1}, [r], false, []));
            && Enabled(s, GuestYield(G.Unsettled, None, ""))
            && Next(c, s, GuestYield(G.Unsettled, None, "")) == Asked(c, r)
  {
    OneRequestFits(c, r);
    hide Bytes, StateText, FrameOf, NativeRequestLimit;
    assert [] + [FrameOf(c, [r])] == [FrameOf(c, [r])];
  }

  lemma OneRequestFits(c: Config, r: Request)
    requires Callable(c, r.name, r.argument) && r.id == 1
    ensures Bytes(StateText(false, false, [r])) <= NativeRequestLimit(c.limits, c.usizeMax)
  {
    var one := c.limits.(maxConcurrency := 1);
    hide Bytes, StateText;
    StateFits(false, false, [r], one);
    RequestLimitsAgree(c.limits, c.usizeMax);
    MulMonotone(1, c.limits.maxConcurrency, 6 * c.limits.maxInput + 2048);
  }

  /** The frame of that call has reached the broker. */
  function Carried(c: Config, r: Request): System {
    System(G.Guest(1, {1}, [], false, []), Waiting, [], Start.(inbox := [B.Requests(FrameOf(c, [r]))]))
  }

  lemma FirstFrameReachable(c: Config, r: Request)
    requires Callable(c, r.name, r.argument) && r.id == 1
    ensures Reachable(c, Carried(c, r))
    ensures FrameOf(c, [r]).entries == Some([EntryOf(c, r)])
  {
    FirstCallReachable(c, r.name, r.argument);
    hide Bytes, StateText, Reachable;
    var es := Entries(c, [r]);
    assert es == [es[0]] && es[0] == EntryOf(c, [r][0]);
    assert Enabled(Asked(c, r), Carry) && Next(c, Asked(c, r), Carry) == Carried(c, r);
    StepReachable(c, Asked(c, r), Carry);
  }

  lemma RefusedAlone(l: Limits, e: B.Entry)
    requires e.Entry? ==> e.argument.NotJson?
    ensures exists message: string ::
              B.DispatchBatch(l, B.Idle, [e]) == B.Batch(B.Idle, [], Some(message))
  {
  }

  /** The broker has refused the frame and told the driver. */
  function RefusedState(c: Config, message: string): System {
    System(G.Guest(1, {1}, [], false, []), Waiting, [],
           Start.(phase := Cleaning({}), mail := [CallbackError(CallbackLimit, message)]))
  }

  lemma RefusingTurn(l: Limits, w: World, kind: Kind, message: string)
    requires w.phase.Live? && w.inbox != []
    requires B.React(l, w.broker, w.inbox[0]) == B.Reaction(w.broker, [], Some(B.Failure(kind, message)))
    ensures BrokerRun.Next(l, w, Handle)
         == w.(phase := Cleaning(w.broker.jobs.Keys), timers := {}, inbox := w.inbox[1..],
               mail := w.mail + [CallbackError(kind, message)])
  {
    hide B.React;
    var after := BrokerRun.Next(l, w, Handle);
    assert after.procs == w.procs;
    assert w.mail + [] + [CallbackError(kind, message)] == w.mail + [CallbackError(kind, message)];
    assert w.answered + [] == w.answered;
  }

  lemma RefusalIsSent(c: Config, r: Request)
    requires Proper(c) && FrameOf(c, [r]).entries == Some([EntryOf(c, r)]) && !c.decodes(r.argument)
    requires FrameOf(c, [r]).size <= RequestLimit(c.limits)
    ensures exists message: string :: Next(c, Carried(c, r), Broker(Handle)) == RefusedState(c, message)
  {
    RefusedAlone(c.limits, EntryOf(c, r));
    var message: string :|
      B.DispatchBatch(c.limits, B.Idle, [EntryOf(c, r)]) == B.Batch(B.Idle, [], Some(message));
    hide B.DispatchBatch, FrameOf, EntryOf, Bytes, RequestLimit;
    var w := Carried(c, r).world;
    assert B.React(c.limits, w.broker, w.inbox[0]) == B.Reaction(w.broker, [], Some(B.Failure(CallbackLimit, message)));
    hide B.React;
    RefusingTurn(c.limits, w, CallbackLimit, message);
    hide BrokerRun.Next;
    assert w.inbox[1..] == [] && B.Idle.jobs.Keys == {};
    assert [] + [CallbackError(CallbackLimit, message)] == [CallbackError(CallbackLimit, message)];
    assert Next(c, Carried(c, r), Broker(Handle)) == RefusedState(c, message);
  }

  /** A granted call whose argument does not decode ends the run. The guest's `JSON.stringify` writes such
      an argument for a string with an unpaired surrogate. */
  lemma UndecodableArgumentEndsRun(c: Config, name: string, text: string) returns (s: System)
    requires Callable(c, name, text) && name in c.limits.granted && !c.decodes(text)
    ensures Reachable(c, s) && s.phase == Finished(Errored(CallbackLimit)) && s.guest.pending == {1}
    ensures Reachable(c, Carried(c, Request(1, name, text)))
  {
    var r := Request(1, name, text);
    FirstFrameReachable(c, r);
    OneRequestFits(c, r);
    RequestLimitsAgree(c.limits, c.usizeMax);
    assert FrameOf(c, [r]).size <= RequestLimit(c.limits) by { hide Bytes, StateText, RequestLimit; }
    hide Bytes, StateText, RequestLimit, NativeRequestLimit, Reachable, FrameOf, EntryOf, Next;
    RefusalIsSent(c, r);
    var message: string :| Next(c, Carried(c, r), Broker(Handle)) == RefusedState(c, message);
    StepReachable(c, Carried(c, r), Broker(Handle));
    LastSignal(c, message);
    StepReachable(c, RefusedState(c, message), Receive);
    s := Next(c, RefusedState(c, message), Receive);
  }

  lemma LastSignal(c: Config, message: string)
    ensures Enabled(RefusedState(c, message), Receive)
    ensures var s := Next(c, RefusedState(c, message), Receive);
            s.phase == Finished(Errored(CallbackLimit)) && s.guest.pending == {1}
  {
  }

  /** The argument `"\ud800"`, which takes eight bytes. */
  lemma LoneSurrogateEndsRun(c: Config, name: string) returns (s: System)
    requires Proper(c) && c.limits.maxCalls >= 1 && c.limits.maxInput >= 8
    requires G.GoodName(G.Str(name)) && name in c.limits.granted && !c.decodes("\"\\ud800\"")
    ensures Reachable(c, s) && s.phase == Finished(Errored(CallbackLimit)) && s.guest.pending == {1}
  {
    AsciiBytes("\"\\ud800\"");
    hide Reachable, Bytes;
    s := UndecodableArgumentEndsRun(c, name, "\"\\ud800\"");
  }

  // ---- No lost wakeup ----

  lemma {:induction false} SomeoneCarries<T>(xs: seq<T>, ids: T -> multiset<nat>, id: nat) returns (k: nat)
    requires id in Sum(xs, ids)
    ensures k < |xs| && id in ids(xs[k])
  {
    if id in ids(xs[0]) {
      k := 0;
    } else {
      k := SomeoneCarries(xs[1..], ids, id);
      k := k + 1;
    }
  }

  /** A call that will be heard of: it is in a request frame under way, or running as a job whose
      process lives or has just exited, or in an answer under way. */
  ghost predicate Underway(s: System, id: nat) {
    || (exists k :: 0 <= k < |s.wire| && id in FrameIds(s.wire[k]))
    || (exists k :: 0 <= k < |s.world.inbox| && id in MsgIds(s.world.inbox[k]))
    || (exists p :: p in s.world.broker.jobs && s.world.broker.jobs[p].id == id
                    && (p in s.world.procs || B.Down(p) in s.world.inbox))
    || (exists k :: 0 <= k < |s.world.mail| && id in SignalIds(s.world.mail[k]))
  }

  lemma JobIsUnderway(w: World, id: nat)
    requires Accounted(w) && w.phase.Live? && id in JobSum(w.broker)
    ensures exists p :: p in w.broker.jobs && w.broker.jobs[p].id == id && (p in w.procs || B.Down(p) in w.inbox)
  {
    var p :| p in w.broker.jobs && w.broker.jobs[p].id == id;
    if p !in w.procs {
      assert p in multiset(Owed(w) - w.procs.Keys);
      var k := DownsFind(w.inbox, p);
      assert w.inbox[k] == B.Down(p);
    }
  }

  /** An id that is in flight outside the guest is under way. */
  lemma InFlightIsUnderway(s: System, id: nat)
    requires Accounted(s.world) && s.guest.requests == [] && id in InFlight(s)
    ensures Underway(s, id)
  {
    var w := s.world;
    assert Sum(s.guest.requests, RequestId) == multiset{};
    hide Sum, Accounted;
    if id in Sum(s.wire, FrameIds) {
      var k := SomeoneCarries(s.wire, FrameIds, id);
    } else if id in Sum(w.inbox, MsgIds) {
      var k := SomeoneCarries(w.inbox, MsgIds, id);
    } else if id in Sum(w.mail, SignalIds) {
      var k := SomeoneCarries(w.mail, SignalIds, id);
    } else {
      JobIsUnderway(w, id);
    }
  }

  /** Something other than the deadline will reach a waiting driver: the broker's failure, or news of
      every call that is pending. */
  ghost predicate Awaited(s: System) {
    ErrorSent(s.world.mail) || forall id :: id in s.guest.pending ==> Underway(s, id)
  }

  lemma WaitingIsAwaited(c: Config, s: System)
    requires Inv(c, s) && s.phase.Waiting?
    ensures Awaited(s)
  {
    hide G.Sound, Budgeted, InSequence, QueuesHonest, InFlight, Underway, ErrorSent;
    if s.world.phase.Live? {
      assert InFlight(s) == multiset(s.guest.pending);
      assert Accounted(s.world);
      forall id | id in s.guest.pending ensures Underway(s, id) {
        assert id in multiset(s.guest.pending);
        InFlightIsUnderway(s, id);
      }
    }
  }

  /** In every reachable state, a waiting driver has the broker's failure coming or news of each of its
      pending calls; one that waits with none pending has no job running and no answer under way. */
  lemma NoLostWakeup(c: Config, s: System)
    requires Proper(c) && Reachable(c, s) && s.phase.Waiting?
    ensures Awaited(s)
    ensures s.guest.pending == {} ==>
              (s.world.phase.Live? ==> s.world.broker.jobs == map[]) && Completions(s.world.mail) == []
  {
    ReachableInv(c, s);
    hide Reachable, Awaited;
    WaitingIsAwaited(c, s);
    if s.guest.pending == {} {
      NothingPending(c, s);
    }
  }

  lemma NothingPending(c: Config, s: System)
    requires Inv(c, s) && s.guest.pending == {}
    ensures s.world.phase.Live? ==> s.world.broker.jobs == map[]
    ensures Completions(s.world.mail) == []
  {
    var w := s.world;
    PartsUnder(multiset(s.guest.pending), Sum(s.guest.requests, RequestId), Sum(s.wire, FrameIds),
               Sum(w.inbox, MsgIds), LiveSum(w), Sum(w.mail, SignalIds));
    CompletionsInMail(w.mail);
    hide Sum, Good, Budgeted, QueuesHonest, Orderly, Completions;
    FirstId(Completions(w.mail));
    EveryJobId(w.broker.jobs);
    if w.phase.Live? {
      assert w.broker.jobs.Keys == {};
    }
  }

  lemma FirstId(cs: seq<Completion>)
    ensures cs != [] ==> cs[0].id in B.Ids(cs)
  {
  }

  lemma EveryJobId(jobs: map<B.Pid, B.Job>)
    ensures forall p :: p in jobs ==> jobs[p].id in B.JobIds(jobs)
  {
  }

  /** No call is lost: from every state in which the driver waits with calls pending, the broker's
      and the callbacks' own steps can bring it a signal. */
  lemma {:induction false} SignalReachable(c: Config, s: System) returns (es: seq<Event>)
    requires Proper(c) && Inv(c, s) && s.phase.Waiting? && s.guest.pending != {}
    ensures Possible(c, s, es) && After(c, s, es).world.mail != []
    ensures After(c, s, es).phase.Waiting? && After(c, s, es).guest == s.guest
    decreases 2 * |s.wire| + |s.world.inbox|
  {
    var w := s.world;
    if w.mail != [] {
      es := [];
    } else {
      var e: Event;
      if s.wire != [] {
        e := Carry;
      } else if w.inbox != [] {
        assert w.phase.Live?;
        e := Broker(Handle);
      } else {
        es := ExitBringsSignal(c, s);
        return;
      }
      NextKeepsInv(c, s, e);
      var mid := Next(c, s, e);
      if e.Broker? {
        HandleShape(c.limits, w);
      }
      hide Inv, BrokerRun.Next;
      var rest := SignalReachable(c, mid);
      es := [e] + rest;
      hide Next, Enabled;
      assert es[1..] == rest;
    }
  }

  lemma ExitBringsSignal(c: Config, s: System) returns (es: seq<Event>)
    requires Proper(c) && Inv(c, s) && s.phase.Waiting? && s.guest.pending != {}
    requires s.world.mail == [] && s.wire == [] && s.world.inbox == []
    ensures Possible(c, s, es) && After(c, s, es).world.mail != []
    ensures After(c, s, es).phase.Waiting? && After(c, s, es).guest == s.guest
  {
    hide Inv, Next, BrokerRun.Next, B.React;
    var p := SomeoneRuns(c, s);
    var exit := Broker(Exit(p));
    ExitThenHandle(c, s, p);
    hide Enabled;
    RunTwo(c, s, exit, Broker(Handle));
    es := [exit, Broker(Handle)];
  }

  lemma SomeoneRuns(c: Config, s: System) returns (p: B.Pid)
    requires Inv(c, s) && s.phase.Waiting? && s.guest.pending != {}
    requires s.world.mail == [] && s.wire == [] && s.world.inbox == []
    ensures p in s.world.broker.jobs && p in s.world.procs && s.world.phase.Live?
  {
    WaitingIsAwaited(c, s);
    var id :| id in s.guest.pending;
    hide Good, Budgeted, Conserved, G.Sound, QueuesHonest, InSequence, FrameIds, MsgIds, SignalIds;
    p :| p in s.world.broker.jobs && p in s.world.procs;
  }

  /** The exit of the only message source brings an answer or the broker's failure. */
  lemma ExitThenHandle(c: Config, s: System, p: B.Pid)
    requires p in s.world.broker.jobs && p in s.world.procs && s.world.phase.Live? && s.world.inbox == []
    ensures Enabled(s, Broker(Exit(p))) && Enabled(Next(c, s, Broker(Exit(p))), Broker(Handle))
    ensures var last := Next(c, Next(c, s, Broker(Exit(p))), Broker(Handle));
            last.world.mail != [] && last.phase == s.phase && last.guest == s.guest
  {
    var mid := Next(c, s, Broker(Exit(p)));
    assert mid.world == s.world.(procs := s.world.procs - {p}, inbox := [B.Down(p)]);
    hide BrokerRun.Next, B.React;
    HandleShape(c.limits, mid.world);
    FinishSignals(c.limits, mid.world.broker, p);
  }

  lemma RunTwo(c: Config, s: System, d: Event, e: Event)
    requires Enabled(s, d) && Enabled(Next(c, s, d), e)
    ensures Possible(c, s, [d, e]) && After(c, s, [d, e]) == Next(c, Next(c, s, d), e)
  {
    hide Next, Enabled;
    var mid := Next(c, s, d);
    assert [d, e][1..] == [e] && [e][1..] == [];
    assert Possible(c, Next(c, mid, e), []);
    assert After(c, mid, [e]) == Next(c, mid, e);
  }

  lemma FinishSignals(l: Limits, b: B.State, p: B.Pid)
    requires p in b.jobs
    ensures var r := B.React(l, b, B.Down(p)); Replies(r.replies) + Errors(r.ending) != []
  {
    hide B.Answer;
  }
}
