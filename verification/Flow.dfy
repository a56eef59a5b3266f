/** Counting ids along queues: which calls are where, with multiplicity. */
module Flow {
  import opened Text
  import opened Wrappers
  import opened Wire
  import opened Broker
  import opened BrokerRun

  function Sum<T>(xs: seq<T>, ids: T -> multiset<nat>): multiset<nat> {
    if xs == [] then multiset{} else ids(xs[0]) + Sum(xs[1..], ids)
  }

  lemma {:induction false} SumConcat<T>(a: seq<T>, b: seq<T>, ids: T -> multiset<nat>)
    ensures Sum(a + b, ids) == Sum(a, ids) + Sum(b, ids)
  {
    if a == [] {
      assert a + b == b;
    } else {
      assert (a + b)[0] == a[0] && (a + b)[1..] == a[1..] + b;
      SumConcat(a[1..], b, ids);
    }
  }

  lemma SumOne<T>(x: T, ids: T -> multiset<nat>)
    ensures Sum([x], ids) == ids(x)
  {
    assert [x][1..] == [];
  }

  lemma SumAppend<T>(xs: seq<T>, x: T, ids: T -> multiset<nat>)
    ensures Sum(xs + [x], ids) == Sum(xs, ids) + ids(x)
  {
    SumConcat(xs, [x], ids);
    SumOne(x, ids);
  }

  // ---- The ids each kind of record carries ----

  function RequestId(r: Request): multiset<nat> { multiset{r.id} }

  function EntryId(e: Entry): multiset<nat> {
    if e.Entry? && e.id >= 0 then multiset{e.id as nat} else multiset{}
  }

  function FrameIds(f: Frame): multiset<nat> {
    if f.entries.Some? then Sum(f.entries.value, EntryId) else multiset{}
  }

  function MsgIds(m: Msg): multiset<nat> {
    if m.Requests? then FrameIds(m.frame) else multiset{}
  }

  function CompletionId(c: Completion): multiset<nat> { multiset{c.id} }

  function SignalIds(s: Signal): multiset<nat> {
    if s.CallbackReply? then CompletionId(s.completion) else multiset{}
  }

  function JobSum(b: State): multiset<nat> { multiset(JobIds(b.jobs)) }

  // ---- Facts about multisets under a set ----

  lemma AddOne(s: set<nat>, id: nat)
    requires id !in s
    ensures multiset(s + {id}) == multiset(s) + multiset{id}
  {
  }

  lemma DropOne(s: set<nat>, id: nat)
    requires id in s
    ensures multiset(s) == multiset(s - {id}) + multiset{id}
  {
  }

  /** A queue whose ids lie under a set holds each at most once. */
  lemma {:induction false} SumUnderSet<T>(xs: seq<T>, ids: T -> multiset<nat>, s: set<nat>)
    requires Sum(xs, ids) <= multiset(s)
    ensures forall k, id :: 0 <= k < |xs| && id in ids(xs[k]) ==> id in s && id in Sum(xs, ids)
    ensures forall j, k, id :: 0 <= j < k < |xs| && id in ids(xs[j]) ==> id !in ids(xs[k])
  {
    if xs != [] {
      var rest := xs[1..];
      assert Sum(xs, ids) == ids(xs[0]) + Sum(rest, ids);
      assert Sum(rest, ids) <= multiset(s);
      SumUnderSet(rest, ids, s);
      forall k, id | 0 <= k < |xs| && id in ids(xs[k]) ensures id in s && id in Sum(xs, ids) {
        if k > 0 {
          assert xs[k] == rest[k - 1];
        }
        assert Sum(xs, ids)[id] >= 1;
        assert multiset(s)[id] >= 1;
      }
      forall j, k, id | 0 <= j < k < |xs| && id in ids(xs[j]) ensures id !in ids(xs[k]) {
        assert xs[k] == rest[k - 1];
        if j > 0 {
          assert xs[j] == rest[j - 1];
        } else {
          assert Sum(xs, ids)[id] == ids(xs[0])[id] + Sum(rest, ids)[id] <= multiset(s)[id] <= 1;
          assert Sum(rest, ids)[id] == 0;
        }
      }
    }
  }

  lemma {:induction false} SumSize<T>(xs: seq<T>, ids: T -> multiset<nat>)
    requires forall k :: 0 <= k < |xs| ==> |ids(xs[k])| == 1
    ensures |Sum(xs, ids)| == |xs|
  {
    if xs != [] {
      SumSize(xs[1..], ids);
    }
  }

  lemma SizeUnderSet(a: multiset<nat>, s: set<nat>)
    requires a <= multiset(s)
    ensures |a| <= |s|
  {
    assert multiset(s) == a + (multiset(s) - a);
    assert |multiset(s)| == |s|;
  }

  // ---- What the broker does with honest requests ----

  /** An entry as the guest bridge writes it for a well-formed call. Its argument is a JSON text for the
      guest; the broker's decoder can still reject it. */
  ghost predicate HonestEntry(l: Limits, e: Entry) {
    && e.Entry? && 1 <= e.id <= 1024
    && e.name.Utf8? && 1 <= Bytes(e.name.text) <= MAX_NAME
    && (match e.argument case JsonText(text) => Bytes(text) case NotJson(size) => size) <= l.maxInput
  }

  ghost predicate HonestFrame(l: Limits, f: Frame) {
    && f.size <= RequestLimit(l)
    && f.entries.Some? && |f.entries.value| <= l.maxConcurrency
    && AllHonest(l, f.entries.value)
  }

  /** Fresh ids, each once. */
  ghost predicate Unseen(b: State, entries: seq<Entry>) {
    && (forall k :: 0 <= k < |entries| && entries[k].Entry? ==> entries[k].id !in b.seen)
    && (forall j, k :: 0 <= j < k < |entries| && entries[j].Entry? && entries[k].Entry? ==>
         entries[j].id != entries[k].id)
  }

  /** Whether the broker can afford to tell a guest that a callback is not granted. */
  ghost predicate DenialFits(l: Limits) {
    Bytes(ErrorText(DENIED_CODE, DENIED_MESSAGE)) <= l.maxOutput
  }

  ghost predicate AllGranted(l: Limits, entries: seq<Entry>) {
    forall k :: 0 <= k < |entries| && entries[k].Entry? && entries[k].name.Utf8? ==> entries[k].name.text in l.granted
  }

  ghost predicate AllDecode(entries: seq<Entry>) {
    forall k :: 0 <= k < |entries| && entries[k].Entry? ==> entries[k].argument.JsonText?
  }

  /** What the broker needs in order to take every entry. */
  ghost predicate Takeable(l: Limits, entries: seq<Entry>) {
    AllDecode(entries) && (DenialFits(l) || AllGranted(l, entries))
  }

  lemma HonestRequest(l: Limits, b: State, e: Entry)
    requires HonestEntry(l, e) && Admitted(l, b, e.id)
    ensures var v := DispatchRequest(l, b, e);
            if e.argument.JsonText? && (e.name.text in l.granted || DenialFits(l)) then
              Takes(b, e.id, v) && v.Accepted?
            else v.Refused?
  {
    hide Bytes, ErrorText;
    var v := DispatchRequest(l, b, e);
    if e.argument.NotJson? {
    } else if e.name.text in l.granted {
      assert v == Started(b, e.id);
    } else if DenialFits(l) {
      assert v == Denied(b, Rejected(e.id, DENIED_CODE, DENIED_MESSAGE));
    }
  }

  /** The request `id` became a job or was answered with a denial. */
  ghost predicate Takes(b: State, id: nat, v: Verdict) {
    v == Started(b, id) || (exists c: Completion :: c.id == id && v == Denied(b, c))
  }

  ghost predicate AllHonest(l: Limits, entries: seq<Entry>) {
    forall k :: 0 <= k < |entries| ==> HonestEntry(l, entries[k])
  }

  lemma HonestRest(l: Limits, entries: seq<Entry>)
    requires AllHonest(l, entries) && entries != []
    ensures HonestEntry(l, entries[0]) && AllHonest(l, entries[1..])
  {
  }

  /** A broker with `n` calls and `n` slots to spare. */
  ghost predicate Room(l: Limits, b: State, n: nat) {
    && Injective(b.jobs)
    && JobIds(b.jobs) <= b.seen
    && (forall p :: p in b.jobs ==> p < b.spawned)
    && |b.seen| + n <= l.maxCalls
    && |b.jobs| + n <= l.maxConcurrency
  }

  /** What starting a job or denying a request does to the ids. */
  lemma HonestStep(l: Limits, b: State, id: nat, v: Verdict, n: nat)
    requires id !in b.seen && n >= 1 && Room(l, b, n)
    requires Takes(b, id, v)
    ensures Room(l, v.state, n - 1) && v.state.seen == b.seen + {id}
    ensures JobSum(v.state) + Sum(v.replies, CompletionId) == JobSum(b) + multiset{id}
  {
    if v == Started(b, id) {
      AddJob(b.jobs, b.spawned, id);
      AddOne(JobIds(b.jobs), id);
    } else {
      SumOne(v.replies[0], CompletionId);
    }
  }

  lemma UnseenRest(b: State, entries: seq<Entry>, after: State)
    requires entries != [] && entries[0].Entry? && Unseen(b, entries)
    requires entries[0].id >= 0 && after.seen == b.seen + {entries[0].id}
    ensures Unseen(after, entries[1..])
  {
  }

  lemma GrantedRest(l: Limits, entries: seq<Entry>)
    requires entries != [] && entries[0].Entry? && entries[0].name.Utf8?
    ensures AllGranted(l, entries) <==> entries[0].name.text in l.granted && AllGranted(l, entries[1..])
  {
    var rest := entries[1..];
    assert forall k :: 1 <= k < |entries| ==> entries[k] == rest[k - 1];
    if entries[0].name.text in l.granted && AllGranted(l, rest) {
      forall k | 0 <= k < |entries| && entries[k].Entry? && entries[k].name.Utf8?
        ensures entries[k].name.text in l.granted
      {
        if k > 0 {
          assert entries[k] == rest[k - 1];
        }
      }
    }
    if AllGranted(l, entries) {
      forall k | 0 <= k < |rest| && rest[k].Entry? && rest[k].name.Utf8? ensures rest[k].name.text in l.granted {
        assert rest[k] == entries[k + 1];
      }
    }
  }

  lemma TakeableRest(l: Limits, entries: seq<Entry>)
    requires entries != [] && entries[0].Entry? && entries[0].name.Utf8?
    ensures Takeable(l, entries) <==>
              && entries[0].argument.JsonText? && (entries[0].name.text in l.granted || DenialFits(l))
              && Takeable(l, entries[1..])
  {
    hide DenialFits, AllGranted;
    GrantedRest(l, entries);
    var rest := entries[1..];
    assert forall k :: 1 <= k < |entries| ==> entries[k] == rest[k - 1];
    assert forall k :: 0 <= k < |rest| ==> rest[k] == entries[k + 1];
  }

  lemma RegroupBatch(start: multiset<nat>, first: multiset<nat>, id: multiset<nat>, mid: multiset<nat>,
                     last: multiset<nat>, rest: multiset<nat>, end: multiset<nat>)
    requires mid + first == start + id
    ensures end + last == mid + rest ==> end + (first + last) == start + (id + rest)
    ensures last <= mid + rest ==> first + last <= start + (id + rest)
  {
    if end + last == mid + rest {
      assert end + (first + last) == (end + last) + first == mid + first + rest == start + id + rest;
    }
    if last <= mid + rest {
      assert first + last <= first + (mid + rest) == (mid + first) + rest == start + id + rest == start + (id + rest);
    }
  }

  lemma FirstAdmitted(l: Limits, b: State, entries: seq<Entry>)
    requires AllHonest(l, entries) && Unseen(b, entries) && Room(l, b, |entries|) && entries != []
    ensures var e := entries[0];
            && HonestEntry(l, e) && e.id !in b.seen && Admitted(l, b, e.id)
            && EntryId(e) == multiset{e.id as nat} && AllHonest(l, entries[1..])
  {
    HonestRest(l, entries);
  }

  lemma TakesRest(l: Limits, b: State, entries: seq<Entry>, id: nat, v: Verdict)
    requires Unseen(b, entries) && Room(l, b, |entries|) && entries != [] && entries[0].Entry?
    requires entries[0].id == id && id !in b.seen && v.Accepted? && Takes(b, id, v)
    ensures Unseen(v.state, entries[1..]) && Room(l, v.state, |entries[1..]|)
    ensures JobSum(v.state) + Sum(v.replies, CompletionId) == JobSum(b) + multiset{id}
  {
    hide Unseen, Room, Takes, JobSum, Sum;
    HonestStep(l, b, id, v, |entries|);
    UnseenRest(b, entries, v.state);
  }

  /** The broker never refuses an honest batch of fresh ids that is within the remaining calls and
      free slots, except to end the run at an argument that it cannot decode or a denial that it
      cannot afford. */
  lemma {:induction false} HonestBatch(l: Limits, b: State, entries: seq<Entry>)
    requires AllHonest(l, entries) && Unseen(b, entries) && Room(l, b, |entries|)
    ensures DispatchBatch(l, b, entries).refusal.None? <==> Takeable(l, entries)
    decreases |entries|
  {
    if entries != [] {
      FirstAdmitted(l, b, entries);
      assert entries[0].Entry? && entries[0].name.Utf8? && entries[0].id >= 1;
      hide DispatchRequest, AllHonest, HonestEntry, Admitted, DenialFits, Takeable, JobSum, Room, Unseen, Takes;
      hide EntryId, CompletionId, Sum;
      HonestRequest(l, b, entries[0]);
      TakeableRest(l, entries);
      var v := DispatchRequest(l, b, entries[0]);
      if v.Accepted? {
        TakesRest(l, b, entries, entries[0].id, v);
        HonestBatch(l, v.state, entries[1..]);
      }
    }
  }

  /** Each honest request of a batch becomes a job or an answer; a batch cut short loses ids but
      invents none. */
  lemma {:induction false} HonestBatchFlow(l: Limits, b: State, entries: seq<Entry>)
    requires AllHonest(l, entries) && Unseen(b, entries) && Room(l, b, |entries|)
    ensures var r := DispatchBatch(l, b, entries);
            && (r.refusal.None? ==>
                 JobSum(r.state) + Sum(r.replies, CompletionId) == JobSum(b) + Sum(entries, EntryId))
            && Sum(r.replies, CompletionId) <= JobSum(b) + Sum(entries, EntryId)
    decreases |entries|
  {
    if entries != [] {
      var e := entries[0];
      var rest := entries[1..];
      assert Sum(entries, EntryId) == EntryId(e) + Sum(rest, EntryId);
      assert Sum([], CompletionId) == multiset{};
      FirstAdmitted(l, b, entries);
      assert e.Entry? && e.name.Utf8? && e.id >= 1;
      hide DispatchRequest, AllHonest, HonestEntry, Admitted, DenialFits, JobSum, Room, Unseen, Takes;
      hide EntryId, CompletionId, Sum;
      HonestRequest(l, b, e);
      var v := DispatchRequest(l, b, e);
      if v.Accepted? {
        TakesRest(l, b, entries, e.id, v);
        HonestBatchFlow(l, v.state, rest);
        var tail := DispatchBatch(l, v.state, rest);
        SumConcat(v.replies, tail.replies, CompletionId);
        RegroupBatch(JobSum(b), Sum(v.replies, CompletionId), multiset{e.id as nat}, JobSum(v.state),
                     Sum(tail.replies, CompletionId), Sum(rest, EntryId), JobSum(tail.state));
      }
    }
  }

  /** A request frame that the broker will take whole. */
  ghost predicate Welcome(l: Limits, b: State, m: Msg) {
    m.Requests? ==>
      && HonestFrame(l, m.frame)
      && Unseen(b, m.frame.entries.value) && Room(l, b, |m.frame.entries.value|)
  }

  /** A turn of the broker moves ids from the message and the jobs to jobs and answers; a turn that
      ends the broker loses some but invents none. */
  lemma HonestReact(l: Limits, b: State, m: Msg)
    requires Injective(b.jobs) && Tracked(b) && Welcome(l, b, m)
    ensures var r := React(l, b, m);
            && (r.ending.None? ==> JobSum(r.state) + Sum(r.replies, CompletionId) == JobSum(b) + MsgIds(m))
            && Sum(r.replies, CompletionId) <= JobSum(b) + MsgIds(m)
  {
    match m
    case Requests(f) =>
      hide Unseen, Room, AllHonest, Injective, Tracked;
      HonestBatchFlow(l, b, f.entries.value);
    case Result(pid, report) =>
      if pid in b.jobs {
        StoreResult(b.jobs, pid, report);
      }
    case Down(pid) =>
      if pid in b.jobs {
        FinishFlow(l, b, pid);
      }
    case _ =>
  }

  lemma FinishFlow(l: Limits, b: State, pid: Pid)
    requires Injective(b.jobs) && Tracked(b) && pid in b.jobs
    ensures var r := Finish(l, b, pid);
            && (r.ending.None? ==> JobSum(r.state) + Sum(r.replies, CompletionId) == JobSum(b))
            && Sum(r.replies, CompletionId) <= JobSum(b)
  {
    hide EncodeError;
    DropJob(b.jobs, pid);
    DropOne(JobIds(b.jobs), b.jobs[pid].id);
    var r := Finish(l, b, pid);
    if r.ending.None? {
      SumOne(r.replies[0], CompletionId);
    }
  }
}
