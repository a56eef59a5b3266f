/** Exactly what the broker makes of a batch of requests, honest or forged: which it takes, which
    callbacks it starts, and which it denies. */
module Batches {
  import opened Text
  import opened Wrappers
  import opened Wire
  import opened Broker
  import opened Flow

  // ---- What requests ask for ----

  predicate Named(e: Entry) {
    e.Entry? && e.id >= 1 && e.name.Utf8?
  }

  predicate AllNamed(es: seq<Entry>) {
    forall k :: 0 <= k < |es| ==> Named(es[k])
  }

  function EntryIds(es: seq<Entry>): set<nat>
    requires AllNamed(es)
  {
    if es == [] then {} else {es[0].id as nat} + EntryIds(es[1..])
  }

  /** The granted requests of a list, and the denials of the others, in order. */
  function Granted(l: Limits, es: seq<Entry>): (r: seq<Entry>)
    requires AllNamed(es)
    ensures AllNamed(r)
  {
    if es == [] then []
    else (if es[0].name.text in l.granted then [es[0]] else []) + Granted(l, es[1..])
  }

  function Denials(l: Limits, es: seq<Entry>): seq<Completion>
    requires AllNamed(es)
  {
    if es == [] then [] else DenialOf(l, es[0]) + Denials(l, es[1..])
  }

  function DenialOf(l: Limits, e: Entry): seq<Completion>
    requires Named(e)
  {
    if e.name.text in l.granted then [] else [Rejected(e.id, DENIED_CODE, DENIED_MESSAGE)]
  }

  /** The jobs of callbacks that are started one after the other. */
  function Starting(first: Pid, es: seq<Entry>): map<Pid, Job>
    requires AllNamed(es)
    decreases |es|
  {
    if es == [] then map[] else map[first := Job(es[0].id, None)] + Starting(first + 1, es[1..])
  }

  /** A broker that has taken these requests. */
  ghost predicate HasTaken(l: Limits, b: State, es: seq<Entry>, after: State, replies: seq<Completion>)
    requires AllNamed(es)
  {
    var started := Granted(l, es);
    && after.seen == b.seen + EntryIds(es)
    && after.jobs == b.jobs + Starting(b.spawned, started)
    && after.spawned == b.spawned + |started|
    && replies == Denials(l, es)
  }

  // ---- One request ----

  /** A request with a usable id, name and argument. */
  predicate WellFormed(l: Limits, e: Entry) {
    && e.Entry? && 1 <= e.id <= 1024
    && e.name.Utf8? && 1 <= Bytes(e.name.text) <= 128
    && e.argument.JsonText? && Bytes(e.argument.text) <= l.maxInput
  }

  /** A well-formed request with a new id, within the call count and the concurrency, that is granted or
      can be denied. */
  ghost predicate Takes(l: Limits, seen: set<nat>, running: nat, e: Entry) {
    && WellFormed(l, e)
    && e.id !in seen && |seen| < l.maxCalls && running < l.maxConcurrency
    && (e.name.text in l.granted || DenialFits(l))
  }

  lemma DenialEncodes(l: Limits, id: nat)
    ensures EncodeError(l, id, DENIED_CODE, DENIED_MESSAGE).Reply? <==> DenialFits(l)
    ensures var r := EncodeError(l, id, DENIED_CODE, DENIED_MESSAGE);
            r.Reply? ==> r.completion == Rejected(id, DENIED_CODE, DENIED_MESSAGE)
  {
    hide Bytes, ErrorText;
  }

  /** The state after one request. */
  function AfterOne(l: Limits, b: State, e: Entry): State
    requires Named(e)
  {
    var seen := b.seen + {e.id as nat};
    if e.name.text in l.granted then State(seen, b.jobs[b.spawned := Job(e.id, None)], b.spawned + 1)
    else State(seen, b.jobs, b.spawned)
  }

  lemma GrantedExactly(l: Limits, b: State, e: Entry)
    requires Named(e)
    ensures var v := DispatchGranted(l, b.(seen := b.seen + {e.id as nat}), e.id, e.name.text);
            && (v.Accepted? <==> e.name.text in l.granted || DenialFits(l))
            && (v.Accepted? ==> v == Accepted(AfterOne(l, b, e), DenialOf(l, e)))
  {
    hide EncodeError, DenialFits;
    DenialEncodes(l, e.id);
  }

  /** A request is accepted exactly if it can be taken. */
  lemma RequestExactly(l: Limits, b: State, e: Entry)
    ensures var v := DispatchRequest(l, b, e);
            && (v.Accepted? <==> Takes(l, b.seen, |b.jobs|, e))
            && (v.Accepted? ==> Named(e) && v == Accepted(AfterOne(l, b, e), DenialOf(l, e)))
  {
    hide Bytes, DispatchGranted, DenialFits, AfterOne, DenialOf;
    if Named(e) {
      GrantedExactly(l, b, e);
    }
  }

  lemma MapsConcat(a: map<Pid, Job>, p: Pid, j: Job, c: map<Pid, Job>)
    ensures a[p := j] + c == a + (map[p := j] + c)
  {
  }

  lemma TakenCons(l: Limits, b: State, es: seq<Entry>, after: State, replies: seq<Completion>)
    requires es != [] && AllNamed(es) && HasTaken(l, AfterOne(l, b, es[0]), es[1..], after, replies)
    ensures HasTaken(l, b, es, after, DenialOf(l, es[0]) + replies)
  {
    hide DenialOf;
    var e, rest := es[0], es[1..];
    var more := Granted(l, rest);
    assert b.seen + {e.id as nat} + EntryIds(rest) == b.seen + EntryIds(es);
    if e.name.text in l.granted {
      var started := [e] + more;
      assert started == Granted(l, es) && started[1..] == more;
      MapsConcat(b.jobs, b.spawned, Job(e.id, None), Starting(b.spawned + 1, more));
    } else {
      assert [] + more == more;
    }
  }

  // ---- Batches ----

  /** The state that the request after these finds, if they were all taken. */
  ghost predicate TakesNext(l: Limits, b: State, before: seq<Entry>, e: Entry) {
    AllNamed(before) && Takes(l, b.seen + EntryIds(before), |b.jobs| + |Granted(l, before)|, e)
  }

  /** The first `n` requests can each be taken after those before it, and the next cannot. */
  ghost predicate TakesExactly(l: Limits, b: State, es: seq<Entry>, n: nat) {
    && n <= |es|
    && (forall k :: 0 <= k < n ==> TakesNext(l, b, es[..k], es[k]))
    && (n < |es| ==> !TakesNext(l, b, es[..n], es[n]))
  }

  /** Exactly what becomes of a batch, for arbitrary entries: they are taken one by one up to the first
      that cannot be. Of those that are taken, exactly the granted start a callback, each under its own
      id and in order, and exactly the others are denied, in order; and the batch is refused exactly if
      not all were taken. */
  lemma {:induction false} BatchExactly(l: Limits, b: State, es: seq<Entry>) returns (n: nat)
    requires Tracked(b)
    ensures TakesExactly(l, b, es, n) && AllNamed(es[..n])
    ensures var r := DispatchBatch(l, b, es);
            HasTaken(l, b, es[..n], r.state, r.replies) && (r.refusal.None? <==> n == |es|)
    decreases |es|
  {
    hide DispatchRequest, Takes, HasTaken, AfterOne, DenialOf, EntryIds, Granted;
    if es == [] {
      n := 0;
      NothingTaken(l, b);
      assert es[..0] == [];
    } else {
      var e, rest := es[0], es[1..];
      RequestExactly(l, b, e);
      FirstTakes(l, b, es);
      if DispatchRequest(l, b, e).Refused? {
        n := 0;
        NothingTaken(l, b);
        assert es[..0] == [];
      } else {
        var mid := AfterOne(l, b, e);
        OneKeepsTracked(l, b, e);
        var m := BatchExactly(l, mid, rest);
        n := m + 1;
        var r := DispatchBatch(l, mid, rest);
        assert es[..n][1..] == rest[..m] && es[..n][0] == e;
        NamedCons(es[..n]);
        TakenCons(l, b, es[..n], r.state, r.replies);
        hide HasTaken;
        ExactlyCons(l, b, es, m);
      }
    }
  }

  lemma NamedCons(es: seq<Entry>)
    requires es != [] && Named(es[0]) && AllNamed(es[1..])
    ensures AllNamed(es)
  {
    assert forall k :: 0 < k < |es| ==> es[k] == es[1..][k - 1];
  }

  lemma OneKeepsTracked(l: Limits, b: State, e: Entry)
    requires Tracked(b) && Named(e)
    ensures Tracked(AfterOne(l, b, e))
  {
  }

  /** What the requests after the first find, in terms of what the first found. */
  lemma NextCons(l: Limits, b: State, es: seq<Entry>, k: nat)
    requires k + 1 < |es| && Named(es[0]) && Tracked(b)
    ensures TakesNext(l, AfterOne(l, b, es[0]), es[1..][..k], es[1..][k]) <==> TakesNext(l, b, es[..k + 1], es[k + 1])
  {
    hide Takes;
    var before, rest := es[..k + 1], es[1..][..k];
    assert before[0] == es[0] && before[1..] == rest && es[1..][k] == es[k + 1];
    if AllNamed(rest) {
      NamedCons(before);
      assert b.seen + {es[0].id as nat} + EntryIds(rest) == b.seen + EntryIds(before);
      assert |AfterOne(l, b, es[0]).jobs| + |Granted(l, rest)| == |b.jobs| + |Granted(l, before)|;
    } else {
      assert forall j :: 0 <= j < |rest| ==> rest[j] == before[j + 1];
    }
  }

  lemma ExactlyCons(l: Limits, b: State, es: seq<Entry>, m: nat)
    requires es != [] && Named(es[0]) && Tracked(b) && TakesNext(l, b, es[..0], es[0])
    requires TakesExactly(l, AfterOne(l, b, es[0]), es[1..], m)
    ensures TakesExactly(l, b, es, m + 1)
  {
    hide TakesNext, Named, Tracked, AfterOne;
    forall k | 0 <= k < m + 1 ensures TakesNext(l, b, es[..k], es[k]) {
      if k > 0 {
        NextCons(l, b, es, k - 1);
      }
    }
    if m + 1 < |es| {
      NextCons(l, b, es, m);
    }
  }

  lemma NothingTaken(l: Limits, b: State)
    ensures HasTaken(l, b, [], b, [])
  {
  }

  lemma FirstTakes(l: Limits, b: State, es: seq<Entry>)
    requires es != []
    ensures TakesNext(l, b, es[..0], es[0]) <==> Takes(l, b.seen, |b.jobs|, es[0])
  {
    hide Takes;
    assert es[..0] == [] && b.seen + EntryIds([]) == b.seen;
  }

  // ---- Turns ----

  /** A list of requests, not too long and in a frame that is not too long. */
  predicate Framed(l: Limits, f: Frame) {
    && f.size <= Min(64 * 1024 * 1024, l.maxConcurrency * (6 * l.maxInput + 2048) + 4096)
    && f.entries.Some? && |f.entries.value| <= l.maxConcurrency
  }

  /** All requests of a frame can be taken, each after those before it. */
  ghost predicate TakesAll(l: Limits, b: State, f: Frame) {
    Framed(l, f) && TakesExactly(l, b, f.entries.value, |f.entries.value|)
  }

  lemma UniqueCount(l: Limits, b: State, es: seq<Entry>, m: nat, n: nat)
    requires TakesExactly(l, b, es, m) && TakesExactly(l, b, es, n)
    ensures m == n
  {
    hide TakesNext;
  }

  lemma FrameExactly(l: Limits, b: State, f: Frame)
    requires Tracked(b)
    ensures Dispatch(l, b, f).refusal.None? <==> TakesAll(l, b, f)
    ensures !Framed(l, f) ==> Dispatch(l, b, f).state == b && Dispatch(l, b, f).replies == []
  {
    hide TakesExactly, HasTaken, DispatchBatch;
    if Framed(l, f) {
      var es := f.entries.value;
      var n := BatchExactly(l, b, es);
      if TakesExactly(l, b, es, |es|) {
        UniqueCount(l, b, es, n, |es|);
      }
    }
  }

  /** What the exit of a job's process cannot be answered with. */
  ghost predicate Unanswerable(l: Limits, job: Job) {
    if job.result.Some? then job.result.value.Fatal? else Bytes(ErrorText(FAILED_CODE, FAILED_MESSAGE)) > l.maxOutput
  }

  lemma FinishExactly(l: Limits, b: State, p: Pid)
    requires p in b.jobs
    ensures var r := Finish(l, b, p);
            if !Unanswerable(l, b.jobs[p]) then r.ending.None?
            else r.ending.Some? && r.ending.value.Failure? && r.ending.value.kind == CallbackLimit
  {
    hide Bytes, ErrorText;
  }

  /** Exactly when a turn ends the broker, and with what: quietly when its run is over or its owner is
      gone; with a timeout when a callback that runs is past its deadline; with the callback limit when
      a request cannot be taken or a callback's answer does not fit; and with nothing else. */
  lemma TurnEndsExactly(l: Limits, b: State, m: Msg)
    requires Tracked(b)
    ensures var ending := React(l, b, m).ending;
            && (ending == Some(Quiet) <==> m.ParentDown? || m.Stop?)
            && (ending.Some? && ending.value.Failure? && ending.value.kind == CallbackTimeout
                <==> m.TimedOut? && m.pid in b.jobs)
            && (ending.Some? && ending.value.Failure? && ending.value.kind == CallbackLimit
                <==> || (m.Requests? && !TakesAll(l, b, m.frame))
                     || (m.Down? && m.pid in b.jobs && Unanswerable(l, b.jobs[m.pid])))
            && (ending.Some? && ending.value.Failure? ==>
                 ending.value.kind == CallbackTimeout || ending.value.kind == CallbackLimit)
  {
    hide TakesAll, Framed, Dispatch, Finish, Unanswerable;
    match m
    case Requests(f) => FrameExactly(l, b, f);
    case Down(pid) =>
      if pid in b.jobs {
        FinishExactly(l, b, pid);
      }
    case _ =>
  }
}
