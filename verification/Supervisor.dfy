/** The supervisor between an untrusted child and the BEAM: it forwards only whole events of known
    kinds, under budgets it computes itself, and turns everything else into an exit status. */
module Supervisor {
  import opened Text
  import opened Wrappers
  import opened Wire
  import opened Framing
  import opened Events
  import P = PortDecoder

  /** The budgets of one request. `usizeMax` is the largest native size. */
  datatype Budgets = Budgets(
    limits: Limits,
    maxOutput: nat,
    maxModule: nat,
    maxStderr: nat,
    compile: bool,
    usizeMax: nat,
    json: seq<Byte> -> Json)

  /** A JSON string takes at least one byte for each character and two for its quotes. */
  ghost predicate Sane(b: Budgets) {
    && MAX_TRANSPORT <= b.usizeMax
    && ReadsHeaders(b.json)
    && forall h :: b.json(h).Str? ==> |b.json(h).text| + 2 <= |h|
  }

  function Clamp(n: nat, low: nat, high: nat): nat
    requires low <= high
  {
    if n < low then low else if n > high then high else n
  }

  /** The supervisor's limit for a payload. */
  function PayloadLimit(b: Budgets, tag: Tag): nat {
    match tag
    case Callbacks => NativeRequestLimit(b.limits, b.usizeMax)
    case Ok => Min(if b.compile then b.maxModule else b.maxOutput, MAX_REQUEST)
    case Error(_) => Clamp(b.maxStderr, 4096, MAX_REQUEST)
  }

  // ---- The event loop ----

  /** The next event of a stream, the stream after it, and what is left of the traffic budget. */
  datatype Next = Next(event: Event, rest: seq<Byte>, left: nat) | Nothing

  function NextEvent(b: Budgets, s: seq<Byte>, remaining: nat): (r: Next)
    ensures r.Next? ==> |r.event.payload| + r.left <= remaining
  {
    ReadInverts(s, Min(MAX_HEAD, remaining));
    match Reads(s, Min(MAX_HEAD, remaining))
    case Failed => Nothing
    case Got(header, body, _) =>
      match Kinded(b, header)
      case None => Nothing
      case Some(tag) =>
        var left := remaining - |header|;
        ReadInverts(body, Min(PayloadLimit(b, tag), left));
        match Reads(body, Min(PayloadLimit(b, tag), left))
        case Failed => Nothing
        case Got(payload, rest, _) => Next(Event(tag, payload), rest, left - |payload|)
  }

  function Kinded(b: Budgets, header: seq<Byte>): Option<Tag> {
    match b.json(header)
    case Str(name) => TagOf(name)
    case _ => None
  }

  /** What is forwarded of a stream, and whether the stream was a whole response. */
  datatype Relayed = Relayed(events: seq<Event>, ok: bool)

  function Relay(b: Budgets, s: seq<Byte>, remaining: nat, rounds: nat): Relayed
    decreases rounds
  {
    if rounds == 0 then Relayed([], false)
    else match NextEvent(b, s, remaining)
      case Nothing => Relayed([], false)
      case Next(e, rest, left) =>
        if !e.tag.Callbacks? then Relayed([e], rest == [])
        else
          var more := Relay(b, rest, left, rounds - 1);
          Relayed([e] + more.events, more.ok)
  }

  /** The initial state, at most one state per completion, and the final event. */
  function Rounds(b: Budgets): nat { b.limits.maxCalls + 2 }

  method ReadEvent(b: Budgets, input: Source, remaining: nat) returns (event: Option<Event>, left: nat)
    requires input.Valid()
    modifies input
    ensures input.Valid()
    ensures match NextEvent(b, old(input.Rest()), remaining)
            case Next(e, rest, l) => event == Some(e) && input.Rest() == rest && left == l
            case Nothing => event == None
  {
    hide Reads, PayloadLimit, Kinded;
    left := remaining;
    ReadInverts(input.Rest(), Min(MAX_HEAD, remaining));
    var header, _ := ReadFrame(input, Min(MAX_HEAD, remaining));
    if header.None? {
      return None, left;
    }
    left := remaining - |header.value|;
    var tag := Kinded(b, header.value);
    if tag.None? {
      return None, left;
    }
    var budget := Min(PayloadLimit(b, tag.value), left);
    ReadInverts(input.Rest(), budget);
    var payload, _ := ReadFrame(input, budget);
    if payload.None? {
      return None, left;
    }
    left := left - |payload.value|;
    return Some(Event(tag.value, payload.value)), left;
  }

  lemma {:induction false} RelaySendable(b: Budgets, s: seq<Byte>, remaining: nat, rounds: nat)
    requires remaining <= MAX_REQUEST
    ensures Sendable(Relay(b, s, remaining, rounds).events)
    decreases rounds
  {
    hide NextEvent;
    if rounds > 0 {
      NextIsSmaller(b, s, remaining);
      match NextEvent(b, s, remaining)
      case Nothing =>
      case Next(e, rest, left) => RelaySendable(b, rest, left, rounds - 1);
    }
  }

  lemma SendOne(sent: seq<Event>, e: Event)
    requires Sendable(sent) && |e.payload| < WORD
    ensures Sendable(sent + [e]) && Stream(sent + [e]) == Stream(sent) + EventBytes(e)
  {
    StreamConcat(sent, [e]);
    assert [e][1..] == [];
    assert Stream([e]) == EventBytes(e) + [];
  }

  lemma EmptyStream()
    ensures Stream([]) == []
  {
  }

  lemma RelayStep(b: Budgets, s: seq<Byte>, remaining: nat, rounds: nat, sent: seq<Event>, all: Relayed)
    requires rounds > 0
    requires var r := Relay(b, s, remaining, rounds); all == Relayed(sent + r.events, r.ok)
    ensures match NextEvent(b, s, remaining)
            case Nothing => all == Relayed(sent, false)
            case Next(e, rest, left) =>
              if !e.tag.Callbacks? then all == Relayed(sent + [e], rest == [])
              else var more := Relay(b, rest, left, rounds - 1);
                   all == Relayed(sent + [e] + more.events, more.ok)
  {
    hide NextEvent;
    match NextEvent(b, s, remaining)
    case Nothing => assert sent + [] == sent;
    case Next(e, rest, left) =>
      var more := Relay(b, rest, left, rounds - 1);
      assert sent + ([e] + more.events) == sent + [e] + more.events;
  }

  /** Copies events from the child to the BEAM until one ends the response or breaks a rule. */
  method ForwardEvents(b: Budgets, input: Source, output: Sink) returns (ok: bool)
    requires input.Valid()
    modifies input, output
    ensures input.Valid()
    ensures var r := Relay(b, old(input.Rest()), MAX_REQUEST, Rounds(b));
            ok == r.ok && Sendable(r.events) && output.data == old(output.data) + Stream(r.events)
  {
    hide NextEvent, Stream, EventBytes, Relay, Sendable, Rounds;
    ghost var all := Relay(b, input.Rest(), MAX_REQUEST, Rounds(b));
    ghost var sent: seq<Event> := [];
    var remaining: nat := MAX_REQUEST;
    EmptyStream();
    assert [] + all.events == all.events;
    NoEvents();
    for round := 0 to Rounds(b)
      invariant input.Valid() && remaining <= MAX_REQUEST
      invariant Sendable(sent) && output.data == old(output.data) + Stream(sent)
      invariant var more := Relay(b, input.Rest(), remaining, Rounds(b) - round);
                all == Relayed(sent + more.events, more.ok)
    {
      RelayStep(b, input.Rest(), remaining, Rounds(b) - round, sent, all);
      NextIsSmaller(b, input.Rest(), remaining);
      var event;
      event, remaining := ReadEvent(b, input, remaining);
      if event.None? {
        return false;
      }
      var _ := WriteEvent(output, event.value);
      SendOne(sent, event.value);
      assert old(output.data) + Stream(sent) + EventBytes(event.value)
          == old(output.data) + (Stream(sent) + EventBytes(event.value));
      sent := sent + [event.value];
      if !event.value.tag.Callbacks? {
        var extra := input.ReadExact(1);
        return extra.None?;
      }
    }
    NoRounds(b, input.Rest(), remaining);
    assert sent + [] == sent;
    return false;
  }

  lemma NoEvents()
    ensures Sendable([])
  {
  }

  lemma NoRounds(b: Budgets, s: seq<Byte>, remaining: nat)
    ensures Relay(b, s, remaining, 0) == Relayed([], false)
  {
  }

  lemma NextIsSmaller(b: Budgets, s: seq<Byte>, remaining: nat)
    ensures var n := NextEvent(b, s, remaining);
            n.Next? ==> |n.event.payload| + n.left <= remaining
  {
  }

  // ---- What is forwarded ----

  /** Callbacks events, and at most one terminal event, which is last. */
  ghost predicate Shaped(es: seq<Event>) {
    forall i :: 0 <= i < |es| - 1 ==> es[i].tag.Callbacks?
  }

  ghost predicate Ended(es: seq<Event>) {
    es != [] && !es[|es| - 1].tag.Callbacks?
  }

  ghost predicate WithinLimits(b: Budgets, es: seq<Event>) {
    forall e :: e in es ==> |e.payload| <= PayloadLimit(b, e.tag)
  }

  lemma NextWithinLimits(b: Budgets, s: seq<Byte>, remaining: nat)
    requires Sane(b)
    ensures var n := NextEvent(b, s, remaining);
            n.Next? ==>
              && |n.event.payload| <= PayloadLimit(b, n.event.tag)
              && |Header(n.event.tag)| + |n.event.payload| + n.left <= remaining
  {
    hide PayloadLimit, TagOf, Name, ReadsHeaders;
    ReadInverts(s, Min(MAX_HEAD, remaining));
    var first := Reads(s, Min(MAX_HEAD, remaining));
    if first.Got? && Kinded(b, first.bytes).Some? {
      var tag := Kinded(b, first.bytes).value;
      TagsAreNamed(b.json(first.bytes).text);
      ReadInverts(first.rest, Min(PayloadLimit(b, tag), remaining - |first.bytes|));
      hide Reads, Header;
      HeaderLength(tag);
    }
  }

  lemma HeaderLength(tag: Tag)
    ensures |Header(tag)| == |Name(tag)| + 2
  {
  }

  /** Whatever the child writes, only whole events of known kinds are forwarded, in the shape of a
      response that may have been cut short, each within its own limit and all together within 64 MiB
      of headers and payloads; and if the relay succeeds, the response is complete. */
  lemma {:induction false} OnlyResponsesAreForwarded(b: Budgets, s: seq<Byte>, remaining: nat, rounds: nat)
    requires Sane(b)
    ensures var r := Relay(b, s, remaining, rounds);
            && Shaped(r.events) && WithinLimits(b, r.events)
            && Charge(r.events) <= remaining && |r.events| <= rounds
            && (r.ok ==> Ended(r.events))
    decreases rounds
  {
    hide NextEvent, PayloadLimit, Sane, Header;
    if rounds > 0 {
      NextWithinLimits(b, s, remaining);
      match NextEvent(b, s, remaining)
      case Nothing =>
      case Next(e, rest, left) =>
        if e.tag.Callbacks? {
          OnlyResponsesAreForwarded(b, rest, left, rounds - 1);
          var more := Relay(b, rest, left, rounds - 1).events;
          ConsResponse(b, e, more);
        } else {
          assert [e][1..] == [];
        }
    }
  }

  lemma ConsResponse(b: Budgets, e: Event, more: seq<Event>)
    requires e.tag.Callbacks? && |e.payload| <= PayloadLimit(b, e.tag) && Shaped(more) && WithinLimits(b, more)
    ensures Shaped([e] + more) && WithinLimits(b, [e] + more)
    ensures Charge([e] + more) == |Header(e.tag)| + |e.payload| + Charge(more)
    ensures Ended(more) ==> Ended([e] + more)
  {
    hide PayloadLimit, Header;
    var all := [e] + more;
    assert all[1..] == more;
    forall i | 0 <= i < |all| - 1 ensures all[i].tag.Callbacks? {
      if i > 0 {
        assert all[i] == more[i - 1];
      }
    }
    if more != [] {
      assert all[|all| - 1] == more[|more| - 1];
    }
  }

  // ---- What the BEAM makes of it ----

  /** The response limit that the BEAM passes to the worker. */
  function Maximum(b: Budgets): nat {
    Min(Max(b.maxModule, Max(b.maxOutput, b.maxStderr)), MAX_TRANSPORT)
  }

  /** The limits that the BEAM computes for itself. */
  function Beam(b: Budgets): P.Config {
    P.Config(
      Min(MAX_TRANSPORT, Max(Maximum(b), b.limits.maxConcurrency * (6 * b.limits.maxInput + 2048) + 4096)),
      if b.compile then b.maxModule else b.maxOutput,
      Max(4096, b.maxStderr),
      !b.compile,
      b.json)
  }

  /** Every event within the supervisor's limits is within the BEAM's. */
  lemma ForwardedEventsAreAllowed(b: Budgets, e: Event)
    requires Sane(b) && |e.payload| <= PayloadLimit(b, e.tag) && (e.tag.Callbacks? ==> !b.compile)
    ensures P.Allowed(Beam(b), e)
  {
    RequestLimitsAgree(b.limits, b.usizeMax);
    hide NativeRequestLimit, ReadsHeaders;
  }

  /** And for terminal events the two limits are one: within 64 MiB the supervisor forwards a payload of a
      known kind exactly if the BEAM accepts it. */
  lemma TerminalLimitsAgree(b: Budgets, e: Event)
    requires Sane(b) && !e.tag.Callbacks? && |e.payload| <= MAX_REQUEST
    ensures |e.payload| <= PayloadLimit(b, e.tag) <==> P.Allowed(Beam(b), e)
  {
    hide NativeRequestLimit, ReadsHeaders;
  }

  /** The exit status that the BEAM sees, given the child's status or the reason it was killed for. */
  function Status(child: nat, ok: bool): nat {
    if child == 0 && !ok then 126 else child
  }

  /** What the supervisor sees each time it looks: the child's exit status, a cancellation, a forwarding
      that has failed, and whether the deadline has passed. */
  datatype Look = Look(exited: Option<nat>, cancelled: bool, overflow: bool, late: bool)

  predicate Undecided(look: Look) {
    look.exited.None? && !look.cancelled && !look.overflow && !look.late
  }

  /** Waits for the child, or kills it. The first look that decides counts, and of that an exit before a
      cancellation, a cancellation before a failure to forward, and that before the deadline; `ok` says
      whether a whole response was forwarded. */
  method Await(looks: seq<Look>, ok: bool) returns (status: Option<nat>)
    ensures status.None? <==> forall k :: 0 <= k < |looks| ==> Undecided(looks[k])
    ensures status.Some? ==> exists k ::
              && 0 <= k < |looks| && !Undecided(looks[k]) && (forall j :: 0 <= j < k ==> Undecided(looks[j]))
              && (looks[k].exited.Some? ==> status == looks[k].exited || (looks[k].exited == Some(0) && !ok))
              && (looks[k].exited == Some(0) ==> status == Some(if ok then 0 else 126))
              && (looks[k].exited.None? ==>
                   status == Some(if looks[k].cancelled then 125 else if looks[k].overflow then 126 else 124))
  {
    for i := 0 to |looks|
      invariant forall k :: 0 <= k < i ==> Undecided(looks[k])
    {
      var look := looks[i];
      var reason := look.exited;
      if reason.None? {
        if look.cancelled {
          reason := Some(125);
        } else if look.overflow {
          reason := Some(126);
        } else if look.late {
          reason := Some(124);
        }
      }
      if reason.Some? {
        assert !Undecided(looks[i]);
        return Some(Status(reason.value, ok));
      }
    }
    return None;
  }

  /** What the BEAM says of an overlong stream is in its own words, not the child's. */
  lemma OverlongFails(b: Budgets, ms: seq<P.Msg>, status: nat)
    requires |P.DataOf(ms)| > MAX_TRANSPORT
    ensures var r := P.Conclude(P.ReceiveAll(Beam(b), P.Opened, ms), status);
            r.Failure? && r.message.Own?
  {
    P.TooMuchFails(Beam(b), P.Opened, ms);
    hide P.ReceiveAll, P.DataOf, Beam;
  }

  lemma BrokerFails(b: Budgets, ms: seq<P.Msg>, status: nat)
    requires !P.Unfailing(Beam(b), ms)
    ensures P.Conclude(P.ReceiveAll(Beam(b), P.Opened, ms), status).Failure?
  {
    P.FailingFails(Beam(b), P.Opened, ms);
    hide P.ReceiveAll, P.Unfailing, Beam;
  }

  /** Runs have callbacks, compilations have none. */
  ghost predicate Permitted(b: Budgets, es: seq<Event>) {
    b.compile ==> forall e :: e in es ==> !e.tag.Callbacks?
  }

  /** End to end, whatever the child writes, in whatever pieces it arrives and whatever arrives between
      them: the call succeeds exactly when the child exited with status 0 and wrote one whole response
      within the supervisor's budget, ending in an "ok" event and asking for callbacks only if there
      are any, when the response is also within the BEAM's budget for raw bytes, and when the broker
      neither failed nor died. Nothing else that a child can do looks like success. */
  lemma SuccessIsTheChildsWord(b: Budgets, s: seq<Byte>, child: nat, ms: seq<P.Msg>, out: seq<Byte>)
    requires Sane(b)
    requires var r := Relay(b, s, MAX_REQUEST, Rounds(b));
             Sendable(r.events) && P.DataOf(ms) == Stream(r.events)
    ensures var r := Relay(b, s, MAX_REQUEST, Rounds(b));
            P.Conclude(P.ReceiveAll(Beam(b), P.Opened, ms), Status(child, r.ok)) == P.Success(out)
            <==> && child == 0 && r.ok && r.events != [] && r.events[|r.events| - 1] == Event(Ok, out)
                 && |Stream(r.events)| <= MAX_TRANSPORT && Permitted(b, r.events) && P.Unfailing(Beam(b), ms)
  {
    var r := Relay(b, s, MAX_REQUEST, Rounds(b));
    OnlyResponsesAreForwarded(b, s, MAX_REQUEST, Rounds(b));
    hide Relay, Stream, Beam, P.ReceiveAll, P.DataOf, P.Conclude, P.PairsOf, P.Unfailing, P.Opened;
    hide Rounds, EventBytes, WithinLimits, Shaped, Sane, Permitted;
    var status := Status(child, r.ok);
    if |Stream(r.events)| > MAX_TRANSPORT {
      OverlongFails(b, ms, status);
    } else if status != 0 {
      P.OtherStatusFails(Beam(b), ms, status);
    } else if !P.Unfailing(Beam(b), ms) {
      BrokerFails(b, ms, status);
    } else if !Permitted(b, r.events) {
      CompilationsHaveNoCallbacks(b, r.events, ms, out);
    } else {
      WholeResponseArrives(b, r.events, ms);
      ResultIsSuccess(r.events[|r.events| - 1], out);
    }
  }

  /** A compilation that asks for a callback does not succeed. */
  lemma CompilationsHaveNoCallbacks(b: Budgets, es: seq<Event>, ms: seq<P.Msg>, out: seq<Byte>)
    requires Sane(b) && Sendable(es) && Shaped(es) && !Permitted(b, es) && P.DataOf(ms) == Stream(es)
    ensures P.Conclude(P.ReceiveAll(Beam(b), P.Opened, ms), 0) != P.Success(out)
  {
    P.SucceedsExactly(Beam(b), ms, 0, out);
    hide Stream, P.ReceiveAll, P.DataOf, P.Conclude, P.Unfailing, P.Transcript, P.Response, P.Small;
    hide EventBytes, Sane, Header;
    assert es[0].tag.Callbacks? && !Beam(b).broker && Beam(b).json == b.json;
    hide Beam;
    forall ps | P.Response(Beam(b), ps, out) ensures P.Transcript(ps) != Stream(es) {
      P.NoBrokerNoCallbacks(Beam(b), ps, out);
      CallbacksFirst(b, es, ps);
    }
  }

  lemma CallbacksFirst(b: Budgets, es: seq<Event>, ps: seq<P.Pair>)
    requires Sane(b) && Sendable(es) && es != [] && es[0].tag.Callbacks?
    requires |ps| == 1 && P.Small(Beam(b), ps[0]) && b.json(ps[0].header) == Str("ok")
    ensures P.Transcript(ps) != Stream(es)
  {
    hide Frame, Beam, Header;
    var header := Header(Callbacks);
    FrameRoundTrip(header, Frame(es[0].payload) + Stream(es[1..]), MAX_HEAD);
    FrameRoundTrip(ps[0].header, Frame(ps[0].payload) + P.Transcript(ps[1..]), MAX_HEAD);
    assert EventBytes(es[0]) + Stream(es[1..]) == Frame(header) + (Frame(es[0].payload) + Stream(es[1..]));
    assert b.json(header) == Str(Name(Callbacks));
    assert Name(Callbacks) == "callbacks";
  }

  /** What is forwarded makes no call fail: a failure is the broker's, or of too many bytes, or of a
      compilation that asks for a callback. */
  lemma ForwardedNeverFails(b: Budgets, s: seq<Byte>, ms: seq<P.Msg>)
    requires Sane(b) && P.Unfailing(Beam(b), ms)
    requires var r := Relay(b, s, MAX_REQUEST, Rounds(b));
             Sendable(r.events) && P.DataOf(ms) == Stream(r.events)
             && |Stream(r.events)| <= MAX_TRANSPORT && Permitted(b, r.events)
    ensures var r, p := Relay(b, s, MAX_REQUEST, Rounds(b)), P.ReceiveAll(Beam(b), P.Opened, ms);
            p.failure.None? && (r.ok ==> Ended(r.events) && P.Conclude(p, 0) == P.ResultOf(r.events[|r.events| - 1]))
  {
    var es := Relay(b, s, MAX_REQUEST, Rounds(b)).events;
    OnlyResponsesAreForwarded(b, s, MAX_REQUEST, Rounds(b));
    hide Relay, Stream, Beam, P.ReceiveAll, P.DataOf, P.Unfailing, EventBytes, Sane, P.Opened, P.Conclude;
    if Ended(es) {
      hide WithinLimits, Shaped, Permitted;
      WholeResponseArrives(b, es, ms);
    } else {
      assert AllCallbacks(es);
      hide WithinLimits, Shaped, Permitted;
      CutResponseArrives(b, es, ms);
    }
  }

  /** End to end, for every output of the child and every way it ends: a call is reported as timed out
      exactly if the child was killed at the deadline, as cancelled exactly if it was cancelled, with a
      status exactly if the child ended with it, where 126 also stands for a child that ended well
      without a whole response; and otherwise as the child said. */
  lemma EndIsReported(b: Budgets, s: seq<Byte>, child: nat, ms: seq<P.Msg>)
    requires Sane(b) && P.Unfailing(Beam(b), ms)
    requires var r := Relay(b, s, MAX_REQUEST, Rounds(b));
             Sendable(r.events) && P.DataOf(ms) == Stream(r.events)
             && |Stream(r.events)| <= MAX_TRANSPORT && Permitted(b, r.events)
    ensures var r := Relay(b, s, MAX_REQUEST, Rounds(b));
            var result := P.Conclude(P.ReceiveAll(Beam(b), P.Opened, ms), Status(child, r.ok));
            && (result == P.Failure(Timeout, P.Own("isolated worker timed out")) <==> child == 124)
            && (result == P.Failure(Cancelled, P.Own("isolated worker cancelled")) <==> child == 125)
            && (forall n: nat ::
                  result == P.Failure(WorkerError, P.Own("isolated worker exited (status " + Decimal(n) + ")"))
                  <==> n != 0 && n != 124 && n != 125 && (child == n || (n == 126 && child == 0 && !r.ok)))
            && (child == 0 && r.ok ==> Ended(r.events) && result == P.ResultOf(r.events[|r.events| - 1]))
  {
    ForwardedNeverFails(b, s, ms);
    StatusReachesCaller(b, child, Relay(b, s, MAX_REQUEST, Rounds(b)).ok, ms);
    hide Relay, Stream, Beam, P.ReceiveAll, P.DataOf, P.Unfailing, EventBytes, Sane, P.Opened, P.Conclude, Decimal;
  }

  /** The same for every message list after which no failure is recorded. */
  lemma StatusReachesCaller(b: Budgets, child: nat, ok: bool, ms: seq<P.Msg>)
    requires P.ReceiveAll(Beam(b), P.Opened, ms).failure.None?
    ensures var result := P.Conclude(P.ReceiveAll(Beam(b), P.Opened, ms), Status(child, ok));
            && (result == P.Failure(Timeout, P.Own("isolated worker timed out")) <==> child == 124)
            && (result == P.Failure(Cancelled, P.Own("isolated worker cancelled")) <==> child == 125)
            && (forall n: nat ::
                  result == P.Failure(WorkerError, P.Own("isolated worker exited (status " + Decimal(n) + ")"))
                  <==> n != 0 && n != 124 && n != 125 && (child == n || (n == 126 && child == 0 && !ok)))
  {
    P.StatusIsReported(Beam(b), ms, Status(child, ok));
    hide P.ReceiveAll, Beam, P.Opened, P.Conclude, Decimal;
  }

  lemma ResultIsSuccess(e: Event, out: seq<Byte>)
    requires !e.tag.Callbacks?
    ensures P.ResultOf(e) == P.Success(out) <==> e == Event(Ok, out)
  {
  }

  /** A whole response within the raw limit is returned as it was written; and dispatched as it was
      written, as long as only answers arrive between its pieces. */
  lemma WholeResponseArrives(b: Budgets, es: seq<Event>, ms: seq<P.Msg>)
    requires Sane(b) && Sendable(es) && Shaped(es) && Ended(es) && WithinLimits(b, es) && Permitted(b, es)
    requires P.Unfailing(Beam(b), ms) && P.DataOf(ms) == Stream(es) && |Stream(es)| <= MAX_TRANSPORT
    ensures var p := P.ReceiveAll(Beam(b), P.Opened, ms);
            && p.failure.None? && P.Conclude(p, 0) == P.ResultOf(es[|es| - 1])
            && (P.Working(ms) ==> p.dispatched == P.Payloads(P.PairsOf(es[..|es| - 1])))
  {
    forall i | 0 <= i < |es| ensures P.Allowed(Beam(b), es[i]) && (es[i].tag.Callbacks? <==> i < |es| - 1) {
      hide PayloadLimit, Beam, P.Allowed;
      ForwardedEventsAreAllowed(b, es[i]);
    }
    JsonOfBeam(b);
    hide Stream, Beam, P.ReceiveAll, P.DataOf, P.Allowed, P.Unfailing, P.Working, WithinLimits, EventBytes;
    P.EventsRoundTrip(Beam(b), es, ms);
  }

  lemma JsonOfBeam(b: Budgets)
    requires Sane(b)
    ensures ReadsHeaders(Beam(b).json)
  {
  }

  /** The two budgets are not the same: the supervisor charges headers and payloads, the BEAM counts
      the two length prefixes of every event as well. */
  lemma RawBytesExceedCharge(es: seq<Event>)
    requires Sendable(es)
    ensures |Stream(es)| <= MAX_TRANSPORT <==> Charge(es) + 8 * |es| <= MAX_TRANSPORT
  {
    StreamLength(es);
  }

  /** So a response can pass the supervisor and still fail the call: an output of 64 MiB less four
      bytes, which uses up the supervisor's budget exactly. */
  lemma LargestOutputIsLost(b: Budgets, payload: seq<Byte>, ms: seq<P.Msg>)
    requires Sane(b) && !b.compile && b.maxOutput >= |payload| == MAX_REQUEST - 4
    requires P.DataOf(ms) == EventBytes(Event(Ok, payload))
    ensures Relay(b, EventBytes(Event(Ok, payload)), MAX_REQUEST, Rounds(b)) == Relayed([Event(Ok, payload)], true)
    ensures P.Conclude(P.ReceiveAll(Beam(b), P.Opened, ms), 0).Failure?
  {
    var e := Event(Ok, payload);
    HeaderLength(Ok);
    hide Header, Frame, P.ReceiveAll, P.DataOf, P.Conclude;
    OneEvent(b, e, [], MAX_REQUEST);
    assert EventBytes(e) + [] == EventBytes(e);
    assert |EventBytes(e)| == MAX_REQUEST + 8 by {
      EventLength(e);
    }
    OverlongFails(b, ms, 0);
  }

  lemma EventLength(e: Event)
    requires |e.payload| < WORD
    ensures |EventBytes(e)| == |Header(e.tag)| + |e.payload| + 8
  {
  }

  lemma KindOfHeader(b: Budgets, tag: Tag)
    requires Sane(b)
    ensures Kinded(b, Header(tag)) == Some(tag) && |Header(tag)| <= 18
  {
    NamesAreDistinct(tag);
    assert b.json(Header(tag)) == Str(Name(tag));
    HeaderLength(tag);
    hide Header, Name, TagOf, ReadsHeaders;
  }

  /** An event that fits the budget is read back, leaving what follows it. */
  lemma OneEvent(b: Budgets, e: Event, tail: seq<Byte>, remaining: nat)
    requires Sane(b) && |e.payload| < WORD && |e.payload| <= PayloadLimit(b, e.tag)
    requires |Header(e.tag)| + |e.payload| <= remaining
    ensures NextEvent(b, EventBytes(e) + tail, remaining) == Next(e, tail, remaining - |Header(e.tag)| - |e.payload|)
  {
    hide Header, Frame, Reads, Kinded, PayloadLimit, Sane;
    KindOfHeader(b, e.tag);
    var body := Frame(e.payload) + tail;
    assert EventBytes(e) + tail == Frame(Header(e.tag)) + body;
    FrameRoundTrip(Header(e.tag), body, Min(MAX_HEAD, remaining));
    FrameRoundTrip(e.payload, tail, Min(PayloadLimit(b, e.tag), remaining - |Header(e.tag)|));
  }

  lemma RelayOnce(b: Budgets, s: seq<Byte>, remaining: nat, rounds: nat, e: Event, rest: seq<Byte>, left: nat)
    requires rounds > 0 && NextEvent(b, s, remaining) == Next(e, rest, left)
    ensures !e.tag.Callbacks? ==> Relay(b, s, remaining, rounds) == Relayed([e], rest == [])
    ensures e.tag.Callbacks? ==>
              var more := Relay(b, rest, left, rounds - 1);
              Relay(b, s, remaining, rounds) == Relayed([e] + more.events, more.ok)
  {
    hide NextEvent;
  }

  ghost predicate AllCallbacks(es: seq<Event>) {
    forall e :: e in es ==> e.tag.Callbacks?
  }

  /** Callbacks events within the limits pass, and what follows them is relayed under what they leave. */
  lemma {:induction false} CallbacksPass(b: Budgets, es: seq<Event>, tail: seq<Byte>, remaining: nat, rounds: nat)
    requires Sane(b) && Sendable(es) && AllCallbacks(es) && WithinLimits(b, es)
    requires Charge(es) <= remaining && |es| <= rounds
    ensures var more := Relay(b, tail, remaining - Charge(es), rounds - |es|);
            Relay(b, Stream(es) + tail, remaining, rounds) == Relayed(es + more.events, more.ok)
    decreases |es|
  {
    hide Relay, NextEvent, PayloadLimit, EventBytes, Header, Sane;
    var more := Relay(b, tail, remaining - Charge(es), rounds - |es|);
    if es == [] {
      assert Stream(es) + tail == tail && es + more.events == more.events;
    } else {
      var rest, left := Stream(es[1..]) + tail, remaining - |Header(es[0].tag)| - |es[0].payload|;
      assert Stream(es) + tail == EventBytes(es[0]) + rest;
      OneEvent(b, es[0], rest, remaining);
      RelayOnce(b, Stream(es) + tail, remaining, rounds, es[0], rest, left);
      CallbacksPass(b, es[1..], tail, left, rounds - 1);
      assert [es[0]] + (es[1..] + more.events) == es + more.events;
    }
  }

  /** The supervisor's verdict on the last event of a stream. */
  ghost predicate Passes(b: Budgets, e: Event, remaining: nat) {
    |e.payload| <= PayloadLimit(b, e.tag) && |Header(e.tag)| + |e.payload| <= remaining
  }

  lemma LastEvent(b: Budgets, e: Event, remaining: nat, rounds: nat)
    requires Sane(b) && |e.payload| < WORD && !e.tag.Callbacks? && rounds > 0
    ensures Relay(b, EventBytes(e), remaining, rounds)
         == if Passes(b, e, remaining) then Relayed([e], true) else Relayed([], false)
  {
    hide Header, Frame, Reads, Kinded, PayloadLimit, Sane;
    KindOfHeader(b, e.tag);
    FrameRoundTrip(Header(e.tag), Frame(e.payload), Min(MAX_HEAD, remaining));
    if |Header(e.tag)| <= remaining {
      assert Frame(e.payload) + [] == Frame(e.payload);
      FrameRoundTrip(e.payload, [], Min(PayloadLimit(b, e.tag), remaining - |Header(e.tag)|));
    }
  }

  lemma SplitLast(b: Budgets, es: seq<Event>)
    requires Sendable(es) && Shaped(es) && Ended(es)
    ensures var first, e := es[..|es| - 1], es[|es| - 1];
            && es == first + [e] && AllCallbacks(first) && !e.tag.Callbacks? && |e.payload| < WORD
            && Sendable(first) && (WithinLimits(b, es) ==> WithinLimits(b, first))
            && Stream(es) == Stream(first) + EventBytes(e)
            && Charge(es) == Charge(first) + |Header(e.tag)| + |e.payload|
  {
    hide PayloadLimit, EventBytes, Header;
    var first, e := es[..|es| - 1], es[|es| - 1];
    assert es == first + [e];
    forall x | x in first ensures x in es && x.tag.Callbacks? {
    }
    SendOne(first, e);
    ChargeOne(first, e);
  }

  lemma {:induction false} ChargeOne(es: seq<Event>, e: Event)
    ensures Charge(es + [e]) == Charge(es) + |Header(e.tag)| + |e.payload|
  {
    hide Header;
    if es == [] {
      assert es + [e] == [e] && [e][1..] == [];
    } else {
      assert (es + [e])[0] == es[0] && (es + [e])[1..] == es[1..] + [e];
      ChargeOne(es[1..], e);
    }
  }

  /** What is relayed of callbacks events and a terminal event: all of it if the terminal event passes,
      and otherwise the callbacks events alone. */
  lemma ResponseIsRelayed(b: Budgets, es: seq<Event>, remaining: nat, rounds: nat)
    requires Sane(b) && Sendable(es) && Shaped(es) && Ended(es)
    requires var first := es[..|es| - 1];
             WithinLimits(b, first) && Charge(first) <= remaining && |es| <= rounds
    ensures var first, e := es[..|es| - 1], es[|es| - 1];
            Relay(b, Stream(es), remaining, rounds)
            == if Passes(b, e, remaining - Charge(first)) then Relayed(es, true) else Relayed(first, false)
  {
    hide Relay, Stream, Charge, Sane, WithinLimits, EventBytes, Passes, Shaped, Sendable, AllCallbacks;
    SplitLast(b, es);
    var first, e := es[..|es| - 1], es[|es| - 1];
    CallbacksPass(b, first, EventBytes(e), remaining, rounds);
    LastEvent(b, e, remaining - Charge(first), rounds - |first|);
    assert first + [] == first;
  }

  /** A whole response of the child, within the limits, the traffic budget and the rounds, passes the
      supervisor unchanged. */
  lemma ResponsePasses(b: Budgets, es: seq<Event>, remaining: nat, rounds: nat)
    requires Sane(b) && Sendable(es) && Shaped(es) && Ended(es) && WithinLimits(b, es)
    requires Charge(es) <= remaining && |es| <= rounds
    ensures Relay(b, Stream(es), remaining, rounds) == Relayed(es, true)
  {
    hide Relay, Stream, Charge, Sane, Header, Shaped, Sendable, PayloadLimit;
    SplitLast(b, es);
    assert es[|es| - 1] in es;
    ResponseIsRelayed(b, es, remaining, rounds);
  }

  /** The rounds suffice for every run: an initial state, one state for each of at most
      `max_callback_calls` completions, and the final event. So what the child writes within the
      limits is what the caller gets, whatever answers come between its events, exactly if it is
      within the BEAM's raw limit. */
  lemma ChildsResponseArrives(b: Budgets, es: seq<Event>, ms: seq<P.Msg>)
    requires Sane(b) && Sendable(es) && Shaped(es) && Ended(es) && WithinLimits(b, es) && Permitted(b, es)
    requires Charge(es) <= MAX_REQUEST && |es| <= b.limits.maxCalls + 2
    requires P.Unfailing(Beam(b), ms) && P.DataOf(ms) == Stream(es)
    ensures Relay(b, Stream(es), MAX_REQUEST, Rounds(b)) == Relayed(es, true)
    ensures P.Conclude(P.ReceiveAll(Beam(b), P.Opened, ms), Status(0, true)) == P.ResultOf(es[|es| - 1])
            <==> Charge(es) + 8 * |es| <= MAX_TRANSPORT
  {
    ResponsePasses(b, es, MAX_REQUEST, Rounds(b));
    RawBytesExceedCharge(es);
    hide Relay, Stream, Beam, P.ReceiveAll, P.DataOf, P.Unfailing, P.Conclude, EventBytes, WithinLimits, Shaped, Sane;
    hide Charge, Permitted;
    if |Stream(es)| > MAX_TRANSPORT {
      OverlongFails(b, ms, 0);
    } else {
      WholeResponseArrives(b, es, ms);
    }
  }

  // ---- The child's own terminal event ----

  /** What an execution ends with. */
  datatype Outcome = Done(bytes: seq<Byte>) | Failed(kind: Kind, message: seq<Byte>)

  /** The child replaces a result that is longer than the response limit. */
  function Response(outcome: Outcome, maximum: nat): Event {
    var tag := if outcome.Done? then Ok else Error(outcome.kind);
    var bytes := if outcome.Done? then outcome.bytes else outcome.message;
    if |bytes| > maximum then Event(Error(OutputLimit), TooLong()) else Event(tag, bytes)
  }

  function TooLong(): (r: seq<Byte>)
    ensures |r| == 30
  {
    var text := "worker response limit exceeded";
    seq(|text|, i requires 0 <= i < |text| => text[i] as int % 0x100)
  }

  function Length(outcome: Outcome): nat {
    if outcome.Done? then |outcome.bytes| else |outcome.message|
  }

  /** The child checks one limit for every kind of result and the supervisor one for each kind. */
  ghost predicate Reported(b: Budgets, outcome: Outcome) {
    || Length(outcome) <= PayloadLimit(b, if outcome.Done? then Ok else Error(outcome.kind))
    || Length(outcome) > Maximum(b)
  }

  lemma ResponseFits(b: Budgets, outcome: Outcome)
    ensures var e := Response(outcome, Maximum(b));
            && (|e.payload| <= PayloadLimit(b, e.tag) <==> Reported(b, outcome))
            && |e.payload| < WORD && !e.tag.Callbacks?
  {
    hide NativeRequestLimit, TooLong;
    TooLongLength();
  }

  /** What a call returns whose execution ended so: the output, the error, or that it is too long. */
  function Reporting(b: Budgets, outcome: Outcome): P.Result {
    if Length(outcome) > Maximum(b) then P.Failure(OutputLimit, P.Given(TooLong()))
    else match outcome
      case Done(bytes) => P.Success(bytes)
      case Failed(kind, message) => P.Failure(kind, P.Given(message))
  }

  lemma EndingIsReported(b: Budgets, outcome: Outcome)
    ensures var e := Ending(b, outcome); !e.tag.Callbacks? && P.ResultOf(e) == Reporting(b, outcome)
  {
    hide Maximum;
  }

  function LostStatus(): P.Result {
    P.Failure(WorkerError, P.Own("isolated worker exited (status " + Decimal(126) + ")"))
  }

  /** Exactly what becomes of the end of an execution, after any callbacks events and whatever arrives
      at the BEAM besides. It is forwarded if and only if its text is within the limit of its own kind
      or beyond the common one, and within what the callbacks left of the traffic budget; then the call
      ends with it. Otherwise the callbacks events alone are forwarded, and what the execution ended
      with is lost: the call ends with the supervisor's status. Either way only as long as the BEAM's
      raw limit allows. */
  lemma ResponseIsForwardedExactly(b: Budgets, es: seq<Event>, outcome: Outcome, ms: seq<P.Msg>)
    requires Sane(b) && Sendable(es) && AllCallbacks(es) && WithinLimits(b, es) && Permitted(b, es)
    requires Charge(es) <= MAX_REQUEST && |es| <= b.limits.maxCalls + 1
    requires var r := Relay(b, Stream(es) + EventBytes(Ending(b, outcome)), MAX_REQUEST, Rounds(b));
             P.Unfailing(Beam(b), ms) && Sendable(r.events) && P.DataOf(ms) == Stream(r.events)
             && |Stream(r.events)| <= MAX_TRANSPORT
    ensures var e := Ending(b, outcome);
            var r := Relay(b, Stream(es) + EventBytes(e), MAX_REQUEST, Rounds(b));
            var result := P.Conclude(P.ReceiveAll(Beam(b), P.Opened, ms), Status(0, r.ok));
            if Reported(b, outcome) && Charge(es) + |Header(e.tag)| + |e.payload| <= MAX_REQUEST then
              r == Relayed(es + [e], true) && result == Reporting(b, outcome)
            else
              r == Relayed(es, false) && result == LostStatus()
  {
    hide Relay, Stream, Beam, P.ReceiveAll, P.DataOf, P.Unfailing, EventBytes, WithinLimits, Sane, Charge, Header;
    hide Sendable, AllCallbacks, Permitted, Reported, PayloadLimit, LostStatus, P.Opened, P.Conclude, Response;
    var e := Ending(b, outcome);
    ResponseFits(b, outcome);
    EndingIsReported(b, outcome);
    hide Reporting;
    CallbacksPass(b, es, EventBytes(e), MAX_REQUEST, Rounds(b));
    LastEvent(b, e, MAX_REQUEST - Charge(es), Rounds(b) - |es|);
    if Passes(b, e, MAX_REQUEST - Charge(es)) {
      AppendEnding(b, es, e);
      WholeResponseArrives(b, es + [e], ms);
    } else {
      assert es + [] == es;
      CutResponseArrives(b, es, ms);
    }
  }

  /** The child's terminal event. */
  function Ending(b: Budgets, outcome: Outcome): (e: Event)
    ensures |e.payload| < WORD
  {
    Response(outcome, Maximum(b))
  }

  lemma AppendEnding(b: Budgets, es: seq<Event>, e: Event)
    requires Sendable(es) && AllCallbacks(es) && WithinLimits(b, es) && Permitted(b, es)
    requires !e.tag.Callbacks? && |e.payload| < WORD && |e.payload| <= PayloadLimit(b, e.tag)
    ensures var all := es + [e];
            Sendable(all) && Shaped(all) && Ended(all) && WithinLimits(b, all) && Permitted(b, all)
  {
    hide PayloadLimit;
  }

  /** Callbacks events without a terminal event: nothing fails, and the status decides. */
  lemma CutResponseArrives(b: Budgets, es: seq<Event>, ms: seq<P.Msg>)
    requires Sane(b) && Sendable(es) && AllCallbacks(es) && WithinLimits(b, es) && Permitted(b, es)
    requires P.Unfailing(Beam(b), ms) && P.DataOf(ms) == Stream(es) && |Stream(es)| <= MAX_TRANSPORT
    ensures var p := P.ReceiveAll(Beam(b), P.Opened, ms);
            p.failure.None? && P.Conclude(p, 126) == LostStatus()
  {
    forall i | 0 <= i < |es| ensures P.Allowed(Beam(b), es[i]) && es[i].tag.Callbacks? {
      hide PayloadLimit, Beam, P.Allowed;
      ForwardedEventsAreAllowed(b, es[i]);
    }
    JsonOfBeam(b);
    hide Stream, Beam, P.ReceiveAll, P.DataOf, P.Allowed, P.Unfailing, WithinLimits;
    P.CallbacksDoNotFail(Beam(b), es, ms);
  }

  /** And such a loss exists under the default limits: a guest that fills its diagnostics with 64 KiB of
      invalid UTF-8 and traps, whose message becomes three times as long when it is decoded. */
  lemma ErrorMessageIsLost(b: Budgets, message: seq<Byte>, ms: seq<P.Msg>)
    requires Sane(b) && b.maxStderr == 64 * 1024 && b.maxOutput == 1024 * 1024 && |message| == 3 * 64 * 1024
    requires P.Unfailing(Beam(b), ms) && P.DataOf(ms) == []
    ensures var e := Ending(b, Outcome.Failed(JsError, message));
            var r := Relay(b, EventBytes(e), MAX_REQUEST, Rounds(b));
            && e == Event(Error(JsError), message) && r == Relayed([], false)
            && P.Conclude(P.ReceiveAll(Beam(b), P.Opened, ms), Status(0, r.ok)) == LostStatus()
  {
    var lost := Outcome.Failed(JsError, message);
    var e := Ending(b, lost);
    assert !Reported(b, lost) && e == Event(Error(JsError), message);
    NoEvents();
    hide Relay, Beam, P.ReceiveAll, P.DataOf, P.Unfailing, EventBytes, Sane, Header, P.Conclude, LostStatus, Reported;
    CallbacksPass(b, [], EventBytes(e), MAX_REQUEST, Rounds(b));
    assert [] + EventBytes(e) == EventBytes(e) && Charge([]) == 0;
    LastEvent(b, e, MAX_REQUEST, Rounds(b));
    assert [] + Relayed([], false).events == [];
    assert Stream([]) == [];
    ResponseIsForwardedExactly(b, [], lost, ms);
  }

  lemma TooLongLength()
    ensures |TooLong()| == 30
  {
  }

  // ---- The reply loop ----

  /** The replies that are queued for the child from a stream of the BEAM. `room(n)` says whether the
      bounded channel has room when `n` rounds are left; an empty frame is a cancellation. */
  function Queued(b: Budgets, s: seq<Byte>, remaining: nat, rounds: nat, room: nat -> bool): seq<seq<Byte>>
    decreases rounds
  {
    if rounds == 0 then []
    else
      var budget := Min(remaining, CompletionLimit(b.limits, b.usizeMax));
      ReadInverts(s, budget);
      match Reads(s, budget)
      case Failed => []
      case Got(bytes, rest, _) =>
        if bytes == [] || !room(rounds) then []
        else [bytes] + Queued(b, rest, remaining - |bytes|, rounds - 1, room)
  }

  lemma QueuedStep(b: Budgets, s: seq<Byte>, remaining: nat, rounds: nat, room: nat -> bool)
    requires rounds > 0
    ensures var budget := Min(remaining, CompletionLimit(b.limits, b.usizeMax));
            match Reads(s, budget)
            case Failed => Queued(b, s, remaining, rounds, room) == []
            case Got(bytes, rest, _) =>
              && |bytes| <= remaining
              && Queued(b, s, remaining, rounds, room)
                 == if bytes == [] || !room(rounds) then []
                    else [bytes] + Queued(b, rest, remaining - |bytes|, rounds - 1, room)
  {
    hide Reads, CompletionLimit, Frame;
    ReadInverts(s, Min(remaining, CompletionLimit(b.limits, b.usizeMax)));
  }

  /** Reads replies until one is empty, too large or too many, or the channel is full; in each case the
      supervisor then cancels the child. */
  method ForwardReplies(b: Budgets, input: Source, room: nat -> bool) returns (queued: seq<seq<Byte>>)
    requires input.Valid()
    modifies input
    ensures input.Valid()
    ensures queued == Queued(b, old(input.Rest()), MAX_REQUEST, b.limits.maxCalls + 1, room)
  {
    hide Reads, CompletionLimit, Frame, Queued;
    ghost var all := Queued(b, input.Rest(), MAX_REQUEST, b.limits.maxCalls + 1, room);
    var remaining: nat := MAX_REQUEST;
    queued := [];
    for round := 0 to b.limits.maxCalls + 1
      invariant input.Valid()
      invariant all == queued + Queued(b, input.Rest(), remaining, b.limits.maxCalls + 1 - round, room)
    {
      var budget := Min(remaining, CompletionLimit(b.limits, b.usizeMax));
      QueuedStep(b, input.Rest(), remaining, b.limits.maxCalls + 1 - round, room);
      var bytes, _ := ReadFrame(input, budget);
      if bytes.None? || bytes.value == [] {
        assert queued + [] == queued;
        return queued;
      }
      remaining := remaining - |bytes.value|;
      if !room(b.limits.maxCalls + 1 - round) {
        assert queued + [] == queued;
        return queued;
      }
      ghost var more := Queued(b, input.Rest(), remaining, b.limits.maxCalls - round, room);
      assert queued + ([bytes.value] + more) == queued + [bytes.value] + more;
      queued := queued + [bytes.value];
    }
    NoRoundsQueued(b, input.Rest(), remaining, room);
    assert queued + [] == queued;
  }

  lemma NoRoundsQueued(b: Budgets, s: seq<Byte>, remaining: nat, room: nat -> bool)
    ensures Queued(b, s, remaining, 0, room) == []
  {
  }

  ghost predicate Sendables(fs: seq<seq<Byte>>, limit: nat) {
    forall i :: 0 <= i < |fs| ==> 0 < |fs[i]| <= limit && |fs[i]| < WORD
  }

  /** One round of the loop, on any stream. */
  lemma QueuedRound(b: Budgets, s: seq<Byte>, remaining: nat, rounds: nat, room: nat -> bool)
      returns (rest: seq<Byte>)
    ensures var fs := Queued(b, s, remaining, rounds, room);
            fs != [] ==>
              && rounds > 0 && 0 < |fs[0]| <= CompletionLimit(b.limits, b.usizeMax) && |fs[0]| < WORD
              && |fs[0]| <= remaining && s == Frame(fs[0]) + rest
              && fs[1..] == Queued(b, rest, remaining - |fs[0]|, rounds - 1, room)
  {
    hide Reads, CompletionLimit, Frame;
    var budget := Min(remaining, CompletionLimit(b.limits, b.usizeMax));
    ReadInverts(s, budget);
    var r := Reads(s, budget);
    rest := if r.Got? then r.rest else s;
  }

  /** One round of the loop, on a frame within the limits. */
  lemma FrameIsQueued(b: Budgets, bytes: seq<Byte>, tail: seq<Byte>, remaining: nat, rounds: nat, room: nat -> bool)
    requires |bytes| < WORD && |bytes| <= CompletionLimit(b.limits, b.usizeMax) && |bytes| <= remaining
    requires rounds > 0 && room(rounds)
    ensures Queued(b, Frame(bytes) + tail, remaining, rounds, room)
         == if bytes == [] then [] else [bytes] + Queued(b, tail, remaining - |bytes|, rounds - 1, room)
  {
    hide Reads, CompletionLimit, Frame;
    FrameRoundTrip(bytes, tail, Min(remaining, CompletionLimit(b.limits, b.usizeMax)));
  }

  /** Whatever the stream, what is queued was written there, in order, as non-empty frames within the
      completion limit, within the budget together, and no more than the loop has rounds. */
  lemma {:induction false} RepliesAreBounded(b: Budgets, s: seq<Byte>, remaining: nat, rounds: nat, room: nat -> bool)
      returns (rest: seq<Byte>)
    ensures var fs := Queued(b, s, remaining, rounds, room);
            && Sendables(fs, CompletionLimit(b.limits, b.usizeMax))
            && Lengths(fs) <= remaining && |fs| <= rounds
            && (forall f :: f in fs ==> |f| < WORD) && s == Frames(fs) + rest
    decreases rounds
  {
    hide Queued, CompletionLimit, Frame;
    var fs := Queued(b, s, remaining, rounds, room);
    if fs == [] {
      rest := s;
      assert Frames(fs) + s == s;
    } else {
      var tail := QueuedRound(b, s, remaining, rounds, room);
      rest := RepliesAreBounded(b, tail, remaining - |fs[0]|, rounds - 1, room);
      assert Frame(fs[0]) + (Frames(fs[1..]) + rest) == Frames(fs) + rest;
      forall i | 0 <= i < |fs| ensures 0 < |fs[i]| <= CompletionLimit(b.limits, b.usizeMax) && |fs[i]| < WORD {
        if i > 0 {
          assert fs[i] == fs[1..][i - 1];
        }
      }
    }
  }

  /** Completions within the limits, and then a cancellation, all fit the loop: as many completions as
      the call budget allows are queued, each once and in order, and the cancellation ends the loop. */
  lemma {:induction false} RepliesPass(b: Budgets, fs: seq<seq<Byte>>, rest: seq<Byte>, remaining: nat, rounds: nat,
                                       room: nat -> bool)
    requires Sendables(fs, CompletionLimit(b.limits, b.usizeMax)) && (forall f :: f in fs ==> |f| < WORD)
    requires Lengths(fs) <= remaining && |fs| < rounds && forall n :: room(n)
    ensures Queued(b, Frames(fs) + (Frame([]) + rest), remaining, rounds, room) == fs
    decreases |fs|
  {
    hide Queued, CompletionLimit, Frame;
    if fs == [] {
      assert Frames(fs) + (Frame([]) + rest) == Frame([]) + rest;
      FrameIsQueued(b, [], rest, remaining, rounds, room);
    } else {
      var tail := Frames(fs[1..]) + (Frame([]) + rest);
      assert Frames(fs) + (Frame([]) + rest) == Frame(fs[0]) + tail;
      FrameIsQueued(b, fs[0], tail, remaining, rounds, room);
      RepliesPass(b, fs[1..], rest, remaining - |fs[0]|, rounds - 1, room);
      assert [fs[0]] + fs[1..] == fs;
    }
  }
}
