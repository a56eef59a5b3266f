/** The BEAM's end of the isolated backend: an incremental decoder of the events that arrive from the
    port in arbitrary pieces, and the loop around it. */
module PortDecoder {
  import opened Text
  import opened Wrappers
  import opened Wire
  import opened Framing
  import opened Events
  import Codec

  /** The worker's own words, or the BEAM's. */
  datatype Message = Given(bytes: seq<Byte>) | Own(text: string)

  /** What a call to the isolated backend returns. */
  datatype Result = Success(bytes: seq<Byte>) | Failure(kind: Kind, message: Message)

  function InvalidResponse(): Result { Failure(WorkerError, Own("invalid isolated worker response")) }

  function LimitExceeded(): Result { Failure(WorkerError, Own("isolated worker exceeded IPC response limit")) }

  function BrokerStopped(): Result { Failure(Trap, Own("callback broker stopped")) }

  datatype Config = Config(
    maximum: nat,        // of any payload
    outputLimit: nat,    // of an "ok" payload
    errorLimit: nat,     // of any other terminal payload
    broker: bool,        // runs have a broker, compilations have none
    json: seq<Byte> -> Json)

  // ---- Decoding a buffer ----

  /** The first event of a buffer, if it is all there and its two lengths are allowed. */
  datatype Head = Incomplete | Broken | Whole(header: seq<Byte>, payload: seq<Byte>, tail: seq<Byte>)

  function HeadOf(c: Config, buffer: seq<Byte>): (r: Head)
    ensures r.Whole? ==> |r.tail| < |buffer|
  {
    if |buffer| < 4 then Incomplete
    else
      var length := FromBe(buffer[..4]);
      var rest := buffer[4..];
      if length > MAX_HEAD then Broken
      else if |rest| < length + 4 then Incomplete
      else
        var size := FromBe(rest[length..][..4]);
        var payload := rest[length..][4..];
        if size > c.maximum then Broken
        else if |payload| < size then Incomplete
        else Whole(rest[..length], payload[..size], payload[size..])
  }

  function DecodeResponse(c: Config, header: seq<Byte>, payload: seq<Byte>): Result {
    match c.json(header)
    case Str(name) =>
      (match TagOf(name)
       case Some(Ok) => Success(payload)
       case Some(Error(kind)) => Failure(kind, Given(payload))
       case _ => InvalidResponse())
    case _ => InvalidResponse()
  }

  /** What one event does: hand a payload to the broker, end the response, or break the decoding. */
  datatype Action = Dispatch | Respond(result: Result) | Refuse

  function ActionOf(c: Config, header: seq<Byte>, payload: seq<Byte>): Action {
    var kind := c.json(header);
    if kind == Str("callbacks") && c.broker then Dispatch
    else if kind == Str("ok") && |payload| > c.outputLimit then Refuse
    else if kind != NotJson && kind != Str("ok") && |payload| > c.errorLimit then Refuse
    else if kind != NotJson then Respond(DecodeResponse(c, header, payload))
    else Refuse
  }

  /** The decoder after some input: its result so far, the payloads handed to the broker, and the
      bytes that wait for more; or the payloads that were handed over before decoding failed. */
  datatype Decoding =
    | More(result: Option<Result>, dispatched: seq<seq<Byte>>, buffer: seq<Byte>)
    | Bad(dispatched: seq<seq<Byte>>)

  /** `live` is false once the call is cancelled. */
  function Decode(c: Config, live: bool, result: Option<Result>, dispatched: seq<seq<Byte>>,
                  buffer: seq<Byte>): Decoding
    decreases |buffer|
  {
    match HeadOf(c, buffer)
    case Incomplete => More(result, dispatched, buffer)
    case Broken => Bad(dispatched)
    case Whole(header, payload, tail) =>
      if result.Some? then Bad(dispatched)
      else match ActionOf(c, header, payload)
        case Dispatch => Decode(c, live, None, if live then dispatched + [payload] else dispatched, tail)
        case Respond(r) => Decode(c, live, Some(r), dispatched, tail)
        case Refuse => Bad(dispatched)
  }

  /** More input never changes a verdict on what is already there. */
  lemma HeadExtends(c: Config, a: seq<Byte>, b: seq<Byte>)
    ensures match HeadOf(c, a)
            case Incomplete => true
            case Broken => HeadOf(c, a + b) == Broken
            case Whole(header, payload, tail) => HeadOf(c, a + b) == Whole(header, payload, tail + b)
  {
    hide FromBe;
    if |a| >= 4 {
      assert (a + b)[..4] == a[..4] && (a + b)[4..] == a[4..] + b;
      var length := FromBe(a[..4]);
      var rest := a[4..];
      if length <= MAX_HEAD && |rest| >= length + 4 {
        HeadExtendsPayload(c, rest, length, b);
      }
    }
  }

  lemma HeadExtendsPayload(c: Config, rest: seq<Byte>, length: nat, b: seq<Byte>)
    requires |rest| >= length + 4
    ensures (rest + b)[..length] == rest[..length]
    ensures (rest + b)[length..][..4] == rest[length..][..4]
    ensures (rest + b)[length..][4..] == rest[length..][4..] + b
    ensures var payload := rest[length..][4..];
            forall size: nat :: size <= |payload| ==>
              (payload + b)[..size] == payload[..size] && (payload + b)[size..] == payload[size..] + b
  {
    assert (rest + b)[length..] == rest[length..] + b;
  }

  /** Decoding can stop and resume anywhere. */
  lemma {:induction false} DecodeResumes(c: Config, live: bool, result: Option<Result>, dispatched: seq<seq<Byte>>,
                                         a: seq<Byte>, b: seq<Byte>)
    ensures Decode(c, live, result, dispatched, a + b)
         == match Decode(c, live, result, dispatched, a)
            case Bad(d) => Bad(d)
            case More(r, d, buffer) => Decode(c, live, r, d, buffer + b)
    decreases |a|
  {
    hide HeadOf, ActionOf;
    HeadExtends(c, a, b);
    HeadShrinks(c, a);
    match HeadOf(c, a)
    case Incomplete =>
    case Broken =>
    case Whole(header, payload, tail) =>
      if result.None? {
        match ActionOf(c, header, payload)
        case Dispatch => DecodeResumes(c, live, None, if live then dispatched + [payload] else dispatched, tail, b);
        case Respond(r) => DecodeResumes(c, live, Some(r), dispatched, tail, b);
        case Refuse =>
      }
  }

  /** A length that is not allowed is refused as soon as its four bytes are there: nothing of the
      frame is waited for. */
  lemma OversizedIsRefusedAtOnce(c: Config, header: seq<Byte>, length: nat, rest: seq<Byte>)
    requires length < WORD
    ensures length > MAX_HEAD ==> HeadOf(c, Be32(length) + rest) == Broken
    ensures |header| <= MAX_HEAD && length > c.maximum ==>
              HeadOf(c, Frame(header) + (Be32(length) + rest)) == Broken
  {
    WordRoundTrip(length);
    hide FromBe, Be32;
    assert (Be32(length) + rest)[..4] == Be32(length);
    if |header| <= MAX_HEAD {
      WordRoundTrip(|header|);
      var s := Frame(header) + (Be32(length) + rest);
      assert s[..4] == Be32(|header|);
      assert s[4..] == header + (Be32(length) + rest);
      assert s[4..][|header|..] == Be32(length) + rest;
    }
  }

  lemma HeadShrinks(c: Config, buffer: seq<Byte>)
    ensures HeadOf(c, buffer).Whole? ==> |HeadOf(c, buffer).tail| < |buffer|
  {
  }

  // ---- The receive loop ----

  /** `dispatched` and `commands` record what was handed to the broker and written to the port. */
  datatype Port = Port(
    buffer: seq<Byte>,
    size: nat,
    result: Option<Result>,
    failure: Option<Result>,
    cancelled: bool,
    dispatched: seq<seq<Byte>>,
    commands: seq<seq<Byte>>)

  const Opened := Port([], 0, None, None, false, [], [])

  datatype Msg =
    | Data(bytes: seq<Byte>)
    | Cancel
    | OwnerDown
    | BrokerDown
    | CallbackReply(completion: seq<Byte>)
    | CallbackError(kind: Kind, message: string)

  /** An empty frame tells the supervisor to stop the child; it is sent once. */
  function Cancelling(p: Port): Port {
    p.(cancelled := true, commands := if p.cancelled then p.commands else p.commands + [Frame([])])
  }

  /** Input within the transport limit. */
  function AtOnce(c: Config, p: Port, bytes: seq<Byte>): Port {
    var counted := p.(size := p.size + |bytes|);
    match Decode(c, !p.cancelled, p.result, p.dispatched, p.buffer + bytes)
    case More(r, d, buffer) => counted.(result := r, dispatched := d, buffer := buffer)
    case Bad(d) => Cancelling(counted.(dispatched := d, failure := Some(InvalidResponse()), buffer := []))
  }

  function Receive(c: Config, p: Port, m: Msg): Port {
    match m
    case Data(bytes) =>
      if p.size + |bytes| > MAX_TRANSPORT then Cancelling(p.(failure := Some(LimitExceeded()), buffer := []))
      else AtOnce(c, p, bytes)
    case Cancel => Cancelling(p)
    case OwnerDown => Cancelling(p)
    case BrokerDown =>
      if !c.broker then p
      else Cancelling(p.(failure := if p.failure.Some? then p.failure
                                    else Some(BrokerStopped())))
    case CallbackReply(completion) =>
      if p.cancelled || !c.broker || |completion| >= WORD then p
      else p.(commands := p.commands + [Frame(completion)])
    case CallbackError(kind, message) =>
      if !c.broker then p else Cancelling(p.(failure := Some(Failure(kind, Own(message)))))
  }

  function ReceiveAll(c: Config, p: Port, ms: seq<Msg>): Port
    decreases |ms|
  {
    if ms == [] then p else ReceiveAll(c, Receive(c, p, ms[0]), ms[1..])
  }

  /** What the worker's exit makes of the call. */
  function Conclude(p: Port, status: nat): Result {
    if p.failure.Some? then p.failure.value
    else if status == 0 then (if p.buffer == [] && p.result.Some? then p.result.value else InvalidResponse())
    else if status == 124 then Failure(Timeout, Own("isolated worker timed out"))
    else if status == 125 then Failure(Cancelled, Own("isolated worker cancelled"))
    else Failure(WorkerError, Own("isolated worker exited (status " + Decimal(status) + ")"))
  }

  // ---- After a cancellation ----

  lemma {:induction false} DeadDecodeDispatchesNothing(c: Config, result: Option<Result>,
                                                       dispatched: seq<seq<Byte>>, buffer: seq<Byte>)
    ensures Decode(c, false, result, dispatched, buffer).dispatched == dispatched
    decreases |buffer|
  {
    hide HeadOf, ActionOf;
    HeadShrinks(c, buffer);
    match HeadOf(c, buffer)
    case Incomplete =>
    case Broken =>
    case Whole(header, payload, tail) =>
      if result.None? {
        match ActionOf(c, header, payload)
        case Dispatch => DeadDecodeDispatchesNothing(c, None, dispatched, tail);
        case Respond(r) => DeadDecodeDispatchesNothing(c, Some(r), dispatched, tail);
        case Refuse =>
      }
  }

  lemma CancelledStays(c: Config, p: Port, m: Msg)
    requires p.cancelled
    ensures var after := Receive(c, p, m);
            after.cancelled && after.dispatched == p.dispatched && after.commands == p.commands
    ensures p.failure.Some? ==> Receive(c, p, m).failure.Some?
  {
    if m.Data? {
      DeadDecodeDispatchesNothing(c, p.result, p.dispatched, p.buffer + m.bytes);
    }
    hide Decode;
  }

  /** Once a call is cancelled, by its caller or by a failure, nothing more is dispatched or written,
      whatever arrives. */
  lemma {:induction false} CancelledIsSilent(c: Config, p: Port, ms: seq<Msg>)
    requires p.cancelled
    ensures var after := ReceiveAll(c, p, ms);
            after.cancelled && after.dispatched == p.dispatched && after.commands == p.commands
    decreases |ms|
  {
    hide Receive;
    if ms != [] {
      CancelledStays(c, p, ms[0]);
      CancelledIsSilent(c, Receive(c, p, ms[0]), ms[1..]);
    }
  }

  /** The call is cancelled with one empty frame, and dispatches no more than it has. */
  lemma CancelStopsWork(c: Config, p: Port, m: Msg, ms: seq<Msg>)
    requires !p.cancelled && (m.Cancel? || m.OwnerDown?)
    ensures var after := ReceiveAll(c, Receive(c, p, m), ms);
            after.dispatched == p.dispatched && after.commands == p.commands + [Frame([])]
  {
    CancelledIsSilent(c, Receive(c, p, m), ms);
    hide Decode, Frame;
  }

  // ---- Failures ----

  /** A recorded failure is never a success. */
  ghost predicate Proper(p: Port) {
    p.failure.Some? ==> p.failure.value.Failure? && p.failure.value.message.Own?
  }

  lemma ReceiveKeepsProper(c: Config, p: Port, m: Msg)
    requires Proper(p)
    ensures Proper(Receive(c, p, m)) && (p.failure.Some? ==> Receive(c, p, m).failure.Some?)
  {
    hide Decode;
  }

  lemma {:induction false} StaysProper(c: Config, p: Port, ms: seq<Msg>)
    requires Proper(p)
    ensures Proper(ReceiveAll(c, p, ms)) && (p.failure.Some? ==> ReceiveAll(c, p, ms).failure.Some?)
    decreases |ms|
  {
    if ms != [] {
      ReceiveKeepsProper(c, p, ms[0]);
      hide Receive;
      StaysProper(c, Receive(c, p, ms[0]), ms[1..]);
    }
  }

  /** Only status 0 can mean success. */
  lemma OtherStatusFails(c: Config, ms: seq<Msg>, status: nat)
    requires status != 0
    ensures Conclude(ReceiveAll(c, Opened, ms), status).Failure?
  {
    StaysProper(c, Opened, ms);
    hide ReceiveAll;
  }

  ghost predicate GivenUp(p: Port) {
    p.cancelled && p.failure.Some? && Proper(p)
  }

  /** After a decoding error, an oversized stream or a broker failure, nothing more is dispatched or
      written whatever arrives, and no exit status makes the call succeed. */
  lemma FailureIsSticky(c: Config, p: Port, ms: seq<Msg>, status: nat)
    requires GivenUp(p)
    ensures var after := ReceiveAll(c, p, ms);
            && after.dispatched == p.dispatched && after.commands == p.commands
            && Conclude(after, status).Failure?
  {
    CancelledIsSilent(c, p, ms);
    StaysProper(c, p, ms);
    hide ReceiveAll;
  }

  /** What a message records over whatever failure there was. */
  function Overwrites(c: Config, p: Port, m: Msg): Option<Result> {
    match m
    case Data(bytes) =>
      if p.size + |bytes| > MAX_TRANSPORT then Some(LimitExceeded())
      else if Decode(c, !p.cancelled, p.result, p.dispatched, p.buffer + bytes).Bad? then Some(InvalidResponse())
      else None
    case CallbackError(kind, message) => if c.broker then Some(Failure(kind, Own(message))) else None
    case _ => None
  }

  /** No message decodes badly, exceeds the limit or reports a failure. */
  predicate Untouched(c: Config, p: Port, ms: seq<Msg>)
    decreases |ms|
  {
    ms == [] || (Overwrites(c, p, ms[0]).None? && Untouched(c, Receive(c, p, ms[0]), ms[1..]))
  }

  lemma FailureAfter(c: Config, p: Port, m: Msg)
    requires p.failure.Some?
    ensures Receive(c, p, m).failure == if Overwrites(c, p, m).Some? then Overwrites(c, p, m) else p.failure
  {
    hide Decode;
  }

  /** A later decoding error or oversized message replaces a failure, and is replaced in turn. */
  lemma {:induction false} FailureIsKeptOrReplaced(c: Config, p: Port, ms: seq<Msg>)
    requires p.failure.Some? && forall k :: 0 <= k < |ms| ==> !ms[k].CallbackError?
    ensures var after := ReceiveAll(c, p, ms);
            if Untouched(c, p, ms) then after.failure == p.failure
            else after.failure == Some(InvalidResponse()) || after.failure == Some(LimitExceeded())
    decreases |ms|
  {
    if ms != [] {
      FailureAfter(c, p, ms[0]);
      ReplacementIsKnown(c, p, ms[0]);
      assert forall k :: 0 <= k < |ms[1..]| ==> ms[1..][k] == ms[k + 1];
      hide Receive, Overwrites;
      FailureIsKeptOrReplaced(c, Receive(c, p, ms[0]), ms[1..]);
    }
  }

  lemma ReplacementIsKnown(c: Config, p: Port, m: Msg)
    requires !m.CallbackError?
    ensures var r := Overwrites(c, p, m);
            r.Some? ==> r == Some(InvalidResponse()) || r == Some(LimitExceeded())
  {
    hide Decode;
  }

  /** Exactly: the failure that the broker reports, which it does once, is the result of the call, for
      every exit status, unless a later message fails to decode or exceeds the transport limit. Its kinds
      are never those of the two failures that replace it. */
  lemma ReportedFailureWinsExactly(c: Config, p: Port, kind: Kind, message: string, ms: seq<Msg>, status: nat)
    requires c.broker && forall k :: 0 <= k < |ms| ==> !ms[k].CallbackError?
    requires Failure(kind, Own(message)) != InvalidResponse() && Failure(kind, Own(message)) != LimitExceeded()
    ensures var failed := Receive(c, p, CallbackError(kind, message));
            Conclude(ReceiveAll(c, failed, ms), status) == Failure(kind, Own(message)) <==> Untouched(c, failed, ms)
  {
    hide ReceiveAll, Untouched, InvalidResponse, LimitExceeded, BrokerStopped, Decode, Frame;
    var failed := Receive(c, p, CallbackError(kind, message));
    assert failed.failure == Some(Failure(kind, Own(message)));
    hide Receive;
    FailureIsKeptOrReplaced(c, failed, ms);
  }

  /** The same of a broker that dies, if nothing has failed before. */
  lemma BrokerDeathIsReportedExactly(c: Config, p: Port, ms: seq<Msg>, status: nat)
    requires c.broker && p.failure.None? && forall k :: 0 <= k < |ms| ==> !ms[k].CallbackError?
    ensures var failed := Receive(c, p, BrokerDown);
            Conclude(ReceiveAll(c, failed, ms), status) == Failure(Trap, Own("callback broker stopped"))
            <==> Untouched(c, failed, ms)
  {
    hide ReceiveAll, Untouched, Decode, Frame;
    var failed := Receive(c, p, BrokerDown);
    assert failed.failure == Some(Failure(Trap, Own("callback broker stopped")));
    assert InvalidResponse().kind == WorkerError && LimitExceeded().kind == WorkerError;
    hide Receive, InvalidResponse, LimitExceeded;
    FailureIsKeptOrReplaced(c, failed, ms);
  }

  /** And there are such messages: four bytes that announce a header of 4 GiB, and one byte too many. */
  lemma ReportedFailureCanBeReplaced(c: Config, kind: Kind, message: string, bytes: seq<Byte>, status: nat)
    requires c.broker && |bytes| > MAX_TRANSPORT
    ensures Conclude(ReceiveAll(c, Opened, [CallbackError(kind, message), Data([0xff, 0xff, 0xff, 0xff])]), status)
         == InvalidResponse()
    ensures Conclude(ReceiveAll(c, Opened, [CallbackError(kind, message), Data(bytes)]), status) == LimitExceeded()
  {
    hide InvalidResponse, LimitExceeded;
    var failed := Receive(c, Opened, CallbackError(kind, message));
    var huge: seq<Byte> := [0xff, 0xff, 0xff, 0xff];
    assert huge == Be32(0xffff_ffff) + [] by { HugeWord(); }
    OversizedIsRefusedAtOnce(c, [], 0xffff_ffff, []);
    assert failed.buffer + huge == huge;
    TwoMessages(c, Opened, CallbackError(kind, message), Data(huge));
    TwoMessages(c, Opened, CallbackError(kind, message), Data(bytes));
  }

  lemma HugeWord()
    ensures Be32(0xffff_ffff) == [0xff, 0xff, 0xff, 0xff]
  {
    assert BigEndian(0xffff_ff, 3) == BigEndian(0xffff, 2) + [0xff];
    assert BigEndian(0xffff, 2) == BigEndian(0xff, 1) + [0xff];
    assert BigEndian(0xff, 1) == BigEndian(0, 0) + [0xff];
  }

  lemma TwoMessages(c: Config, p: Port, m: Msg, n: Msg)
    ensures ReceiveAll(c, p, [m, n]) == Receive(c, Receive(c, p, m), n)
  {
    hide Receive;
    assert [m, n][1..] == [n] && [n][1..] == [];
    var last := Receive(c, Receive(c, p, m), n);
    assert ReceiveAll(c, last, []) == last;
  }

  // ---- What a list of messages says ----

  /** All that the worker has written. */
  function DataOf(ms: seq<Msg>): seq<Byte> {
    if ms == [] then [] else (if ms[0].Data? then ms[0].bytes else []) + DataOf(ms[1..])
  }

  /** Messages of a call that runs: output of the worker, and answers of the broker. */
  ghost predicate Working(ms: seq<Msg>) {
    forall k :: 0 <= k < |ms| ==> ms[k].Data? || ms[k].CallbackReply?
  }

  /** The broker neither fails nor dies; anything else may happen. */
  ghost predicate Unfailing(c: Config, ms: seq<Msg>) {
    c.broker ==> forall k :: 0 <= k < |ms| ==> !ms[k].BrokerDown? && !ms[k].CallbackError?
  }

  /** The answers, as they are written to the worker. */
  function Answers(ms: seq<Msg>): seq<seq<Byte>> {
    if ms == [] then [] else AnswerOf(ms[0]) + Answers(ms[1..])
  }

  function AnswerOf(m: Msg): seq<seq<Byte>> {
    if m.CallbackReply? && |m.completion| < WORD then [Frame(m.completion)] else []
  }

  /** The same result for every exit status. */
  ghost predicate SameResult(a: Port, b: Port) {
    forall status: nat :: Conclude(a, status) == Conclude(b, status)
  }

  /** What the result depends on. */
  ghost predicate SameInput(a: Port, b: Port) {
    a.buffer == b.buffer && a.size == b.size && a.result == b.result && a.failure == b.failure
  }

  lemma {:induction false} DecodeIgnoresLiveness(c: Config, live: bool, result: Option<Result>, d: seq<seq<Byte>>,
                                                 live': bool, d': seq<seq<Byte>>, buffer: seq<Byte>)
    ensures var a, b := Decode(c, live, result, d, buffer), Decode(c, live', result, d', buffer);
            (a.More? <==> b.More?) && (a.More? ==> a.result == b.result && a.buffer == b.buffer)
    decreases |buffer|
  {
    hide HeadOf, ActionOf;
    HeadShrinks(c, buffer);
    match HeadOf(c, buffer)
    case Incomplete =>
    case Broken =>
    case Whole(header, payload, tail) =>
      if result.None? {
        match ActionOf(c, header, payload)
        case Dispatch =>
          DecodeIgnoresLiveness(c, live, None, if live then d + [payload] else d,
                                live', if live' then d' + [payload] else d', tail);
        case Respond(r) => DecodeIgnoresLiveness(c, live, Some(r), d, live', d', tail);
        case Refuse =>
      }
  }

  /** The result of input does not depend on what was dispatched or written before. */
  lemma AtOnceIgnoresWork(c: Config, a: Port, b: Port, bytes: seq<Byte>)
    requires SameInput(a, b)
    ensures SameResult(AtOnce(c, a, bytes), AtOnce(c, b, bytes))
    ensures a.cancelled == b.cancelled && a.dispatched == b.dispatched ==>
              AtOnce(c, a, bytes).dispatched == AtOnce(c, b, bytes).dispatched
              && AtOnce(c, a, bytes).cancelled == AtOnce(c, b, bytes).cancelled
  {
    DecodeIgnoresLiveness(c, !a.cancelled, a.result, a.dispatched, !b.cancelled, b.dispatched, a.buffer + bytes);
    hide Decode, Frame;
  }

  lemma OtherMessages(c: Config, p: Port, m: Msg)
    requires !m.Data? && Unfailing(c, [m])
    ensures SameInput(Receive(c, p, m), p)
    ensures m.CallbackReply? ==>
              Receive(c, p, m).cancelled == p.cancelled && Receive(c, p, m).dispatched == p.dispatched
  {
    assert [m][0] == m;
    hide Frame;
  }

  lemma FirstOf(c: Config, ms: seq<Msg>)
    requires ms != [] && Unfailing(c, ms)
    ensures Unfailing(c, [ms[0]]) && Unfailing(c, ms[1..])
    ensures Working(ms) ==> (ms[0].Data? || ms[0].CallbackReply?) && Working(ms[1..])
  {
  }

  lemma {:induction false} InvalidStays(c: Config, p: Port, ms: seq<Msg>)
    requires p.failure == Some(InvalidResponse()) && p.cancelled
    requires Unfailing(c, ms) && p.size + |DataOf(ms)| <= MAX_TRANSPORT
    ensures SameResult(ReceiveAll(c, p, ms), p)
    decreases |ms|
  {
    hide Decode, InvalidResponse, Unfailing;
    if ms != [] {
      FirstOf(c, ms);
      if !ms[0].Data? {
        OtherMessages(c, p, ms[0]);
        CancelledStays(c, p, ms[0]);
      }
      InvalidStays(c, Receive(c, p, ms[0]), ms[1..]);
    }
  }

  lemma IncompleteDecodes(c: Config, p: Port)
    requires HeadOf(c, p.buffer).Incomplete?
    ensures Decode(c, !p.cancelled, p.result, p.dispatched, p.buffer) == More(p.result, p.dispatched, p.buffer)
  {
  }

  lemma {:induction false} DecodeLeavesIncomplete(c: Config, live: bool, result: Option<Result>,
                                                  dispatched: seq<seq<Byte>>, buffer: seq<Byte>)
    ensures var r := Decode(c, live, result, dispatched, buffer);
            r.More? ==> HeadOf(c, r.buffer).Incomplete?
    decreases |buffer|
  {
    hide HeadOf, ActionOf;
    HeadShrinks(c, buffer);
    match HeadOf(c, buffer)
    case Incomplete =>
    case Broken =>
    case Whole(header, payload, tail) =>
      if result.None? {
        match ActionOf(c, header, payload)
        case Dispatch =>
          DecodeLeavesIncomplete(c, live, None, if live then dispatched + [payload] else dispatched, tail);
        case Respond(r) => DecodeLeavesIncomplete(c, live, Some(r), dispatched, tail);
        case Refuse =>
      }
  }

  /** The result after messages is that after their data alone, all at once; and so is the work, if the
      call is not cancelled. */
  ghost predicate AsAtOnce(c: Config, p: Port, ms: seq<Msg>) {
    var after, once := ReceiveAll(c, p, ms), AtOnce(c, p, DataOf(ms));
    && SameResult(after, once)
    && (Working(ms) && !p.cancelled ==> after.dispatched == once.dispatched && after.cancelled == once.cancelled)
  }

  lemma NoMessages(c: Config, p: Port)
    requires HeadOf(c, p.buffer).Incomplete?
    ensures AsAtOnce(c, p, [])
  {
    assert p.buffer + [] == p.buffer;
    IncompleteDecodes(c, p);
    hide Decode;
  }

  /** A piece of data and the rest, against both together. */
  lemma DataFirst(c: Config, p: Port, first: seq<Byte>, rest: seq<Byte>)
    requires p.size + |first + rest| <= MAX_TRANSPORT
    ensures var after := Receive(c, p, Data(first));
            after == AtOnce(c, p, first)
            && (Decode(c, !p.cancelled, p.result, p.dispatched, p.buffer + first).More? ==>
                 var all, later := AtOnce(c, p, first + rest), AtOnce(c, after, rest);
                 SameResult(all, later) && all.dispatched == later.dispatched && all.cancelled == later.cancelled)
            && (Decode(c, !p.cancelled, p.result, p.dispatched, p.buffer + first).Bad? ==>
                 AtOnce(c, p, first + rest) == after.(size := p.size + |first + rest|)
                 && after.failure == Some(InvalidResponse()) && after.cancelled)
  {
    assert p.buffer + (first + rest) == p.buffer + first + rest;
    DecodeResumes(c, !p.cancelled, p.result, p.dispatched, p.buffer + first, rest);
    hide Decode, Frame;
  }

  lemma {:induction false} MessagesAreOneMessage(c: Config, p: Port, ms: seq<Msg>)
    requires p.failure.None? && HeadOf(c, p.buffer).Incomplete?
    requires Unfailing(c, ms) && p.size + |DataOf(ms)| <= MAX_TRANSPORT
    ensures AsAtOnce(c, p, ms)
    decreases |ms|
  {
    if ms == [] {
      NoMessages(c, p);
    } else if ms[0].Data? {
      DataStep(c, p, ms);
    } else {
      hide Decode, HeadOf, Unfailing, Working, AtOnce;
      FirstOf(c, ms);
      OtherMessages(c, p, ms[0]);
      assert DataOf(ms) == DataOf(ms[1..]);
      var after := Receive(c, p, ms[0]);
      hide Receive, DataOf;
      MessagesAreOneMessage(c, after, ms[1..]);
      AtOnceIgnoresWork(c, after, p, DataOf(ms));
    }
  }

  lemma {:induction false} DataStep(c: Config, p: Port, ms: seq<Msg>)
    requires p.failure.None? && HeadOf(c, p.buffer).Incomplete?
    requires Unfailing(c, ms) && p.size + |DataOf(ms)| <= MAX_TRANSPORT
    requires ms != [] && ms[0].Data?
    ensures AsAtOnce(c, p, ms)
    decreases |ms|, 0
  {
    hide Decode, HeadOf, Unfailing, Working, AtOnce, Receive;
    var first, rest := ms[0].bytes, DataOf(ms[1..]);
    assert DataOf(ms) == first + rest;
    FirstOf(c, ms);
    DataFirst(c, p, first, rest);
    AfterData(c, p, first);
    hide DataOf;
    var after := Receive(c, p, Data(first));
    if Decode(c, !p.cancelled, p.result, p.dispatched, p.buffer + first).More? {
      MessagesAreOneMessage(c, after, ms[1..]);
    } else {
      InvalidStays(c, after, ms[1..]);
      CancelledIsSilent(c, after, ms[1..]);
    }
  }

  lemma AfterData(c: Config, p: Port, first: seq<Byte>)
    requires p.failure.None? && p.size + |first| <= MAX_TRANSPORT
    ensures var after := Receive(c, p, Data(first));
            after.size == p.size + |first|
            && (Decode(c, !p.cancelled, p.result, p.dispatched, p.buffer + first).More? ==>
                 after.failure.None? && HeadOf(c, after.buffer).Incomplete? && after.cancelled == p.cancelled)
  {
    DecodeLeavesIncomplete(c, !p.cancelled, p.result, p.dispatched, p.buffer + first);
    hide Decode, HeadOf, Frame;
  }

  /** Chunking independence: within the transport limit, the result of a call depends on the worker's
      bytes and not on their pieces, nor on the answers, cancellations and deaths of the owner that
      arrive between them; and as long as the call is not cancelled, neither do the payloads that the
      broker is given, or their order. */
  lemma ChunkingDoesNotMatter(c: Config, one: seq<Msg>, other: seq<Msg>)
    requires Unfailing(c, one) && Unfailing(c, other)
    requires DataOf(one) == DataOf(other) && |DataOf(one)| <= MAX_TRANSPORT
    ensures SameResult(ReceiveAll(c, Opened, one), ReceiveAll(c, Opened, other))
    ensures Working(one) && Working(other) ==>
              ReceiveAll(c, Opened, one).dispatched == ReceiveAll(c, Opened, other).dispatched
  {
    EmptyIncomplete(c);
    hide Decode, HeadOf, Unfailing, Working, AtOnce, ReceiveAll, DataOf;
    MessagesAreOneMessage(c, Opened, one);
    MessagesAreOneMessage(c, Opened, other);
  }

  /** While the call is not cancelled, every answer of the broker is written to the worker, in order. */
  lemma {:induction false} AnswersAreWritten(c: Config, p: Port, ms: seq<Msg>)
    requires c.broker && Working(ms) && !ReceiveAll(c, p, ms).cancelled
    ensures ReceiveAll(c, p, ms).commands == p.commands + Answers(ms)
    decreases |ms|
  {
    hide Receive, AnswerOf;
    if ms != [] {
      assert Working(ms[1..]) && (ms[0].Data? || ms[0].CallbackReply?);
      hide Working;
      var after := Receive(c, p, ms[0]);
      if p.cancelled {
        CancelledIsSilent(c, p, ms);
      } else if after.cancelled {
        CancelledIsSilent(c, after, ms[1..]);
      } else {
        OneAnswer(c, p, ms[0]);
        AnswersAreWritten(c, after, ms[1..]);
      }
    }
  }

  lemma OneAnswer(c: Config, p: Port, m: Msg)
    requires c.broker && (m.Data? || m.CallbackReply?) && !p.cancelled && !Receive(c, p, m).cancelled
    ensures Receive(c, p, m).commands == p.commands + AnswerOf(m)
  {
    hide Decode, Frame;
  }

  /** A worker that writes more than the transport limit fails the call, in whatever pieces. */
  lemma {:induction false} TooMuchFails(c: Config, p: Port, ms: seq<Msg>)
    requires Proper(p) && p.size <= MAX_TRANSPORT && p.size + |DataOf(ms)| > MAX_TRANSPORT
    ensures ReceiveAll(c, p, ms).failure.Some? && Proper(ReceiveAll(c, p, ms))
    decreases |ms|
  {
    hide Decode;
    if ms != [] {
      var after := Receive(c, p, ms[0]);
      ReceiveKeepsProper(c, p, ms[0]);
      if after.failure.Some? {
        StaysProper(c, after, ms[1..]);
      } else {
        TooMuchFails(c, after, ms[1..]);
      }
    }
  }

  /** A broker that fails or dies fails the call. */
  lemma {:induction false} FailingFails(c: Config, p: Port, ms: seq<Msg>)
    requires Proper(p) && !Unfailing(c, ms)
    ensures ReceiveAll(c, p, ms).failure.Some? && Proper(ReceiveAll(c, p, ms))
    decreases |ms|
  {
    assert ms != [];
    var after := Receive(c, p, ms[0]);
    ReceiveKeepsProper(c, p, ms[0]);
    if Unfailing(c, [ms[0]]) {
      assert [ms[0]][0] == ms[0];
      var k :| 0 <= k < |ms| && (ms[k].BrokerDown? || ms[k].CallbackError?);
      assert ms[1..][k - 1] == ms[k];
      FailingFails(c, after, ms[1..]);
    } else {
      FailureIsRecorded(c, p, ms[0]);
      StaysProper(c, after, ms[1..]);
    }
  }

  lemma FailureIsRecorded(c: Config, p: Port, m: Msg)
    requires !Unfailing(c, [m])
    ensures Receive(c, p, m).failure.Some?
  {
    assert [m][0] == m;
    hide Frame;
  }

  // ---- What an exit status is reported as ----

  /** A result that the worker gave, or that says that it gave none. */
  ghost predicate Worded(result: Option<Result>) {
    result.Some? ==> result.value.Success? || result.value.message.Given? || result.value == InvalidResponse()
  }

  lemma {:induction false} DecodeKeepsWorded(c: Config, live: bool, result: Option<Result>,
                                             dispatched: seq<seq<Byte>>, buffer: seq<Byte>)
    requires Worded(result)
    ensures var r := Decode(c, live, result, dispatched, buffer); r.More? ==> Worded(r.result)
    decreases |buffer|
  {
    hide HeadOf, InvalidResponse;
    HeadShrinks(c, buffer);
    match HeadOf(c, buffer)
    case Incomplete =>
    case Broken =>
    case Whole(header, payload, tail) =>
      if result.None? {
        RespondsWorded(c, header, payload);
        hide ActionOf, Worded;
        match ActionOf(c, header, payload)
        case Dispatch => DecodeKeepsWorded(c, live, None, if live then dispatched + [payload] else dispatched, tail);
        case Respond(r) => DecodeKeepsWorded(c, live, Some(r), dispatched, tail);
        case Refuse =>
      }
  }

  lemma RespondsWorded(c: Config, header: seq<Byte>, payload: seq<Byte>)
    ensures Worded(None)
    ensures var a := ActionOf(c, header, payload); a.Respond? ==> Worded(Some(a.result))
  {
    hide TagOf, InvalidResponse;
  }

  lemma {:induction false} ResultIsWorded(c: Config, p: Port, ms: seq<Msg>)
    requires Worded(p.result)
    ensures Worded(ReceiveAll(c, p, ms).result)
    decreases |ms|
  {
    if ms != [] {
      if ms[0].Data? {
        DecodeKeepsWorded(c, !p.cancelled, p.result, p.dispatched, p.buffer + ms[0].bytes);
      }
      hide Decode, Worded, Frame;
      var after := Receive(c, p, ms[0]);
      assert Worded(after.result);
      hide Receive;
      ResultIsWorded(c, after, ms[1..]);
    }
  }

  lemma ExitedTexts(m: nat, n: nat)
    ensures "isolated worker exited (status " + Decimal(m) + ")" == "isolated worker exited (status " + Decimal(n) + ")"
            <==> m == n
    ensures "isolated worker exited (status " + Decimal(n) + ")" != "invalid isolated worker response"
  {
    hide Decimal;
    var prefix := "isolated worker exited (status ";
    var a, b := prefix + Decimal(m) + ")", prefix + Decimal(n) + ")";
    assert b[1] == 's' && "invalid isolated worker response"[1] == 'n';
    if a == b {
      assert a[|prefix|..|a| - 1] == Decimal(m) && b[|prefix|..|b| - 1] == Decimal(n);
      Codec.DecimalIsInjective(m, n);
    }
  }

  /** Exactly what the BEAM makes of the status, for every message list after which no failure is
      recorded: a timeout of 124, a cancellation of 125, an error that names the status of every other
      but 0, and of 0 what the worker said, or that it said nothing valid. */
  lemma StatusIsReported(c: Config, ms: seq<Msg>, status: nat)
    requires ReceiveAll(c, Opened, ms).failure.None?
    ensures var r := Conclude(ReceiveAll(c, Opened, ms), status);
            && (r == Failure(Timeout, Own("isolated worker timed out")) <==> status == 124)
            && (r == Failure(Cancelled, Own("isolated worker cancelled")) <==> status == 125)
            && (forall n: nat :: r == Failure(WorkerError, Own("isolated worker exited (status " + Decimal(n) + ")"))
                  <==> status == n && n != 0 && n != 124 && n != 125)
            && (status == 0 ==> r.Success? || r.message.Given? || r == InvalidResponse())
  {
    ResultIsWorded(c, Opened, ms);
    hide ReceiveAll, Decimal;
    forall n: nat
      ensures Conclude(ReceiveAll(c, Opened, ms), status)
              == Failure(WorkerError, Own("isolated worker exited (status " + Decimal(n) + ")"))
              <==> status == n && n != 0 && n != 124 && n != 125
    {
      ExitedTexts(status, n);
    }
  }

  // ---- What is accepted ----

  datatype Pair = Pair(header: seq<Byte>, payload: seq<Byte>)

  ghost predicate Small(c: Config, p: Pair) {
    |p.header| <= MAX_HEAD && |p.payload| <= c.maximum && |p.payload| < WORD
  }

  function Transcript(ps: seq<Pair>): seq<Byte>
    requires forall p :: p in ps ==> |p.header| < WORD && |p.payload| < WORD
  {
    if ps == [] then [] else Frame(ps[0].header) + (Frame(ps[0].payload) + Transcript(ps[1..]))
  }

  function Payloads(ps: seq<Pair>): seq<seq<Byte>> {
    if ps == [] then [] else [ps[0].payload] + Payloads(ps[1..])
  }

  /** Callbacks, then one terminal event that responds with `result`. */
  ghost predicate Legal(c: Config, ps: seq<Pair>, result: Result) {
    && ps != []
    && (forall p :: p in ps ==> Small(c, p))
    && (forall i :: 0 <= i < |ps| - 1 ==> ActionOf(c, ps[i].header, ps[i].payload) == Dispatch)
    && ActionOf(c, ps[|ps| - 1].header, ps[|ps| - 1].payload) == Respond(result)
  }

  /** The decoder's view of two frames is the native reader's. */
  lemma HeadIsTwoReads(c: Config, s: seq<Byte>)
    ensures HeadOf(c, s).Whole? ==>
              var r1 := Reads(s, MAX_HEAD);
              r1.Got? && var r2 := Reads(r1.rest, c.maximum);
              r2.Got? && HeadOf(c, s) == Whole(r1.bytes, r2.bytes, r2.rest)
    ensures var r1 := Reads(s, MAX_HEAD);
            r1.Got? ==> var r2 := Reads(r1.rest, c.maximum);
            r2.Got? ==> HeadOf(c, s) == Whole(r1.bytes, r2.bytes, r2.rest)
  {
    hide FromBe;
  }

  lemma HeadOfPair(c: Config, p: Pair, tail: seq<Byte>)
    requires Small(c, p)
    ensures HeadOf(c, Frame(p.header) + (Frame(p.payload) + tail)) == Whole(p.header, p.payload, tail)
  {
    hide HeadOf, Reads, Frame;
    FrameRoundTrip(p.header, Frame(p.payload) + tail, MAX_HEAD);
    FrameRoundTrip(p.payload, tail, c.maximum);
    HeadIsTwoReads(c, Frame(p.header) + (Frame(p.payload) + tail));
  }

  lemma HeadInverts(c: Config, s: seq<Byte>)
    requires HeadOf(c, s).Whole?
    ensures var h := HeadOf(c, s);
            Small(c, Pair(h.header, h.payload)) && s == Frame(h.header) + (Frame(h.payload) + h.tail)
  {
    hide HeadOf, Reads, Frame;
    HeadIsTwoReads(c, s);
    ReadInverts(s, MAX_HEAD);
    ReadInverts(Reads(s, MAX_HEAD).rest, c.maximum);
  }

  lemma {:induction false} LegalDecodes(c: Config, ps: seq<Pair>, result: Result, dispatched: seq<seq<Byte>>)
    requires Legal(c, ps, result)
    ensures Decode(c, true, None, dispatched, Transcript(ps))
         == More(Some(result), dispatched + Payloads(ps[..|ps| - 1]), [])
    decreases |ps|
  {
    hide HeadOf, ActionOf, Frame;
    forall p | p in ps[1..] ensures p in ps && Small(c, p) {
    }
    var tail := Transcript(ps[1..]);
    HeadOfPair(c, ps[0], tail);
    EmptyIncomplete(c);
    if |ps| == 1 {
      assert tail == [] && dispatched + [] == dispatched;
    } else {
      assert ps[1..][|ps| - 2] == ps[|ps| - 1];
      LegalDecodes(c, ps[1..], result, dispatched + [ps[0].payload]);
      assert ps[..|ps| - 1][1..] == ps[1..][..|ps| - 2];
      assert dispatched + [ps[0].payload] + Payloads(ps[1..][..|ps| - 2])
          == dispatched + ([ps[0].payload] + Payloads(ps[1..][..|ps| - 2]));
    }
  }

  lemma EmptyIncomplete(c: Config)
    ensures HeadOf(c, []).Incomplete?
  {
  }

  lemma {:induction false} DecodesAreLegal(c: Config, result: Result, dispatched: seq<seq<Byte>>, s: seq<Byte>)
      returns (ps: seq<Pair>)
    requires var r := Decode(c, true, None, dispatched, s); r.More? && r.result == Some(result) && r.buffer == []
    ensures Legal(c, ps, result) && s == Transcript(ps)
    decreases |s|
  {
    hide HeadOf, ActionOf, Frame;
    HeadShrinks(c, s);
    HeadInverts(c, s);
    var h := HeadOf(c, s);
    var head := Pair(h.header, h.payload);
    match ActionOf(c, h.header, h.payload)
    case Dispatch =>
      var more := DecodesAreLegal(c, result, dispatched + [h.payload], h.tail);
      ps := [head] + more;
      assert ps[1..] == more && ps[|ps| - 1] == more[|more| - 1];
      forall i | 0 <= i < |ps| - 1 ensures ActionOf(c, ps[i].header, ps[i].payload) == Dispatch {
        if i > 0 {
          assert ps[i] == more[i - 1];
        }
      }
    case Respond(r) =>
      ps := [head];
      SecondDecodesNothing(c, r, dispatched, h.tail);
      assert ps[1..] == [] && Transcript([]) == [];
  }

  /** After a terminal event only an incomplete tail is tolerated, and here there is none. */
  lemma SecondDecodesNothing(c: Config, result: Result, dispatched: seq<seq<Byte>>, s: seq<Byte>)
    ensures var r := Decode(c, true, Some(result), dispatched, s);
            r.More? ==> r == More(Some(result), dispatched, s)
  {
  }

  lemma RespondsSuccess(c: Config, header: seq<Byte>, payload: seq<Byte>, out: seq<Byte>)
    ensures ActionOf(c, header, payload) == Respond(Success(out)) <==>
              c.json(header) == Str("ok") && payload == out && |out| <= c.outputLimit
  {
    NamesAreDistinct(Ok);
    hide TagOf;
    OkIsNamed(c.json(header));
  }

  lemma OkIsNamed(j: Json)
    ensures j.Str? && TagOf(j.text) == Some(Ok) ==> j.text == "ok"
  {
    if j.Str? {
      TagsAreNamed(j.text);
    }
  }

  predicate IsCallbacks(c: Config, header: seq<Byte>) {
    c.json(header) == Str("callbacks") && c.broker
  }

  lemma DispatchesCallbacks(c: Config, header: seq<Byte>, payload: seq<Byte>)
    ensures ActionOf(c, header, payload) == Dispatch <==> IsCallbacks(c, header)
  {
  }

  /** Callbacks events, then one "ok" event with the payload `out`, each within the limits. */
  ghost predicate Response(c: Config, ps: seq<Pair>, out: seq<Byte>) {
    && ps != []
    && (forall p :: p in ps ==> Small(c, p))
    && (forall i :: 0 <= i < |ps| - 1 ==> IsCallbacks(c, ps[i].header))
    && c.json(ps[|ps| - 1].header) == Str("ok") && ps[|ps| - 1].payload == out && |out| <= c.outputLimit
  }

  lemma NoBrokerNoCallbacks(c: Config, ps: seq<Pair>, out: seq<Byte>)
    requires Response(c, ps, out) && !c.broker
    ensures |ps| == 1 && Small(c, ps[0]) && c.json(ps[0].header) == Str("ok")
  {
    hide Small;
    assert |ps| > 1 ==> IsCallbacks(c, ps[0].header);
  }

  lemma ResponsesAreLegal(c: Config, ps: seq<Pair>, out: seq<Byte>)
    ensures Legal(c, ps, Success(out)) <==> Response(c, ps, out)
  {
    hide ActionOf, Small, IsCallbacks;
    forall i | 0 <= i < |ps| - 1
      ensures ActionOf(c, ps[i].header, ps[i].payload) == Dispatch <==> IsCallbacks(c, ps[i].header)
    {
      DispatchesCallbacks(c, ps[i].header, ps[i].payload);
    }
    if ps != [] {
      var last := ps[|ps| - 1];
      RespondsSuccess(c, last.header, last.payload, out);
    }
  }

  lemma AtOnceSucceeds(c: Config, s: seq<Byte>, status: nat, out: seq<Byte>)
    requires |s| <= MAX_TRANSPORT
    ensures Conclude(AtOnce(c, Opened, s), status) == Success(out) <==>
              status == 0 && exists ps :: Legal(c, ps, Success(out)) && Transcript(ps) == s
  {
    hide Decode, Transcript, HeadOf, ActionOf;
    assert [] + s == s;
    if Conclude(AtOnce(c, Opened, s), status) == Success(out) {
      var ps := DecodesAreLegal(c, Success(out), [], s);
    }
    if ps :| Legal(c, ps, Success(out)) && Transcript(ps) == s {
      LegalDecodes(c, ps, Success(out), []);
    }
  }

  /** For every list of messages: a call succeeds exactly if the worker exits with status 0, the broker
      has neither failed nor died, and the worker has written, in whatever pieces and with whatever
      answers between them, callbacks events followed by one "ok" event within the limits and nothing
      else, and no more than the transport limit; and then it returns the payload of that event. */
  lemma SucceedsExactly(c: Config, ms: seq<Msg>, status: nat, out: seq<Byte>)
    ensures Conclude(ReceiveAll(c, Opened, ms), status) == Success(out) <==>
              && status == 0 && Unfailing(c, ms) && |DataOf(ms)| <= MAX_TRANSPORT
              && exists ps :: Response(c, ps, out) && Transcript(ps) == DataOf(ms)
  {
    var s := DataOf(ms);
    EmptyIncomplete(c);
    forall ps ensures Legal(c, ps, Success(out)) <==> Response(c, ps, out) {
      ResponsesAreLegal(c, ps, out);
    }
    assert Proper(Opened);
    hide Decode, HeadOf, Unfailing, Working, ReceiveAll, DataOf, ActionOf, AtOnce;
    if |s| > MAX_TRANSPORT {
      TooMuchFails(c, Opened, ms);
    } else if !Unfailing(c, ms) {
      FailingFails(c, Opened, ms);
    } else {
      MessagesAreOneMessage(c, Opened, ms);
      hide Conclude;
      AtOnceSucceeds(c, s, status, out);
    }
  }

  // ---- Round trip of honest streams ----

  function ResultOf(e: Event): Result
    requires !e.tag.Callbacks?
  {
    if e.tag.Ok? then Success(e.payload) else Failure(e.tag.kind, Given(e.payload))
  }

  /** An event that the limits of a call allow; `max_frame` bounds every payload. */
  ghost predicate Allowed(c: Config, e: Event) {
    && |e.payload| <= c.maximum && |e.payload| < WORD
    && match e.tag
       case Callbacks => c.broker
       case Ok => |e.payload| <= c.outputLimit
       case Error(_) => |e.payload| <= c.errorLimit
  }

  function PairsOf(es: seq<Event>): seq<Pair> {
    seq(|es|, i requires 0 <= i < |es| => Pair(Header(es[i].tag), es[i].payload))
  }

  lemma {:induction false} TranscriptOfEvents(es: seq<Event>)
    requires Sendable(es)
    ensures Transcript(PairsOf(es)) == Stream(es)
    decreases |es|
  {
    hide Frame;
    if es != [] {
      assert PairsOf(es)[1..] == PairsOf(es[1..]);
      TranscriptOfEvents(es[1..]);
      var a, b, rest := Frame(Header(es[0].tag)), Frame(es[0].payload), Stream(es[1..]);
      assert a + (b + rest) == a + b + rest;
    }
  }

  lemma EventAction(c: Config, e: Event)
    requires ReadsHeaders(c.json) && Allowed(c, e)
    ensures ActionOf(c, Header(e.tag), e.payload) == if e.tag.Callbacks? then Dispatch else Respond(ResultOf(e))
  {
    assert c.json(Header(e.tag)) == Str(Name(e.tag));
    NamesAreDistinct(e.tag);
    NamesAreDistinct(Callbacks);
    NamesAreDistinct(Ok);
    assert Name(Callbacks) == "callbacks" && Name(Ok) == "ok";
    hide TagOf, Name, KindName;
  }

  lemma LegalEvents(c: Config, es: seq<Event>)
    requires ReadsHeaders(c.json) && es != []
    requires forall i :: 0 <= i < |es| ==> Allowed(c, es[i]) && (es[i].tag.Callbacks? <==> i < |es| - 1)
    ensures Legal(c, PairsOf(es), ResultOf(es[|es| - 1]))
    ensures PairsOf(es)[..|es| - 1] == PairsOf(es[..|es| - 1])
  {
    hide ActionOf, ResultOf, Allowed, Header, ReadsHeaders, Small;
    var ps := PairsOf(es);
    forall i | 0 <= i < |es|
      ensures Small(c, ps[i])
      ensures ActionOf(c, ps[i].header, ps[i].payload)
           == if es[i].tag.Callbacks? then Dispatch else Respond(ResultOf(es[i]))
    {
      EventAction(c, es[i]);
      AllowedIsSmall(c, es[i]);
    }
  }

  lemma AllowedIsSmall(c: Config, e: Event)
    requires Allowed(c, e)
    ensures Small(c, Pair(Header(e.tag), e.payload))
  {
  }

  /** Decoding inverts encoding: a stream of allowed callbacks events and one terminal event, in any
      pieces and with anything between them but a broker failure, leaves nothing behind and with exit
      status 0 returns what the terminal event says; and as long as only answers come between the
      pieces, exactly the callback payloads are dispatched, in order. */
  lemma EventsRoundTrip(c: Config, es: seq<Event>, ms: seq<Msg>)
    requires ReadsHeaders(c.json) && es != [] && Sendable(es) && |Stream(es)| <= MAX_TRANSPORT
    requires forall i :: 0 <= i < |es| ==> Allowed(c, es[i]) && (es[i].tag.Callbacks? <==> i < |es| - 1)
    requires Unfailing(c, ms) && DataOf(ms) == Stream(es)
    ensures var p := ReceiveAll(c, Opened, ms);
            && p.failure.None? && Conclude(p, 0) == ResultOf(es[|es| - 1])
            && (Working(ms) ==> p.dispatched == Payloads(PairsOf(es[..|es| - 1])) && !p.cancelled)
  {
    hide Decode, Transcript, Legal, HeadOf, PairsOf, Payloads, Stream, Allowed, ActionOf, ReadsHeaders;
    hide DataOf, Unfailing, Working, ReceiveAll;
    LegalEvents(c, es);
    TranscriptOfEvents(es);
    LegalDecodes(c, PairsOf(es), ResultOf(es[|es| - 1]), []);
    EmptyIncomplete(c);
    MessagesAreOneMessage(c, Opened, ms);
    LengthOfPairs(es);
    assert [] + Stream(es) == Stream(es);
    var first := Payloads(PairsOf(es[..|es| - 1]));
    assert [] + first == first;
    var once := AtOnce(c, Opened, Stream(es));
    assert Conclude(once, 0) == ResultOf(es[|es| - 1]) && once.dispatched == first && !once.cancelled;
    SameFailure(ReceiveAll(c, Opened, ms), once);
    hide Conclude, AtOnce;
  }

  lemma SameFailure(a: Port, b: Port)
    requires SameResult(a, b) && b.failure.None?
    ensures a.failure.None?
  {
    assert Conclude(a, 124) == Conclude(b, 124) && Conclude(a, 125) == Conclude(b, 125);
    assert Conclude(b, 124).kind == Timeout && Conclude(b, 125).kind == Cancelled;
  }

  lemma {:induction false} CallbacksDecode(c: Config, es: seq<Event>, dispatched: seq<seq<Byte>>)
    requires ReadsHeaders(c.json) && Sendable(es)
    requires forall i :: 0 <= i < |es| ==> Allowed(c, es[i]) && es[i].tag.Callbacks?
    ensures var r := Decode(c, true, None, dispatched, Stream(es));
            r.More? && r.result == None && r.buffer == []
    decreases |es|
  {
    hide HeadOf, ActionOf, Frame, Header, ReadsHeaders;
    EmptyIncomplete(c);
    if es != [] {
      var e, tail := es[0], Stream(es[1..]);
      EventAction(c, e);
      AllowedIsSmall(c, e);
      HeadOfPair(c, Pair(Header(e.tag), e.payload), tail);
      hide Allowed;
      var a, b := Frame(Header(e.tag)), Frame(e.payload);
      assert Stream(es) == a + b + tail == a + (b + tail);
      CallbacksDecode(c, es[1..], dispatched + [e.payload]);
    }
  }

  /** Callbacks without a terminal event: nothing fails, and the exit status decides. */
  lemma CallbacksDoNotFail(c: Config, es: seq<Event>, ms: seq<Msg>)
    requires ReadsHeaders(c.json) && Sendable(es) && |Stream(es)| <= MAX_TRANSPORT
    requires forall i :: 0 <= i < |es| ==> Allowed(c, es[i]) && es[i].tag.Callbacks?
    requires Unfailing(c, ms) && DataOf(ms) == Stream(es)
    ensures ReceiveAll(c, Opened, ms).failure.None?
    ensures forall status: nat :: Conclude(ReceiveAll(c, Opened, ms), status) == Conclude(Opened, status)
  {
    hide Decode, HeadOf, Stream, Allowed, ReadsHeaders, DataOf, Unfailing, Working, ReceiveAll;
    CallbacksDecode(c, es, []);
    EmptyIncomplete(c);
    MessagesAreOneMessage(c, Opened, ms);
    assert [] + Stream(es) == Stream(es);
    assert SameResult(AtOnce(c, Opened, Stream(es)), Opened);
    SameFailure(ReceiveAll(c, Opened, ms), AtOnce(c, Opened, Stream(es)));
  }

  lemma LengthOfPairs(es: seq<Event>)
    ensures |PairsOf(es)| == |es|
  {
  }
}
