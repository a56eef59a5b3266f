/** The records that the guest bridge and the callback broker exchange, their JSON texts, and the
    frame limits that each side computes for itself. */
module Wire {
  import opened Text

  /** One callback request: `argument` is itself a JSON text. */
  datatype Request = Request(id: nat, name: string, argument: string)

  /** One callback completion: `value` is itself a JSON text. */
  datatype Completion =
    | Resolved(id: nat, value: string)
    | Rejected(id: nat, code: string, message: string)

  /** The error kinds an execution can end with. */
  datatype Kind =
    | Timeout | Cancelled | FuelExhausted | Oom | JsError | Trap | OutputLimit | DiagnosticLimit
    | InputLimit | ModuleLimit | CompileError | WorkerError | CallbackLimit | CallbackTimeout

  /** The callback budgets of one execution. `granted` holds the names of the callbacks given to it. */
  datatype Limits = Limits(
    maxCalls: nat,
    maxConcurrency: nat,
    maxInput: nat,
    maxOutput: nat,
    granted: set<string>)

  /** The ranges option validation enforces. */
  ghost predicate Validated(l: Limits) {
    && l.maxCalls <= 1024
    && 1 <= l.maxConcurrency <= 1024
    && 1 <= l.maxInput <= 8 * 1024 * 1024
    && 1 <= l.maxOutput <= 8 * 1024 * 1024
  }

  const MAX_TRANSPORT: nat := 64 * 1024 * 1024
  const MAX_NAME: nat := 128

  // ---- Texts ----

  const ID_KEY := "{\"id\":"
  const NAME_KEY := ",\"name\":"
  const ARGUMENT_KEY := ",\"argument\":"
  const DONE_KEY := "{\"done\":"
  const FATAL_KEY := ",\"fatal\":"
  const REQUESTS_KEY := ",\"requests\":["
  const CODE_KEY := "{\"code\":"
  const MESSAGE_KEY := ",\"message\":"
  const MIDDLE_ID_KEY := ",\"id\":"
  const VALUE_KEY := ",\"ok\":true,\"value\":"
  const NOT_OK := ",\"ok\":false}]"

  function RequestText(r: Request): string {
    ID_KEY + Decimal(r.id) + NAME_KEY + Quote(r.name) + ARGUMENT_KEY + Quote(r.argument) + "}"
  }

  function Joined(rs: seq<Request>): string {
    if rs == [] then []
    else if |rs| == 1 then RequestText(rs[0])
    else RequestText(rs[0]) + "," + Joined(rs[1..])
  }

  function Flag(b: bool): string {
    if b then "true" else "false"
  }

  /** The state a provider step reports. */
  function StateText(done: bool, fatal: bool, rs: seq<Request>): string {
    DONE_KEY + Flag(done) + FATAL_KEY + Flag(fatal) + REQUESTS_KEY + Joined(rs) + "]}"
  }

  /** The object whose size bounds an error completion. */
  function ErrorText(code: string, message: string): string {
    CODE_KEY + Quote(code) + MESSAGE_KEY + Quote(message) + "}"
  }

  /** The one-element array in which the broker sends a completion. */
  function CompletionText(c: Completion): string {
    match c
    case Resolved(id, value) =>
      "[" + (ID_KEY + Decimal(id) + VALUE_KEY + Quote(value) + "}]")
    case Rejected(id, code, message) =>
      "[" + (CODE_KEY + Quote(code) + MIDDLE_ID_KEY + Decimal(id) + MESSAGE_KEY + Quote(message) + NOT_OK)
  }

  // ---- Limits ----

  function Min(a: nat, b: nat): nat { if a <= b then a else b }

  function Max(a: nat, b: nat): nat { if a >= b then a else b }

  /** The request-frame limit as the BEAM computes it, on unbounded integers. */
  function RequestLimit(l: Limits): nat {
    Min(MAX_TRANSPORT, l.maxConcurrency * (6 * l.maxInput + 2048) + 4096)
  }

  function SaturatingMul(a: nat, b: nat, width: nat): nat { Min(a * b, width) }

  function SaturatingAdd(a: nat, b: nat, width: nat): nat { Min(a + b, width) }

  /** The request-frame limit as the native side computes it, saturating at the largest `usize`. */
  function NativeRequestLimit(l: Limits, usizeMax: nat): nat {
    var perCall := SaturatingAdd(SaturatingMul(l.maxInput, 6, usizeMax), 2048, usizeMax);
    Min(SaturatingAdd(SaturatingMul(l.maxConcurrency, perCall, usizeMax), 4096, usizeMax), MAX_TRANSPORT)
  }

  /** The completion-frame limit, likewise saturating. */
  function CompletionLimit(l: Limits, usizeMax: nat): nat {
    Min(SaturatingAdd(SaturatingMul(l.maxOutput, 6, usizeMax), 4096, usizeMax), MAX_TRANSPORT)
  }

  /** Saturation never shows through the final cap: the two request limits agree for every budget,
      validated or not, and every `usize` that can hold the cap. */
  lemma RequestLimitsAgree(l: Limits, usizeMax: nat)
    requires MAX_TRANSPORT <= usizeMax
    ensures NativeRequestLimit(l, usizeMax) == RequestLimit(l)
  {
    var exact := 6 * l.maxInput + 2048;
    var perCall := SaturatingAdd(SaturatingMul(l.maxInput, 6, usizeMax), 2048, usizeMax);
    assert perCall == Min(exact, usizeMax);
    if l.maxConcurrency == 0 {
      assert l.maxConcurrency * perCall == 0 && l.maxConcurrency * exact == 0;
    } else if exact > usizeMax {
      MulAtLeast(l.maxConcurrency, usizeMax);
      MulAtLeast(l.maxConcurrency, exact);
    }
  }

  lemma MulAtLeast(a: nat, b: nat)
    requires a >= 1
    ensures a * b >= b
  {
  }

  /** On validated budgets the transport cap never cuts the completion limit. */
  lemma CompletionLimitExact(l: Limits, usizeMax: nat)
    requires Validated(l) && MAX_TRANSPORT <= usizeMax
    ensures CompletionLimit(l, usizeMax) == 6 * l.maxOutput + 4096 < MAX_TRANSPORT
  {
  }

  // ---- Sizes of honest texts ----

  /** What the guest bridge checks before it registers a request. */
  ghost predicate WithinGuestQuota(r: Request, maxInput: nat) {
    && 1 <= r.id <= 9999
    && 1 <= Bytes(r.name) <= MAX_NAME
    && Bytes(r.argument) <= maxInput
  }

  lemma RequestTextBytes(r: Request, maxInput: nat)
    requires WithinGuestQuota(r, maxInput)
    ensures Bytes(RequestText(r)) + 8 <= 6 * maxInput + 2048
  {
    hide Bytes, Quote, Decimal;
    BytesConcat7(ID_KEY, Decimal(r.id), NAME_KEY, Quote(r.name), ARGUMENT_KEY, Quote(r.argument), "}");
    LiteralBytes();
    DecimalBytes(r.id);
    QuoteBytes(r.name);
    QuoteBytes(r.argument);
  }

  lemma {:induction false} JoinedBytes(rs: seq<Request>, maxInput: nat)
    requires forall r :: r in rs ==> WithinGuestQuota(r, maxInput)
    ensures Bytes(Joined(rs)) <= |rs| * (6 * maxInput + 2048)
  {
    hide RequestText, WithinGuestQuota;
    if rs != [] {
      RequestTextBytes(rs[0], maxInput);
      JoinedBytes(rs[1..], maxInput);
      BytesConcat3(RequestText(rs[0]), ",", Joined(rs[1..]));
      BytesAtMost(",");
      MulSuccessor(|rs|, 6 * maxInput + 2048);
    }
  }

  lemma MulSuccessor(n: nat, x: nat)
    requires n >= 1
    ensures n * x == x + (n - 1) * x
  {
  }

  lemma StateTextBytes(done: bool, fatal: bool, rs: seq<Request>)
    ensures Bytes(StateText(done, fatal, rs)) <= 600 + Bytes(Joined(rs))
  {
    hide Joined, Bytes;
    BytesConcat7(DONE_KEY, Flag(done), FATAL_KEY, Flag(fatal), REQUESTS_KEY, Joined(rs), "]}");
    LiteralBytes();
  }

  /** A state frame of requests within the guest's quotas fits the uncapped request limit. */
  lemma StateFits(done: bool, fatal: bool, rs: seq<Request>, l: Limits)
    requires |rs| <= l.maxConcurrency
    requires forall r :: r in rs ==> WithinGuestQuota(r, l.maxInput)
    ensures Bytes(StateText(done, fatal, rs)) <= l.maxConcurrency * (6 * l.maxInput + 2048) + 4096
  {
    hide StateText, Joined, WithinGuestQuota, Bytes;
    StateTextBytes(done, fatal, rs);
    JoinedBytes(rs, l.maxInput);
    MulMonotone(|rs|, l.maxConcurrency, 6 * l.maxInput + 2048);
  }

  lemma MulMonotone(a: nat, b: nat, x: nat)
    requires a <= b
    ensures a * x <= b * x
  {
  }

  /** What the broker checks before it answers: the value, or the encoded error, is within the
      output budget. */
  ghost predicate WithinOutputBudget(c: Completion, maxOutput: nat) {
    match c
    case Resolved(_, value) => Bytes(value) <= maxOutput
    case Rejected(_, code, message) => Bytes(ErrorText(code, message)) <= maxOutput
  }

  /** Every completion the broker sends fits the limit that the driver checks. */
  lemma CompletionFits(c: Completion, l: Limits, usizeMax: nat)
    requires Validated(l) && MAX_TRANSPORT <= usizeMax
    requires c.id <= 9999 && WithinOutputBudget(c, l.maxOutput)
    ensures Bytes(CompletionText(c)) <= CompletionLimit(l, usizeMax)
  {
    CompletionLimitExact(l, usizeMax);
    match c
    case Resolved(id, value) => ResolvedBytes(id, value);
    case Rejected(id, code, message) => RejectedBytes(id, code, message);
  }

  lemma ResolvedBytes(id: nat, value: string)
    requires id <= 9999
    ensures Bytes(CompletionText(Resolved(id, value))) <= 6 * Bytes(value) + 1000
  {
    BytesConcat5(ID_KEY, Decimal(id), VALUE_KEY, Quote(value), "}]");
    BytesConcat("[", ID_KEY + Decimal(id) + VALUE_KEY + Quote(value) + "}]");
    LiteralBytes();
    DecimalBytes(id);
    QuoteBytes(value);
  }

  lemma RejectedBytes(id: nat, code: string, message: string)
    requires id <= 9999
    ensures Bytes(CompletionText(Rejected(id, code, message))) <= Bytes(ErrorText(code, message)) + 1000
  {
    var body := CODE_KEY + Quote(code) + MIDDLE_ID_KEY + Decimal(id) + MESSAGE_KEY + Quote(message) + NOT_OK;
    BytesConcat7(CODE_KEY, Quote(code), MIDDLE_ID_KEY, Decimal(id), MESSAGE_KEY, Quote(message), NOT_OK);
    BytesConcat("[", body);
    BytesConcat5(CODE_KEY, Quote(code), MESSAGE_KEY, Quote(message), "}");
    LiteralBytes();
    DecimalBytes(id);
  }

  /** No fixed part of a text is longer than twenty characters. */
  lemma LiteralBytes()
    ensures Bytes(ID_KEY) <= 80 && Bytes(NAME_KEY) <= 80 && Bytes(ARGUMENT_KEY) <= 80
    ensures Bytes(DONE_KEY) <= 80 && Bytes(FATAL_KEY) <= 80 && Bytes(REQUESTS_KEY) <= 80
    ensures Bytes(CODE_KEY) <= 80 && Bytes(MESSAGE_KEY) <= 80 && Bytes(MIDDLE_ID_KEY) <= 80
    ensures Bytes(VALUE_KEY) <= 80 && Bytes(NOT_OK) <= 80
    ensures Bytes("[") <= 8 && Bytes(",") <= 8 && Bytes("}") <= 8 && Bytes("]}") <= 8 && Bytes("}]") <= 8
    ensures Bytes(Flag(true)) <= 80 && Bytes(Flag(false)) <= 80
  {
    hide Bytes;
    BytesAtMost(ID_KEY);
    BytesAtMost(NAME_KEY);
    BytesAtMost(ARGUMENT_KEY);
    BytesAtMost(DONE_KEY);
    BytesAtMost(FATAL_KEY);
    BytesAtMost(REQUESTS_KEY);
    BytesAtMost(CODE_KEY);
    BytesAtMost(MESSAGE_KEY);
    BytesAtMost(MIDDLE_ID_KEY);
    BytesAtMost(VALUE_KEY);
    BytesAtMost(NOT_OK);
    BytesAtMost("[");
    BytesAtMost(",");
    BytesAtMost("}");
    BytesAtMost("]}");
    BytesAtMost("}]");
    BytesAtMost(Flag(true));
    BytesAtMost(Flag(false));
  }
}
