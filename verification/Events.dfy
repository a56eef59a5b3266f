/** The events a worker writes on its output: a kind, as a JSON string in one frame, and a payload in
    another. */
module Events {
  import opened Text
  import opened Wrappers
  import opened Wire
  import opened Framing

  const MAX_HEAD: nat := 4096

  datatype Tag = Callbacks | Ok | Error(kind: Kind)

  function KindName(kind: Kind): string {
    match kind
    case Timeout => "timeout"
    case Cancelled => "cancelled"
    case FuelExhausted => "fuel_exhausted"
    case Oom => "oom"
    case JsError => "js_error"
    case Trap => "trap"
    case OutputLimit => "output_limit"
    case DiagnosticLimit => "diagnostic_limit"
    case InputLimit => "input_limit"
    case ModuleLimit => "module_limit"
    case CompileError => "compile_error"
    case WorkerError => "worker_error"
    case CallbackLimit => "callback_limit"
    case CallbackTimeout => "callback_timeout"
  }

  function Name(tag: Tag): string {
    match tag
    case Callbacks => "callbacks"
    case Ok => "ok"
    case Error(kind) => KindName(kind)
  }

  /** The tag with a given name; both ends of the pipe know the same names. */
  function TagOf(name: string): Option<Tag> {
    if name == "callbacks" then Some(Callbacks)
    else if name == "ok" then Some(Ok)
    else if name == "timeout" then Some(Error(Timeout))
    else if name == "cancelled" then Some(Error(Cancelled))
    else if name == "fuel_exhausted" then Some(Error(FuelExhausted))
    else if name == "oom" then Some(Error(Oom))
    else if name == "js_error" then Some(Error(JsError))
    else if name == "trap" then Some(Error(Trap))
    else if name == "output_limit" then Some(Error(OutputLimit))
    else if name == "diagnostic_limit" then Some(Error(DiagnosticLimit))
    else if name == "input_limit" then Some(Error(InputLimit))
    else if name == "module_limit" then Some(Error(ModuleLimit))
    else if name == "compile_error" then Some(Error(CompileError))
    else if name == "worker_error" then Some(Error(WorkerError))
    else if name == "callback_limit" then Some(Error(CallbackLimit))
    else if name == "callback_timeout" then Some(Error(CallbackTimeout))
    else None
  }

  lemma NamesAreDistinct(tag: Tag)
    ensures TagOf(Name(tag)) == Some(tag) && |Name(tag)| <= 16
  {
  }

  lemma TagsAreNamed(name: string)
    ensures TagOf(name).Some? ==> Name(TagOf(name).value) == name
  {
  }

  /** What a frame decodes to as JSON: not at all, a string, or something else. */
  datatype Json = NotJson | Str(text: string) | OtherJson

  function Codes(s: string): (r: seq<Byte>)
    requires Ascii(s)
    ensures |r| == |s|
  {
    if s == [] then [] else [s[0] as int] + Codes(s[1..])
  }

  lemma NamesAreAscii(tag: Tag)
    ensures Ascii(Name(tag)) && Ascii("\"" + Name(tag) + "\"")
  {
    hide Name;
    NameIsAscii(tag);
  }

  lemma NameIsAscii(tag: Tag)
    ensures Ascii(Name(tag))
  {
    if tag.Error? {
      KindIsAscii(tag.kind);
    }
  }

  lemma KindIsAscii(kind: Kind)
    ensures Ascii(KindName(kind))
  {
    hide Ascii, KindName;
    if IsLimit(kind) {
      LimitIsAscii(kind);
    } else {
      FaultIsAscii(kind);
    }
  }

  predicate IsLimit(kind: Kind) {
    kind in {OutputLimit, DiagnosticLimit, InputLimit, ModuleLimit, CallbackLimit, CallbackTimeout, FuelExhausted}
  }

  lemma LimitIsAscii(kind: Kind)
    requires IsLimit(kind)
    ensures Ascii(KindName(kind))
  {
  }

  lemma FaultIsAscii(kind: Kind)
    requires !IsLimit(kind)
    ensures Ascii(KindName(kind))
  {
  }

  /** The header frame of an event: the name between quotes. */
  function Header(tag: Tag): (r: seq<Byte>)
    ensures |r| == |Name(tag)| + 2 <= 18
  {
    NamesAreAscii(tag);
    NamesAreDistinct(tag);
    Codes("\"" + Name(tag) + "\"")
  }

  /** A decoder that reads the headers that workers write. */
  ghost predicate ReadsHeaders(json: seq<Byte> -> Json) {
    forall tag :: json(Header(tag)) == Str(Name(tag))
  }

  datatype Event = Event(tag: Tag, payload: seq<Byte>)

  function EventBytes(e: Event): (r: seq<Byte>)
    requires |e.payload| < WORD
    ensures |r| == |Header(e.tag)| + |e.payload| + 8
  {
    Frame(Header(e.tag)) + Frame(e.payload)
  }

  ghost predicate Sendable(es: seq<Event>) {
    forall e :: e in es ==> |e.payload| < WORD
  }

  function Stream(es: seq<Event>): seq<Byte>
    requires Sendable(es)
  {
    if es == [] then [] else EventBytes(es[0]) + Stream(es[1..])
  }

  /** Writes one event. */
  method WriteEvent(output: Sink, e: Event) returns (ok: bool)
    requires |e.payload| < WORD
    modifies output
    ensures ok && output.data == old(output.data) + EventBytes(e)
  {
    hide Frame, Be32;
    ok := WriteFrame(output, Header(e.tag));
    ok := WriteFrame(output, e.payload);
    assert old(output.data) + Frame(Header(e.tag)) + Frame(e.payload) == old(output.data) + EventBytes(e);
  }

  lemma {:induction false} StreamConcat(a: seq<Event>, b: seq<Event>)
    requires Sendable(a) && Sendable(b)
    ensures Sendable(a + b) && Stream(a + b) == Stream(a) + Stream(b)
  {
    hide EventBytes;
    if a == [] {
      assert a + b == b;
    } else {
      assert (a + b)[0] == a[0] && (a + b)[1..] == a[1..] + b;
      StreamConcat(a[1..], b);
      assert EventBytes(a[0]) + (Stream(a[1..]) + Stream(b)) == EventBytes(a[0]) + Stream(a[1..]) + Stream(b);
    }
  }

  /** What the payloads and headers of a stream add up to, and the length of the stream. */
  function Charge(es: seq<Event>): nat {
    if es == [] then 0 else |Header(es[0].tag)| + |es[0].payload| + Charge(es[1..])
  }

  lemma {:induction false} StreamLength(es: seq<Event>)
    requires Sendable(es)
    ensures |Stream(es)| == Charge(es) + 8 * |es|
  {
    if es != [] {
      StreamLength(es[1..]);
    }
  }
}
