/** Reading the records of the protocol back from their texts: nothing in a name, an argument, a value
    or a message can be taken for anything else. */
module Codec {
  import opened Text
  import opened Wrappers
  import opened Wire

  // ---- UTF-8 ----

  /** The bytes of a character, as in section 3 of RFC 3629. */
  function Encoded(c: char): seq<nat> {
    var u := c as nat;
    if u < 0x80 then [u]
    else if u < 0x800 then [0xc0 + u / 0x40, 0x80 + u % 0x40]
    else if u < 0x1_0000 then [0xe0 + u / 0x1000, 0x80 + u / 0x40 % 0x40, 0x80 + u % 0x40]
    else [0xf0 + u / 0x4_0000, 0x80 + u / 0x1000 % 0x40, 0x80 + u / 0x40 % 0x40, 0x80 + u % 0x40]
  }

  function Encode(s: string): seq<nat> {
    if s == [] then [] else Encoded(s[0]) + Encode(s[1..])
  }

  /** The first character's code point, and how many bytes it took. */
  function FirstCode(bytes: seq<nat>): (nat, nat) {
    if bytes == [] then (0, 0)
    else if bytes[0] < 0xc0 then (bytes[0], 1)
    else if bytes[0] < 0xe0 && |bytes| >= 2 then (bytes[0] % 0x20 * 0x40 + bytes[1] % 0x40, 2)
    else if bytes[0] < 0xf0 && |bytes| >= 3 then
      (bytes[0] % 0x10 * 0x1000 + bytes[1] % 0x40 * 0x40 + bytes[2] % 0x40, 3)
    else if |bytes| >= 4 then
      (bytes[0] % 0x08 * 0x4_0000 + bytes[1] % 0x40 * 0x1000 + bytes[2] % 0x40 * 0x40 + bytes[3] % 0x40, 4)
    else (0, 0)
  }

  lemma Digits64(u: nat)
    requires u < 0x20_0000
    ensures u == u / 0x1000 * 0x1000 + u / 0x40 % 0x40 * 0x40 + u % 0x40
    ensures u == u / 0x4_0000 * 0x4_0000 + u / 0x1000 % 0x40 * 0x1000 + u / 0x40 % 0x40 * 0x40 + u % 0x40
    ensures u < 0x1_0000 ==> u / 0x1000 < 0x10
    ensures u / 0x4_0000 < 0x08
  {
    assert u / 0x40 / 0x40 == u / 0x1000 && u / 0x1000 / 0x40 == u / 0x4_0000;
  }

  lemma LowBits(a: nat, b: nat, c: nat, d: nat)
    requires a < 0x08 && b < 0x40 && c < 0x40 && d < 0x40
    ensures (0xf0 + a) % 0x08 == a && (0x80 + b) % 0x40 == b && (0x80 + c) % 0x40 == c && (0x80 + d) % 0x40 == d
  {
  }

  lemma CharacterReads(c: char, rest: seq<nat>)
    ensures FirstCode(Encoded(c) + rest) == (c as nat, Utf8Size(c)) && |Encoded(c)| == Utf8Size(c)
  {
    var u := c as nat;
    var all := Encoded(c) + rest;
    assert forall k :: 0 <= k < |Encoded(c)| ==> all[k] == Encoded(c)[k];
    if u >= 0x1_0000 {
      FourBytes(u, all);
    } else if u >= 0x800 {
      ThreeBytes(u, all);
    }
  }

  lemma ThreeBytes(u: nat, all: seq<nat>)
    requires 0x800 <= u < 0x1_0000
    requires |all| >= 3 && all[..3] == [0xe0 + u / 0x1000, 0x80 + u / 0x40 % 0x40, 0x80 + u % 0x40]
    ensures FirstCode(all) == (u, 3)
  {
    var a, b, c := u / 0x1000, u / 0x40 % 0x40, u % 0x40;
    Digits64(u);
    LowBits(0, 0, b, c);
    assert all[0] == all[..3][0] == 0xe0 + a && all[1] == all[..3][1] == 0x80 + b && all[2] == all[..3][2] == 0x80 + c;
    assert (0xe0 + a) % 0x10 == a;
  }

  lemma FourBytes(u: nat, all: seq<nat>)
    requires 0x1_0000 <= u < 0x11_0000
    requires |all| >= 4
    requires all[..4] == [0xf0 + u / 0x4_0000, 0x80 + u / 0x1000 % 0x40, 0x80 + u / 0x40 % 0x40, 0x80 + u % 0x40]
    ensures FirstCode(all) == (u, 4)
  {
    var a, b, c, d := u / 0x4_0000, u / 0x1000 % 0x40, u / 0x40 % 0x40, u % 0x40;
    Digits64(u);
    LowBits(a, b, c, d);
    assert all[0] == all[..4][0] == 0xf0 + a && all[1] == all[..4][1] == 0x80 + b;
    assert all[2] == all[..4][2] == 0x80 + c && all[3] == all[..4][3] == 0x80 + d;
  }

  /** The size by which all limits are measured is the length of the UTF-8 encoding, and that determines
      the text. */
  lemma {:induction false} BytesAreUtf8(s: string, t: string)
    ensures |Encode(s)| == Bytes(s)
    ensures Encode(s) == Encode(t) ==> s == t
    decreases |s|
  {
    if s == [] {
      if t != [] {
        CharacterReads(t[0], Encode(t[1..]));
      }
    } else {
      CharacterReads(s[0], Encode(s[1..]));
      if t == [] || Encode(s) != Encode(t) {
        BytesAreUtf8(s[1..], []);
      } else {
        CharacterReads(t[0], Encode(t[1..]));
        assert Encode(s)[Utf8Size(s[0])..] == Encode(s[1..]) && Encode(t)[Utf8Size(t[0])..] == Encode(t[1..]);
        BytesAreUtf8(s[1..], t[1..]);
        assert s == [s[0]] + s[1..] && t == [t[0]] + t[1..];
      }
    }
  }

  // ---- Reading ----

  /** Reads digits after a number that has been read so far. */
  function ScanDigits(sofar: nat, text: string): (nat, string)
    decreases |text|
  {
    if text == [] || !('0' <= text[0] <= '9') then (sofar, text)
    else ScanDigits(10 * sofar + (text[0] as int - '0' as int), text[1..])
  }

  function Expect(text: string, prefix: string): Option<string> {
    if prefix <= text then Some(text[|prefix|..]) else None
  }

  /** Something that was read, and the text after it. */
  datatype Scanned<T> = Scanned(value: T, rest: string) | Malformed

  function ScanId(text: string, prefix: string): Scanned<nat> {
    match Expect(text, prefix)
    case None => Malformed
    case Some(body) => var (n, rest) := ScanDigits(0, body); Scanned(n, rest)
  }

  /** A key and a string. */
  function ScanField(text: string, prefix: string): Scanned<string> {
    match Expect(text, prefix + "\"")
    case None => Malformed
    case Some(body) =>
      match ScanString(body)
      case None => Malformed
      case Some(pair) => Scanned(pair.0, pair.1)
  }

  function ScanRequest(text: string): Scanned<Request> {
    match ScanId(text, ID_KEY)
    case Malformed => Malformed
    case Scanned(id, afterId) =>
      match ScanField(afterId, NAME_KEY)
      case Malformed => Malformed
      case Scanned(name, afterName) =>
        match ScanField(afterName, ARGUMENT_KEY)
        case Malformed => Malformed
        case Scanned(argument, afterArgument) =>
          match Expect(afterArgument, "}")
          case None => Malformed
          case Some(rest) => Scanned(Request(id, name, argument), rest)
  }

  /** Records separated by commas, up to a closing bracket. */
  function ScanList(text: string): Scanned<seq<Request>>
    decreases |text|
  {
    match ScanRequest(text)
    case Malformed => Malformed
    case Scanned(r, rest) =>
      if "," <= rest && |rest| <= |text| then
        match ScanList(rest[1..])
        case Malformed => Malformed
        case Scanned(rs, after) => Scanned([r] + rs, after)
      else Scanned([r], rest)
  }

  function ScanRequests(text: string): Scanned<seq<Request>> {
    if "]" <= text then Scanned([], text) else ScanList(text)
  }

  function ScanFlag(text: string, prefix: string): Scanned<bool> {
    match Expect(text, prefix + "true")
    case Some(rest) => Scanned(true, rest)
    case None =>
      match Expect(text, prefix + "false")
      case Some(rest) => Scanned(false, rest)
      case None => Malformed
  }

  datatype State = State(done: bool, fatal: bool, requests: seq<Request>)

  function ScanState(text: string): Scanned<State> {
    match ScanFlag(text, DONE_KEY)
    case Malformed => Malformed
    case Scanned(done, afterDone) =>
      match ScanFlag(afterDone, FATAL_KEY)
      case Malformed => Malformed
      case Scanned(fatal, afterFatal) =>
        match Expect(afterFatal, REQUESTS_KEY)
        case None => Malformed
        case Some(list) =>
          match ScanRequests(list)
          case Malformed => Malformed
          case Scanned(rs, afterList) =>
            match Expect(afterList, "]}")
            case None => Malformed
            case Some(rest) => Scanned(State(done, fatal, rs), rest)
  }

  function ScanResolved(text: string): Scanned<Completion> {
    match ScanId(text, "[" + ID_KEY)
    case Malformed => Malformed
    case Scanned(id, afterId) =>
      match ScanField(afterId, VALUE_KEY)
      case Malformed => Malformed
      case Scanned(value, afterValue) =>
        match Expect(afterValue, "}]")
        case None => Malformed
        case Some(rest) => Scanned(Resolved(id, value), rest)
  }

  function ScanRejected(text: string): Scanned<Completion> {
    match ScanField(text, "[" + CODE_KEY)
    case Malformed => Malformed
    case Scanned(code, afterCode) =>
      match ScanId(afterCode, MIDDLE_ID_KEY)
      case Malformed => Malformed
      case Scanned(id, afterId) =>
        match ScanField(afterId, MESSAGE_KEY)
        case Malformed => Malformed
        case Scanned(message, afterMessage) =>
          match Expect(afterMessage, NOT_OK)
          case None => Malformed
          case Some(rest) => Scanned(Rejected(id, code, message), rest)
  }

  function ScanCompletion(text: string): Scanned<Completion> {
    if "[" + CODE_KEY <= text then ScanRejected(text) else ScanResolved(text)
  }

  // ---- What was written is read back ----

  /** No digit follows. */
  predicate Stops(rest: string) {
    rest == [] || !('0' <= rest[0] <= '9')
  }

  lemma {:induction false} DecimalScans(n: nat, rest: string)
    ensures ScanDigits(0, Decimal(n) + rest) == ScanDigits(n, rest)
    decreases n
  {
    var digit := HexDigit(n % 10);
    assert ([digit] + rest)[1..] == rest && '0' <= digit <= '9' && digit as int - '0' as int == n % 10;
    if n < 10 {
      assert Decimal(n) == [digit];
    } else {
      assert Decimal(n) + rest == Decimal(n / 10) + ([digit] + rest);
      DecimalScans(n / 10, [digit] + rest);
    }
  }

  lemma DecimalIsInjective(m: nat, n: nat)
    requires Decimal(m) == Decimal(n)
    ensures m == n
  {
    DecimalScans(m, []);
    DecimalScans(n, []);
    assert Decimal(m) + [] == Decimal(m) && Decimal(n) + [] == Decimal(n);
  }

  lemma ExpectReads(prefix: string, rest: string)
    ensures Expect(prefix + rest, prefix) == Some(rest)
  {
    assert prefix <= prefix + rest && (prefix + rest)[|prefix|..] == rest;
  }

  lemma IdReads(prefix: string, n: nat, rest: string)
    requires Stops(rest)
    ensures ScanId(prefix + (Decimal(n) + rest), prefix) == Scanned(n, rest)
  {
    ExpectReads(prefix, Decimal(n) + rest);
    DecimalScans(n, rest);
    hide Decimal;
  }

  lemma FieldReads(prefix: string, s: string, rest: string)
    ensures ScanField(prefix + (Quote(s) + rest), prefix) == Scanned(s, rest)
  {
    hide Escape;
    var body := Escape(s) + "\"" + rest;
    assert prefix + (Quote(s) + rest) == prefix + "\"" + body;
    ExpectReads(prefix + "\"", body);
    QuoteRoundTrip(s, rest);
  }

  /** A record inside any text: its id, its name and its argument, each in its own place. */
  lemma RequestReads(r: Request, rest: string)
    ensures ScanRequest(RequestText(r) + rest) == Scanned(r, rest)
  {
    hide Decimal, Quote, ScanId, ScanField, Expect, ID_KEY, NAME_KEY, ARGUMENT_KEY;
    var afterArgument := "}" + rest;
    var afterName := ARGUMENT_KEY + (Quote(r.argument) + afterArgument);
    var afterId := NAME_KEY + (Quote(r.name) + afterName);
    assert RequestText(r) + rest == ID_KEY + (Decimal(r.id) + afterId);
    assert Stops(afterId) by { NameKeyStops(Quote(r.name) + afterName); }
    IdReads(ID_KEY, r.id, afterId);
    FieldReads(NAME_KEY, r.name, afterName);
    FieldReads(ARGUMENT_KEY, r.argument, afterArgument);
    ExpectReads("}", rest);
  }

  lemma NameKeyStops(rest: string)
    ensures Stops(NAME_KEY + rest)
  {
    assert (NAME_KEY + rest)[0] == ',';
  }

  lemma RequestIsRecord(r: Request, rest: string)
    ensures !("]" <= RequestText(r) + rest)
    ensures |rest| < |RequestText(r) + rest|
  {
    assert RequestText(r)[0] == ID_KEY[0] == '{';
    assert (RequestText(r) + rest)[0] == '{';
  }

  lemma {:induction false} ListReads(rs: seq<Request>, rest: string)
    requires rs != []
    ensures ScanList(Joined(rs) + ("]" + rest)) == Scanned(rs, "]" + rest)
    decreases |rs|
  {
    hide RequestText, ScanRequest;
    var end := "]" + rest;
    if |rs| == 1 {
      RequestReads(rs[0], end);
      assert end[0] == ']' && [rs[0]] == rs;
    } else {
      var more := Joined(rs[1..]) + end;
      var all := Joined(rs) + end;
      assert all == RequestText(rs[0]) + ("," + more);
      RequestReads(rs[0], "," + more);
      RequestIsRecord(rs[0], "," + more);
      ListReads(rs[1..], rest);
      assert ("," + more)[1..] == more;
      assert [rs[0]] + rs[1..] == rs;
    }
  }

  lemma RequestsRead(rs: seq<Request>, rest: string)
    ensures ScanRequests(Joined(rs) + ("]" + rest)) == Scanned(rs, "]" + rest)
  {
    hide ScanList, RequestText;
    if rs == [] {
      assert Joined(rs) + ("]" + rest) == "]" + rest;
    } else {
      ListReads(rs, rest);
      ListIsNotEmpty(rs, "]" + rest);
    }
  }

  lemma ListIsNotEmpty(rs: seq<Request>, rest: string)
    requires rs != []
    ensures !("]" <= Joined(rs) + rest)
  {
    hide RequestText;
    var more := if |rs| == 1 then rest else "," + Joined(rs[1..]) + rest;
    assert Joined(rs) + rest == RequestText(rs[0]) + more;
    RequestIsRecord(rs[0], more);
  }

  lemma FlagReads(prefix: string, b: bool, rest: string)
    ensures ScanFlag(prefix + (Flag(b) + rest), prefix) == Scanned(b, rest)
  {
    var all := prefix + (Flag(b) + rest);
    assert all == prefix + Flag(b) + rest;
    ExpectReads(prefix + Flag(b), rest);
    if !b {
      assert all[|prefix|] == 'f';
      assert (prefix + "true")[|prefix|] == 't';
    }
  }

  /** The state that a step reports, with every request in its place. */
  lemma StateReads(done: bool, fatal: bool, rs: seq<Request>)
    ensures ScanState(StateText(done, fatal, rs)) == Scanned(State(done, fatal, rs), "")
  {
    hide Flag, Joined, ScanFlag, Expect, ScanRequests, DONE_KEY, FATAL_KEY, REQUESTS_KEY;
    var afterFatal := REQUESTS_KEY + (Joined(rs) + ("]" + "}"));
    var afterDone := FATAL_KEY + (Flag(fatal) + afterFatal);
    assert "]" + "}" == "]}" + "";
    assert StateText(done, fatal, rs) == DONE_KEY + (Flag(done) + afterDone);
    FlagReads(DONE_KEY, done, afterDone);
    FlagReads(FATAL_KEY, fatal, afterFatal);
    ExpectReads(REQUESTS_KEY, Joined(rs) + ("]" + "}"));
    RequestsRead(rs, "}");
    ExpectReads("]}", "");
  }

  lemma ResolvedReads(id: nat, value: string)
    ensures ScanResolved(CompletionText(Resolved(id, value))) == Scanned(Resolved(id, value), "")
  {
    hide Decimal, Quote, ScanId, ScanField, Expect, ID_KEY, VALUE_KEY;
    var afterId := VALUE_KEY + (Quote(value) + ("}]" + ""));
    assert CompletionText(Resolved(id, value)) == "[" + ID_KEY + (Decimal(id) + afterId);
    ValueKeyStops(Quote(value) + ("}]" + ""));
    IdReads("[" + ID_KEY, id, afterId);
    FieldReads(VALUE_KEY, value, "}]" + "");
    ExpectReads("}]", "");
  }

  lemma ValueKeyStops(rest: string)
    ensures Stops(VALUE_KEY + rest) && Stops(MESSAGE_KEY + rest)
  {
    assert (VALUE_KEY + rest)[0] == ',' && (MESSAGE_KEY + rest)[0] == ',';
  }

  lemma RejectedReads(id: nat, code: string, message: string)
    ensures ScanRejected(CompletionText(Rejected(id, code, message))) == Scanned(Rejected(id, code, message), "")
    ensures "[" + CODE_KEY <= CompletionText(Rejected(id, code, message))
  {
    hide Decimal, Quote, ScanId, ScanField, Expect, CODE_KEY, MIDDLE_ID_KEY, MESSAGE_KEY, NOT_OK;
    var afterId := MESSAGE_KEY + (Quote(message) + (NOT_OK + ""));
    var afterCode := MIDDLE_ID_KEY + (Decimal(id) + afterId);
    assert CompletionText(Rejected(id, code, message)) == "[" + CODE_KEY + (Quote(code) + afterCode);
    ValueKeyStops(Quote(message) + (NOT_OK + ""));
    FieldReads("[" + CODE_KEY, code, afterCode);
    IdReads(MIDDLE_ID_KEY, id, afterId);
    FieldReads(MESSAGE_KEY, message, NOT_OK + "");
    ExpectReads(NOT_OK, "");
  }

  /** A completion: the promise it settles, how, and with what. */
  lemma CompletionReads(c: Completion)
    ensures ScanCompletion(CompletionText(c)) == Scanned(c, "")
  {
    match c
    case Resolved(id, value) =>
      ResolvedReads(id, value);
      assert CompletionText(c)[2] == '"' && CompletionText(c)[3] == 'i' && ("[" + CODE_KEY)[3] == 'c';
      hide ScanResolved, ScanRejected, CompletionText;
    case Rejected(id, code, message) =>
      hide ScanResolved, ScanRejected, CompletionText;
      RejectedReads(id, code, message);
  }
}
