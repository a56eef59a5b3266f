/** Length-prefixed frames as the native side reads and writes them, under budgets that are spent as
    frames arrive, and the four-frame request that starts an execution. */
module Framing {
  import opened Text
  import opened Wrappers

  type Byte = n: nat | n < 0x100

  const WORD: nat := 0x1_0000_0000

  const MAX_REQUEST: nat := 64 * 1024 * 1024
  const MAX_HEADER: nat := 1024 * 1024

  // ---- Big-endian words ----

  function Power(digits: nat): nat {
    if digits == 0 then 1 else 0x100 * Power(digits - 1)
  }

  /** The low `digits` bytes of `n`, most significant first. */
  function BigEndian(n: nat, digits: nat): (r: seq<Byte>)
    ensures |r| == digits
  {
    if digits == 0 then [] else BigEndian(n / 0x100, digits - 1) + [n % 0x100]
  }

  function FromBigEndian(b: seq<Byte>): nat {
    if b == [] then 0
    else
      var last: nat := b[|b| - 1];
      FromBigEndian(b[..|b| - 1]) * 0x100 + last
  }

  lemma {:induction false} BigEndianRoundTrip(n: nat, digits: nat)
    requires n < Power(digits)
    ensures FromBigEndian(BigEndian(n, digits)) == n
  {
    if digits > 0 {
      var high := BigEndian(n / 0x100, digits - 1);
      BigEndianRoundTrip(n / 0x100, digits - 1);
      assert (high + [n % 0x100])[..digits - 1] == high;
    }
  }

  lemma {:induction false} BigEndianInverse(b: seq<Byte>)
    ensures BigEndian(FromBigEndian(b), |b|) == b && FromBigEndian(b) < Power(|b|)
  {
    if b != [] {
      BigEndianInverse(b[..|b| - 1]);
      assert b == b[..|b| - 1] + [b[|b| - 1]];
    }
  }

  lemma WordIsFourBytes()
    ensures Power(4) == WORD
  {
    assert Power(2) == 0x1_0000;
  }

  function Be32(n: nat): (r: seq<Byte>)
    requires n < WORD
    ensures |r| == 4
  {
    BigEndian(n, 4)
  }

  function FromBe(b: seq<Byte>): (n: nat)
    requires |b| == 4
    ensures n < WORD
  {
    WordIsFourBytes();
    BigEndianInverse(b);
    FromBigEndian(b)
  }

  lemma WordRoundTrip(n: nat)
    requires n < WORD
    ensures FromBe(Be32(n)) == n
  {
    WordIsFourBytes();
    BigEndianRoundTrip(n, 4);
  }

  lemma WordInverse(b: seq<Byte>)
    requires |b| == 4
    ensures Be32(FromBe(b)) == b
  {
    BigEndianInverse(b);
  }

  // ---- One frame ----

  function Frame(bytes: seq<Byte>): (r: seq<Byte>)
    requires |bytes| < WORD
    ensures |r| == |bytes| + 4
  {
    Be32(|bytes|) + bytes
  }

  /** A frame, what follows it, and what is left of the budget. */
  datatype Read = Got(bytes: seq<Byte>, rest: seq<Byte>, left: nat) | Failed

  /** Reading fails at the end of the stream and on a frame beyond the budget. */
  function Reads(s: seq<Byte>, budget: nat): Read {
    if |s| < 4 then Failed
    else
      var size := FromBe(s[..4]);
      if size > budget || |s| - 4 < size then Failed
      else Got(s[4..][..size], s[4..][size..], budget - size)
  }

  /** A written frame is read back exactly when it is within the budget. */
  lemma FrameRoundTrip(bytes: seq<Byte>, rest: seq<Byte>, budget: nat)
    requires |bytes| < WORD
    ensures Reads(Frame(bytes) + rest, budget)
         == if |bytes| <= budget then Got(bytes, rest, budget - |bytes|) else Failed
  {
    WordRoundTrip(|bytes|);
    hide Be32, FromBe;
    var s := Frame(bytes) + rest;
    assert s[..4] == Be32(|bytes|);
    if |bytes| <= budget {
      assert s[4..] == bytes + rest;
    }
  }

  /** What is read was there, and its length is what the budget paid. */
  lemma ReadInverts(s: seq<Byte>, budget: nat)
    ensures var r := Reads(s, budget);
            r.Got? ==>
              && |r.bytes| < WORD && s == Frame(r.bytes) + r.rest
              && |r.bytes| + r.left == budget
  {
    if |s| >= 4 {
      WordInverse(s[..4]);
    }
    hide Be32, FromBe;
  }

  // ---- Streams ----

  /** A pipe being read: `data` is everything that is ever written to it. */
  class Source {
    const data: seq<Byte>
    var pos: nat

    constructor (data: seq<Byte>)
      ensures Valid() && Rest() == data
    {
      this.data := data;
      pos := 0;
    }

    ghost predicate Valid()
      reads this
    {
      pos <= |data|
    }

    function Rest(): seq<Byte>
      requires Valid()
      reads this
    {
      data[pos..]
    }

    /** Reads exactly `n` bytes, or runs into the end of the stream. */
    method ReadExact(n: nat) returns (bytes: Option<seq<Byte>>)
      requires Valid()
      modifies this
      ensures Valid()
      ensures if n <= |old(Rest())| then bytes == Some(old(Rest())[..n]) && Rest() == old(Rest())[n..]
              else bytes == None && Rest() == []
    {
      ghost var before := Rest();
      if n <= |data| - pos {
        bytes := Some(data[pos..pos + n]);
        assert before[..n] == data[pos..pos + n] && before[n..] == data[pos + n..];
        pos := pos + n;
      } else {
        bytes := None;
        pos := |data|;
      }
    }
  }

  /** A pipe being written. */
  class Sink {
    var data: seq<Byte>

    constructor ()
      ensures data == []
    {
      data := [];
    }

    method Write(bytes: seq<Byte>)
      modifies this
      ensures data == old(data) + bytes
    {
      data := data + bytes;
    }
  }

  /** Reads a frame, taking its length out of `remaining` before allocating or reading it. */
  method ReadFrame(input: Source, remaining: nat) returns (bytes: Option<seq<Byte>>, left: nat)
    requires input.Valid()
    modifies input
    ensures input.Valid() && left <= remaining
    ensures match Reads(old(input.Rest()), remaining)
            case Got(b, rest, l) => bytes == Some(b) && input.Rest() == rest && left == l
            case Failed => bytes == None
  {
    left := remaining;
    var prefix := input.ReadExact(4);
    if prefix.None? {
      return None, left;
    }
    var size := FromBe(prefix.value);
    if size > remaining {
      return None, left;
    }
    left := left - size;
    bytes := input.ReadExact(size);
  }

  /** Writes a frame; only a length of 32 bits can be written. */
  method WriteFrame(output: Sink, bytes: seq<Byte>) returns (ok: bool)
    modifies output
    ensures ok == (|bytes| < WORD)
    ensures output.data == if ok then old(output.data) + Frame(bytes) else old(output.data)
  {
    if |bytes| >= WORD {
      return false;
    }
    output.Write(Be32(|bytes|));
    output.Write(bytes);
    assert old(output.data) + Be32(|bytes|) + bytes == old(output.data) + Frame(bytes);
    return true;
  }

  // ---- Several frames ----

  function Frames(fs: seq<seq<Byte>>): seq<Byte>
    requires forall f :: f in fs ==> |f| < WORD
  {
    if fs == [] then [] else Frame(fs[0]) + Frames(fs[1..])
  }

  function Lengths(fs: seq<seq<Byte>>): nat {
    if fs == [] then 0 else |fs[0]| + Lengths(fs[1..])
  }

  /** Reads `n` frames that share one budget. */
  function ReadsMany(s: seq<Byte>, budget: nat, n: nat): Option<(seq<seq<Byte>>, seq<Byte>)>
    decreases n
  {
    if n == 0 then Some(([], s))
    else match Reads(s, budget)
      case Failed => None
      case Got(bytes, rest, left) =>
        match ReadsMany(rest, left, n - 1)
        case None => None
        case Some(more) => Some(([bytes] + more.0, more.1))
  }

  lemma FramesCons(fs: seq<seq<Byte>>, rest: seq<Byte>)
    requires fs != [] && forall f :: f in fs ==> |f| < WORD
    ensures Frames(fs) + rest == Frame(fs[0]) + (Frames(fs[1..]) + rest)
  {
    hide Frame;
  }

  /** One more frame in front. */
  lemma ReadsOneMore(bytes: seq<Byte>, tail: seq<Byte>, budget: nat, n: nat)
    requires |bytes| < WORD
    ensures ReadsMany(Frame(bytes) + tail, budget, n + 1)
         == if |bytes| > budget then None
            else match ReadsMany(tail, budget - |bytes|, n)
                 case None => None
                 case Some(more) => Some(([bytes] + more.0, more.1))
  {
    hide Frame, Reads;
    FrameRoundTrip(bytes, tail, budget);
  }

  /** Frames written one after the other are read back, and the stream is left where they ended,
      exactly when together they are within the budget. */
  lemma {:induction false} ManyRoundTrip(fs: seq<seq<Byte>>, rest: seq<Byte>, budget: nat)
    requires forall f :: f in fs ==> |f| < WORD
    ensures ReadsMany(Frames(fs) + rest, budget, |fs|) == if Lengths(fs) <= budget then Some((fs, rest)) else None
    decreases |fs|
  {
    if fs == [] {
      assert Frames(fs) + rest == rest;
    } else {
      FramesCons(fs, rest);
      hide Frame, Frames, ReadsMany;
      ReadsOneMore(fs[0], Frames(fs[1..]) + rest, budget, |fs| - 1);
      if |fs[0]| <= budget {
        ManyRoundTrip(fs[1..], rest, budget - |fs[0]|);
        assert [fs[0]] + fs[1..] == fs;
      }
    }
  }

  /** Whatever the stream, frames that are read were written there, and are within the budget. */
  lemma {:induction false} ManyInverts(s: seq<Byte>, budget: nat, n: nat)
    requires ReadsMany(s, budget, n).Some?
    ensures var (fs, rest) := ReadsMany(s, budget, n).value;
            && |fs| == n && (forall f :: f in fs ==> |f| < WORD)
            && s == Frames(fs) + rest && Lengths(fs) <= budget
    decreases n
  {
    hide Frame, Reads;
    if n == 0 {
      assert Frames([]) + s == s;
    } else {
      ReadInverts(s, budget);
      var r := Reads(s, budget);
      ManyInverts(r.rest, r.left, n - 1);
      var (more, rest) := ReadsMany(r.rest, r.left, n - 1).value;
      assert ([r.bytes] + more)[1..] == more;
      assert Frame(r.bytes) + (Frames(more) + rest) == Frame(r.bytes) + Frames(more) + rest;
    }
  }

  /** As many frames as can be read, of at most `rounds`. */
  function ReadsAll(s: seq<Byte>, budget: nat, rounds: nat): seq<seq<Byte>>
    decreases rounds
  {
    if rounds == 0 then []
    else match Reads(s, budget)
      case Failed => []
      case Got(bytes, rest, left) => [bytes] + ReadsAll(rest, left, rounds - 1)
  }

  /** However many reads succeed before one fails, together they never exceed the budget. */
  lemma {:induction false} ReadsStayWithinBudget(s: seq<Byte>, budget: nat, rounds: nat)
    ensures Lengths(ReadsAll(s, budget, rounds)) <= budget
    decreases rounds
  {
    hide Reads;
    if rounds > 0 {
      match Reads(s, budget)
      case Failed =>
      case Got(bytes, rest, left) =>
        ReadInverts(s, budget);
        ReadsStayWithinBudget(rest, left, rounds - 1);
        assert ReadsAll(s, budget, rounds)[1..] == ReadsAll(rest, left, rounds - 1);
    }
  }

  // ---- Requests ----

  /** The header frame, then provider, module and input, which share what the header leaves. */
  function Requested(s: seq<Byte>): Option<(seq<seq<Byte>>, seq<Byte>)> {
    match Reads(s, MAX_HEADER)
    case Failed => None
    case Got(header, rest, _) =>
      match ReadsMany(rest, MAX_REQUEST - |header|, 3)
      case None => None
      case Some(more) => Some(([header] + more.0, more.1))
  }

  lemma ThreeReads(s: seq<Byte>, budget: nat)
    ensures ReadsMany(s, budget, 3)
         == match Reads(s, budget)
            case Failed => None
            case Got(a, s1, left1) =>
              match Reads(s1, left1)
              case Failed => None
              case Got(b, s2, left2) =>
                match Reads(s2, left2)
                case Failed => None
                case Got(c, s3, _) => Some(([a, b, c], s3))
  {
    hide Reads;
    var r1 := Reads(s, budget);
    if r1.Got? {
      var r2 := Reads(r1.rest, r1.left);
      if r2.Got? {
        var r3 := Reads(r2.rest, r2.left);
        if r3.Got? {
          assert [r3.bytes] + [] == [r3.bytes] && [r2.bytes] + [r3.bytes] == [r2.bytes, r3.bytes];
          assert [r1.bytes] + [r2.bytes, r3.bytes] == [r1.bytes, r2.bytes, r3.bytes];
          assert ReadsMany(r3.rest, r3.left, 0) == Some(([], r3.rest));
          assert ReadsMany(r2.rest, r2.left, 1) == Some(([r3.bytes], r3.rest));
          assert ReadsMany(r1.rest, r1.left, 2) == Some(([r2.bytes, r3.bytes], r3.rest));
        }
      }
    }
  }

  method ReadRequest(input: Source) returns (request: Option<seq<seq<Byte>>>)
    requires input.Valid()
    modifies input
    ensures input.Valid()
    ensures match Requested(old(input.Rest()))
            case Some(pair) => request == Some(pair.0) && input.Rest() == pair.1
            case None => request == None
  {
    hide Reads, ReadsMany;
    var header, left := ReadFrame(input, MAX_HEADER);
    if header.None? {
      return None;
    }
    ReadInverts(old(input.Rest()), MAX_HEADER);
    left := MAX_REQUEST - |header.value|;
    ThreeReads(input.Rest(), left);
    var plugin, code, payload;
    plugin, left := ReadFrame(input, left);
    if plugin.None? {
      return None;
    }
    code, left := ReadFrame(input, left);
    if code.None? {
      return None;
    }
    payload, left := ReadFrame(input, left);
    if payload.None? {
      return None;
    }
    assert [header.value] + [plugin.value, code.value, payload.value]
        == [header.value, plugin.value, code.value, payload.value];
    return Some([header.value, plugin.value, code.value, payload.value]);
  }

  /** A request is read back, and leaves the stream where it ended, exactly when its header is at
      most 1 MiB and its four frames are at most 64 MiB together; otherwise reading fails. */
  lemma RequestRoundTrip(fs: seq<seq<Byte>>, rest: seq<Byte>)
    requires |fs| == 4 && forall f :: f in fs ==> |f| < WORD
    ensures Requested(Frames(fs) + rest)
         == if |fs[0]| <= MAX_HEADER && Lengths(fs) <= MAX_REQUEST then Some((fs, rest)) else None
  {
    hide Frame, Reads, ReadsMany;
    var tail := Frames(fs[1..]) + rest;
    assert Frames(fs) + rest == Frame(fs[0]) + tail;
    FrameRoundTrip(fs[0], tail, MAX_HEADER);
    if |fs[0]| <= MAX_HEADER {
      ManyRoundTrip(fs[1..], rest, MAX_REQUEST - |fs[0]|);
      assert [fs[0]] + fs[1..] == fs;
    }
  }

  /** Whatever arrives, a request that is read is within the budgets and was written as such; so the
      child reads from the supervisor exactly what the supervisor read from the BEAM. */
  lemma RequestInverts(s: seq<Byte>)
    ensures Requested(s).Some? ==>
              var (fs, rest) := Requested(s).value;
              && |fs| == 4 && (forall f :: f in fs ==> |f| < WORD)
              && |fs[0]| <= MAX_HEADER && Lengths(fs) <= MAX_REQUEST
              && s == Frames(fs) + rest
              && Requested(Frames(fs)) == Some((fs, []))
  {
    hide Frame, Reads, ReadsMany;
    if Requested(s).Some? {
      ReadInverts(s, MAX_HEADER);
      var first := Reads(s, MAX_HEADER);
      ManyInverts(first.rest, MAX_REQUEST - |first.bytes|, 3);
      var (more, rest) := ReadsMany(first.rest, MAX_REQUEST - |first.bytes|, 3).value;
      var fs := [first.bytes] + more;
      FramesTogether(first.bytes, more, rest);
      hide Frames, Lengths;
      assert Frames(fs) + [] == Frames(fs);
      RequestRoundTrip(fs, []);
    }
  }

  lemma FramesTogether(f: seq<Byte>, more: seq<seq<Byte>>, rest: seq<Byte>)
    requires |f| < WORD && forall x :: x in more ==> |x| < WORD
    ensures var fs := [f] + more;
            && (forall x :: x in fs ==> |x| < WORD)
            && Lengths(fs) == |f| + Lengths(more)
            && Frame(f) + (Frames(more) + rest) == Frames(fs) + rest
  {
    hide Frame;
    assert ([f] + more)[1..] == more;
  }
}
