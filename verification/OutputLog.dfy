/** The guest's output streams: clones of one handle share a byte buffer with a quota. */
module OutputLog {
  import opened Framing

  /** What the clones share. */
  datatype Contents = Contents(bytes: seq<Byte>, exceeded: bool)

  const Empty := Contents([], false)

  /** One attempt to write: as much as fits is kept, and anything less than everything is a failure. */
  function Appended(capacity: nat, c: Contents, bytes: seq<Byte>): Contents
    requires |c.bytes| <= capacity
  {
    var available := capacity - |c.bytes|;
    if |bytes| <= available then Contents(c.bytes + bytes, c.exceeded)
    else Contents(c.bytes + bytes[..available], true)
  }

  class State {
    var bytes: seq<Byte>
    var exceeded: bool

    constructor ()
      ensures Value() == Empty
    {
      bytes, exceeded := [], false;
    }

    function Value(): Contents
      reads this
    {
      Contents(bytes, exceeded)
    }
  }

  class Output {
    const capacity: nat
    const state: State

    constructor (capacity: nat)
      ensures Valid() && fresh(state) && this.capacity == capacity && state.Value() == Empty
    {
      this.capacity := capacity;
      state := new State();
    }

    /** A clone is the same stream. */
    constructor Clone(other: Output)
      ensures capacity == other.capacity && state == other.state
    {
      capacity := other.capacity;
      state := other.state;
    }

    ghost predicate Valid()
      reads this, state
    {
      |state.bytes| <= capacity
    }

    method Append(bytes: seq<Byte>) returns (ok: bool, count: nat)
      requires Valid()
      modifies state
      ensures Valid() && state.Value() == Appended(capacity, old(state.Value()), bytes)
      ensures ok == (|old(state.bytes)| + |bytes| <= capacity)
      ensures count == |state.bytes| - |old(state.bytes)|
    {
      var available := capacity - |state.bytes|;
      count := if available < |bytes| then available else |bytes|;
      state.bytes := state.bytes + bytes[..count];
      if count < |bytes| {
        state.exceeded := true;
        return false, count;
      }
      assert bytes[..count] == bytes;
      return true, count;
    }

    /** How many bytes a stream asks for; never none, so that a full stream fails and does not wait. */
    method CheckWrite() returns (n: nat)
      requires Valid()
      ensures n >= 1
      ensures |state.bytes| + n <= capacity <==> |state.bytes| < capacity
      ensures |state.bytes| < capacity ==> |state.bytes| + n == capacity
    {
      var available := capacity - |state.bytes|;
      n := if available > 1 then available else 1;
    }
  }

  // ---- Any sequence of writes ----

  /** The shared contents after a sequence of attempts, made through whichever clones. */
  function Written(capacity: nat, writes: seq<seq<Byte>>): (c: Contents)
    ensures |c.bytes| <= capacity
  {
    if writes == [] then Empty
    else Appended(capacity, Written(capacity, writes[..|writes| - 1]), writes[|writes| - 1])
  }

  function Attempted(writes: seq<seq<Byte>>): seq<Byte> {
    if writes == [] then [] else Attempted(writes[..|writes| - 1]) + writes[|writes| - 1]
  }

  function Prefix(s: seq<Byte>, n: nat): seq<Byte> {
    if |s| <= n then s else s[..n]
  }

  /** The buffer is the prefix, as long as the quota allows, of everything that was ever attempted,
      through all clones together; and the quota is exceeded exactly when that was longer. Pieces
      that fail in part leave their part, and nothing is added after them. */
  lemma {:induction false} ContentsArePrefix(capacity: nat, writes: seq<seq<Byte>>)
    ensures Written(capacity, writes)
         == Contents(Prefix(Attempted(writes), capacity), |Attempted(writes)| > capacity)
    decreases |writes|
  {
    if writes != [] {
      var init, last := writes[..|writes| - 1], writes[|writes| - 1];
      ContentsArePrefix(capacity, init);
      AppendToPrefix(capacity, Attempted(init), last);
    }
  }

  lemma AppendToPrefix(capacity: nat, s: seq<Byte>, bytes: seq<Byte>)
    ensures Appended(capacity, Contents(Prefix(s, capacity), |s| > capacity), bytes)
         == Contents(Prefix(s + bytes, capacity), |s + bytes| > capacity)
  {
    if |s| > capacity {
      assert (s + bytes)[..capacity] == s[..capacity];
      assert s[..capacity] + bytes[..0] == s[..capacity];
      assert |bytes| == 0 ==> s[..capacity] + bytes == s[..capacity];
    } else if |s| + |bytes| > capacity {
      assert (s + bytes)[..capacity] == s + bytes[..capacity - |s|];
    }
  }
}
