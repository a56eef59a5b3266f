/** The system-call filter: a compiler from an allowlist to classic BPF with relative jumps, an
    interpreter for the instructions it uses, and the policy that the compiled program means. */
module Seccomp {
  import opened Wrappers

  type U8 = n: nat | n < 0x100
  type U16 = n: nat | n < 0x1_0000
  type U32 = n: nat | n < 0x1_0000_0000
  type U64 = n: nat | n < 0x1_0000_0000_0000_0000

  datatype Instruction = Instruction(code: U16, jt: U8, jf: U8, k: U32)

  // ---- Classic BPF ----

  const LOAD: U16 := 0x20    // load the word at offset k
  const EQUAL: U16 := 0x15   // skip jt or jf instructions
  const RETURN: U16 := 0x06  // return k

  const KILL_PROCESS: U32 := 0x8000_0000
  const ALLOW: U32 := 0x7fff_0000
  const DENY: U32 := 0x0005_0001  // fail with EPERM

  /** What the kernel hands to the filter: number, architecture, instruction pointer, arguments. */
  datatype Call = Call(nr: U32, arch: U32, ip: U64, args: seq<U64>)

  ghost predicate Valid(d: Call) {
    |d.args| == 6
  }

  function Low(x: U64): U32 { x % 0x1_0000_0000 }

  function High(x: U64): U32 { x / 0x1_0000_0000 }

  /** The 32-bit word at a byte offset of the kernel's 64-byte record, on a little-endian machine. */
  function Word(d: Call, offset: U32): Option<U32>
    requires Valid(d)
  {
    if offset % 4 != 0 || offset >= 64 then None
    else if offset == 0 then Some(d.nr)
    else if offset == 4 then Some(d.arch)
    else if offset == 8 then Some(Low(d.ip))
    else if offset == 12 then Some(High(d.ip))
    else
      var arg := d.args[(offset - 16) / 8];
      Some(if offset % 8 == 0 then Low(arg) else High(arg))
  }

  /** A verdict, or a fault: an instruction outside the program, an unknown one, or a bad load. */
  datatype Result = Returned(k: U32) | Fault

  /** Runs from instruction `pc` with accumulator `acc`; every path is shorter than the program. */
  function Run(program: seq<Instruction>, d: Call, pc: nat, acc: U32): Result
    requires Valid(d)
    decreases |program| - pc
  {
    if pc >= |program| then Fault
    else
      var i := program[pc];
      if i.code == LOAD then
        match Word(d, i.k)
        case None => Fault
        case Some(w) => Run(program, d, pc + 1, w)
      else if i.code == EQUAL then Run(program, d, pc + 1 + (if acc == i.k then i.jt else i.jf), acc)
      else if i.code == RETURN then Returned(i.k)
      else Fault
  }

  /** How many instructions a run executes. */
  function Steps(program: seq<Instruction>, d: Call, pc: nat, acc: U32): (n: nat)
    requires Valid(d)
    ensures pc <= |program| ==> n <= |program| - pc
    decreases |program| - pc
  {
    if pc >= |program| then 0
    else
      var i := program[pc];
      if i.code == LOAD && Word(d, i.k).Some? then 1 + Steps(program, d, pc + 1, Word(d, i.k).value)
      else if i.code == EQUAL then 1 + Steps(program, d, pc + 1 + (if acc == i.k then i.jt else i.jf), acc)
      else 1
  }

  /** Jumps are relative: what precedes an instruction does not matter to a run from it. */
  lemma {:induction false} RunSuffix(a: seq<Instruction>, b: seq<Instruction>, d: Call, pc: nat, acc: U32)
    requires Valid(d)
    ensures Run(a + b, d, |a| + pc, acc) == Run(b, d, pc, acc)
    decreases |b| - pc
  {
    if pc < |b| {
      var i := b[pc];
      assert (a + b)[|a| + pc] == i;
      if i.code == LOAD && Word(d, i.k).Some? {
        RunSuffix(a, b, d, pc + 1, Word(d, i.k).value);
      } else if i.code == EQUAL {
        RunSuffix(a, b, d, pc + 1 + (if acc == i.k then i.jt else i.jf), acc);
      }
    }
  }

  // ---- The policy ----

  datatype Rules = Rules(
    arch: U32,
    allowed: seq<U32>,   // allowed whatever their arguments
    tgkill: U32,         // allowed for the process's own thread group
    pid: U32,
    fcntl: U32,          // allowed for some commands
    commands: seq<U32>)

  /** What the filter must answer. Process ids and commands are C ints, so only the low word of an
      argument counts. */
  function Policy(r: Rules, d: Call): U32
    requires Valid(d)
  {
    if d.arch != r.arch then KILL_PROCESS
    else if d.nr in r.allowed then ALLOW
    else if d.nr == r.tgkill then (if Low(d.args[0]) == r.pid then ALLOW else DENY)
    else if d.nr == r.fcntl then (if Low(d.args[1]) in r.commands then ALLOW else DENY)
    else DENY
  }

  // ---- The compiled program ----

  function Prologue(arch: U32): seq<Instruction> {
    [Instruction(LOAD, 0, 0, 4),
     Instruction(EQUAL, 1, 0, arch),
     Instruction(RETURN, 0, 0, KILL_PROCESS),
     Instruction(LOAD, 0, 0, 0)]
  }

  /** Two instructions for each value: return ALLOW on a match, fall through otherwise. */
  function Allows(values: seq<U32>): seq<Instruction> {
    if values == [] then []
    else [Instruction(EQUAL, 0, 1, values[0]), Instruction(RETURN, 0, 0, ALLOW)] + Allows(values[1..])
  }

  function OwnGroup(tgkill: U32, pid: U32): seq<Instruction> {
    [Instruction(EQUAL, 0, 4, tgkill),
     Instruction(LOAD, 0, 0, 16),
     Instruction(EQUAL, 1, 0, pid),
     Instruction(RETURN, 0, 0, DENY),
     Instruction(RETURN, 0, 0, ALLOW)]
  }

  function Commands(fcntl: U32): seq<Instruction> {
    [Instruction(EQUAL, 1, 0, fcntl),
     Instruction(RETURN, 0, 0, DENY),
     Instruction(LOAD, 0, 0, 24)]
  }

  const Epilogue: seq<Instruction> := [Instruction(RETURN, 0, 0, DENY)]

  function Program(r: Rules): seq<Instruction> {
    Prologue(r.arch) + (Allows(r.allowed) + (OwnGroup(r.tgkill, r.pid)
      + (Commands(r.fcntl) + (Allows(r.commands) + Epilogue))))
  }

  lemma {:induction false} AllowsAppend(values: seq<U32>, v: U32)
    ensures Allows(values + [v])
         == Allows(values) + [Instruction(EQUAL, 0, 1, v), Instruction(RETURN, 0, 0, ALLOW)]
  {
    if values == [] {
      assert (values + [v])[1..] == [];
    } else {
      assert (values + [v])[1..] == values[1..] + [v];
      AllowsAppend(values[1..], v);
    }
  }

  lemma {:induction false} AllowsLength(values: seq<U32>)
    ensures |Allows(values)| == 2 * |values|
  {
    if values != [] {
      AllowsLength(values[1..]);
    }
  }

  /** A block of allowances answers for its values and hands every other word on, unchanged. */
  lemma {:induction false} AllowsMeaning(values: seq<U32>, rest: seq<Instruction>, d: Call, acc: U32)
    requires Valid(d)
    ensures Run(Allows(values) + rest, d, 0, acc)
         == if acc in values then Returned(ALLOW) else Run(rest, d, 0, acc)
  {
    if values == [] {
      assert Allows(values) + rest == rest;
    } else {
      var pair := [Instruction(EQUAL, 0, 1, values[0]), Instruction(RETURN, 0, 0, ALLOW)];
      var tail := Allows(values[1..]) + rest;
      var all := Allows(values) + rest;
      assert all == pair + tail;
      assert all[0] == pair[0] && all[1] == pair[1];
      if acc == values[0] {
        assert Run(all, d, 1, acc) == Returned(ALLOW);
      } else {
        RunSuffix(pair, tail, d, 0, acc);
        AllowsMeaning(values[1..], rest, d, acc);
        assert Run(all, d, 0, acc) == Run(all, d, 2, acc);
      }
    }
  }

  lemma CommandsMeaning(r: Rules, d: Call, acc: U32)
    requires Valid(d)
    ensures Run(Commands(r.fcntl) + (Allows(r.commands) + Epilogue), d, 0, acc)
         == Returned(if acc == r.fcntl && Low(d.args[1]) in r.commands then ALLOW else DENY)
  {
    var rest := Allows(r.commands) + Epilogue;
    var all := Commands(r.fcntl) + rest;
    assert all[0] == Commands(r.fcntl)[0] && all[1] == Commands(r.fcntl)[1] && all[2] == Commands(r.fcntl)[2];
    if acc == r.fcntl {
      var word := Low(d.args[1]);
      assert Word(d, 24) == Some(word);
      AllowsMeaning(r.commands, Epilogue, d, word);
      assert Run(Epilogue, d, 0, word) == Returned(DENY);
      RunSuffix(Commands(r.fcntl), rest, d, 0, word);
      assert Run(all, d, 2, acc) == Run(all, d, 3, word);
      assert Run(all, d, 0, acc) == Run(all, d, 2, acc);
    } else {
      assert Run(all, d, 0, acc) == Run(all, d, 1, acc);
    }
  }

  lemma OwnGroupMeaning(r: Rules, rest: seq<Instruction>, d: Call, acc: U32)
    requires Valid(d)
    ensures Run(OwnGroup(r.tgkill, r.pid) + rest, d, 0, acc)
         == if acc == r.tgkill then Returned(if Low(d.args[0]) == r.pid then ALLOW else DENY)
            else Run(rest, d, 0, acc)
  {
    var block := OwnGroup(r.tgkill, r.pid);
    var all := block + rest;
    assert all[0] == block[0] && all[1] == block[1] && all[2] == block[2] && all[3] == block[3] && all[4] == block[4];
    if acc == r.tgkill {
      var word := Low(d.args[0]);
      assert Word(d, 16) == Some(word);
      assert Run(all, d, 0, acc) == Run(all, d, 1, acc) == Run(all, d, 2, word);
      if word == r.pid {
        assert Run(all, d, 2, word) == Run(all, d, 4, word) == Returned(ALLOW);
      } else {
        assert Run(all, d, 2, word) == Run(all, d, 3, word) == Returned(DENY);
      }
    } else {
      RunSuffix(block, rest, d, 0, acc);
      assert Run(all, d, 0, acc) == Run(all, d, 5, acc);
    }
  }

  /** The program computes the policy on every system call, and never faults. */
  lemma ProgramMeansPolicy(r: Rules, d: Call)
    requires Valid(d)
    ensures Run(Program(r), d, 0, 0) == Returned(Policy(r, d))
  {
    var body := Allows(r.allowed) + (OwnGroup(r.tgkill, r.pid) + (Commands(r.fcntl) + (Allows(r.commands) + Epilogue)));
    var all := Prologue(r.arch) + body;
    PrologueMeaning(r.arch, body, d);
    if d.arch == r.arch {
      var rest := OwnGroup(r.tgkill, r.pid) + (Commands(r.fcntl) + (Allows(r.commands) + Epilogue));
      AllowsMeaning(r.allowed, rest, d, d.nr);
      OwnGroupMeaning(r, Commands(r.fcntl) + (Allows(r.commands) + Epilogue), d, d.nr);
      CommandsMeaning(r, d, d.nr);
    }
  }

  lemma PrologueMeaning(arch: U32, body: seq<Instruction>, d: Call)
    requires Valid(d)
    ensures Run(Prologue(arch) + body, d, 0, 0)
         == if d.arch == arch then Run(body, d, 0, d.nr) else Returned(KILL_PROCESS)
  {
    var block := Prologue(arch);
    var all := block + body;
    assert all[0] == block[0] && all[1] == block[1] && all[2] == block[2] && all[3] == block[3];
    assert Run(all, d, 0, 0) == Run(all, d, 1, d.arch);
    if d.arch == arch {
      RunSuffix(block, body, d, 0, d.nr);
      assert Run(all, d, 1, d.arch) == Run(all, d, 3, d.arch) == Run(all, d, 4, d.nr);
    } else {
      assert Run(all, d, 1, d.arch) == Run(all, d, 2, d.arch) == Returned(KILL_PROCESS);
    }
  }

  /** What the filter allows: exactly the listed calls, a signal to the own thread group, and the
      listed commands, under the right architecture. Everything else fails with EPERM or, under
      another architecture, is killed. */
  lemma AllowedExactly(r: Rules, d: Call)
    requires Valid(d) && r.tgkill != r.fcntl
    ensures var verdict := Run(Program(r), d, 0, 0);
            && (verdict == Returned(KILL_PROCESS) <==> d.arch != r.arch)
            && (verdict == Returned(ALLOW) <==>
                 && d.arch == r.arch
                 && (|| d.nr in r.allowed
                     || (d.nr == r.tgkill && Low(d.args[0]) == r.pid)
                     || (d.nr == r.fcntl && Low(d.args[1]) in r.commands)))
            && (verdict == Returned(DENY) <==> d.arch == r.arch && verdict != Returned(ALLOW))
  {
    ProgramMeansPolicy(r, d);
  }

  /** What the kernel makes of a returned word: the action in the high half, an errno in the low. */
  datatype Action = KillProcess | Errno(number: nat) | Allow | OtherAction

  function Decoded(k: U32): Action {
    var action := k / 0x1_0000;
    if action == 0x8000 then KillProcess
    else if action == 0x0005 then Errno(k % 0x1_0000)
    else if action == 0x7fff then Allow
    else OtherAction
  }

  /** Exactly what the kernel does with each system call: it kills the process under another
      architecture, lets the allowed calls through, and fails every other one with errno 1, which is
      EPERM. */
  lemma KernelDoesExactly(r: Rules, d: Call)
    requires Valid(d) && r.tgkill != r.fcntl
    ensures var verdict := Run(Program(r), d, 0, 0);
            var allowed := || d.nr in r.allowed
                           || (d.nr == r.tgkill && d.args[0] % 0x1_0000_0000 == r.pid)
                           || (d.nr == r.fcntl && d.args[1] % 0x1_0000_0000 in r.commands);
            && verdict.Returned?
            && Decoded(verdict.k) == if d.arch != r.arch then KillProcess else if allowed then Allow else Errno(1)
  {
    ProgramMeansPolicy(r, d);
    hide Run, Program;
  }

  /** The program as the builder's loops leave it. */
  lemma ProgramParts(r: Rules)
    ensures Program(r) == Prologue(r.arch) + Allows(r.allowed) + OwnGroup(r.tgkill, r.pid) + Commands(r.fcntl)
                          + Allows(r.commands) + Epilogue
    ensures |Program(r)| == 13 + 2 * |r.allowed| + 2 * |r.commands|
  {
    AllowsLength(r.allowed);
    AllowsLength(r.commands);
    hide Allows;
  }

  lemma ProgramAlwaysMeansPolicy(r: Rules)
    ensures forall d: Call :: Valid(d) ==> Run(Program(r), d, 0, 0) == Returned(Policy(r, d))
  {
    forall d: Call | Valid(d) ensures Run(Program(r), d, 0, 0) == Returned(Policy(r, d)) {
      ProgramMeansPolicy(r, d);
    }
  }

  /** Builds the filter. */
  method RestrictSyscalls(r: Rules) returns (filter: seq<Instruction>)
    ensures |filter| == 13 + 2 * |r.allowed| + 2 * |r.commands|
    ensures forall d: Call :: Valid(d) ==> Run(filter, d, 0, 0) == Returned(Policy(r, d))
  {
    hide Allows, Program, Run, Policy;
    assert Allows([]) == [] by { NoAllows(); }
    filter := [
      Instruction(LOAD, 0, 0, 4),
      Instruction(EQUAL, 1, 0, r.arch),
      Instruction(RETURN, 0, 0, KILL_PROCESS),
      Instruction(LOAD, 0, 0, 0)
    ];
    for i := 0 to |r.allowed|
      invariant filter == Prologue(r.arch) + Allows(r.allowed[..i])
    {
      AllowsAppend(r.allowed[..i], r.allowed[i]);
      assert r.allowed[..i + 1] == r.allowed[..i] + [r.allowed[i]];
      filter := filter + [Instruction(EQUAL, 0, 1, r.allowed[i])];
      filter := filter + [Instruction(RETURN, 0, 0, ALLOW)];
    }
    assert r.allowed[..|r.allowed|] == r.allowed;
    filter := filter + [
      Instruction(EQUAL, 0, 4, r.tgkill),
      Instruction(LOAD, 0, 0, 16),
      Instruction(EQUAL, 1, 0, r.pid),
      Instruction(RETURN, 0, 0, DENY),
      Instruction(RETURN, 0, 0, ALLOW)
    ];
    ghost var head := filter;
    filter := filter + [Instruction(EQUAL, 1, 0, r.fcntl)];
    filter := filter + [Instruction(RETURN, 0, 0, DENY)];
    filter := filter + [Instruction(LOAD, 0, 0, 24)];
    assert filter == head + Commands(r.fcntl);
    head := filter;
    for i := 0 to |r.commands|
      invariant filter == head + Allows(r.commands[..i])
    {
      AllowsAppend(r.commands[..i], r.commands[i]);
      assert r.commands[..i + 1] == r.commands[..i] + [r.commands[i]];
      filter := filter + [Instruction(EQUAL, 0, 1, r.commands[i])];
      filter := filter + [Instruction(RETURN, 0, 0, ALLOW)];
    }
    assert r.commands[..|r.commands|] == r.commands;
    filter := filter + [Instruction(RETURN, 0, 0, DENY)];
    ProgramParts(r);
    ProgramAlwaysMeansPolicy(r);
  }

  lemma NoAllows()
    ensures Allows([]) == []
  {
  }
}
