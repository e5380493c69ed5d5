// The system-call filter (internal/sandbox/sandbox_linux.go): a classic BPF machine,
// the builder that appends the filter block by block, and the proof that the code it
// builds means the policy.
module Sandbox {
  // ---- the machine ----

  const LOAD := 0x20
  const EQUAL := 0x15
  const BITS := 0x45
  const RETURN := 0x06

  datatype Instruction = Instruction(code: nat, jt: nat, jf: nat, k: bv32)

  // struct seccomp_data: number, architecture, instruction pointer, six arguments.
  datatype Call = Call(nr: bv32, arch: bv32, ip: bv64, args: seq<bv64>)

  predicate IsCall(d: Call) { |d.args| == 6 }

  function Low(x: bv64): bv32 { (x & 0xffff_ffff) as bv32 }
  function High(x: bv64): bv32 { (x >> 32) as bv32 }

  // The 32-bit word at a byte offset of the little-endian record; None where a load is refused.
  datatype Loaded = Refused | Word(value: bv32)

  function WordAt(d: Call, k: bv32): Loaded
    requires IsCall(d)
  {
    if k == 0 then Word(d.nr)
    else if k == 4 then Word(d.arch)
    else if k == 8 then Word(Low(d.ip))
    else if k == 12 then Word(High(d.ip))
    else if k == 16 then Word(Low(d.args[0]))
    else if k == 20 then Word(High(d.args[0]))
    else if k == 24 then Word(Low(d.args[1]))
    else if k == 28 then Word(High(d.args[1]))
    else if k == 32 then Word(Low(d.args[2]))
    else if k == 36 then Word(High(d.args[2]))
    else if k == 40 then Word(Low(d.args[3]))
    else if k == 44 then Word(High(d.args[3]))
    else if k == 48 then Word(Low(d.args[4]))
    else if k == 52 then Word(High(d.args[4]))
    else if k == 56 then Word(Low(d.args[5]))
    else if k == 60 then Word(High(d.args[5]))
    else Refused
  }

  datatype Machine = At(pc: nat, acc: bv32) | Halted(verdict: bv32) | Stuck

  function Step(code: seq<Instruction>, d: Call, m: Machine): Machine
    requires IsCall(d)
  {
    if !m.At? then m
    else if m.pc >= |code| then Stuck
    else
      var i := code[m.pc];
      if i.code == LOAD then
        var w := WordAt(d, i.k);
        if w.Word? then At(m.pc + 1, w.value) else Stuck
      else if i.code == EQUAL then At(m.pc + 1 + if m.acc == i.k then i.jt else i.jf, m.acc)
      else if i.code == BITS then At(m.pc + 1 + if m.acc & i.k != 0 then i.jt else i.jf, m.acc)
      else if i.code == RETURN then Halted(i.k)
      else Stuck
  }

  function Run(code: seq<Instruction>, d: Call, m: Machine): Machine
    requires IsCall(d)
    decreases if m.At? then (if m.pc < |code| then |code| - m.pc + 1 else 1) else 0
  {
    if m.At? then Run(code, d, Step(code, d, m)) else m
  }

  function Steps(code: seq<Instruction>, d: Call, n: nat): Machine
    requires IsCall(d)
  {
    if n == 0 then At(0, 0) else Step(code, d, Steps(code, d, n - 1))
  }

  // ---- the policy ----

  const ALLOW: bv32 := 0x7fff_0000
  const EPERM: bv32 := 0x0005_0001
  const KILL: bv32 := 0x8000_0000
  const X32_BIT: bv32 := 0x4000_0000

  datatype Platform = Platform(arch: bv32, x32: bool, deny: seq<bv32>, kill: bv32, pidfd: bv32, tgkill: bv32)

  function Amd64(): Platform {
    Platform(0xc000003e, true, [101, 129, 200, 297, 298, 310, 311, 321, 438, 440, 448], 62, 424, 234)
  }

  function Arm64(): Platform {
    Platform(0xc00000b7, false, [117, 130, 138, 240, 241, 270, 271, 280, 438, 440, 448], 129, 424, 131)
  }

  // A call under the platform's own number space, and not refused by number alone.
  predicate Considered(p: Platform, d: Call) {
    d.arch == p.arch && !(p.x32 && d.nr & X32_BIT != 0) && d.nr !in p.deny
  }

  // A signal other than 0 and SIGKILL, or a tgkill aimed at another thread group.
  predicate Misdirected(p: Platform, pid: bv32, d: Call)
    requires IsCall(d)
  {
    if d.nr == p.kill || d.nr == p.pidfd then Low(d.args[1]) != 0 && Low(d.args[1]) != 9
    else d.nr == p.tgkill && Low(d.args[0]) != pid
  }

  function Policy(p: Platform, pid: bv32, d: Call): bv32
    requires IsCall(d)
  {
    if d.arch != p.arch then KILL
    else if !Considered(p, d) || Misdirected(p, pid, d) then EPERM
    else ALLOW
  }

  // ---- the code ----

  function Head(p: Platform): seq<Instruction> {
    [Instruction(LOAD, 0, 0, 4), Instruction(EQUAL, 1, 0, p.arch), Instruction(RETURN, 0, 0, KILL),
        Instruction(LOAD, 0, 0, 0)]
    + if p.x32 then [Instruction(BITS, 0, 1, X32_BIT), Instruction(RETURN, 0, 0, EPERM)] else []
  }

  function DenyBlock(nr: bv32): seq<Instruction> {
    [Instruction(EQUAL, 0, 1, nr), Instruction(RETURN, 0, 0, EPERM)]
  }

  function DenyCode(deny: seq<bv32>): (code: seq<Instruction>)
    ensures |code| == 2 * |deny|
  {
    if deny == [] then [] else DenyCode(deny[..|deny| - 1]) + DenyBlock(deny[|deny| - 1])
  }

  function SignalBlock(nr: bv32): seq<Instruction> {
    [Instruction(EQUAL, 0, 5, nr), Instruction(LOAD, 0, 0, 24), Instruction(EQUAL, 2, 0, 0),
     Instruction(EQUAL, 1, 0, 9), Instruction(RETURN, 0, 0, EPERM), Instruction(RETURN, 0, 0, ALLOW)]
  }

  function SignalCode(nrs: seq<bv32>): (code: seq<Instruction>)
    ensures |code| == 6 * |nrs|
  {
    if nrs == [] then [] else SignalCode(nrs[..|nrs| - 1]) + SignalBlock(nrs[|nrs| - 1])
  }

  function Tail(p: Platform, pid: bv32): seq<Instruction> {
    [Instruction(EQUAL, 0, 3, p.tgkill), Instruction(LOAD, 0, 0, 16), Instruction(EQUAL, 1, 0, pid),
     Instruction(RETURN, 0, 0, EPERM), Instruction(RETURN, 0, 0, ALLOW)]
  }

  function Filter(p: Platform, pid: bv32): seq<Instruction> {
    Head(p) + DenyCode(p.deny) + SignalCode([p.kill, p.pidfd]) + Tail(p, pid)
  }

  lemma DenyMore(deny: seq<bv32>, i: nat)
    requires i < |deny|
    ensures DenyCode(deny[..i + 1]) == DenyCode(deny[..i]) + DenyBlock(deny[i])
  {
    assert deny[..i + 1][..i] == deny[..i];
  }

  lemma SignalMore(nrs: seq<bv32>, i: nat)
    requires i < |nrs|
    ensures SignalCode(nrs[..i + 1]) == SignalCode(nrs[..i]) + SignalBlock(nrs[i])
  {
    assert nrs[..i + 1][..i] == nrs[..i];
  }

  // One six-instruction block for each way to send a signal.
  method AppendSignals(code: seq<Instruction>, nrs: seq<bv32>) returns (filter: seq<Instruction>)
    ensures filter == code + SignalCode(nrs)
  {
    filter := code;
    hide SignalCode;
    for i := 0 to |nrs|
      invariant filter == code + SignalCode(nrs[..i])
    {
      var block := [
        Instruction(EQUAL, 0, 5, nrs[i]), Instruction(LOAD, 0, 0, 24), Instruction(EQUAL, 2, 0, 0),
        Instruction(EQUAL, 1, 0, 9), Instruction(RETURN, 0, 0, EPERM), Instruction(RETURN, 0, 0, ALLOW)];
      assert block == SignalBlock(nrs[i]);
      SignalMore(nrs, i);
      filter := filter + block;
    }
    assert nrs[..|nrs|] == nrs;
  }

  // The builder of RestrictProcessControl.
  method BuildFilter(p: Platform, pid: bv32) returns (filter: seq<Instruction>)
    ensures filter == Filter(p, pid)
    ensures forall d :: IsCall(d) ==> Run(filter, d, At(0, 0)) == Halted(Policy(p, pid, d))
  {
    filter := [Instruction(LOAD, 0, 0, 4), Instruction(EQUAL, 1, 0, p.arch), Instruction(RETURN, 0, 0, KILL),
        Instruction(LOAD, 0, 0, 0)];
    if p.x32 {
      filter := filter + [Instruction(BITS, 0, 1, X32_BIT), Instruction(RETURN, 0, 0, EPERM)];
    }
    assert filter == Head(p);
    hide Head, DenyCode, SignalCode;
    assert DenyCode(p.deny[..0]) == [];
    for i := 0 to |p.deny|
      invariant filter == Head(p) + DenyCode(p.deny[..i])
    {
      DenyMore(p.deny, i);
      var block := [Instruction(EQUAL, 0, 1, p.deny[i]), Instruction(RETURN, 0, 0, EPERM)];
      assert block == DenyBlock(p.deny[i]);
      filter := filter + block;
    }
    assert p.deny[..|p.deny|] == p.deny;
    filter := AppendSignals(filter, [p.kill, p.pidfd]);
    var tail := [
      Instruction(EQUAL, 0, 3, p.tgkill), Instruction(LOAD, 0, 0, 16), Instruction(EQUAL, 1, 0, pid),
      Instruction(RETURN, 0, 0, EPERM), Instruction(RETURN, 0, 0, ALLOW)];
    assert tail == Tail(p, pid);
    filter := filter + tail;
    assert filter == Filter(p, pid);
    hide *;
    forall d | IsCall(d) ensures Run(filter, d, At(0, 0)) == Halted(Policy(p, pid, d)) {
      FilterMeansPolicy(p, pid, d);
    }
  }

  lemma Goes(code: seq<Instruction>, d: Call, pc: nat, acc: bv32, m: Machine)
    requires IsCall(d) && Step(code, d, At(pc, acc)) == m
    ensures Run(code, d, At(pc, acc)) == Run(code, d, m)
    ensures m.Halted? ==> Run(code, d, At(pc, acc)) == m
  {}

  // ---- what a block does when it starts with the number in the accumulator ----

  ghost predicate Has(code: seq<Instruction>, at: nat, block: seq<Instruction>) {
    at + |block| <= |code| && forall i :: 0 <= i < |block| ==> code[at + i] == block[i]
  }

  lemma {:induction false} DenyRuns(code: seq<Instruction>, at: nat, deny: seq<bv32>, d: Call)
    requires IsCall(d) && Has(code, at, DenyCode(deny))
    ensures Run(code, d, At(at, d.nr)) ==
            if d.nr in deny then Halted(EPERM) else Run(code, d, At(at + 2 * |deny|, d.nr))
    decreases |deny|
  {
    hide Run;
    if deny != [] {
      var n := |deny| - 1;
      var here := at + 2 * n;
      forall i | 0 <= i < 2 * n ensures code[at + i] == DenyCode(deny[..n])[i] {
        assert DenyCode(deny)[i] == DenyCode(deny[..n])[i];
      }
      DenyRuns(code, at, deny[..n], d);
      assert code[at + 2 * n] == DenyCode(deny)[2 * n] == Instruction(EQUAL, 0, 1, deny[n]);
      assert code[at + 2 * n + 1] == DenyCode(deny)[2 * n + 1] == Instruction(RETURN, 0, 0, EPERM);
      assert deny == deny[..n] + [deny[n]];
      if d.nr == deny[n] {
        Goes(code, d, here, d.nr, At(here + 1, d.nr));
        Goes(code, d, here + 1, d.nr, Halted(EPERM));
      } else {
        Goes(code, d, here, d.nr, At(here + 2, d.nr));
      }
    }
  }

  lemma SignalRuns(code: seq<Instruction>, at: nat, nr: bv32, d: Call)
    requires IsCall(d) && Has(code, at, SignalBlock(nr))
    ensures Run(code, d, At(at, d.nr)) ==
            if d.nr != nr then Run(code, d, At(at + 6, d.nr))
            else Halted(if Low(d.args[1]) == 0 || Low(d.args[1]) == 9 then ALLOW else EPERM)
  {
    hide Run, Low;
    var b := SignalBlock(nr);
    assert code[at] == b[0] && code[at + 1] == b[1] && code[at + 2] == b[2];
    assert code[at + 3] == b[3] && code[at + 4] == b[4] && code[at + 5] == b[5];
    if d.nr == nr {
      var s := Low(d.args[1]);
      Goes(code, d, at, d.nr, At(at + 1, d.nr));
      Goes(code, d, at + 1, d.nr, At(at + 2, s));
      Goes(code, d, at + 2, s, if s == 0 then At(at + 5, s) else At(at + 3, s));
      Goes(code, d, at + 3, s, if s == 9 then At(at + 5, s) else At(at + 4, s));
      Goes(code, d, at + 5, s, Halted(ALLOW));
      Goes(code, d, at + 4, s, Halted(EPERM));
    } else {
      Goes(code, d, at, d.nr, At(at + 6, d.nr));
    }
  }

  lemma TailRuns(code: seq<Instruction>, at: nat, p: Platform, pid: bv32, d: Call)
    requires IsCall(d) && Has(code, at, Tail(p, pid))
    ensures Run(code, d, At(at, d.nr)) == Halted(if d.nr == p.tgkill && Low(d.args[0]) != pid then EPERM else ALLOW)
  {
    hide Run, Low;
    var b := Tail(p, pid);
    assert code[at] == b[0] && code[at + 1] == b[1] && code[at + 2] == b[2] && code[at + 3] == b[3] &&
      code[at + 4] == b[4];
    if d.nr == p.tgkill {
      var s := Low(d.args[0]);
      Goes(code, d, at, d.nr, At(at + 1, d.nr));
      Goes(code, d, at + 1, d.nr, At(at + 2, s));
      Goes(code, d, at + 2, s, if s == pid then At(at + 4, s) else At(at + 3, s));
      Goes(code, d, at + 4, s, Halted(ALLOW));
      Goes(code, d, at + 3, s, Halted(EPERM));
    } else {
      Goes(code, d, at, d.nr, At(at + 4, d.nr));
      Goes(code, d, at + 4, d.nr, Halted(ALLOW));
    }
  }

  lemma HeadRuns(code: seq<Instruction>, p: Platform, d: Call)
    requires IsCall(d) && Has(code, 0, Head(p))
    ensures Run(code, d, At(0, 0)) ==
            if d.arch != p.arch then Halted(KILL)
            else if p.x32 && d.nr & X32_BIT != 0 then Halted(EPERM)
            else Run(code, d, At(|Head(p)|, d.nr))
  {
    hide Run;
    var b := Head(p);
    assert code[0] == b[0] && code[1] == b[1] && code[2] == b[2] && code[3] == b[3];
    Goes(code, d, 0, 0, At(1, d.arch));
    if d.arch != p.arch {
      Goes(code, d, 1, d.arch, At(2, d.arch));
      Goes(code, d, 2, d.arch, Halted(KILL));
    } else {
      Goes(code, d, 1, d.arch, At(3, d.arch));
      Goes(code, d, 3, d.arch, At(4, d.nr));
      if p.x32 {
        assert code[4] == b[4] && code[5] == b[5];
        if d.nr & X32_BIT != 0 {
          Goes(code, d, 4, d.nr, At(5, d.nr));
          Goes(code, d, 5, d.nr, Halted(EPERM));
        } else {
          Goes(code, d, 4, d.nr, At(6, d.nr));
        }
      }
    }
  }

  // ---- layout ----

  function DenyAt(p: Platform): nat { if p.x32 then 6 else 4 }
  function SignalAt(p: Platform): nat { DenyAt(p) + 2 * |p.deny| }
  function TailAt(p: Platform): nat { SignalAt(p) + 12 }

  lemma Layout(p: Platform, pid: bv32)
    ensures |Filter(p, pid)| == TailAt(p) + 5
    ensures Has(Filter(p, pid), 0, Head(p)) && |Head(p)| == DenyAt(p)
    ensures Has(Filter(p, pid), DenyAt(p), DenyCode(p.deny))
    ensures Has(Filter(p, pid), SignalAt(p), SignalBlock(p.kill))
    ensures Has(Filter(p, pid), SignalAt(p) + 6, SignalBlock(p.pidfd))
    ensures Has(Filter(p, pid), TailAt(p), Tail(p, pid))
  {
    TwoSignals(p.kill, p.pidfd);
    BlockSizes(p, pid);
    var h, d, t := Head(p), DenyCode(p.deny), Tail(p, pid);
    var s, v := SignalBlock(p.kill), SignalBlock(p.pidfd);
    var code := Filter(p, pid);
    hide Has, Head, DenyCode, SignalCode, SignalBlock, Tail;
    Within([], h, d + (s + v) + t);
    assert code == [] + h + (d + (s + v) + t);
    Within(h, d, (s + v) + t);
    assert code == h + d + ((s + v) + t);
    Within(h + d, s, v + t);
    assert code == (h + d) + s + (v + t);
    Within(h + d + s, v, t);
    assert code == (h + d + s) + v + t;
    Within(h + d + s + v, t, []);
    assert code == (h + d + s + v) + t + [];
  }

  lemma Within(a: seq<Instruction>, b: seq<Instruction>, c: seq<Instruction>)
    ensures Has(a + b + c, |a|, b)
  {}

  lemma TwoSignals(a: bv32, b: bv32)
    ensures SignalCode([a, b]) == SignalBlock(a) + SignalBlock(b)
  {
    assert [a, b][..1] == [a];
    hide SignalBlock;
    assert SignalCode([a]) == SignalBlock(a);
  }

  lemma BlockSizes(p: Platform, pid: bv32)
    ensures |Head(p)| == DenyAt(p)
    ensures |SignalBlock(p.kill)| == 6 && |SignalBlock(p.pidfd)| == 6 && |Tail(p, pid)| == 5
  {}

  // For every deny list and every call the filter halts with the policy's verdict.
  lemma FilterMeansPolicy(p: Platform, pid: bv32, d: Call)
    requires IsCall(d)
    ensures Run(Filter(p, pid), d, At(0, 0)) == Halted(Policy(p, pid, d))
  {
    var code := Filter(p, pid);
    hide Filter, Run, Has, Head, Low, Policy, DenyCode, SignalBlock, Tail;
    Layout(p, pid);
    HeadRuns(code, p, d);
    DenyRuns(code, DenyAt(p), p.deny, d);
    SignalRuns(code, SignalAt(p), p.kill, d);
    SignalRuns(code, SignalAt(p) + 6, p.pidfd, d);
    TailRuns(code, TailAt(p), p, pid, d);
    PolicyCases(p, pid, d);
  }

  lemma PolicyCases(p: Platform, pid: bv32, d: Call)
    requires IsCall(d)
    ensures Policy(p, pid, d) ==
            if d.arch != p.arch then KILL
            else if p.x32 && d.nr & X32_BIT != 0 then EPERM
            else if d.nr in p.deny then EPERM
            else if d.nr == p.kill || d.nr == p.pidfd then
              (if Low(d.args[1]) == 0 || Low(d.args[1]) == 9 then ALLOW else EPERM)
            else if d.nr == p.tgkill && Low(d.args[0]) != pid then EPERM
            else ALLOW
  {
    hide Low;
  }

  // ---- the shape of the code ----

  // The instruction at each address.
  function Fetch(p: Platform, pid: bv32, pc: nat): Instruction
    requires pc < TailAt(p) + 5
  {
    if pc < DenyAt(p) then Head(p)[pc]
    else if pc < SignalAt(p) then
      if (pc - DenyAt(p)) % 2 == 0 then Instruction(EQUAL, 0, 1, p.deny[(pc - DenyAt(p)) / 2])
      else Instruction(RETURN, 0, 0, EPERM)
    else if pc < SignalAt(p) + 6 then SignalBlock(p.kill)[pc - SignalAt(p)]
    else if pc < TailAt(p) then SignalBlock(p.pidfd)[pc - SignalAt(p) - 6]
    else Tail(p, pid)[pc - TailAt(p)]
  }

  lemma {:induction false} DenyCodeAt(deny: seq<bv32>, i: nat)
    requires i < 2 * |deny|
    ensures DenyCode(deny)[i] == if i % 2 == 0 then Instruction(EQUAL, 0, 1, deny[i / 2])
      else Instruction(RETURN, 0, 0, EPERM)
    decreases |deny|
  {
    var n := |deny| - 1;
    if i < 2 * n { DenyCodeAt(deny[..n], i); }
  }

  lemma FilterAt(p: Platform, pid: bv32, pc: nat)
    requires pc < TailAt(p) + 5
    ensures |Filter(p, pid)| == TailAt(p) + 5 && Filter(p, pid)[pc] == Fetch(p, pid, pc)
  {
    Layout(p, pid);
    BlockSizes(p, pid);
    if DenyAt(p) <= pc < SignalAt(p) { DenyCodeAt(p.deny, pc - DenyAt(p)); }
    hide Filter, DenyCode, SignalBlock, Tail, Head;
  }

  // What an installed program must satisfy: forward jumps of at most 255 that land inside,
  // loads that are allowed, no falling off the end.
  predicate Admissible(i: Instruction, pc: nat, size: nat) {
    || i.code == RETURN
    || (i.code == LOAD && pc + 1 < size && i.k % 4 == 0 && i.k < 64)
    || ((i.code == EQUAL || i.code == BITS) && i.jt <= 255 && i.jf <= 255 && pc + 1 + i.jt < size &&
        pc + 1 + i.jf < size)
  }

  lemma HeadAdmissible(p: Platform, i: nat, size: nat)
    requires i < DenyAt(p) && DenyAt(p) + 8 <= size
    ensures Admissible(Head(p)[i], i, size)
  {}

  lemma SignalAdmissible(nr: bv32, at: nat, i: nat, size: nat)
    requires i < 6 && at + 8 <= size
    ensures Admissible(SignalBlock(nr)[i], at + i, size)
  {}

  lemma TailAdmissible(p: Platform, pid: bv32, i: nat)
    requires i < 5
    ensures Admissible(Tail(p, pid)[i], TailAt(p) + i, TailAt(p) + 5)
  {}

  lemma EveryJumpInside(p: Platform, pid: bv32, pc: nat)
    requires pc < |Filter(p, pid)|
    ensures Admissible(Filter(p, pid)[pc], pc, |Filter(p, pid)|)
  {
    hide Filter, DenyCode, Head, SignalBlock, Tail;
    Layout(p, pid);
    FilterAt(p, pid, pc);
    var size := TailAt(p) + 5;
    if pc < DenyAt(p) { HeadAdmissible(p, pc, size); }
    else if pc < SignalAt(p) {}
    else if pc < SignalAt(p) + 6 { SignalAdmissible(p.kill, SignalAt(p), pc - SignalAt(p), size); }
    else if pc < TailAt(p) { SignalAdmissible(p.pidfd, SignalAt(p) + 6, pc - SignalAt(p) - 6, size); }
    else { TailAdmissible(p, pid, pc - TailAt(p)); }
  }

  // Where the test of a number begins.
  predicate BlockStart(p: Platform, pc: nat) {
    || (pc == 4 && DenyAt(p) > 4)
    || (DenyAt(p) <= pc < SignalAt(p) && (pc - DenyAt(p)) % 2 == 0)
    || pc == SignalAt(p) || pc == SignalAt(p) + 6 || pc == TailAt(p)
  }

  predicate NumberKept(p: Platform, d: Call, m: Machine) {
    m.At? && BlockStart(p, m.pc) ==> m.acc == d.nr
  }

  // From this instruction a block start is reached only with the number in the accumulator.
  predicate Leads(p: Platform, pc: nat, i: Instruction) {
    && (i.code == LOAD && BlockStart(p, pc + 1) ==> i.k == 0)
    && (i.code == EQUAL || i.code == BITS ==>
          && (BlockStart(p, pc + 1 + i.jt) ==> BlockStart(p, pc))
          && (BlockStart(p, pc + 1 + i.jf) ==> BlockStart(p, pc)))
  }

  lemma FetchLeads(p: Platform, pid: bv32, pc: nat)
    requires pc < TailAt(p) + 5
    ensures Leads(p, pc, Fetch(p, pid, pc))
  {
    if pc < DenyAt(p) { HeadLeads(p, pc); }
    else if pc < SignalAt(p) {}
    else if pc < SignalAt(p) + 6 { SignalLeads(p, SignalAt(p), p.kill, pc - SignalAt(p)); }
    else if pc < TailAt(p) { SignalLeads(p, SignalAt(p) + 6, p.pidfd, pc - SignalAt(p) - 6); }
    else { TailLeads(p, pid, pc - TailAt(p)); }
  }

  lemma HeadLeads(p: Platform, i: nat)
    requires i < DenyAt(p)
    ensures Leads(p, i, Head(p)[i])
  {}

  lemma SignalLeads(p: Platform, at: nat, nr: bv32, i: nat)
    requires (at == SignalAt(p) || at == SignalAt(p) + 6) && i < 6
    ensures Leads(p, at + i, SignalBlock(nr)[i])
  {}

  lemma TailLeads(p: Platform, pid: bv32, i: nat)
    requires i < 5
    ensures Leads(p, TailAt(p) + i, Tail(p, pid)[i])
  {}

  lemma StepKeepsNumber(p: Platform, pid: bv32, d: Call, m: Machine)
    requires IsCall(d) && NumberKept(p, d, m)
    ensures NumberKept(p, d, Step(Filter(p, pid), d, m))
  {
    Layout(p, pid);
    hide Filter, Fetch, BlockStart, WordAt, Has, Head, DenyCode, SignalBlock, Tail;
    if m.At? && m.pc < TailAt(p) + 5 {
      FilterAt(p, pid, m.pc);
      FetchLeads(p, pid, m.pc);
      NumberLoad(d);
    }
  }

  lemma NumberLoad(d: Call)
    requires IsCall(d)
    ensures WordAt(d, 0) == Word(d.nr)
  {}

  // However a block is reached, the accumulator still holds the system-call number.
  lemma {:induction false} NumberAtBlocks(p: Platform, pid: bv32, d: Call, n: nat)
    requires IsCall(d)
    ensures NumberKept(p, d, Steps(Filter(p, pid), d, n))
  {
    if n > 0 {
      NumberAtBlocks(p, pid, d, n - 1);
      StepKeepsNumber(p, pid, d, Steps(Filter(p, pid), d, n - 1));
    }
  }

  // ---- the length field ----

  // sock_fprog.len has 16 bits; the kernel sees that many instructions.
  function Installed(p: Platform, pid: bv32): seq<Instruction> {
    var code := Filter(p, pid);
    code[..|code| % 0x1_0000]
  }

  lemma Stops(code: seq<Instruction>, d: Call, pc: nat, acc: bv32)
    requires IsCall(d) && pc >= |code|
    ensures Run(code, d, At(pc, acc)) == Stuck
  {}

  lemma CutHead(p: Platform, d: Call, m: nat)
    requires IsCall(d) && Considered(p, d) && m < |Head(p)|
    ensures Run(Head(p)[..m], d, At(0, 0)) == Stuck
  {
    var code := Head(p)[..m];
    hide Run;
    if m > 0 { Goes(code, d, 0, 0, At(1, d.arch)); } else { Stops(code, d, 0, 0); }
    if m > 1 { Goes(code, d, 1, d.arch, At(3, d.arch)); } else { Stops(code, d, 1, d.arch); }
    if m > 3 { Goes(code, d, 3, d.arch, At(4, d.nr)); } else { Stops(code, d, 3, d.arch); }
    if m > 4 { Goes(code, d, 4, d.nr, At(6, d.nr)); Stops(code, d, 6, d.nr); } else { Stops(code, d, 4, d.nr); }
  }

  lemma CutParts(h: seq<Instruction>, t: seq<Instruction>, m: nat)
    requires |h| <= m <= |h| + |t|
    ensures Has((h + t)[..m], 0, h)
    ensures forall i :: 0 <= i < m - |h| ==> (h + t)[..m][|h| + i] == t[i]
  {}

  lemma {:induction false} DenyPrefix(deny: seq<bv32>, k: nat)
    requires k <= |deny|
    ensures DenyCode(deny)[..2 * k] == DenyCode(deny[..k])
    decreases |deny|
  {
    var n := |deny| - 1;
    if k == |deny| {
      assert deny[..k] == deny;
    } else {
      DenyPrefix(deny[..n], k);
      assert deny[..n][..k] == deny[..k];
      assert DenyCode(deny)[..2 * k] == DenyCode(deny[..n])[..2 * k];
    }
  }

  // A filter cut short inside the deny list, after k whole entries, says nothing about a
  // call that passes the list.
  lemma CutDeny(p: Platform, d: Call, code: seq<Instruction>, k: nat)
    requires IsCall(d) && Considered(p, d) && k <= |p.deny|
    requires |code| == DenyAt(p) + 2 * k || (|code| == DenyAt(p) + 2 * k + 1 && k < |p.deny|)
    requires code == (Head(p) + DenyCode(p.deny))[..|code|]
    ensures Run(code, d, At(0, 0)) == Stuck
  {
    var at := DenyAt(p) + 2 * k;
    BlockSizes(p, 0);
    hide Run, Head, DenyCode, Policy, BlockStart;
    CutParts(Head(p), DenyCode(p.deny), |code|);
    HeadRuns(code, p, d);
    DenyPrefix(p.deny, k);
    forall i | 0 <= i < 2 * k ensures code[DenyAt(p) + i] == DenyCode(p.deny[..k])[i] {
      assert DenyCode(p.deny)[..2 * k][i] == DenyCode(p.deny)[i];
    }
    DenyRuns(code, DenyAt(p), p.deny[..k], d);
    CutEnd(p, d, code, k);
  }

  lemma CutEnd(p: Platform, d: Call, code: seq<Instruction>, k: nat)
    requires IsCall(d) && k <= |p.deny|
    requires |code| == DenyAt(p) + 2 * k ||
             (|code| == DenyAt(p) + 2 * k + 1 && k < |p.deny| && code[DenyAt(p) + 2 * k] == DenyCode(p.deny)[2 * k])
    requires d.nr !in p.deny
    ensures Run(code, d, At(DenyAt(p) + 2 * k, d.nr)) == Stuck
  {
    var at := DenyAt(p) + 2 * k;
    hide Run, DenyCode;
    if at < |code| {
      DenyCodeAt(p.deny, 2 * k);
      Goes(code, d, at, d.nr, At(at + 2, d.nr));
      Stops(code, d, at + 2, d.nr);
    } else {
      Stops(code, d, at, d.nr);
    }
  }

  // The installed filter keeps the policy for the calls that pass the deny list exactly
  // when the length fits its field.
  lemma LengthMustFit(p: Platform, pid: bv32, d: Call)
    requires IsCall(d) && Considered(p, d)
    ensures |Filter(p, pid)| == DenyAt(p) + 2 * |p.deny| + 17
    ensures Run(Installed(p, pid), d, At(0, 0)) == Halted(Policy(p, pid, d)) <==> |Filter(p, pid)| <= 0xffff
  {
    var code := Filter(p, pid);
    Layout(p, pid);
    var m := |code| % 0x1_0000;
    if |code| <= 0xffff {
      assert code[..m] == code;
      FilterMeansPolicy(p, pid, d);
    } else {
      assert m <= |code| - 0x1_0000 <= SignalAt(p);
      if m < DenyAt(p) {
        assert code[..m] == Head(p)[..m];
        CutHead(p, d, m);
      } else {
        assert code[..m] == (Head(p) + DenyCode(p.deny))[..m];
        CutDeny(p, d, code[..m], (m - DenyAt(p)) / 2);
      }
    }
  }

  // A list of 32760 numbers is cut short: a call that the policy allows gets no verdict.
  lemma LongListFails(pid: bv32) returns (p: Platform, d: Call)
    ensures |p.deny| == 32760 && IsCall(d) && Policy(p, pid, d) == ALLOW
    ensures Run(Installed(p, pid), d, At(0, 0)) != Halted(ALLOW)
  {
    p := Arm64().(deny := seq(32760, _ => 117));
    d := Call(63, p.arch, 0, [0, 0, 0, 0, 0, 0]);
    assert forall i :: 0 <= i < |p.deny| ==> p.deny[i] == 117;
    hide Run, Installed, Filter;
    LengthMustFit(p, pid, d);
  }

  // The verdicts in plain numbers: another architecture is killed; the x32 numbers and the deny
  // list are refused; a kill or a pidfd signal is allowed for the signals 0 and 9 alone, a tgkill
  // for the own thread group alone; everything else is allowed.
  lemma VerdictsSay(p: Platform, pid: bv32, d: Call)
    requires IsCall(d)
    ensures var m := Run(Filter(p, pid), d, At(0, 0)); var refused, allowed := Halted(0x0005_0001), Halted(0x7fff_0000);
      var signal, group := (d.args[1] & 0xffff_ffff) as bv32, (d.args[0] & 0xffff_ffff) as bv32;
      if d.arch != p.arch then m == Halted(0x8000_0000)
      else if (p.x32 && d.nr & 0x4000_0000 != 0) || d.nr in p.deny then m == refused
      else if d.nr == p.kill || d.nr == p.pidfd then m == if signal == 0 || signal == 9 then allowed else refused
      else if d.nr == p.tgkill then m == if group == pid then allowed else refused
      else m == allowed
  {
    FilterMeansPolicy(p, pid, d);
    hide Run, Filter;
  }

  // The two shipped deny lists fit, whatever the process id.
  lemma ShippedListsFit(pid: bv32)
    ensures |Filter(Amd64(), pid)| == 45 && |Filter(Arm64(), pid)| == 43
    ensures Installed(Amd64(), pid) == Filter(Amd64(), pid) && Installed(Arm64(), pid) == Filter(Arm64(), pid)
  {
    Layout(Amd64(), pid);
    Layout(Arm64(), pid);
  }
}
