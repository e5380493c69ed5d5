// Histories of store sections (internal/agent/store.go): whole sequences of operations by
// any number of callers, whatever the operating system answers.
module QuotaHistories {
  import opened Records
  import opened QuotaBooks

  function After(b: Books, ops: seq<Op>): Books {
    if ops == [] then b else Do(After(b, ops[..|ops| - 1]), ops[|ops| - 1])
  }

  lemma {:induction false} AfterTwo(b: Books, first: seq<Op>, rest: seq<Op>)
    ensures After(b, first + rest) == After(After(b, first), rest)
    decreases |rest|
  {
    hide Do;
    if rest == [] {
      assert first + rest == first;
    } else {
      var n := |rest| - 1;
      AfterTwo(b, first, rest[..n]);
      assert (first + rest)[..|first + rest| - 1] == first + rest[..n];
    }
  }

  ghost predicate CarefulRun(b: Books, ops: seq<Op>) {
    forall i :: 0 <= i < |ops| ==> Careful(After(b, ops[..i]), ops[i])
  }

  // Callers who keep to the classes of names are careful at every step.
  lemma {:induction false} ClassesKeepCareful(b: Books, ops: seq<Op>)
    requires OnlyResultsLeased(b) && forall op :: op in ops ==> KeepsToClasses(op)
    ensures CarefulRun(b, ops) && OnlyResultsLeased(After(b, ops))
    decreases |ops|
  {
    hide Careful, OnlyResultsLeased, KeepsToClasses, Do;
    if ops != [] {
      var init, op := ops[..|ops| - 1], ops[|ops| - 1];
      assert forall o :: o in init ==> o in ops;
      ClassesKeepCareful(b, init);
      ClassesAreCareful(After(b, init), op);
      forall i | 0 <= i < |ops| ensures Careful(After(b, ops[..i]), ops[i]) {
        if i < |init| { assert init[..i] == ops[..i] && Careful(After(b, init[..i]), init[i]); }
      }
    }
  }

  lemma {:induction false} HistoryKempt(b: Books, ops: seq<Op>)
    requires Kempt(b)
    ensures Kempt(After(b, ops))
    decreases |ops|
  {
    hide Kempt, Do;
    if ops != [] {
      HistoryKempt(b, ops[..|ops| - 1]);
      DoKeepsKempt(After(b, ops[..|ops| - 1]), ops[|ops| - 1]);
    }
  }

  lemma CarefulInit(b: Books, ops: seq<Op>)
    requires CarefulRun(b, ops) && ops != []
    ensures CarefulRun(b, ops[..|ops| - 1])
  {
    var init := ops[..|ops| - 1];
    hide Careful, After;
    forall i | 0 <= i < |init| ensures Careful(After(b, init[..i]), init[i]) { assert init[..i] == ops[..i]; }
  }

  // In every reachable state the accounting matches the files, exactly unless some publish
  // went over a file that its status call failed to show.
  lemma {:induction false} AccountingExactIff(b: Books, ops: seq<Op>)
    requires Exact(b) && CarefulRun(b, ops)
    ensures (forall i :: 0 <= i <= |ops| ==> Exact(After(b, ops[..i]))) <==>
            (forall i :: 0 <= i < |ops| ==> !Spoils(After(b, ops[..i]), ops[i]))
    decreases |ops|
  {
    hide Exact, Do, Careful, Spoils;
    if ops == [] {
      assert ops[..0] == [];
    } else {
      var n := |ops| - 1;
      var init := ops[..n];
      CarefulInit(b, ops);
      AccountingExactIff(b, init);
      assert ops[..n + 1] == ops;
      forall i | 0 <= i <= n ensures init[..i] == ops[..i] {}
      assert forall i :: 0 <= i <= n ==> After(b, init[..i]) == After(b, ops[..i]);
      if Exact(After(b, init)) {
        assert Careful(After(b, ops[..n]), ops[n]);
        DoKeepsExactIff(After(b, init), ops[n]);
      }
      ExactSplit(b, ops, n);
    }
  }

  lemma ExactSplit(b: Books, ops: seq<Op>, n: nat)
    requires n < |ops|
    ensures (forall i :: 0 <= i <= n + 1 ==> Exact(After(b, ops[..i]))) <==>
            (forall i :: 0 <= i <= n ==> Exact(After(b, ops[..i]))) && Exact(After(b, ops[..n + 1]))
    ensures (forall i :: 0 <= i < n + 1 ==> !Spoils(After(b, ops[..i]), ops[i])) <==>
            (forall i :: 0 <= i < n ==> !Spoils(After(b, ops[..i]), ops[i])) && !Spoils(After(b, ops[..n]), ops[n])
  {
    hide Exact, Spoils, After;
  }

  // From opening on, used + reserve stays within MaxBytes; a store opened above it never grows.
  lemma {:induction false} BudgetHeld(b: Books, ops: seq<Op>)
    requires Kempt(b) && b.reserve == 0
    ensures var c := After(b, ops);
      && (b.used <= b.maxBytes ==> c.used + c.reserve <= b.maxBytes)
      && (b.used > b.maxBytes ==> c.used <= b.used)
      && c.maxBytes == b.maxBytes && c.used + c.reserve <= MaxOf(b.maxBytes, b.used)
    decreases |ops|
  {
    HistoryKempt(b, ops);
    if ops != [] {
      var init := ops[..|ops| - 1];
      BudgetHeld(b, init);
      HistoryKempt(b, init);
      hide Kempt, Do;
      DoKeepsBudget(After(b, init), ops[|ops| - 1]);
      KemptReserve(After(b, ops));
    }
  }

  lemma KemptReserve(b: Books)
    requires Kempt(b)
    ensures b.reserve >= 0
  {}

  predicate CaptureOp(op: Op) { !op.BeginCapture? && !op.EndCapture? && !(op.Append? && op.consume) }

  // The bytes a capture has added to the files.
  function Captured(b: Books, ops: seq<Op>): int {
    if ops == [] then 0
    else
      var v := After(b, ops[..|ops| - 1]);
      var op := ops[|ops| - 1];
      Captured(b, ops[..|ops| - 1]) + if op.Append? && op.capture then Do(v, op).used - v.used else 0
  }

  // While a capture lasts, twice its bytes and the base stay reserved for the archive.
  lemma {:induction false} CaptureReserved(b: Books, os: Os, ops: seq<Op>)
    requires Fits(b, 0, METADATA_RESERVE + CAPTURE_BASE, os.free)
    requires forall i :: 0 <= i < |ops| ==> CaptureOp(ops[i])
    ensures var c := Do(b, BeginCapture(os)); After(c, ops).reserve >= CAPTURE_BASE + 2 * Captured(c, ops)
    decreases |ops|
  {
    if ops != [] {
      var init, op := ops[..|ops| - 1], ops[|ops| - 1];
      CaptureReserved(b, os, init);
      CaptureStep(After(Do(b, BeginCapture(os)), init), op);
      hide Do, Fits;
    }
  }

  lemma CaptureStep(v: Books, op: Op)
    requires CaptureOp(op)
    ensures Do(v, op).reserve >= v.reserve + if op.Append? && op.capture then 2 * (Do(v, op).used - v.used) else 0
  {
    hide Fits, Dir, TempName, LeaseInside, Empty, ValidId;
  }

  // ---- leases ----

  ghost predicate LeasedThroughout(b: Books, ops: seq<Op>, n: string) {
    forall i :: 0 <= i <= |ops| ==> Leases(After(b, ops[..i]), n) > 0
  }

  lemma LeasedInit(b: Books, ops: seq<Op>, n: string)
    requires LeasedThroughout(b, ops, n)
    ensures Leases(After(b, ops), n) > 0
    ensures ops != [] ==> LeasedThroughout(b, ops[..|ops| - 1], n)
  {
    hide Leases, After;
    assert ops[..|ops|] == ops;
    if ops != [] {
      var init := ops[..|ops| - 1];
      forall i | 0 <= i <= |init| ensures Leases(After(b, init[..i]), n) > 0 { assert init[..i] == ops[..i]; }
    }
  }

  // The file is there with these bytes after i sections.
  ghost predicate Keeps(b: Books, ops: seq<Op>, i: nat, n: string, data: Bytes)
    requires i <= |ops|
  {
    var c := After(b, ops[..i]);
    n in c.files && c.files[n] == data
  }

  ghost predicate ReplacesAt(b: Books, ops: seq<Op>, i: nat, n: string)
    requires i < |ops|
  {
    Replaces(After(b, ops[..i]), ops[i], n)
  }

  lemma KeepsSplit(b: Books, ops: seq<Op>, n: string, data: Bytes)
    requires ops != []
    ensures var init := ops[..|ops| - 1];
      (forall i :: 0 <= i <= |ops| ==> Keeps(b, ops, i, n, data)) <==>
      (forall i :: 0 <= i <= |init| ==> Keeps(b, init, i, n, data)) && Keeps(b, ops, |ops|, n, data)
  {
    hide After;
    var init := ops[..|ops| - 1];
    forall i | 0 <= i <= |init| ensures Keeps(b, init, i, n, data) == Keeps(b, ops, i, n, data) {
      assert init[..i] == ops[..i];
    }
    hide Keeps;
  }

  lemma ReplacesSplit(b: Books, ops: seq<Op>, n: string)
    requires ops != []
    ensures var init := ops[..|ops| - 1];
      (forall i :: 0 <= i < |ops| ==> !ReplacesAt(b, ops, i, n)) <==>
      (forall i :: 0 <= i < |init| ==> !ReplacesAt(b, init, i, n)) && !Replaces(After(b, init), ops[|ops| - 1], n)
  {
    hide After, Replaces;
    var init := ops[..|ops| - 1];
    assert ReplacesAt(b, ops, |ops| - 1, n) == Replaces(After(b, init), ops[|ops| - 1], n);
    forall i | 0 <= i < |init| ensures ReplacesAt(b, init, i, n) == ReplacesAt(b, ops, i, n) {
      assert init[..i] == ops[..i];
    }
    hide ReplacesAt;
  }

  lemma KeepsWhole(b: Books, ops: seq<Op>, n: string, data: Bytes)
    ensures Keeps(b, ops, |ops|, n, data) <==> n in After(b, ops).files && After(b, ops).files[n] == data
  {
    hide After;
    assert ops[..|ops|] == ops;
  }

  lemma LastCareful(b: Books, ops: seq<Op>)
    requires CarefulRun(b, ops) && ops != []
    ensures Careful(After(b, ops[..|ops| - 1]), ops[|ops| - 1])
  {
    hide Careful, After;
  }

  // While a lease on it is open no section unlinks a file, and it keeps its bytes exactly as
  // long as no publish goes over it with other bytes after its status call failed.
  lemma {:induction false} LeasedStaysIff(b: Books, ops: seq<Op>, n: string)
    requires Kempt(b) && CarefulRun(b, ops) && LeasedThroughout(b, ops, n) && n in b.files
    ensures n in After(b, ops).files && (n in b.pending ==> n in After(b, ops).pending)
    ensures (forall i :: 0 <= i <= |ops| ==> Keeps(b, ops, i, n, b.files[n])) <==>
            (forall i :: 0 <= i < |ops| ==> !ReplacesAt(b, ops, i, n))
    decreases |ops|
  {
    hide Kempt, Do, Careful, Leases, Replaces, LeasedThroughout, CarefulRun, Keeps, ReplacesAt;
    KeepsWhole(b, ops, n, b.files[n]);
    if ops != [] {
      var init, op := ops[..|ops| - 1], ops[|ops| - 1];
      CarefulInit(b, ops);
      LeasedInit(b, ops, n);
      LeasedInit(b, init, n);
      LeasedStaysIff(b, init, n);
      HistoryKempt(b, init);
      LastCareful(b, ops);
      assert After(b, ops) == Do(After(b, init), op);
      LeasedKeptIff(After(b, init), op, n);
      KeepsSplit(b, ops, n, b.files[n]);
      ReplacesSplit(b, ops, n);
      KeepsWhole(b, init, n, b.files[n]);
    }
  }

  // No publish goes over a file that its status call failed to show.
  ghost predicate NothingUnseen(b: Books, ops: seq<Op>) {
    forall i :: 0 <= i < |ops| ==> !Overwrites(After(b, ops[..i]), ops[i])
  }

  lemma SeenKeeps(b: Books, ops: seq<Op>, n: string)
    requires Kempt(b) && Exact(b) && CarefulRun(b, ops) && NothingUnseen(b, ops) && LeasedThroughout(b, ops, n) &&
      n in b.files
    ensures var d := After(b, ops);
      Exact(d) && n in d.files && d.files[n] == b.files[n] && (n in b.pending ==> n in d.pending)
  {
    AccountingExactIff(b, ops);
    LeasedStaysIff(b, ops, n);
    hide Kempt, Exact, Overwrites, CarefulRun, LeasedThroughout;
    forall i | 0 <= i < |ops| ensures !Spoils(After(b, ops[..i]), ops[i]) && !ReplacesAt(b, ops, i, n) {
      assert !Overwrites(After(b, ops[..i]), ops[i]);
    }
    assert ops[..|ops|] == ops;
    assert Keeps(b, ops, |ops|, n, b.files[n]);
  }

  // A removal asked for while the file is leased happens at the last close, once.
  lemma RemovalAtLastClose(b: Books, ask: Os, ops: seq<Op>, n: string, os: Os)
    requires Kempt(b) && Exact(b) && n in b.files && n !in b.dirs && !ask.stat && Leases(b, n) > 0
    requires var c := Do(b, Remove(n, ask));
      CarefulRun(c, ops) && NothingUnseen(c, ops) && LeasedThroughout(c, ops, n) && Leases(After(c, ops), n) == 1
    ensures var c := Do(b, Remove(n, ask)); var d := After(c, ops); var e := Do(d, Release(n, os));
      && c.files == b.files && c.used == b.used
      && n in d.files && d.files[n] == b.files[n]
      && n !in e.pending && Exact(e)
      && (os.remove || d.closed ==> e.files == d.files && e.used == d.used)
      && (!os.remove && !d.closed ==> e.files == d.files - {n} && e.used == d.used - |b.files[n]|)
  {
    var c := Do(b, Remove(n, ask));
    var d := After(c, ops);
    PutOff(b, ask, n);
    DoKeepsKempt(b, Remove(n, ask));
    DoKeepsExactIff(b, Remove(n, ask));
    hide Do, After, CarefulRun, NothingUnseen, LeasedThroughout, Kempt, Exact;
    SeenKeeps(c, ops, n);
    LastRelease(d, n, os);
    DoKeepsExactIff(d, Release(n, os));
  }

  lemma PutOff(b: Books, ask: Os, n: string)
    requires n in b.files && n !in b.dirs && !ask.stat && Leases(b, n) > 0
    ensures var c := Do(b, Remove(n, ask)); c.files == b.files && c.used == b.used && n in c.pending
  {}

  lemma LastRelease(d: Books, n: string, os: Os)
    requires Exact(d) && n in d.pending && Leases(d, n) == 1
    ensures var e := Do(d, Release(n, os));
      && n in d.files && n !in e.pending
      && (os.remove || d.closed ==> e.files == d.files && e.used == d.used)
      && (!os.remove && !d.closed ==> e.files == d.files - {n} && e.used == d.used - |d.files[n]|)
  {
    hide Total;
  }

  // ---- task directories ----

  // A section of RemoveTask for this directory.
  predicate Clears(op: Op, d: string) {
    match op
    case Mark(id) => TaskDir(id) == d
    case Remove(name, _) => Dir(name) == d
    case DropDir(id, _) => TaskDir(id) == d
    case _ => false
  }

  // A section that creates, leases or renames nothing into this directory, and does not close the store.
  predicate LeavesAlone(op: Op, d: string) {
    match op
    case Atomic(name, _, id, _) => Dir(name) != d && Dir(TempName(name, id)) != d
    case Append(name, _, _, _, _) => Dir(name) != d
    case Publish(_, name, _) => Dir(name) != d
    case Mkdir(name, _) => Dir(name) != d
    case Lease(name, _) => Dir(name) != d
    case Shut => false
    case _ => true
  }

  // From b to c the directory has only become emptier.
  ghost predicate Shrinks(b: Books, c: Books, d: string) {
    && c.closed == b.closed
    && (forall n :: n in c.files && Dir(n) == d ==> n in b.files)
    && (forall n :: n in c.dirs && Dir(n) == d ==> n in b.dirs)
    && (LeaseInside(c.leases, d) ==> LeaseInside(b.leases, d))
  }

  lemma StepShrinks(b: Books, op: Op, d: string)
    requires Clears(op, d) || LeavesAlone(op, d)
    ensures Shrinks(b, Do(b, op), d)
  {
    hide Fits, CanCreate, Dir, TempName, Empty, ValidId;
  }

  lemma {:induction false} HistoryShrinks(b: Books, ops: seq<Op>, d: string)
    requires forall op :: op in ops ==> Clears(op, d) || LeavesAlone(op, d)
    ensures Shrinks(b, After(b, ops), d)
    decreases |ops|
  {
    hide Do, Dir, Clears, LeavesAlone, LeaseInside;
    if ops != [] {
      var init, op := ops[..|ops| - 1], ops[|ops| - 1];
      assert forall o :: o in init ==> o in ops;
      HistoryShrinks(b, init, d);
      StepShrinks(After(b, init), op, d);
    }
  }

  // The section at i removes this file for good.
  lemma RemovedStays(b: Books, ops: seq<Op>, d: string, n: string, i: nat)
    requires forall op :: op in ops ==> Clears(op, d) || LeavesAlone(op, d)
    requires i < |ops| && ops[i].Remove? && ops[i].name == n && !ops[i].os.stat && !ops[i].os.remove
    requires Dir(n) == d && !b.closed && !LeaseInside(b.leases, d) && n !in b.dirs
    ensures n !in After(b, ops).files
  {
    hide Do, Dir, Clears, LeavesAlone;
    var first, rest := ops[..i + 1], ops[i + 1..];
    assert first + rest == ops && first[..|first| - 1] == ops[..i];
    HistoryShrinks(b, ops[..i], d);
    var v := After(b, ops[..i]);
    assert n !in v.leases;
    GoneNow(v, ops[i]);
    assert After(b, first) == Do(v, ops[i]);
    AfterTwo(b, first, rest);
    HistoryShrinks(After(b, first), rest, d);
  }

  lemma GoneNow(v: Books, op: Op)
    requires op.Remove? && !op.os.stat && !op.os.remove && !v.closed && op.name !in v.dirs && op.name !in v.leases
    ensures op.name !in Do(v, op).files
  {}

  // RemoveTask with other sections in between that leave the directory alone: when each of its
  // files gets its removal and the directory its own, it is gone with everything in it.
  lemma DirectoryGoes(b: Books, ops: seq<Op>, id: Id, os: Os)
    requires var d := TaskDir(id);
      && (forall op :: op in ops ==> Clears(op, d) || LeavesAlone(op, d))
      && !b.closed && !LeaseInside(b.leases, d) && (forall n :: n in b.dirs ==> Dir(n) != d) && !os.remove
    requires forall n :: n in b.files && Dir(n) == TaskDir(id) ==>
      exists i :: 0 <= i < |ops| && ops[i].Remove? && ops[i].name == n && !ops[i].os.stat && !ops[i].os.remove
    ensures var c := Do(After(b, ops), DropDir(id, os)); var d := TaskDir(id);
      d !in c.dirs && (forall n :: n in c.files ==> Dir(n) != d) && (d in After(b, ops).dirs ==> d !in c.removedDirs)
  {
    var d := TaskDir(id);
    var v := After(b, ops);
    HistoryShrinks(b, ops, d);
    forall n | n in v.files ensures Dir(n) != d {
      if Dir(n) == d {
        var i :| 0 <= i < |ops| && ops[i].Remove? && ops[i].name == n && !ops[i].os.stat && !ops[i].os.remove;
        RemovedStays(b, ops, d, n, i);
        assert false;
      }
    }
    hide Dir, After, Clears, LeavesAlone, LeaseInside, TaskDir;
  }

  // A directory stays marked until it is removed, empty, whatever else happens; so every last
  // lease inside it tries again.
  lemma {:induction false} MarkedUntilGone(b: Books, ops: seq<Op>, d: string)
    requires d in b.removedDirs
    ensures d in After(b, ops).removedDirs || exists i :: 0 <= i < |ops| && Drops(After(b, ops[..i]), ops[i], d)
    decreases |ops|
  {
    hide Do, Drops;
    if ops != [] {
      var init, op := ops[..|ops| - 1], ops[|ops| - 1];
      MarkedUntilGone(b, init, d);
      if d in After(b, init).removedDirs {
        MarkedStep(After(b, init), op, d);
      } else {
        var i :| 0 <= i < |init| && Drops(After(b, init[..i]), init[i], d);
        assert init[..i] == ops[..i];
      }
    }
  }

  // The section removes the directory, which is empty and in no lease's way.
  ghost predicate Drops(v: Books, op: Op, d: string) {
    op.DropDir? && TaskDir(op.id) == d && d in v.dirs && d !in Do(v, op).dirs && Empty(v, d)
  }

  lemma MarkedStep(v: Books, op: Op, d: string)
    requires d in v.removedDirs
    ensures d in Do(v, op).removedDirs || Drops(v, op, d)
  {
    hide Fits, CanCreate, Dir, TempName, LeaseInside, ValidId;
  }
}
