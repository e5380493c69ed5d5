// What each locked section of the quota store (internal/agent/store.go) does to the
// files, the byte counts and the leases, and what holds over every history of sections.
// What the operating system answers to a call is part of the section.
module QuotaBooks {
  import opened Records

  type Bytes = seq<bv8>
  type Files = map<string, Bytes>

  const METADATA_RESERVE := 65536
  const CAPTURE_BASE := 4096

  function MinOf(a: int, b: int): int { if a <= b then a else b }
  function MaxOf(a: int, b: int): int { if a >= b then a else b }

  // ---- the total size of the files ----

  ghost function Total(m: Files): (n: int)
    ensures n >= 0
  {
    if m == map[] then 0
    else var k :| k in m; |m[k]| + Total(m - {k})
  }

  lemma {:induction false} TotalWithout(m: Files, k: string)
    requires k in m
    ensures Total(m) == |m[k]| + Total(m - {k})
    decreases |m|
  {
    var j :| j in m && Total(m) == |m[j]| + Total(m - {j});
    if j != k {
      TotalWithout(m - {j}, k);
      TotalWithout(m - {k}, j);
      assert m - {j} - {k} == m - {k} - {j};
    }
  }

  lemma TotalPut(m: Files, k: string, b: Bytes)
    ensures Total(m[k := b]) == |b| + Total(m) - if k in m then |m[k]| else 0
  {
    TotalWithout(m[k := b], k);
    if k in m {
      TotalWithout(m, k);
      assert m[k := b] - {k} == m - {k};
    } else {
      assert m[k := b] - {k} == m;
    }
  }

  // ---- names ----

  function LastSlash(n: string): (i: int)
    ensures -1 <= i < |n|
  {
    if n == "" then -1 else if n[|n| - 1] == '/' then |n| - 1 else LastSlash(n[..|n| - 1])
  }

  function Dir(n: string): string { if LastSlash(n) < 0 then "." else n[..LastSlash(n)] }
  function Base(n: string): string { n[LastSlash(n) + 1..] }

  function TaskDir(id: Id): string { "tasks/" + id }

  ghost predicate IsTaskDir(d: string) { exists id :: ValidId(id) && d == TaskDir(id) }

  lemma {:induction false} SlashBefore(a: string, b: string)
    requires '/' !in b
    ensures LastSlash(a + "/" + b) == |a|
    decreases |b|
  {
    var n := a + "/" + b;
    if b != "" {
      SlashBefore(a, b[..|b| - 1]);
      assert n[..|n| - 1] == a + "/" + b[..|b| - 1];
    }
  }

  lemma TaskDirBase(id: Id)
    requires ValidId(id)
    ensures Base(TaskDir(id)) == id
  {
    SlashBefore("tasks", id);
    assert TaskDir(id) == "tasks" + "/" + id;
  }

  function TempName(name: string, id: Id): string { name + "." + id + ".tmp" }

  // ---- the books ----

  datatype Books = Books(
    maxBytes: int, minFree: nat, files: Files, dirs: set<string>, used: int, reserve: int,
    leases: map<string, nat>, pending: map<string, int>, removedDirs: set<string>, closed: bool)

  // What the operating system answers: the free space, and which calls fail.
  datatype Os = Os(free: Option<nat>, stat: bool, open: bool, written: nat, write: bool, sync: bool, close: bool,
                   rename: bool, remove: bool, dirSync: bool)

  function Part(data: Bytes, os: Os): Bytes { data[..MinOf(os.written, |data|)] }

  predicate Whole(data: Bytes, os: Os) { os.written >= |data| && !os.write && !os.sync && !os.close }

  function Leases(b: Books, n: string): nat { if n in b.leases then b.leases[n] else 0 }

  function Existing(b: Books, n: string): Bytes { if n in b.files then b.files[n] else [] }

  predicate Room(b: Books, extra: int, res: int) {
    && !b.closed && 0 <= extra && 0 <= res && b.used <= b.maxBytes
    && extra <= b.maxBytes - b.used && res <= b.maxBytes - b.used - extra
  }

  predicate SpaceFor(b: Books, extra: int, res: int, free: Option<nat>) {
    free.Some? && b.minFree <= free.value && extra + res <= free.value - b.minFree
  }

  // checkLocked: the byte budget and the free space of the file system.
  predicate Fits(b: Books, extra: int, res: int, free: Option<nat>) {
    Room(b, extra, res) && SpaceFor(b, extra, res, free)
  }

  // Written to stay within 64 bits, the check means what it should.
  lemma FitsIff(b: Books, extra: int, res: int, free: Option<nat>)
    ensures Fits(b, extra, res, free) <==>
      && 0 <= extra && 0 <= res && !b.closed && b.used + extra + res <= b.maxBytes
      && free.Some? && b.minFree + extra + res <= free.value
  {}

  // A file can be created or opened for writing under this name.
  predicate CanCreate(b: Books, n: string, os: Os) { !os.open && n !in b.dirs && Dir(n) in b.dirs }

  // ---- the sections ----

  datatype Op =
    | BeginCapture(os: Os)
    | EndCapture
    | Atomic(name: string, data: Bytes, id: Id, os: Os)
    | Append(name: string, data: Bytes, capture: bool, consume: bool, os: Os)
    | Publish(tmp: string, name: string, os: Os)
    | Remove(name: string, os: Os)
    | Mark(id: Id)
    | DropDir(id: Id, os: Os)
    | Mkdir(name: string, os: Os)
    | Lease(name: string, os: Os)
    | Release(name: string, os: Os)
    | Shut

  predicate AtomicOpens(b: Books, name: string, data: Bytes, id: Id, os: Os) {
    && Fits(b, |data|, b.reserve, os.free) && !os.stat && CanCreate(b, name, os)
    && TempName(name, id) !in b.files && TempName(name, id) !in b.dirs
  }

  predicate AtomicRenames(b: Books, name: string, data: Bytes, id: Id, os: Os) {
    AtomicOpens(b, name, data, id, os) && Whole(data, os) && !os.rename
  }

  // The new contents take the name's place in one rename, or at most a temporary file is left.
  function AtomicTo(b: Books, name: string, data: Bytes, id: Id, os: Os): Books {
    var part := Part(data, os);
    if AtomicRenames(b, name, data, id, os) then
      b.(files := b.files[name := data], used := b.used + |data| - |Existing(b, name)|)
    else if AtomicOpens(b, name, data, id, os) && os.remove then
      b.(files := b.files[TempName(name, id) := part], used := b.used + |part|)
    else b
  }

  function NewReserve(b: Books, size: nat, capture: bool, consume: bool): int {
    var r := b.reserve + if capture then 2 * size else 0;
    if consume then r - MinOf(r, size) else r
  }

  predicate Appends(b: Books, name: string, size: nat, capture: bool, consume: bool, os: Os) {
    Fits(b, size, NewReserve(b, size, capture, consume) + METADATA_RESERVE, os.free) && CanCreate(b, name, os)
  }

  // Capture reserves room for the archive to come; consume turns reserve into bytes.
  function AppendTo(b: Books, name: string, data: Bytes, capture: bool, consume: bool, os: Os): Books {
    var part := Part(data, os);
    if !Appends(b, name, |data|, capture, consume, os) then b
    else b.(files := b.files[name := Existing(b, name) + part], used := b.used + |part|,
            reserve := NewReserve(b, |data|, capture, consume))
  }

  // The old file under the name is seen, and goes first.
  predicate Sees(b: Books, name: string, os: Os) { !os.stat && name in b.files }

  predicate Refused(b: Books, name: string, os: Os) {
    (!os.stat && name in b.dirs) || (Sees(b, name, os) && (Leases(b, name) > 0 || os.remove || b.closed))
  }

  predicate Renames(b: Books, tmp: string, name: string, os: Os) {
    !os.rename && !b.closed && tmp in b.files && name !in b.dirs && Dir(name) in b.dirs
  }

  function RemoveNow(b: Books, name: string): Books
    requires name in b.files
  {
    b.(files := b.files - {name}, used := b.used - |b.files[name]|)
  }

  // The target is removed if it is seen, then the temporary file takes its name.
  function PublishTo(b: Books, tmp: string, name: string, os: Os): Books {
    if Refused(b, name, os) then b
    else
      var c := if Sees(b, name, os) then RemoveNow(b, name) else b;
      if Renames(c, tmp, name, os) then c.(files := (c.files - {tmp})[name := c.files[tmp]]) else c
  }

  // At once, or put off to the last close while the file is leased.
  function RemoveTo(b: Books, name: string, os: Os): Books {
    if os.stat || name !in b.files || name in b.dirs then b
    else if Leases(b, name) > 0 then b.(pending := b.pending[name := |b.files[name]|])
    else if os.remove || b.closed then b
    else RemoveNow(b, name)
  }

  predicate LeaseInside(leases: map<string, nat>, d: string) { exists n :: n in leases && Dir(n) == d }

  predicate Empty(b: Books, d: string) {
    (forall n :: n in b.files ==> Dir(n) != d) && (forall n :: n in b.dirs ==> Dir(n) != d)
  }

  function DropDirTo(b: Books, d: string, os: Os): Books {
    if os.remove || b.closed || d !in b.dirs || !Empty(b, d) then b
    else b.(dirs := b.dirs - {d}, removedDirs := b.removedDirs - {d})
  }

  predicate Leasable(b: Books, name: string, os: Os) { !os.stat && name in b.files && !os.open && !b.closed }

  function Released(b: Books, name: string): map<string, nat> {
    if Leases(b, name) <= 1 then b.leases - {name} else b.leases[name := Leases(b, name) - 1]
  }

  // One holder less; the last one carries out the removal that was put off.
  function ReleaseTo(b: Books, name: string, os: Os): Books {
    var c := b.(leases := Released(b, name));
    if Leases(b, name) != 1 || name !in b.pending then c
    else if os.remove || b.closed || name !in b.files then c.(pending := b.pending - {name})
    else c.(pending := b.pending - {name}, files := b.files - {name}, used := b.used - b.pending[name])
  }

  function Do(b: Books, op: Op): Books {
    match op
    case BeginCapture(os) =>
      if Fits(b, 0, METADATA_RESERVE + CAPTURE_BASE, os.free) then b.(reserve := CAPTURE_BASE) else b
    case EndCapture => b.(reserve := 0)
    case Atomic(name, data, id, os) => AtomicTo(b, name, data, id, os)
    case Append(name, data, capture, consume, os) => AppendTo(b, name, data, capture, consume, os)
    case Publish(tmp, name, os) => PublishTo(b, tmp, name, os)
    case Remove(name, os) => RemoveTo(b, name, os)
    case Mark(id) =>
      if ValidId(id) && LeaseInside(b.leases, TaskDir(id)) then b.(removedDirs := b.removedDirs + {TaskDir(id)}) else b
    case DropDir(id, os) => DropDirTo(b, TaskDir(id), os)
    case Mkdir(name, os) =>
      if CanCreate(b, name, os) && name !in b.files && !b.closed then b.(dirs := b.dirs + {name}) else b
    case Lease(name, os) =>
      if Leasable(b, name, os) then b.(leases := b.leases[name := Leases(b, name) + 1]) else b
    case Release(name, os) => if Leases(b, name) == 0 then b else ReleaseTo(b, name, os)
    case Shut => b.(closed := true)
  }

  lemma TempDiffers(name: string, id: Id)
    ensures TempName(name, id) != name
  {
    assert |TempName(name, id)| > |name|;
  }

  // Atomic: the name has all of the new contents or what it had, whatever fails; nothing
  // else changes, and a temporary file stays only if its removal failed.
  lemma AtomicAllOrNothing(b: Books, name: string, data: Bytes, id: Id, os: Os)
    ensures var c, tmp := AtomicTo(b, name, data, id, os), TempName(name, id);
      && (forall n :: n != name && n != tmp ==> (n in c.files <==> n in b.files) && Existing(c, n) == Existing(b, n))
      && (if AtomicRenames(b, name, data, id, os) then name in c.files && c.files[name] == data
          else (name in c.files <==> name in b.files) && Existing(c, name) == Existing(b, name))
      && (tmp in c.files && tmp !in b.files ==> os.remove && !AtomicRenames(b, name, data, id, os))
      && (tmp in b.files ==> tmp in c.files && c.files[tmp] == b.files[tmp])
  {
    TempDiffers(name, id);
    hide Fits, CanCreate, Dir, TempName;
  }

  // Publish is no atomic replacement: a target that was there is gone afterwards exactly when
  // it was seen and removed and the rename then failed; otherwise it has the old or the new bytes.
  lemma PublishLosesTargetIff(b: Books, tmp: string, name: string, os: Os)
    requires name in b.files && tmp != name
    ensures var c := PublishTo(b, tmp, name, os);
      && (name !in c.files <==> Sees(b, name, os) && !Refused(b, name, os) && !Renames(b, tmp, name, os))
      && (name in c.files ==>
          c.files[name] == b.files[name] || (tmp in b.files && c.files[name] == b.files[tmp] && tmp !in c.files))
      && (forall n :: n != name && n != tmp ==> (n in c.files <==> n in b.files) && Existing(c, n) == Existing(b, n))
  {
    hide Dir;
  }

  // A replacement goes through exactly when the bytes fit the budget and the free space, both
  // names can be had, and no call fails; then the name has the new bytes and the count is right.
  lemma AtomicIff(b: Books, name: string, data: Bytes, id: Id, os: Os)
    requires b.reserve >= 0
    ensures AtomicRenames(b, name, data, id, os) <==>
      && !b.closed && b.used + |data| + b.reserve <= b.maxBytes
      && os.free.Some? && b.minFree + |data| + b.reserve <= os.free.value
      && !os.stat && !os.open && name !in b.dirs && Dir(name) in b.dirs
      && TempName(name, id) !in b.files && TempName(name, id) !in b.dirs
      && os.written >= |data| && !os.write && !os.sync && !os.close && !os.rename
    ensures AtomicRenames(b, name, data, id, os) ==>
      var c := Do(b, Atomic(name, data, id, os));
      c == b.(files := b.files[name := data],
              used := b.used + |data| - if name in b.files then |b.files[name]| else 0)
  {
    FitsIff(b, |data|, b.reserve, os.free);
    hide Fits, Dir, TempName;
  }

  // An append adds twice its bytes to the reserve while a capture lasts and takes them off it
  // while the archive is packed; it goes through exactly when the bytes fit together with that
  // reserve and the metadata margin, and the file can be opened. What is written is counted.
  lemma AppendIff(b: Books, name: string, data: Bytes, capture: bool, consume: bool, os: Os)
    requires b.reserve >= 0
    ensures var more := b.reserve + if capture then 2 * |data| else 0;
      var res := if !consume then more else if more <= |data| then 0 else more - |data|;
      && (Appends(b, name, |data|, capture, consume, os) <==>
            && !b.closed && b.used + |data| + res + 65536 <= b.maxBytes
            && os.free.Some? && b.minFree + |data| + res + 65536 <= os.free.value
            && !os.open && name !in b.dirs && Dir(name) in b.dirs)
      && var c := Do(b, Append(name, data, capture, consume, os));
      if Appends(b, name, |data|, capture, consume, os) then
        var part := if os.written <= |data| then data[..os.written] else data;
        c == b.(files := b.files[name := (if name in b.files then b.files[name] else []) + part],
                used := b.used + |part|, reserve := res)
      else c == b
  {
    FitsIff(b, |data|, NewReserve(b, |data|, capture, consume) + METADATA_RESERVE, os.free);
    assert data[..|data|] == data;
    hide Fits, Dir;
  }

  // A close takes one holder off; the last one removes a file whose removal was put off, with
  // the size it was put off with, and forgets that removal whether or not it succeeds.
  lemma ReleaseSays(b: Books, name: string, os: Os)
    requires name in b.leases && b.leases[name] > 0
    ensures var c := Do(b, Release(name, os)); var last := b.leases[name] == 1;
      && c.leases == (if last then b.leases - {name} else b.leases[name := b.leases[name] - 1])
      && c.pending == (if last then b.pending - {name} else b.pending)
      && (if last && name in b.pending && name in b.files && !os.remove && !b.closed
          then c.files == b.files - {name} && c.used == b.used - b.pending[name]
          else c.files == b.files && c.used == b.used)
      && c == b.(leases := c.leases, pending := c.pending, files := c.files, used := c.used)
  {}

  // A publish gives the temporary file the name, there before or not, exactly when the file can
  // be renamed and the old one, if it is seen, is not leased and can be removed first. It
  // touches no other name.
  lemma PublishPlacesIff(b: Books, tmp: string, name: string, os: Os)
    requires tmp != name && tmp in b.files
    ensures var c := Do(b, Publish(tmp, name, os));
      && (tmp !in c.files <==>
            && !b.closed && name !in b.dirs && Dir(name) in b.dirs && !os.rename
            && (!os.stat && name in b.files ==> Leases(b, name) == 0 && !os.remove))
      && (tmp !in c.files ==>
            && name in c.files && c.files[name] == b.files[tmp]
            && c.used == b.used - if !os.stat && name in b.files then |b.files[name]| else 0)
      && (forall n :: n != name && n != tmp ==> (n in c.files <==> n in b.files) && Existing(c, n) == Existing(b, n))
  {
    hide Dir;
  }

  // ---- what every state satisfies ----

  ghost predicate Kempt(b: Books) {
    && b.files.Keys !! b.dirs
    && (forall n :: n in b.leases ==> b.leases[n] > 0)
    && (forall n :: n in b.pending ==> b.pending[n] >= 0)
    && (forall d :: d in b.removedDirs ==> IsTaskDir(d))
    && b.reserve >= 0
  }

  lemma DoKeepsKempt(b: Books, op: Op)
    requires Kempt(b)
    ensures Kempt(Do(b, op))
  {
    hide SpaceFor, Dir, TempName, LeaseInside, Empty, ValidId, IsTaskDir;
    if op.Mark? && ValidId(op.id) { MarkedIsTaskDir(op.id); }
  }

  lemma MarkedIsTaskDir(id: Id)
    requires ValidId(id)
    ensures IsTaskDir(TaskDir(id))
  {}

  // The budget: used + reserve never passes MaxBytes, or what it was; above MaxBytes used never grows.
  predicate WithinBudget(b: Books, c: Books) {
    && c.maxBytes == b.maxBytes
    && c.used + c.reserve <= MaxOf(b.maxBytes, b.used + b.reserve)
    && (b.used > b.maxBytes ==> c.used <= b.used)
  }

  lemma DoKeepsBudget(b: Books, op: Op)
    requires Kempt(b)
    ensures WithinBudget(b, Do(b, op))
  {
    hide SpaceFor, CanCreate, Dir, TempName, LeaseInside, Empty, ValidId, Total;
  }

  ghost predicate PendingExact(b: Books) {
    forall n :: n in b.pending ==> Leases(b, n) > 0 && n in b.files && b.pending[n] == |b.files[n]|
  }

  // The books are exact: the total is right, and every removal put off names a leased,
  // existing file of the recorded size.
  ghost predicate Exact(b: Books) { b.used == Total(b.files) && PendingExact(b) }

  // The operating system's part: a rename goes over a file that the status call failed to show.
  predicate Overwrites(b: Books, op: Op) {
    op.Publish? && op.os.stat && op.name in b.files && op.tmp != op.name && Renames(b, op.tmp, op.name, op.os)
  }

  predicate Slips(b: Books, op: Op) { Overwrites(b, op) && b.files[op.name] != [] }

  lemma AtomicDrift(b: Books, name: string, data: Bytes, id: Id, os: Os)
    ensures var c := AtomicTo(b, name, data, id, os); c.used - Total(c.files) == b.used - Total(b.files)
  {
    TotalPut(b.files, name, data);
    TotalPut(b.files, TempName(name, id), Part(data, os));
    hide Total, Fits, CanCreate, TempName;
  }

  lemma AppendDrift(b: Books, name: string, data: Bytes, capture: bool, consume: bool, os: Os)
    ensures var c := AppendTo(b, name, data, capture, consume, os); c.used - Total(c.files) == b.used - Total(b.files)
  {
    TotalPut(b.files, name, Existing(b, name) + Part(data, os));
    hide Total, Appends;
  }

  lemma RenameDrift(c: Books, tmp: string, name: string)
    requires tmp in c.files
    ensures Total((c.files - {tmp})[name := c.files[tmp]]) ==
            Total(c.files) - if tmp != name && name in c.files then |c.files[name]| else 0
  {
    TotalWithout(c.files, tmp);
    TotalPut(c.files - {tmp}, name, c.files[tmp]);
  }

  lemma PublishDrift(b: Books, tmp: string, name: string, os: Os)
    ensures var c := PublishTo(b, tmp, name, os);
      c.used - Total(c.files) == b.used - Total(b.files) + if Slips(b, Publish(tmp, name, os))
          then |b.files[name]| else 0
  {
    if !Refused(b, name, os) {
      if Sees(b, name, os) { TotalWithout(b.files, name); }
      var c := if Sees(b, name, os) then RemoveNow(b, name) else b;
      if Renames(c, tmp, name, os) { RenameDrift(c, tmp, name); }
    }
    hide Total, Dir;
  }

  lemma ReleaseDrift(b: Books, name: string, os: Os)
    requires PendingExact(b)
    ensures var c := ReleaseTo(b, name, os); c.used - Total(c.files) == b.used - Total(b.files)
  {
    if name in b.files { TotalWithout(b.files, name); }
    hide Total;
  }

  // The total stays right in every section, partial writes and failed renames and removals
  // included, exactly unless a rename slips past an unseen file.
  lemma TotalStaysRight(b: Books, op: Op)
    requires Exact(b)
    ensures Do(b, op).used == Total(Do(b, op).files) <==> !Slips(b, op)
  {
    hide Total, PendingExact, Slips;
    match op
    case Atomic(name, data, id, os) => AtomicDrift(b, name, data, id, os); assert !Slips(b, op) by { NoSlip(b, op); }
    case Append(name, data, capture, consume, os) =>
      AppendDrift(b, name, data, capture, consume, os); assert !Slips(b, op) by { NoSlip(b, op); }
    case Publish(tmp, name, os) => PublishDrift(b, tmp, name, os); SlipSize(b, op);
    case Remove(name, os) => if name in b.files { TotalWithout(b.files, name); } NoSlip(b, op);
    case Release(name, os) => ReleaseDrift(b, name, os); NoSlip(b, op);
    case _ => NoSlip(b, op);
  }

  lemma NoSlip(b: Books, op: Op)
    requires !op.Publish?
    ensures !Slips(b, op)
  {}

  lemma SlipSize(b: Books, op: Op)
    ensures Slips(b, op) ==> op.name in b.files && |b.files[op.name]| > 0
  {}

  // Packaging: with the metadata margin in place, a chunk no longer than the reserve passes
  // the budget check, and writing it moves bytes from reserve to used.
  lemma PackagingStep(b: Books, name: string, data: Bytes, os: Os)
    requires Room(b, 0, b.reserve + METADATA_RESERVE) && |data| <= b.reserve
    ensures Room(b, |data|, NewReserve(b, |data|, false, true) + METADATA_RESERVE)
    ensures var c := AppendTo(b, name, data, false, true, os);
      c != b && Part(data, os) == data ==>
        c.used + c.reserve == b.used + b.reserve && c.reserve == b.reserve - |data| &&
            Room(c, 0, c.reserve + METADATA_RESERVE)
  {
    hide SpaceFor, CanCreate;
  }

  // ---- what callers keep to ----

  // A leased name is neither written nor renamed away. Whether the status call of a Publish
  // fails is not in the caller's hands.
  predicate Careful(b: Books, op: Op) {
    match op
    case Atomic(name, _, _, _) => Leases(b, name) == 0
    case Append(name, _, _, _, _) => Leases(b, name) == 0
    case Publish(tmp, _, _) => Leases(b, tmp) == 0
    case _ => true
  }

  predicate IsResult(n: string) { Base(n) == "result.tar.gz" }

  // Only results are leased; nothing is written to a result or renamed away from its name.
  predicate KeepsToClasses(op: Op) {
    match op
    case Atomic(name, _, _, _) => !IsResult(name)
    case Append(name, _, _, _, _) => !IsResult(name)
    case Publish(tmp, _, _) => !IsResult(tmp)
    case Lease(name, _) => IsResult(name)
    case _ => true
  }

  predicate OnlyResultsLeased(b: Books) { forall n :: n in b.leases ==> IsResult(n) }

  lemma ClassesAreCareful(b: Books, op: Op)
    requires OnlyResultsLeased(b) && KeepsToClasses(op)
    ensures Careful(b, op) && OnlyResultsLeased(Do(b, op))
  {
    hide Fits, IsResult, Dir, TempName, LeaseInside, Empty, ValidId;
  }

  // What spoils the books of a careful caller: the unseen file had bytes that nobody takes
  // off the total, or it was empty, its removal was put off, and the new bytes are not empty.
  predicate Spoils(b: Books, op: Op) {
    Overwrites(b, op) && (b.files[op.name] != [] || (op.name in b.pending && b.files[op.tmp] != []))
  }

  lemma DoKeepsPending(b: Books, op: Op)
    requires PendingExact(b) && Careful(b, op) && !Overwrites(b, op)
    ensures PendingExact(Do(b, op))
  {
    hide Fits, Dir, TempName, LeaseInside, Empty, ValidId;
  }

  lemma OverwritePending(b: Books, op: Op)
    requires PendingExact(b) && Careful(b, op) && Overwrites(b, op) && b.files[op.name] == []
    ensures PendingExact(Do(b, op)) <==> !(op.name in b.pending && b.files[op.tmp] != [])
  {
    hide Fits, Dir, Total;
    var c := Do(b, op);
    assert c.files == (b.files - {op.tmp})[op.name := b.files[op.tmp]] && c.pending == b.pending &&
      c.leases == b.leases;
    assert op.tmp !in b.pending;
    if op.name in b.pending { assert b.pending[op.name] == 0; }
  }

  // The books stay exact in every careful section, partial writes and failed renames and
  // removals included, exactly unless an unseen file is replaced.
  lemma DoKeepsExactIff(b: Books, op: Op)
    requires Exact(b) && Careful(b, op)
    ensures Exact(Do(b, op)) <==> !Spoils(b, op)
  {
    TotalStaysRight(b, op);
    hide Do, Total, PendingExact, Careful, Renames;
    if !Overwrites(b, op) { DoKeepsPending(b, op); } else if b.files[op.name] == [] { OverwritePending(b, op); }
  }

  // An append keeps the books exact exactly when it adds nothing to a file whose removal was put off.
  lemma AppendKeepsExactIff(b: Books, op: Op)
    requires Exact(b) && op.Append?
    ensures Exact(Do(b, op)) <==>
            !(op.name in b.pending && Appends(b, op.name, |op.data|, op.capture, op.consume, op.os) &&
                Part(op.data, op.os) != [])
  {
    AppendDrift(b, op.name, op.data, op.capture, op.consume, op.os);
    hide Total, Appends;
    if op.name in b.pending && Do(b, op) != b && Part(op.data, op.os) != [] {
      assert |Do(b, op).files[op.name]| > Do(b, op).pending[op.name];
    }
  }

  // The unseen file is this one, and the new bytes are others.
  predicate Replaces(b: Books, op: Op, n: string) { Overwrites(b, op) && op.name == n && b.files[op.tmp] != b.files[n] }

  // A leased file stays where it is, with the bytes it had exactly unless it is replaced unseen.
  lemma LeasedKeptIff(b: Books, op: Op, n: string)
    requires Careful(b, op) && Kempt(b) && n in b.files && Leases(b, n) > 0 && Leases(Do(b, op), n) > 0
    ensures n in Do(b, op).files && (Do(b, op).files[n] == b.files[n] <==> !Replaces(b, op, n))
    ensures n in b.pending ==> n in Do(b, op).pending
  {
    hide Fits, Dir, TempName, LeaseInside, Empty, ValidId, IsTaskDir;
  }

  const RESULT := "d/result.tar.gz"

  // Books of a store that holds these two files.
  lemma TwoFiles(tmp: string, x: Bytes, y: Bytes, leases: map<string, nat>) returns (b: Books)
    requires tmp != RESULT
    ensures b == Books(1_000_000, 0, map[tmp := x, RESULT := y], {"d"}, |x| + |y|, 0, leases, map[], {}, false)
    ensures Exact(b)
  {
    var files: Files := map[tmp := x, RESULT := y];
    b := Books(1_000_000, 0, files, {"d"}, |x| + |y|, 0, leases, map[], {}, false);
    TotalWithout(files, tmp);
    assert files - {tmp} == map[RESULT := y];
    TotalWithout(map[RESULT := y], RESULT);
    assert map[RESULT := y] - {RESULT} == map[];
  }

  // A publish removes the old result, its rename fails, and there is no result any more.
  lemma TargetLost() returns (b: Books, op: Op)
    ensures Exact(b) && KeepsToClasses(op) && op.Publish? && op.name in b.files && op.name !in Do(b, op).files
  {
    b := TwoFiles("d/r.tmp", [1, 2], [0], map[]);
    op := Publish("d/r.tmp", RESULT, Os(None, false, false, 0, false, false, false, true, false, false));
    ResultNames();
    hide Total;
  }

  // A removal was put off for a lease; then an append adds a byte, and the books are wrong.
  lemma AppendSpoils() returns (b: Books, op: Op)
    ensures Exact(b) && op.Append? && !Exact(Do(b, op))
  {
    var c := TwoFiles("d/r.tmp", [1, 2], [0], map[RESULT := 1]);
    b := c.(pending := map[RESULT := 1]);
    op := Append(RESULT, [1], false, false, Os(Some(2_000_000), false, false, 1, false, false, false, false, false,
        false));
    ResultNames();
    assert Appends(b, RESULT, 1, false, false, op.os);
    assert Part(op.data, op.os) == [1];
    AppendKeepsExactIff(b, op);
  }

  lemma Overwritten(b: Books, op: Op)
    requires Overwrites(b, op)
    ensures Do(b, op).files == (b.files - {op.tmp})[op.name := b.files[op.tmp]]
  {
    hide Dir;
  }

  // A publish whose status call fails does replace a leased result, and the books go wrong.
  lemma LeasedReplaced() returns (b: Books, op: Op)
    ensures Exact(b) && Kempt(b) && OnlyResultsLeased(b) && KeepsToClasses(op)
    ensures op.Publish? && Leases(b, op.name) > 0 && op.name in b.files && op.name in Do(b, op).files
    ensures Do(b, op).files[op.name] != b.files[op.name]
    ensures Do(b, op).used != Total(Do(b, op).files) && !Exact(Do(b, op))
  {
    b := TwoFiles("d/r.tmp", [1, 2], [0], map[RESULT := 1]);
    op := Publish("d/r.tmp", RESULT, Os(None, true, false, 0, false, false, false, false, false, false));
    hide Do, Total, Dir, LastSlash, IsResult, PendingExact;
    ResultNames();
    assert Slips(b, op);
    Overwritten(b, op);
    TotalStaysRight(b, op);
  }

  lemma ResultNames()
    ensures Dir(RESULT) == "d" && IsResult(RESULT) && !IsResult("d/r.tmp")
  {
    SlashBefore("d", "result.tar.gz");
    assert RESULT == "d" + "/" + "result.tar.gz";
    SlashBefore("d", "r.tmp");
    assert "d/r.tmp" == "d" + "/" + "r.tmp";
    assert |"r.tmp"| != |"result.tar.gz"|;
    hide LastSlash;
  }
}
