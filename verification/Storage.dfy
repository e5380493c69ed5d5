// The store itself (internal/agent/store.go): fields updated in place under the lock,
// each method proved against its section in QuotaBooks.
module Storage {
  import opened Records
  import opened QuotaBooks
  import opened QuotaHistories

  datatype Answer = Done | NoStorage | Invalid | InUse | OsError

  // What a replacement of a name came to; Unsynced: in place, but the directory was not synced.
  datatype Replaced = Synced | Kept(why: Answer) | Unsynced

  // An open lease; `done` is the once-flag of Close.
  class LeasedFile {
    const s: Store
    const name: string
    var done: bool

    constructor (s: Store, name: string)
      ensures this.s == s && this.name == name && !done
    {
      this.s, this.name, done := s, name, false;
    }

    // `ops` are the sections it goes through.
    method Close(os: Os, each: string -> Os) returns (r: Answer, ghost ops: seq<Op>)
      requires s.Valid() && (!done ==> this in s.open)
      modifies this, s
      ensures s.Valid() && done && s.open == old(s.open) - {this}
      // Only the first call does anything; it takes this holder off the count and carries
      // out a removal put off until the last one.
      ensures s.State() == After(old(s.State()), ops)
      ensures old(done) ==> r == Done && ops == []
      ensures !old(done) ==> ops != [] && ops[0] == Release(name, os) && forall i :: 0 < i < |ops| ==>
        Clears(ops[i], Dir(name))
      ensures !old(done) && old(Dir(name) !in s.removedDirs) ==> ops == [Release(name, os)]
      ensures !old(done) ==> s.leases == Released(old(s.State()), name)
      // A task directory marked removed goes with the last lease inside it.
      ensures !old(done) && old(Dir(name) in s.removedDirs) && !LeaseInside(s.leases, Dir(name)) ==>
        Removable(s.closed, old(s.dirs), Dir(name), each) ==>
        Dir(name) !in s.dirs && Dir(name) !in s.removedDirs && forall n :: n in s.files ==> Dir(n) != Dir(name)
      ensures old(Exact(s.State())) ==> Exact(s.State())
    {
      hide Exact, Do, After, ValidId, Dir, Released;
      ops := [];
      NothingAfter(s.State());
      if done { return Done, ops; }
      if Exact(s.State()) { DoKeepsExactIff(s.State(), Release(name, os)); }
      done := true;
      ops := Snoc(s.State(), ops, Release(name, os));
      r := s.Drop(this, os);
      if Dir(name) in s.removedDirs {
        ghost var id := s.MarkedTask(Dir(name));
        ghost var v := s.State();
        var e, more := s.RemoveTask(Base(Dir(name)), each);
        if r == Done { r := e; }
        if Exact(v) { ClearingKeepsExact(v, more, Dir(name)); }
        AfterTwo(old(s.State()), ops, more);
        ops := ops + more;
      }
    }
  }

  ghost function Holders(open: set<LeasedFile>, n: string): set<LeasedFile> { set l | l in open && l.name == n }

  // The count under every name is the number of its open handles.
  ghost predicate Counted(leases: map<string, nat>, open: set<LeasedFile>) {
    forall n :: (if n in leases then leases[n] else 0) == |Holders(open, n)|
  }

  lemma HoldersMore(open: set<LeasedFile>, l: LeasedFile, n: string)
    requires l !in open
    ensures |Holders(open + {l}, n)| == |Holders(open, n)| + if l.name == n then 1 else 0
  {
    assert Holders(open + {l}, n) == Holders(open, n) + if l.name == n then {l} else {};
  }

  lemma OneMore(leases: map<string, nat>, open: set<LeasedFile>, l: LeasedFile)
    requires Counted(leases, open) && l !in open
    ensures Counted(leases[l.name := (if l.name in leases then leases[l.name] else 0) + 1], open + {l})
  {
    forall n ensures |Holders(open + {l}, n)| == |Holders(open, n)| + if l.name == n then 1 else 0 {
      HoldersMore(open, l, n);
    }
  }

  lemma OneLess(leases: map<string, nat>, open: set<LeasedFile>, l: LeasedFile)
    requires Counted(leases, open) && l in open
    ensures l.name in leases && leases[l.name] > 0
    ensures Counted(if leases[l.name] == 1 then leases - {l.name} else leases[l.name := leases[l.name] - 1], open - {l})
  {
    var was := open - {l};
    assert was + {l} == open;
    forall n ensures |Holders(open, n)| == |Holders(was, n)| + if l.name == n then 1 else 0 { HoldersMore(was, l, n); }
  }

  // The directory can be emptied and removed.
  ghost predicate Removable(closed: bool, dirs: set<string>, d: string, each: string -> Os) {
    && !closed && d in dirs && (forall n :: n in dirs ==> Dir(n) != d)
    && !each(d).open && forall n :: !each(n).stat && !each(n).remove
  }

  lemma Snoc(b: Books, ops: seq<Op>, op: Op) returns (more: seq<Op>)
    ensures more == ops + [op] && After(b, more) == Do(After(b, ops), op)
  {
    more := ops + [op];
    assert more[..|more| - 1] == ops;
  }

  lemma NothingInside(b: Books, d: string)
    ensures (forall n :: n in b.files ==> Dir(n) != d) && (forall n :: n in b.dirs ==> Dir(n) != d) ==> Empty(b, d)
  {}

  lemma NestedStops(b: Books, n: string, each: string -> Os)
    requires n in b.dirs
    ensures !Removable(b.closed, b.dirs, Dir(n), each)
  {}

  lemma EntryGoes(b: Books, n: string, each: string -> Os)
    ensures !LeaseInside(b.leases, Dir(n)) ==> n !in b.leases
    ensures Removable(b.closed, b.dirs, Dir(n), each) ==> !b.closed && n !in b.dirs && !each(n).stat && !each(n).remove
  {}

  lemma KemptLeases(b: Books)
    requires Kempt(b)
    ensures forall n :: n in b.leases ==> b.leases[n] > 0
  {}

  function Length(chunks: seq<Bytes>): nat { if chunks == [] then 0 else |chunks[0]| + Length(chunks[1..]) }

  function Joined(chunks: seq<Bytes>): Bytes {
    if chunks == [] then [] else Joined(chunks[..|chunks| - 1]) + chunks[|chunks| - 1]
  }

  lemma JoinedEnds(chunks: seq<Bytes>)
    ensures Joined(chunks[..0]) == [] && chunks[0..] == chunks && chunks[..|chunks|] == chunks
  {}

  lemma JoinedStep(chunks: seq<Bytes>, i: nat)
    requires i < |chunks|
    ensures Length(chunks[i..]) == |chunks[i]| + Length(chunks[i + 1..])
    ensures Joined(chunks[..i + 1]) == Joined(chunks[..i]) + chunks[i]
  {
    assert chunks[i..][1..] == chunks[i + 1..];
    assert chunks[..i + 1][..i] == chunks[..i];
  }

  predicate Margin(b: Books, left: nat) { Room(b, 0, b.reserve + METADATA_RESERVE) && left <= b.reserve }

  predicate NoSpace(b: Books, data: Bytes, os: Os) {
    !SpaceFor(b, |data|, b.reserve - |data| + METADATA_RESERVE, os.free)
  }

  // One chunk: what its Append comes to.
  lemma ChunkStep(b: Books, tmp: string, data: Bytes, os: Os, left: nat)
    ensures var c := Do(b, QuotaBooks.Append(tmp, data, false, true, os));
      && (Margin(b, |data| + left) ==>
            !Fits(b, |data|, NewReserve(b, |data|, false, true) + METADATA_RESERVE, os.free) ==>
            NoSpace(b, data, os) && c == b)
      && (Appends(b, tmp, |data|, false, true, os) && os.written >= |data| ==>
            && Existing(c, tmp) == Existing(b, tmp) + data
            && (Margin(b, |data| + left) ==> Margin(c, left) && c.used + c.reserve == b.used + b.reserve))
  {
    if Margin(b, |data| + left) { PackagingStep(b, tmp, data, os); }
    hide SpaceFor, CanCreate;
  }

  lemma NothingAfter(b: Books)
    ensures After(b, []) == b
  {}

  lemma MarkOnce(b: Books, id: Id) returns (ops: seq<Op>)
    requires ValidId(id) && LeaseInside(b.leases, TaskDir(id)) && Kempt(b)
    ensures ops == [Mark(id)] && After(b, ops) == b.(removedDirs := b.removedDirs + {TaskDir(id)}) &&
      Kempt(After(b, ops))
  {
    ops := [Mark(id)];
    assert ops[..0] == [];
    DoKeepsKempt(b, Mark(id));
  }

  lemma DropsEmpty(b: Books, id: Id, os: Os)
    requires !os.remove && !b.closed && TaskDir(id) in b.dirs && Empty(b, TaskDir(id)) && Kempt(b)
    ensures Do(b, DropDir(id, os)) == b.(dirs := b.dirs - {TaskDir(id)}, removedDirs := b.removedDirs - {TaskDir(id)})
    ensures Kempt(Do(b, DropDir(id, os)))
  {
    DoKeepsKempt(b, DropDir(id, os));
  }

  lemma ClearingIsCareful(b: Books, ops: seq<Op>, d: string)
    requires forall op :: op in ops ==> Clears(op, d)
    ensures CarefulRun(b, ops) && NothingUnseen(b, ops)
  {
    forall i | 0 <= i < |ops| ensures Careful(After(b, ops[..i]), ops[i]) && !Overwrites(After(b, ops[..i]), ops[i]) {
      assert Clears(ops[i], d);
    }
  }

  lemma ClearingKeepsExact(b: Books, ops: seq<Op>, d: string)
    requires Exact(b) && forall op :: op in ops ==> Clears(op, d)
    ensures Exact(After(b, ops))
  {
    ClearingIsCareful(b, ops, d);
    hide Exact, Careful, Overwrites, Clears;
    forall i | 0 <= i < |ops| ensures !Spoils(After(b, ops[..i]), ops[i]) {
      assert !Overwrites(After(b, ops[..i]), ops[i]);
    }
    AccountingExactIff(b, ops);
    assert ops[..|ops|] == ops;
  }

  class Store {
    const maxBytes: int
    const minFree: nat
    var files: Files
    var dirs: set<string>
    var used: int
    var reserve: int
    var leases: map<string, nat>
    var pending: map<string, int>
    var removedDirs: set<string>
    var closed: bool
    ghost var open: set<LeasedFile>

    function State(): Books
      reads this
    {
      Books(maxBytes, minFree, files, dirs, used, reserve, leases, pending, removedDirs, closed)
    }

    // Every open handle is counted under its name.
    ghost predicate LeasesHeld()
      reads this`leases, this`open, open
    {
      && (forall l :: l in open ==> l.s == this && !l.done)
      && (forall n :: n in leases ==> leases[n] > 0)
      && Counted(leases, open)
    }

    ghost predicate Valid()
      reads this, open
    {
      LeasesHeld() && Kempt(State())
    }

    // openStore adds up the sizes of the regular files it finds.
    constructor (maxBytes: int, minFree: nat, files: Files, dirs: set<string>)
      requires files.Keys !! dirs
      ensures Valid() && Exact(State()) && open == {}
      ensures State() == Books(maxBytes, minFree, files, dirs, Total(files), 0, map[], map[], {}, false)
    {
      this.maxBytes, this.minFree, this.files, this.dirs := maxBytes, minFree, files, dirs;
      used, reserve, leases, pending, removedDirs, closed := 0, 0, map[], map[], {}, false;
      open := {};
      new;
      var rest := files;
      while rest != map[]
        invariant used + Total(rest) == Total(files) && rest.Keys <= files.Keys
        invariant State() == Books(maxBytes, minFree, files, dirs, used, 0, map[], map[], {}, false) && open == {}
        decreases |rest|
      {
        var k :| k in rest;
        TotalWithout(rest, k);
        used := used + |rest[k]|;
        rest := rest - {k};
      }
    }

    lemma MarkedTask(d: string) returns (id: Id)
      requires Valid() && d in removedDirs
      ensures ValidId(id) && d == TaskDir(id) && Base(d) == id
    {
      assert IsTaskDir(d);
      id :| ValidId(id) && d == TaskDir(id);
      TaskDirBase(id);
    }

    method Available(os: Os) returns (ok: bool)
      ensures ok <==>
        && 0 <= reserve + 65536 && !closed && used + reserve + 65536 <= maxBytes
        && os.free.Some? && minFree + reserve + 65536 <= os.free.value
    {
      FitsIff(State(), 0, reserve + METADATA_RESERVE, os.free);
      ok := Fits(State(), 0, reserve + METADATA_RESERVE, os.free);
    }

    method BeginCapture(os: Os) returns (r: Answer)
      requires Valid()
      modifies this`reserve
      ensures Valid() && State() == Do(old(State()), QuotaBooks.BeginCapture(os))
      ensures r == Done <==>
        !closed && used + 69632 <= maxBytes && os.free.Some? && minFree + 69632 <= os.free.value
      ensures if r == Done then reserve == 4096 else r == NoStorage && reserve == old(reserve)
    {
      FitsIff(State(), 0, METADATA_RESERVE + CAPTURE_BASE, os.free);
      hide LeasesHeld, Kempt;
      DoKeepsKempt(State(), QuotaBooks.BeginCapture(os));
      if !Fits(State(), 0, METADATA_RESERVE + CAPTURE_BASE, os.free) { return NoStorage; }
      reserve := CAPTURE_BASE;
      return Done;
    }

    method EndCapture()
      requires Valid()
      modifies this`reserve
      ensures Valid() && State() == Do(old(State()), QuotaBooks.EndCapture) && reserve == 0
    {
      hide LeasesHeld, Kempt;
      DoKeepsKempt(State(), QuotaBooks.EndCapture);
      reserve := 0;
    }

    function Size(name: string): nat
      reads this`files
    {
      if name in files then |files[name]| else 0
    }

    method Atomic(name: string, data: Bytes, id: Id, os: Os) returns (o: Replaced)
      requires Valid()
      modifies this`files, this`used
      ensures Valid() && State() == Do(old(State()), QuotaBooks.Atomic(name, data, id, os))
      ensures o.Kept? <==> !old(AtomicRenames(State(), name, data, id, os))
      ensures o == Kept(NoStorage) <==> !old(Fits(State(), |data|, reserve, os.free))
      ensures o == Unsynced <==> old(AtomicRenames(State(), name, data, id, os)) && os.dirSync
    {
      hide LeasesHeld, Kempt, Dir, SpaceFor, TempName;
      DoKeepsKempt(State(), QuotaBooks.Atomic(name, data, id, os));
      if !Fits(State(), |data|, reserve, os.free) { return Kept(NoStorage); }
      if os.stat { return Kept(OsError); }
      if name in dirs { return Kept(Invalid); }
      var was := Size(name);
      var tmp := TempName(name, id);
      TempDiffers(name, id);
      if !CanCreate(State(), name, os) || tmp in files || tmp in dirs { return Kept(OsError); }
      var part := Part(data, os);
      files := files[tmp := part];
      used := used + |part|;
      if !Whole(data, os) || os.rename {
        if !os.remove {
          assert files - {tmp} == old(files);
          files := files - {tmp};
          used := used - |part|;
        }
        return Kept(OsError);
      }
      assert part == data && (files - {tmp})[name := data] == old(files)[name := data];
      files := (files - {tmp})[name := files[tmp]];
      used := used - was;
      return if os.dirSync then Unsynced else Synced;
    }

    method Append(name: string, data: Bytes, capture: bool, consume: bool, os: Os) returns (r: Answer)
      requires Valid()
      modifies this`files, this`used, this`reserve
      ensures Valid() && State() == Do(old(State()), QuotaBooks.Append(name, data, capture, consume, os))
      ensures r == NoStorage <==>
        !old(Fits(State(), |data|, NewReserve(State(), |data|, capture, consume) + METADATA_RESERVE, os.free))
      ensures r == Done <==>
        old(Appends(State(), name, |data|, capture, consume, os)) && os.written >= |data| && !os.write && !os.close
    {
      hide LeasesHeld, Kempt, Dir, SpaceFor, TempName;
      DoKeepsKempt(State(), QuotaBooks.Append(name, data, capture, consume, os));
      var res := reserve;
      if capture { res := res + 2 * |data|; }
      if consume { res := res - MinOf(res, |data|); }
      if !Fits(State(), |data|, res + METADATA_RESERVE, os.free) { return NoStorage; }
      if !os.stat && name in dirs { return Invalid; }
      if !CanCreate(State(), name, os) { return OsError; }
      var part := Part(data, os);
      files := files[name := (if name in files then files[name] else []) + part];
      used := used + |part|;
      reserve := res;
      return if os.write || os.written < |data| || os.close then OsError else Done;
    }

    // Packaging: the archive reaches the store chunk by chunk, each paid for by the reserve.
    method Package(tmp: string, chunks: seq<Bytes>, os: seq<Os>) returns (written: nat, r: Answer)
      requires Valid() && |os| == |chunks|
      modifies this`files, this`used, this`reserve
      ensures Valid() && written <= |chunks| && (r == Done <==> written == |chunks|)
      ensures r == Done ==> Existing(State(), tmp) == old(Existing(State(), tmp)) + Joined(chunks)
      // With the margin in place and the archive no longer than the reserve, the budget never
      // refuses a chunk, and used + reserve stays the same.
      ensures old(Margin(State(), Length(chunks))) && r == NoStorage ==> NoSpace(State(), chunks[written], os[written])
      ensures old(Margin(State(), Length(chunks))) && (r == Done || r == NoStorage) ==>
        used + reserve == old(used + reserve)
    {
      hide Kempt, LeasesHeld, Do, Existing, Joined, Length, Margin, NoSpace, Fits, Appends, NewReserve;
      written, r := 0, Done;
      ghost var margin := Margin(State(), Length(chunks));
      JoinedEnds(chunks);
      while written < |chunks|
        invariant written <= |chunks| && r == Done && Valid()
        invariant Existing(State(), tmp) == old(Existing(State(), tmp)) + Joined(chunks[..written])
        invariant margin ==> Margin(State(), Length(chunks[written..])) && used + reserve == old(used + reserve)
      {
        JoinedStep(chunks, written);
        ChunkStep(State(), tmp, chunks[written], os[written], Length(chunks[written + 1..]));
        r := Append(tmp, chunks[written], false, true, os[written]);
        if r != Done { return; }
        written := written + 1;
      }
    }

    method Mkdir(name: string, os: Os) returns (r: Answer)
      requires Valid()
      modifies this`dirs
      ensures Valid() && State() == Do(old(State()), QuotaBooks.Mkdir(name, os))
      ensures dirs == if !os.open && !closed && name !in old(dirs) && name !in files && Dir(name) in old(dirs)
        then old(dirs) + {name} else old(dirs)
      ensures r == Done <==> dirs != old(dirs) && !os.dirSync
    {
      hide LeasesHeld, Kempt, Dir, SpaceFor, TempName;
      DoKeepsKempt(State(), QuotaBooks.Mkdir(name, os));
      if !CanCreate(State(), name, os) || name in files || closed { return OsError; }
      dirs := dirs + {name};
      return if os.dirSync then OsError else Done;
    }

    method Publish(tmp: string, name: string, os: Os) returns (o: Replaced)
      requires Valid()
      modifies this`files, this`used
      ensures Valid() && State() == Do(old(State()), QuotaBooks.Publish(tmp, name, os))
      // A target that is seen goes first, unless it is leased; then the rename decides.
      ensures o == Kept(InUse) <==> !os.stat && name in old(files) && name in leases
      ensures !o.Kept? <==>
        && tmp in old(files) && !closed && name !in dirs && Dir(name) in dirs && !os.rename
        && (!os.stat && name in old(files) ==> name !in leases && !os.remove && tmp != name)
      ensures !o.Kept? ==>
        && files == (old(files) - {tmp})[name := old(files[tmp])] && (o == Unsynced <==> os.dirSync)
        && used == old(used) - if os.stat then 0 else old(Size(name))
    {
      hide LeasesHeld, Dir;
      DoKeepsKempt(State(), QuotaBooks.Publish(tmp, name, os));
      if !os.stat && name in dirs { return Kept(Invalid); }
      if !os.stat && name in files {
        if name in leases { return Kept(InUse); }
        if os.remove || closed { return Kept(OsError); }
        used := used - |files[name]|;
        files := files - {name};
      }
      if !Renames(State(), tmp, name, os) { return Kept(OsError); }
      files := (files - {tmp})[name := files[tmp]];
      return if os.dirSync then Unsynced else Synced;
    }

    method Remove(name: string, os: Os) returns (r: Answer)
      requires Valid()
      modifies this`files, this`used, this`pending
      ensures Valid() && State() == Do(old(State()), QuotaBooks.Remove(name, os))
      ensures r == Done <==>
        !os.stat && name !in dirs && (name in old(files) && name !in leases ==> !os.remove && !closed)
      ensures files.Keys <= old(files.Keys) && (r == Done && name !in leases ==> name !in files)
      ensures r == Done && name in old(files) && name !in leases ==>
        files == old(files) - {name} && used == old(used) - old(Size(name)) && pending == old(pending)
      ensures r == Done && name in old(files) && name in leases ==>
        files == old(files) && used == old(used) && pending == old(pending)[name := |files[name]|]
      ensures r != Done || name !in old(files) ==>
        files == old(files) && used == old(used) && pending == old(pending)
    {
      hide LeasesHeld;
      DoKeepsKempt(State(), QuotaBooks.Remove(name, os));
      if os.stat { return OsError; }
      if name in dirs { return Invalid; }
      if name !in files { return Done; }
      if name in leases {
        pending := pending[name := |files[name]|];
        return Done;
      }
      if os.remove || closed { return OsError; }
      used := used - |files[name]|;
      files := files - {name};
      return Done;
    }

    method Lease(name: string, os: Os) returns (l: LeasedFile?)
      requires Valid()
      modifies this`leases, this`open
      ensures Valid() && State() == Do(old(State()), QuotaBooks.Lease(name, os))
      ensures l != null <==> !os.stat && !os.open && name in files && !closed
      ensures leases == if l == null then old(leases)
        else old(leases)[name := (if name in old(leases) then old(leases)[name] else 0) + 1]
      ensures l == null ==> open == old(open)
      ensures l != null ==> fresh(l) && l.s == this && l.name == name && !l.done && open == old(open) + {l}
    {
      hide Kempt, Counted, Holders;
      DoKeepsKempt(State(), QuotaBooks.Lease(name, os));
      if os.stat || name !in files || os.open || closed { return null; }
      l := new LeasedFile(this, name);
      OneMore(leases, open, l);
      leases := leases[name := (if name in leases then leases[name] else 0) + 1];
      open := open + {l};
    }

    // The locked part of a close.
    method Drop(l: LeasedFile, os: Os) returns (r: Answer)
      requires l in open && l.s == this && l.done && Kempt(State())
      requires forall k :: k in open && k != l ==> k.s == this && !k.done
      requires Counted(leases, open)
      modifies this`leases, this`open, this`files, this`used, this`pending
      ensures Valid() && State() == Do(old(State()), Release(l.name, os)) && open == old(open) - {l}
      ensures leases == Released(old(State()), l.name)
      ensures r == if os.close then OsError else Done
    {
      hide Kempt, Counted, Holders, Dir;
      var name := l.name;
      DoKeepsKempt(State(), Release(name, os));
      OneLess(leases, open, l);
      KemptLeases(Do(State(), Release(name, os)));
      var left := leases[name] - 1;
      if left == 0 {
        leases := leases - {name};
        if name in pending {
          if !os.remove && !closed && name in files {
            files := files - {name};
            used := used - pending[name];
          }
          pending := pending - {name};
        }
      } else {
        leases := leases[name := left];
      }
      open := open - {l};
      return if os.close then OsError else Done;
    }

    // The loop of RemoveTask over the entries of the directory.
    method Clear(base: string, each: string -> Os) returns (r: Answer, ghost ops: seq<Op>)
      requires Valid()
      modifies this`files, this`used, this`pending
      ensures Valid() && State() == After(old(State()), ops)
      ensures forall op :: op in ops ==> op.Remove? && Dir(op.name) == base
      ensures r == Done && !LeaseInside(leases, base) ==> Empty(State(), base)
      ensures !LeaseInside(leases, base) && Removable(closed, dirs, base, each) ==> r == Done
    {
      hide LeasesHeld, Kempt, Do, After, Dir, Leases, LeaseInside, Empty, Removable;
      r, ops := Done, [];
      NothingAfter(State());
      var nested := set d | d in dirs && Dir(d) == base;
      var rest := (set n | n in files && Dir(n) == base) + nested;
      while rest != {}
        invariant Valid() && State() == After(old(State()), ops) && r == Done
        invariant forall op :: op in ops ==> op.Remove? && Dir(op.name) == base
        invariant forall n :: n in rest ==> Dir(n) == base
        invariant nested <= rest
        invariant !LeaseInside(leases, base) ==> forall n :: n in files && Dir(n) == base ==> n in rest
        decreases |rest|
      {
        var n :| n in rest;
        if n in nested { NestedStops(State(), n, each); return Invalid, ops; }
        EntryGoes(State(), n, each);
        r := Remove(n, each(n));
        ops := Snoc(old(State()), ops, QuotaBooks.Remove(n, each(n)));
        if r != Done { return; }
        rest := rest - {n};
      }
      assert forall n :: n in dirs && Dir(n) == base ==> n in nested;
      NothingInside(State(), base);
    }

    // RemoveTask: marked while a lease is inside, otherwise emptied file by file and removed.
    // `ops` are the sections it went through; others may come between them.
    method RemoveTask(id: Id, each: string -> Os) returns (r: Answer, ghost ops: seq<Op>)
      requires Valid()
      modifies this`files, this`dirs, this`used, this`pending, this`removedDirs
      ensures Valid() && State() == After(old(State()), ops)
      ensures forall op :: op in ops ==> Clears(op, TaskDir(id))
      ensures !ValidId(id) ==> r == Invalid && ops == []
      ensures ValidId(id) && LeaseInside(leases, TaskDir(id)) ==> r == Done && ops == [Mark(id)]
      ensures ValidId(id) && !LeaseInside(leases, TaskDir(id)) && Removable(closed, old(dirs), TaskDir(id), each) ==>
        r == Done && TaskDir(id) !in dirs && TaskDir(id) !in removedDirs && forall n :: n in files ==>
            Dir(n) != TaskDir(id)
    {
      hide LeasesHeld, Kempt, Do, After, Dir, ValidId, Leases;
      NothingAfter(State());
      ops := [];
      if !ValidId(id) { return Invalid, ops; }
      var base := TaskDir(id);
      if LeaseInside(leases, base) {
        ops := MarkOnce(State(), id);
        removedDirs := removedDirs + {base};
        return Done, ops;
      }
      if closed || base !in dirs || each(base).open { return OsError, ops; }
      r, ops := Clear(base, each);
      if r != Done { return; }
      if each(base).remove { return OsError, ops; }
      DropsEmpty(State(), id, each(base));
      dirs := dirs - {base};
      removedDirs := removedDirs - {base};
      ops := Snoc(old(State()), ops, DropDir(id, each(base)));
      return Done, ops;
    }

    method Shut()
      requires Valid()
      modifies this`closed
      ensures Valid() && State() == Do(old(State()), QuotaBooks.Shut) && closed
    {
      hide LeasesHeld, Kempt;
      DoKeepsKempt(State(), QuotaBooks.Shut);
      closed := true;
    }
  }
}
