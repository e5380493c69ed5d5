// Frames as records: what acceptance by the repair automaton means, and the coverage
// count of the archive manifest (internal/agent/archive.go), which runs a third automaton
// over the same file and must come to the same totals.
module FrameCoverage {
  import opened Records
  import opened FrameLog

  // ---- records and frames ----

  // A record of schema 2 as the window parser emits it.
  predicate Clean(r: Rec) { r.version == 2 && !r.kind.Other? && r.id != "" }

  predicate AllClean(rs: seq<Rec>) { forall r :: r in rs ==> Clean(r) }

  function Feed(rs: seq<Rec>): Option<Auto> {
    if rs == [] then Some(START)
    else
      var a := Feed(rs[..|rs| - 1]);
      if a.None? then None else Accept(a.value, rs[|rs| - 1])
  }

  // r may follow rs: a frame is one or more sources of one id and then its complete frame_end.
  predicate Follows(rs: seq<Rec>, r: Rec) {
    var last := |rs| - 1;
    if r.kind.FrameEnd? then rs != [] && rs[last].kind.Source? && rs[last].id == r.id && r.complete
    else rs != [] && rs[last].kind.Source? ==> rs[last].id == r.id
  }

  predicate Framed(rs: seq<Rec>) { forall i :: 0 <= i < |rs| ==> Follows(rs[..i], rs[i]) }

  // Where the last frame ends.
  function CutAt(rs: seq<Rec>): (n: nat)
    ensures n <= |rs| && (forall i :: n <= i < |rs| ==> !rs[i].kind.FrameEnd?) && (n > 0 ==> rs[n - 1].kind.FrameEnd?)
  {
    if rs == [] then 0
    else if rs[|rs| - 1].kind.FrameEnd? then |rs|
    else
      var init := rs[..|rs| - 1];
      assert forall i :: 0 <= i < |init| ==> rs[i] == init[i];
      CutAt(init)
  }

  function Sources(rs: seq<Rec>): nat {
    if rs == [] then 0 else Sources(rs[..|rs| - 1]) + if rs[|rs| - 1].kind.Source? then 1 else 0
  }

  function Frames(rs: seq<Rec>): nat {
    if rs == [] then 0 else Frames(rs[..|rs| - 1]) + if rs[|rs| - 1].kind.FrameEnd? then 1 else 0
  }

  function FrameIds(rs: seq<Rec>): set<string> { set r | r in rs && r.kind.FrameEnd? :: r.id }

  predicate DistinctFrames(rs: seq<Rec>) {
    forall i, j :: 0 <= i < j < |rs| && rs[i].kind.FrameEnd? && rs[j].kind.FrameEnd? ==> rs[i].id != rs[j].id
  }

  // The state the automaton must be in: everything before the last frame_end is counted,
  // everything after it is pending under one id.
  predicate Summary(rs: seq<Rec>, a: Auto) {
    var cut := CutAt(rs);
    && a.sources == Sources(rs[..cut]) && a.pending == |rs| - cut && a.ids == FrameIds(rs)
    && a.pendingId == if cut == |rs| then "" else rs[|rs| - 1].id
  }

  lemma FrameIdsSnoc(rs: seq<Rec>, r: Rec)
    ensures FrameIds(rs + [r]) == FrameIds(rs) + if r.kind.FrameEnd? then {r.id} else {}
  {
    forall x ensures x in FrameIds(rs + [r]) <==> x in FrameIds(rs) + if r.kind.FrameEnd? then {r.id} else {} {
      assert forall q :: q in rs + [r] <==> q in rs || q == r;
    }
  }

  lemma {:induction false} PendingAreSources(rs: seq<Rec>)
    requires AllClean(rs)
    ensures Sources(rs) == Sources(rs[..CutAt(rs)]) + |rs| - CutAt(rs)
    decreases |rs|
  {
    if rs != [] {
      var init := rs[..|rs| - 1];
      assert forall r :: r in init ==> r in rs;
      assert Clean(rs[|rs| - 1]);
      if rs[|rs| - 1].kind.FrameEnd? {
        assert rs[..|rs|] == rs;
      } else {
        PendingAreSources(init);
        assert init[..CutAt(init)] == rs[..CutAt(rs)];
      }
    }
  }

  // Acceptance is exactly framing, and the state it ends in sums up the frames.
  lemma {:induction false} AcceptedIffFramed(rs: seq<Rec>)
    requires AllClean(rs)
    ensures Feed(rs).Some? <==> Framed(rs)
    ensures Framed(rs) ==> Summary(rs, Feed(rs).value)
    decreases |rs|
  {
    if rs != [] {
      var init, r := rs[..|rs| - 1], rs[|rs| - 1];
      assert rs == init + [r];
      assert AllClean(init) by { assert forall q :: q in init ==> q in rs; }
      assert Clean(r);
      AcceptedIffFramed(init);
      hide Feed;
      FramedSnoc(init, r);
      if Framed(init) {
        AcceptSummary(init, r, Feed(init).value);
      }
      assert Feed(rs) == if Feed(init).None? then None else Accept(Feed(init).value, r) by { FeedSnoc(init, r); }
    }
  }

  lemma FeedSnoc(rs: seq<Rec>, r: Rec)
    ensures Feed(rs + [r]) == if Feed(rs).None? then None else Accept(Feed(rs).value, r)
  {
    assert (rs + [r])[..|rs|] == rs;
  }

  lemma FramedSnoc(rs: seq<Rec>, r: Rec)
    ensures Framed(rs + [r]) <==> Framed(rs) && Follows(rs, r)
  {
    var more := rs + [r];
    hide Follows;
    assert more[..|rs|] == rs && more[|rs|] == r;
    forall i | 0 <= i < |rs| ensures more[..i] == rs[..i] && more[i] == rs[i] {}
    if Framed(more) {
      forall i | 0 <= i < |rs| ensures Follows(rs[..i], rs[i]) { assert Follows(more[..i], more[i]); }
      assert Follows(more[..|rs|], more[|rs|]);
    }
  }

  lemma AcceptSummary(rs: seq<Rec>, r: Rec, a: Auto)
    requires AllClean(rs) && Clean(r) && Summary(rs, a)
    ensures Accept(a, r).Some? <==> Follows(rs, r)
    ensures Follows(rs, r) ==> Summary(rs + [r], Accept(a, r).value)
  {
    var more := rs + [r];
    assert more[..|rs|] == rs;
    FrameIdsSnoc(rs, r);
    PendingAreSources(rs);
    if rs != [] { assert Clean(rs[|rs| - 1]); }
    assert rs[..|rs|] == rs;
    assert more[..|more|] == more;
    assert CutAt(more) < |more| ==> more[..CutAt(more)] == rs[..CutAt(rs)];
  }

  // The ids counted as points: of the frames, and of every record of schema 1.
  function PointIds(rs: seq<Rec>): set<string> { set r | r in rs && (r.version == 1 || r.kind.FrameEnd?) :: r.id }

  lemma PointIdsSnoc(rs: seq<Rec>, r: Rec)
    ensures PointIds(rs + [r]) == PointIds(rs) + if r.version == 1 || r.kind.FrameEnd? then {r.id} else {}
  {
    forall x ensures x in PointIds(rs + [r]) <==>
      x in PointIds(rs) + if r.version == 1 || r.kind.FrameEnd? then {r.id} else {}
    {
      assert forall q :: q in rs + [r] <==> q in rs || q == r;
    }
  }

  // Over accepted records of either schema no source record is lost or counted twice: those
  // counted and those pending are all there are, and the points are as said.
  lemma {:induction false} AcceptedAccounts(rs: seq<Rec>)
    requires Feed(rs).Some?
    ensures var a := Feed(rs).value; a.sources + a.pending == Sources(rs) && a.ids == PointIds(rs)
    ensures forall r :: r in rs ==> r.version == 1 || r.version == 2
    decreases |rs|
  {
    if rs == [] {
      assert PointIds(rs) == {};
    } else {
      var init, r := rs[..|rs| - 1], rs[|rs| - 1];
      assert rs == init + [r];
      AcceptedAccounts(init);
      PointIdsSnoc(init, r);
      hide PointIds;
      forall q | q in rs ensures q.version == 1 || q.version == 2 { assert q in init || q == r; }
    }
  }

  function Decoded(c: Codec, ls: seq<Bytes>): seq<Rec>
    requires forall l :: l in ls ==> c.dec(l).Some?
  {
    if ls == [] then [] else Decoded(c, ls[..|ls| - 1]) + [c.dec(ls[|ls| - 1]).value]
  }

  // Lines are accepted exactly when none is too long, each is a record, and the records are.
  lemma {:induction false} AcceptedLinesIff(c: Codec, ls: seq<Bytes>)
    ensures Runs(c, ls).Some? <==>
      && (forall l :: l in ls ==> |l| + 1 <= 100728832 && c.dec(l).Some?)
      && Feed(Decoded(c, ls)).Some?
    ensures Runs(c, ls).Some? ==> Runs(c, ls) == Feed(Decoded(c, ls))
    decreases |ls|
  {
    hide Accept;
    if ls != [] {
      var init, l := ls[..|ls| - 1], ls[|ls| - 1];
      assert ls == init + [l];
      AcceptedLinesIff(c, init);
      assert forall x :: x in ls <==> x in init || x == l;
      if forall x :: x in ls ==> c.dec(x).Some? { FeedSnoc(Decoded(c, init), c.dec(l).value); }
    }
  }

  lemma FreshFrame(rs: seq<Rec>)
    requires DistinctFrames(rs) && rs != [] && rs[|rs| - 1].kind.FrameEnd?
    ensures rs[|rs| - 1].id !in FrameIds(rs[..|rs| - 1])
  {
    var init, r := rs[..|rs| - 1], rs[|rs| - 1];
    forall i | 0 <= i < |init| && init[i].kind.FrameEnd? ensures init[i].id != r.id {
      assert rs[i].id != rs[|rs| - 1].id;
    }
  }

  lemma {:induction false} IdsAreFrames(rs: seq<Rec>)
    requires DistinctFrames(rs)
    ensures |FrameIds(rs)| == Frames(rs)
    decreases |rs|
  {
    if rs != [] {
      var init, r := rs[..|rs| - 1], rs[|rs| - 1];
      IdsAreFrames(init);
      FrameIdsSnoc(init, r);
      assert rs == init + [r];
      if r.kind.FrameEnd? { FreshFrame(rs); }
    } else {
      assert FrameIds(rs) == {};
    }
  }

  // ---- the coverage count ----

  datatype Tally = Tally(records: nat, complete: nat, missing: nat)

  type Tallies = map<string, Tally>

  const NONE := Tally(0, 0, 0)

  function Of(m: Tallies, k: string): Tally { if k in m then m[k] else NONE }

  function Plus(a: Tally, b: Tally): Tally { Tally(a.records + b.records, a.complete + b.complete,
    a.missing + b.missing) }

  function One(r: Rec): Tally { if r.complete then Tally(1, 1, 0) else Tally(1, 0, 1) }

  function Bump(m: Tallies, k: string, r: Rec): Tallies { m[k := Plus(Of(m, k), One(r))] }

  function Merge(a: Tallies, b: Tallies): Tallies { map k | k in a.Keys + b.Keys :: Plus(Of(a, k), Of(b, k)) }

  datatype Cov = Cov(counts: Tallies, pending: Tallies, pendingId: string)

  // Records are grouped by their source pattern.
  function CoverStep(s: Cov, r: Rec): Cov {
    if r.version != 2 then s.(counts := Bump(s.counts, r.source, r))
    else
      var q := Bump(if s.pendingId != r.id then map[] else s.pending, r.source, r);
      if r.kind.FrameEnd? && r.complete then Cov(Merge(s.counts, q), map[], "") else Cov(s.counts, q, r.id)
  }

  function CoverAll(rs: seq<Rec>): Cov {
    if rs == [] then Cov(map[], map[], "") else CoverStep(CoverAll(rs[..|rs| - 1]), rs[|rs| - 1])
  }

  // The same over a file whose counts start where those of the files before it ended.
  function CoverFrom(start: Tallies, rs: seq<Rec>): Cov {
    if rs == [] then Cov(start, map[], "") else CoverStep(CoverFrom(start, rs[..|rs| - 1]), rs[|rs| - 1])
  }

  lemma CoverFromNothing(start: Tallies, rs: seq<Rec>)
    ensures CoverFrom(start, rs[..0]) == Cov(start, map[], "")
  {}

  lemma CoverFromMore(start: Tallies, rs: seq<Rec>, i: nat)
    requires i < |rs|
    ensures CoverFrom(start, rs[..i + 1]) == CoverStep(CoverFrom(start, rs[..i]), rs[i])
  {
    assert rs[..i + 1][..i] == rs[..i];
  }

  // The loop of coverage over the records of one file.
  method Cover(start: Tallies, rs: seq<Rec>) returns (counts: Tallies)
    ensures counts == CoverFrom(start, rs).counts
  {
    counts := start;
    var pending: Tallies, pendingId := map[], "";
    hide CoverFrom, Merge, Bump;
    CoverFromNothing(start, rs);
    for i := 0 to |rs|
      invariant Cov(counts, pending, pendingId) == CoverFrom(start, rs[..i])
    {
      var r := rs[i];
      CoverFromMore(start, rs, i);
      var k := r.source;
      if r.version != 2 {
        counts := Bump(counts, k, r);
      } else {
        if pendingId != r.id { pending := map[]; pendingId := r.id; }
        pending := Bump(pending, k, r);
        if r.kind.FrameEnd? && r.complete {
          counts := Commit(counts, pending);
          pending := map[];
          pendingId := "";
        }
      }
    }
    assert rs[..|rs|] == rs;
  }

  // Outside `rest` the pending tallies have joined the counts.
  ghost predicate Joined(counts: Tallies, pending: Tallies, rest: set<string>, sum: Tallies) {
    && sum.Keys == counts.Keys + (pending.Keys - rest)
    && forall k :: k in sum ==> sum[k] == if k in rest then Of(counts, k) else Plus(Of(counts, k), Of(pending, k))
  }

  lemma JoinedNone(counts: Tallies, pending: Tallies)
    ensures Joined(counts, pending, pending.Keys, counts)
  {
    forall k | k in counts && k !in pending ensures Plus(Of(counts, k), Of(pending, k)) == counts[k] {}
    hide Plus;
  }

  lemma JoinedStep(counts: Tallies, pending: Tallies, rest: set<string>, sum: Tallies, k: string)
    requires Joined(counts, pending, rest, sum) && rest <= pending.Keys && k in rest
    ensures Joined(counts, pending, rest - {k}, sum[k := Plus(Of(sum, k), pending[k])])
  {
    assert Of(sum, k) == Of(counts, k) && Of(pending, k) == pending[k];
    hide Plus, Of;
  }

  lemma JoinedAll(counts: Tallies, pending: Tallies, sum: Tallies)
    requires Joined(counts, pending, {}, sum)
    ensures sum == Merge(counts, pending)
  {
    hide Plus, Of;
  }

  // Its inner loop: the pending tallies join the counts.
  method Commit(counts: Tallies, pending: Tallies) returns (sum: Tallies)
    ensures sum == Merge(counts, pending)
  {
    hide Joined, Merge, Plus, Of;
    sum := counts;
    var rest := pending.Keys;
    JoinedNone(counts, pending);
    while rest != {}
      invariant rest <= pending.Keys && Joined(counts, pending, rest, sum)
      decreases |rest|
    {
      var k :| k in rest;
      JoinedStep(counts, pending, rest, sum, k);
      sum := sum[k := Plus(Of(sum, k), pending[k])];
      rest := rest - {k};
    }
    JoinedAll(counts, pending, sum);
  }

  // ---- several files ----

  function CoverFiles(files: seq<seq<Rec>>): Tallies {
    if files == [] then map[] else CoverFrom(CoverFiles(files[..|files| - 1]), files[|files| - 1]).counts
  }

  // The outer loop of coverage: the counts go on, the pending frame starts anew.
  method Coverage(files: seq<seq<Rec>>) returns (counts: Tallies)
    ensures counts == CoverFiles(files)
  {
    counts := map[];
    hide CoverFrom;
    for i := 0 to |files|
      invariant counts == CoverFiles(files[..i])
    {
      assert files[..i + 1][..i] == files[..i];
      counts := Cover(counts, files[i]);
    }
    assert files[..|files|] == files;
  }

  // What earlier files counted is added, group by group; nothing else depends on it.
  lemma {:induction false} CoverFromAdds(start: Tallies, rs: seq<Rec>, k: string)
    ensures var s, c := CoverFrom(start, rs), CoverAll(rs);
      s.pending == c.pending && s.pendingId == c.pendingId && Of(s.counts, k) == Plus(Of(start, k), Of(c.counts, k))
    decreases |rs|
  {
    hide CoverStep, Plus, Of;
    if rs == [] {
      StartAdds(start, k);
    } else {
      var init, r := rs[..|rs| - 1], rs[|rs| - 1];
      CoverFromAdds(start, init, k);
      StepAdds(CoverFrom(start, init), CoverAll(init), Of(start, k), r, k);
    }
  }

  lemma StartAdds(start: Tallies, k: string)
    ensures Of(start, k) == Plus(Of(start, k), Of(map[], k))
  {
    NothingAt(k);
    PlusFacts(Of(start, k), NONE, NONE);
    hide Plus, Of;
  }

  lemma StepAdds(s: Cov, c: Cov, from: Tally, r: Rec, k: string)
    requires s.pending == c.pending && s.pendingId == c.pendingId && Of(s.counts, k) == Plus(from, Of(c.counts, k))
    ensures var t, d := CoverStep(s, r), CoverStep(c, r);
      t.pending == d.pending && t.pendingId == d.pendingId && Of(t.counts, k) == Plus(from, Of(d.counts, k))
  {
    hide Plus, One, Of, Bump, Merge;
    BumpAt(s.counts, r, k);
    BumpAt(c.counts, r, k);
    PlusFacts(from, Of(c.counts, k), One(r));
    var q := Bump(if c.pendingId != r.id then map[] else c.pending, r.source, r);
    MergeAt(s.counts, q, k);
    MergeAt(c.counts, q, k);
    PlusFacts(from, Of(c.counts, k), Of(q, k));
  }

  // The committed frames of all files.
  function Committed(files: seq<seq<Rec>>): seq<Rec> {
    if files == [] then []
    else
      var rs := files[|files| - 1];
      Committed(files[..|files| - 1]) + rs[..CutAt(rs)]
  }

  ghost predicate AllFramed(files: seq<seq<Rec>>) {
    forall i :: 0 <= i < |files| ==> AllClean(files[i]) && Framed(files[i])
  }

  // Group by group the manifest counts the committed frames of all files, each once.
  lemma {:induction false} CoverageCountsCommitted(files: seq<seq<Rec>>, k: string)
    requires AllFramed(files)
    ensures Of(CoverFiles(files), k) == Counted(Committed(files), k)
    decreases |files|
  {
    if files == [] {
      NothingAt(k);
      CountedNothing(k);
    } else {
      var init, rs := files[..|files| - 1], files[|files| - 1];
      assert AllFramed(init);
      assert AllClean(rs) && Framed(rs);
      hide AllFramed, AllClean, Framed, CoverFrom, CoverAll, Counted, Plus, Of, CutAt;
      CoverageCountsCommitted(init, k);
      CoverFromAdds(CoverFiles(init), rs, k);
      CoverCountsCommitted(rs, k);
      CountedAppends(Committed(init), rs[..CutAt(rs)], k);
    }
  }

  // The tally of one group, counted directly.
  function Counted(rs: seq<Rec>, k: string): Tally {
    if rs == [] then NONE
    else
      var t := Counted(rs[..|rs| - 1], k);
      if rs[|rs| - 1].source == k then Plus(t, One(rs[|rs| - 1])) else t
  }

  // The places of the records of one group; of those that are complete, and of those that are not.
  function PlacesOf(rs: seq<Rec>, k: string): set<nat> { set i: nat | i < |rs| && rs[i].source == k }

  function CompleteOf(rs: seq<Rec>, k: string): set<nat> { set i | i in PlacesOf(rs, k) && rs[i].complete }

  lemma PlacesSnoc(rs: seq<Rec>, r: Rec, k: string)
    ensures PlacesOf(rs + [r], k) == PlacesOf(rs, k) + if r.source == k then {|rs|} else {}
    ensures CompleteOf(rs + [r], k) == CompleteOf(rs, k) + if r.source == k && r.complete then {|rs|} else {}
    ensures |rs| !in PlacesOf(rs, k) && CompleteOf(rs, k) <= PlacesOf(rs, k)
  {}

  lemma NoPlaces(k: string)
    ensures PlacesOf([], k) == {} && CompleteOf([], k) == {}
  {}

  // A tally is three numbers: how many records the group has, how many of them are complete, and
  // how many are not.
  lemma {:induction false} CountedIs(rs: seq<Rec>, k: string)
    ensures var t := Counted(rs, k);
      && t.records == |PlacesOf(rs, k)| && t.complete == |CompleteOf(rs, k)|
      && t.missing == |PlacesOf(rs, k) - CompleteOf(rs, k)|
    decreases |rs|
  {
    hide PlacesOf, CompleteOf;
    if rs == [] {
      NoPlaces(k);
    } else {
      var init, r := rs[..|rs| - 1], rs[|rs| - 1];
      assert rs == init + [r];
      CountedIs(init, k);
      PlacesSnoc(init, r, k);
      OneMorePlace(PlacesOf(init, k), CompleteOf(init, k), |init|, r.source == k, r.complete);
    }
  }

  lemma OneMorePlace(places: set<nat>, done: set<nat>, n: nat, here: bool, complete: bool)
    requires n !in places && done <= places
    ensures var more := places + if here then {n} else {}; var dones := done + if here && complete then {n} else {};
      && |more| == |places| + (if here then 1 else 0) && |dones| == |done| + (if here && complete then 1 else 0)
      && |more - dones| == |places - done| + (if here && !complete then 1 else 0)
  {
    var more, dones := places + (if here then {n} else {}), done + if here && complete then {n} else {};
    assert more - dones == (places - done) + if here && !complete then {n} else {};
  }

  lemma OldStep(s: Cov, r: Rec)
    requires r.version == 1
    ensures CoverStep(s, r).counts == Bump(s.counts, r.source, r) && CoverStep(s, r).pending == s.pending
  {
    hide Bump, Merge;
  }

  // Records of schema 1 belong to no frame and are counted as they come.
  lemma {:induction false} OldCounted(rs: seq<Rec>, k: string)
    requires forall r :: r in rs ==> r.version == 1
    ensures Of(CoverAll(rs).counts, k) == Counted(rs, k) && CoverAll(rs).pending == map[]
    decreases |rs|
  {
    hide Bump, Plus, One, Of, CoverStep, Merge;
    if rs == [] {
      NothingAt(k);
    } else {
      var init, r := rs[..|rs| - 1], rs[|rs| - 1];
      assert r in rs && forall q :: q in init ==> q in rs;
      OldCounted(init, k);
      OldStep(CoverAll(init), r);
      BumpAt(CoverAll(init).counts, r, k);
    }
  }

  lemma CountedSnoc(rs: seq<Rec>, r: Rec, k: string)
    ensures Counted(rs + [r], k) == if r.source == k then Plus(Counted(rs, k), One(r)) else Counted(rs, k)
  {
    assert (rs + [r])[..|rs|] == rs;
    hide Plus, One;
  }

  lemma PlusFacts(a: Tally, b: Tally, c: Tally)
    ensures Plus(Plus(a, b), c) == Plus(a, Plus(b, c)) && Plus(a, NONE) == a && Plus(NONE, a) == a
  {}

  lemma {:induction false} CountedAppends(a: seq<Rec>, b: seq<Rec>, k: string)
    ensures Counted(a + b, k) == Plus(Counted(a, k), Counted(b, k))
    decreases |b|
  {
    hide Counted, Plus, One;
    if b == [] {
      assert a + b == a;
      CountedNothing(k);
      PlusFacts(Counted(a, k), NONE, NONE);
    } else {
      var n := |b| - 1;
      CountedAppends(a, b[..n], k);
      assert b[..n] + [b[n]] == b && a + b[..n] + [b[n]] == a + b;
      CountedSnoc(b[..n], b[n], k);
      CountedSnoc(a + b[..n], b[n], k);
      PlusFacts(Counted(a, k), Counted(b[..n], k), One(b[n]));
    }
  }

  lemma CountedNothing(k: string)
    ensures Counted([], k) == NONE
  {}

  // Over framed records the counts are those of the committed frames, group by group, and
  // the tail after the last frame stays pending.
  ghost predicate Covered(rs: seq<Rec>, s: Cov, k: string) {
    && Of(s.counts, k) == Counted(rs[..CutAt(rs)], k)
    && Of(s.pending, k) == Counted(rs[CutAt(rs)..], k)
  }

  lemma {:induction false} CoverCountsCommitted(rs: seq<Rec>, k: string)
    requires AllClean(rs) && Framed(rs)
    ensures Covered(rs, CoverAll(rs), k)
    ensures CoverAll(rs).pendingId == if CutAt(rs) == |rs| then "" else rs[|rs| - 1].id
    ensures CutAt(rs) == |rs| ==> CoverAll(rs).pending == map[]
    decreases |rs|
  {
    if rs != [] {
      var init, r := rs[..|rs| - 1], rs[|rs| - 1];
      assert rs == init + [r] && AllClean(init) && Clean(r);
      FramedSnoc(init, r);
      CoverCountsCommitted(init, k);
      CoverSnoc(init, r, CoverAll(init), k);
    }
  }

  lemma CoverSnoc(rs: seq<Rec>, r: Rec, s: Cov, k: string)
    requires AllClean(rs) && Clean(r) && Follows(rs, r) && Covered(rs, s, k)
    requires s.pendingId == if CutAt(rs) == |rs| then "" else rs[|rs| - 1].id
    requires CutAt(rs) == |rs| ==> s.pending == map[]
    ensures Covered(rs + [r], CoverStep(s, r), k)
    ensures CoverStep(s, r).pendingId == if CutAt(rs + [r]) == |rs| + 1 then "" else r.id
    ensures CutAt(rs + [r]) == |rs| + 1 ==> CoverStep(s, r).pending == map[]
  {
    hide Counted, Plus, One, Bump, Merge, Of, CutAt, Follows;
    var more, cut := rs + [r], CutAt(rs);
    CutSnoc(rs, r);
    Pieces(rs, r, cut);
    FollowsPending(rs, r);
    var p := if s.pendingId != r.id then map[] else s.pending;
    assert p == s.pending;
    var q := Bump(s.pending, r.source, r);
    BumpAt(s.pending, r, k);
    CountedSnoc(rs[cut..], r, k);
    assert Of(q, k) == Counted(rs[cut..] + [r], k);
    if r.kind.FrameEnd? {
      MergeAt(s.counts, q, k);
      CountedAppends(rs[..cut], rs[cut..] + [r], k);
      CountedNothing(k);
      NothingAt(k);
    }
  }

  lemma Pieces(rs: seq<Rec>, r: Rec, cut: nat)
    requires cut <= |rs|
    ensures var more := rs + [r];
      && rs[..cut] + (rs[cut..] + [r]) == more && more[..|rs| + 1] == more && more[|rs| + 1..] == []
      && more[..cut] == rs[..cut] && more[cut..] == rs[cut..] + [r]
  {}

  lemma CutSnoc(rs: seq<Rec>, r: Rec)
    ensures CutAt(rs + [r]) == if r.kind.FrameEnd? then |rs| + 1 else CutAt(rs)
  {
    assert (rs + [r])[..|rs|] == rs;
  }

  lemma FollowsPending(rs: seq<Rec>, r: Rec)
    requires AllClean(rs) && Clean(r) && Follows(rs, r)
    ensures CutAt(rs) < |rs| ==> rs[|rs| - 1].id == r.id
    ensures r.kind.FrameEnd? ==> r.complete
  {
    if rs != [] { assert Clean(rs[|rs| - 1]); }
  }

  lemma BumpAt(m: Tallies, r: Rec, k: string)
    ensures Of(Bump(m, r.source, r), k) == if r.source == k then Plus(Of(m, k), One(r)) else Of(m, k)
  {}

  lemma MergeAt(a: Tallies, b: Tallies, k: string)
    ensures Of(Merge(a, b), k) == Plus(Of(a, k), Of(b, k))
  {
    hide Plus;
    PlusFacts(NONE, NONE, NONE);
    if k in a.Keys + b.Keys { assert Merge(a, b)[k] == Plus(Of(a, k), Of(b, k)); }
  }

  lemma NothingAt(k: string)
    ensures Of(map[], k) == NONE
  {}

  // ---- totals ----

  // All records counted, over every group.
  ghost function Sum(m: Tallies): nat {
    if m == map[] then 0
    else var k :| k in m; m[k].records + Sum(m - {k})
  }

  lemma {:induction false} SumWithout(m: Tallies, k: string)
    requires k in m
    ensures Sum(m) == m[k].records + Sum(m - {k})
    decreases |m|
  {
    var j :| j in m && Sum(m) == m[j].records + Sum(m - {j});
    if j != k {
      SumWithout(m - {j}, k);
      SumWithout(m - {k}, j);
      assert m - {j} - {k} == m - {k} - {j};
    }
  }

  lemma PlusRecords(a: Tally, b: Tally, r: Rec)
    ensures Plus(a, b).records == a.records + b.records && One(r).records == 1 && NONE.records == 0
  {}

  lemma OfIs(m: Tallies, k: string)
    ensures Of(m, k) == if k in m then m[k] else NONE
  {}

  lemma SumBump(m: Tallies, r: Rec)
    ensures Sum(Bump(m, r.source, r)) == Sum(m) + 1
  {
    hide Plus, One, Of, Sum;
    var n := Bump(m, r.source, r);
    SumWithout(n, r.source);
    OfIs(m, r.source);
    PlusRecords(Of(m, r.source), One(r), r);
    assert n - {r.source} == m - {r.source};
    if r.source in m { SumWithout(m, r.source); } else { assert m - {r.source} == m; }
  }

  lemma MergeWithout(a: Tallies, b: Tallies, k: string)
    requires k in b
    ensures k in Merge(a, b) && Merge(a, b) - {k} == Merge(a - {k}, b - {k})
    ensures Merge(a, b)[k] == Plus(Of(a, k), b[k])
  {
    hide Plus;
    forall j | j in b.Keys + a.Keys && j != k ensures Of(a - {k}, j) == Of(a, j) && Of(b - {k}, j) == Of(b, j) {}
  }

  lemma MergeNothing(a: Tallies)
    ensures Merge(a, map[]) == a
  {
    hide Plus, Of;
    forall k | k in a ensures Merge(a, map[])[k] == a[k] {
      OfIs(a, k);
      OfIs(map[], k);
      PlusFacts(a[k], NONE, NONE);
    }
  }

  lemma {:induction false} SumMerge(a: Tallies, b: Tallies)
    ensures Sum(Merge(a, b)) == Sum(a) + Sum(b)
    decreases |b|
  {
    hide Plus, One, Of, Sum, Merge;
    if b == map[] {
      MergeNothing(a);
      NothingSums();
    } else {
      var k :| k in b;
      MergeWithout(a, b, k);
      SumWithout(b, k);
      SumWithout(Merge(a, b), k);
      SumMerge(a - {k}, b - {k});
      OfIs(a, k);
      PlusRecords(Of(a, k), b[k], Rec(2, Source, "", "", true));
      if k in a { SumWithout(a, k); } else { assert a - {k} == a; }
    }
  }

  lemma {:induction false} SumIsCommitted(rs: seq<Rec>)
    requires AllClean(rs) && Framed(rs)
    ensures var s := CoverAll(rs); Sum(s.counts) == CutAt(rs) && Sum(s.pending) == |rs| - CutAt(rs)
    decreases |rs|
  {
    hide Sum, Bump, Merge, Follows, CutAt;
    if rs != [] {
      var init, r := rs[..|rs| - 1], rs[|rs| - 1];
      assert rs == init + [r] && AllClean(init) && Clean(r);
      FramedSnoc(init, r);
      SumIsCommitted(init);
      CoverCountsCommitted(init, "");
      CutSnoc(init, r);
      FollowsPending(init, r);
      var s := CoverAll(init);
      SumBump(s.pending, r);
      SumMerge(s.counts, Bump(s.pending, r.source, r));
      NothingSums();
    } else {
      NothingSums();
      CutNothing();
    }
  }

  lemma NothingSums()
    ensures Sum(map[]) == 0
  {}

  lemma CutNothing()
    ensures CutAt([]) == 0
  {}

  // ---- agreement with repair ----

  const SEP := "atop/SEP"

  // Only the committing record is filed under SEP.
  predicate SepMarks(rs: seq<Rec>) { forall r :: r in rs ==> (r.source == SEP <==> r.kind.FrameEnd?) }

  lemma {:induction false} SepCounts(rs: seq<Rec>)
    requires SepMarks(rs)
    ensures Counted(rs, SEP).records == Frames(rs)
    decreases |rs|
  {
    if rs != [] {
      var init, r := rs[..|rs| - 1], rs[|rs| - 1];
      assert SepMarks(init) && r in rs;
      SepCounts(init);
    }
  }

  lemma {:induction false} SourcesAndFrames(rs: seq<Rec>)
    requires AllClean(rs)
    ensures Sources(rs) + Frames(rs) == |rs|
    decreases |rs|
  {
    if rs != [] {
      assert Clean(rs[|rs| - 1]);
      SourcesAndFrames(rs[..|rs| - 1]);
    }
  }

  lemma {:induction false} FramesBeforeCut(rs: seq<Rec>)
    ensures Frames(rs[..CutAt(rs)]) == Frames(rs)
    decreases |rs|
  {
    if rs != [] {
      var init := rs[..|rs| - 1];
      if rs[|rs| - 1].kind.FrameEnd? { assert rs[..|rs|] == rs; }
      else { FramesBeforeCut(init); assert init[..CutAt(init)] == rs[..CutAt(rs)]; }
    }
  }

  // The totals of coverage over framed records: one SEP per frame, and the sources of the frames.
  lemma CoverageTotals(rs: seq<Rec>)
    requires AllClean(rs) && Framed(rs) && SepMarks(rs) && DistinctFrames(rs)
    ensures Feed(rs).Some?
    ensures var counts := CoverAll(rs).counts;
      && Of(counts, SEP).records == |Feed(rs).value.ids|
      && Sum(counts) - Of(counts, SEP).records == Feed(rs).value.sources
  {
    var cut := CutAt(rs);
    var done := rs[..cut];
    AcceptedIffFramed(rs);
    IdsAreFrames(rs);
    CoverCountsCommitted(rs, SEP);
    SumIsCommitted(rs);
    assert AllClean(done) && SepMarks(done) by { assert forall r :: r in done ==> r in rs; }
    SepCounts(done);
    FramesBeforeCut(rs);
    SourcesAndFrames(done);
    hide CutAt, Sum, Counted, Frames, Sources, Feed, CoverAll, Framed;
  }

  function DropReturn(l: Bytes): Bytes { if l != [] && l[|l| - 1] == RETURN then l[..|l| - 1] else l }

  function DecodeAll(c: Codec, ls: seq<Bytes>): Option<seq<Rec>> {
    if ls == [] then Some([])
    else
      var rs := DecodeAll(c, ls[..|ls| - 1]);
      var l := ls[|ls| - 1];
      var r := c.dec(DropReturn(l));
      if rs.None? || |l| + 1 > LINE_LIMIT || r.None? then None else Some(rs.value + [r.value])
  }

  // readRecords: every line, an unterminated last one too, without its carriage return.
  function ReadRecords(c: Codec, file: Bytes): Option<seq<Rec>> {
    DecodeAll(c, Lines(file) + if Tail(file) == [] then [] else [Tail(file)])
  }

  // A trailing carriage return is insignificant whitespace (RFC 8259, section 2).
  ghost predicate IgnoresReturn(c: Codec) { forall l :: c.dec(DropReturn(l)) == c.dec(l) }

  lemma {:induction false} RunsFeed(c: Codec, ls: seq<Bytes>)
    requires IgnoresReturn(c) && Runs(c, ls).Some?
    ensures DecodeAll(c, ls).Some? && Feed(DecodeAll(c, ls).value) == Runs(c, ls)
    decreases |ls|
  {
    hide Accept, AcceptLine, Feed, DropReturn;
    if ls == [] {
      FeedNothing();
    } else {
      var init, l := ls[..|ls| - 1], ls[|ls| - 1];
      RunsFeed(c, init);
      LineFeeds(c, Runs(c, init).value, l);
      FeedSnoc(DecodeAll(c, init).value, c.dec(l).value);
    }
  }

  lemma FeedNothing()
    ensures Feed([]) == Some(START)
  {}

  lemma LineFeeds(c: Codec, a: Auto, l: Bytes)
    requires IgnoresReturn(c) && AcceptLine(c, a, l).Some?
    ensures |l| + 1 <= LINE_LIMIT && c.dec(DropReturn(l)) == c.dec(l) && c.dec(l).Some?
    ensures AcceptLine(c, a, l) == Accept(a, c.dec(l).value)
  {
    hide Accept, DropReturn;
  }

  // Coverage over the file that repair leaves reads the records that repair accepted, and
  // reports the same number of frames and of committed source records.
  lemma CoverageAgreesWithRepair(c: Codec, file: Bytes)
    requires IgnoresReturn(c)
    ensures var read := ReadRecords(c, Repaired(c, file));
      read.Some? && Feed(read.value) == Some(Tallied(c, file))
    ensures var rs := ReadRecords(c, Repaired(c, file)).value;
      AllClean(rs) && SepMarks(rs) && DistinctFrames(rs) ==>
        var counts := CoverAll(rs).counts;
        && Of(counts, SEP).records == |Tallied(c, file).ids|
        && Sum(counts) - Of(counts, SEP).records == Tallied(c, file).sources
  {
    var out := Repaired(c, file);
    RepairIdempotent(c, file);
    RepairKeepsLongest(c, out, |Lines(out)|);
    assert Lines(out)[..|Lines(out)|] == Lines(out);
    assert Lines(out) + [] == Lines(out);
    RunsFeed(c, Lines(out));
    var rs := ReadRecords(c, out).value;
    if AllClean(rs) && SepMarks(rs) && DistinctFrames(rs) {
      AcceptedIffFramed(rs);
      CoverageTotals(rs);
    }
  }
}
