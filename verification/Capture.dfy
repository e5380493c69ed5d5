// The capture of a window task (internal/agent/window_task.go): append, sync, then
// publish the counters; and what recovery counts after a crash at any byte.
module Capture {
  import opened Records
  import opened FrameLog
  import opened FrameCoverage

  function Encoded(c: Codec, rs: seq<Rec>): (ls: seq<Bytes>)
    ensures |ls| == |rs|
  {
    if rs == [] then [] else Encoded(c, rs[..|rs| - 1]) + [c.enc(rs[|rs| - 1])]
  }

  // The bytes of the log after these records.
  function Log(c: Codec, rs: seq<Rec>): Bytes { Text(Encoded(c, rs)) }

  function Line(c: Codec, r: Rec): Bytes { c.enc(r) + [NEWLINE] }

  ghost predicate AllEncode(c: Codec, rs: seq<Rec>) { forall r :: r in rs ==> Encodes(c, r) }

  lemma LogSnoc(c: Codec, rs: seq<Rec>, r: Rec)
    ensures Encoded(c, rs + [r]) == Encoded(c, rs) + [c.enc(r)] && Log(c, rs + [r]) == Log(c, rs) + Line(c, r)
  {
    assert (rs + [r])[..|rs|] == rs;
    var ls := Encoded(c, rs);
    assert (ls + [c.enc(r)])[..|ls|] == ls;
  }

  lemma {:induction false} EncodedPlain(c: Codec, rs: seq<Rec>)
    requires AllEncode(c, rs)
    ensures forall l :: l in Encoded(c, rs) ==> Plain(l)
    decreases |rs|
  {
    if rs != [] {
      EncodedPlain(c, rs[..|rs| - 1]);
      assert Encodes(c, rs[|rs| - 1]);
    }
  }

  lemma {:induction false} EncodedRuns(c: Codec, rs: seq<Rec>)
    requires AllEncode(c, rs)
    ensures Runs(c, Encoded(c, rs)) == Feed(rs)
    decreases |rs|
  {
    if rs != [] {
      var init := rs[..|rs| - 1];
      EncodedRuns(c, init);
      assert Encodes(c, rs[|rs| - 1]);
      assert Encoded(c, rs)[..|rs| - 1] == Encoded(c, init);
    }
  }

  // Recovery over the log of framed records, with an unterminated tail, counts every frame.
  lemma LogCounts(c: Codec, rs: seq<Rec>, tail: Bytes)
    requires AllEncode(c, rs) && AllClean(rs) && Framed(rs) && Plain(tail)
    ensures Lines(Log(c, rs) + tail) == Encoded(c, rs)
    ensures Feed(rs) == Some(Tallied(c, Log(c, rs) + tail))
  {
    EncodedPlain(c, rs);
    EncodedRuns(c, rs);
    AcceptedIffFramed(rs);
    LinesOf(Encoded(c, rs), tail);
    var ls := Encoded(c, rs);
    assert ls[..|ls|] == ls;
    KeptIsLongest(c, ls, |ls|);
  }

  // A byte prefix of the log is the log of some first records and an unterminated tail.
  lemma {:induction false} LogPrefix(c: Codec, rs: seq<Rec>, torn: Bytes, m: nat, j: nat) returns (i: nat, tail: Bytes)
    requires AllEncode(c, rs) && Plain(torn) && j <= |rs|
    requires |Log(c, rs[..j])| <= m <= |Log(c, rs) + torn|
    ensures j <= i <= |rs| && Plain(tail) && (Log(c, rs) + torn)[..m] == Log(c, rs[..i]) + tail
    decreases |rs|
  {
    hide Log;
    var b := Log(c, rs) + torn;
    if m >= |Log(c, rs)| {
      i, tail := |rs|, torn[..m - |Log(c, rs)|];
      assert rs[..i] == rs;
      assert forall x :: x in tail ==> x in torn;
    } else {
      if rs == [] { LogOfNone(c); assert false; }
      var n := |rs| - 1;
      assert rs == rs[..n] + [rs[n]] && Encodes(c, rs[n]);
      assert rs[..|rs|] == rs;
      if j == |rs| { assert false; }
      LogSnoc(c, rs[..n], rs[n]);
      assert rs[..n][..j] == rs[..j];
      var line := c.enc(rs[n]);
      if m >= |Log(c, rs[..n])| {
        i, tail := n, line[..m - |Log(c, rs[..n])|];
        assert forall x :: x in tail ==> x in line;
      } else {
        assert AllEncode(c, rs[..n]) by { assert forall r :: r in rs[..n] ==> r in rs; }
        assert Log(c, rs[..n]) + [] == Log(c, rs[..n]);
        i, tail := LogPrefix(c, rs[..n], [], m, j);
        assert rs[..n][..i] == rs[..i];
        assert b[..m] == Log(c, rs[..n])[..m];
      }
    }
  }

  lemma LogOfNone(c: Codec)
    ensures Log(c, []) == []
  {}

  lemma {:induction false} Monotone(rs: seq<Rec>, k: nat)
    requires k <= |rs|
    ensures Sources(rs[..k]) <= Sources(rs) && Frames(rs[..k]) <= Frames(rs)
    decreases |rs|
  {
    if k == |rs| { assert rs[..k] == rs; }
    else { Monotone(rs[..|rs| - 1], k); assert rs[..|rs| - 1][..k] == rs[..k]; }
  }

  lemma {:induction false} FramedPrefix(rs: seq<Rec>, k: nat)
    requires k <= |rs| && AllClean(rs) && Framed(rs)
    ensures AllClean(rs[..k]) && Framed(rs[..k])
  {
    forall i | 0 <= i < k ensures Follows(rs[..k][..i], rs[..k][i]) {
      assert Follows(rs[..i], rs[i]) && rs[..k][..i] == rs[..i];
    }
  }

  // A frame that ends at k is before the cut of every longer prefix.
  lemma CutCovers(rs: seq<Rec>, k: nat, i: nat)
    requires k <= i <= |rs| && (k == 0 || rs[k - 1].kind.FrameEnd?)
    ensures k <= CutAt(rs[..i]) <= i
  {
    if k > 0 { assert rs[..i][k - 1].kind.FrameEnd?; }
  }

  lemma TornIsPlain(c: Codec, r: Rec, n: nat)
    requires Encodes(c, r) && n < |Line(c, r)|
    ensures Plain(Line(c, r)[..n])
  {
    assert Line(c, r)[..n] == c.enc(r)[..n];
    assert forall x :: x in c.enc(r)[..n] ==> x in c.enc(r);
  }

  ghost predicate GoodRecords(c: Codec, rs: seq<Rec>) {
    AllEncode(c, rs) && AllClean(rs) && Framed(rs) && DistinctFrames(rs)
  }

  // A record the parser emits next.
  ghost predicate Next(c: Codec, rs: seq<Rec>, r: Rec) {
    Clean(r) && Encodes(c, r) && Follows(rs, r) && (r.kind.FrameEnd? ==> r.id !in FrameIds(rs))
  }

  lemma Grown(c: Codec, rs: seq<Rec>, r: Rec)
    requires GoodRecords(c, rs) && Next(c, rs, r)
    ensures GoodRecords(c, rs + [r])
  {
    FramedSnoc(rs, r);
    hide Framed, Follows;
    var more := rs + [r];
    if r.kind.FrameEnd? {
      forall i | 0 <= i < |rs| && more[i].kind.FrameEnd? ensures more[i].id != r.id { assert rs[i] in rs; }
    }
  }

  lemma Prefixes(rs: seq<Rec>, r: Rec)
    ensures forall k :: 0 <= k <= |rs| ==> (rs + [r])[..k] == rs[..k]
    ensures (rs + [r])[..|rs| + 1] == rs + [r]
  {}

  lemma Counts(c: Codec, rs: seq<Rec>, r: Rec)
    requires GoodRecords(c, rs)
    ensures var more := rs + [r];
      && CutAt(more) == (if r.kind.FrameEnd? then |more| else CutAt(rs))
      && Frames(rs) == Frames(rs[..CutAt(rs)])
      && Sources(rs) == Sources(rs[..CutAt(rs)]) + |rs| - CutAt(rs)
      && Sources(more) == Sources(rs) + (if r.kind.Source? then 1 else 0)
      && Frames(more) == Frames(rs) + (if r.kind.FrameEnd? then 1 else 0)
  {
    CutSnoc(rs, r);
    FramesBeforeCut(rs);
    PendingAreSources(rs);
    assert (rs + [r])[..|rs|] == rs;
  }

  // How the calls of one emit come out; `wrote` bytes of the line reach the file if the append fails.
  datatype Io = Io(append: bool, wrote: nat, sync: bool, saved: bool)

  // The log and the counters; and as history the records in the file, an unfinished line
  // after them, how many are synced, how many are counted, how many of those memory shows,
  // and whether a frame_end was counted whose sync failed.
  datatype View = View(file: Bytes, synced: nat, sources: nat, points: nat, pending: nat, shownSources: nat,
    shownPoints: nat,
                       stopped: bool, written: seq<Rec>, torn: Bytes, durable: nat, counted: nat, shown: nat,
                           unsynced: bool)

  ghost predicate GoodBytes(c: Codec, v: View) {
    && v.file == Log(c, v.written) + v.torn && Plain(v.torn)
    && v.durable <= |v.written| && v.synced == |Log(c, v.written[..v.durable])|
  }

  ghost predicate GoodCounts(v: View) {
    && v.durable <= |v.written| && v.shown <= v.counted <= |v.written|
    && (v.counted == 0 || v.written[v.counted - 1].kind.FrameEnd?) &&
        (v.shown == 0 || v.written[v.shown - 1].kind.FrameEnd?)
    && v.sources == Sources(v.written[..v.counted]) && v.points == Frames(v.written[..v.counted])
    && v.shownSources == Sources(v.written[..v.shown]) && v.shownPoints == Frames(v.written[..v.shown])
    && (!v.stopped ==>
        v.torn == [] && !v.unsynced && v.counted == CutAt(v.written) && v.pending == |v.written| - v.counted)
    && (if v.unsynced then v.durable < v.counted else v.counted <= v.durable)
  }

  ghost predicate Good(c: Codec, v: View) { GoodRecords(c, v.written) && GoodBytes(c, v) && GoodCounts(v) }

  lemma EmptyGood(c: Codec)
    ensures Good(c, View([], 0, 0, 0, 0, 0, 0, false, [], [], 0, 0, 0, false))
  {}

  // ---- one emit ----

  function Tore(c: Codec, v: View, r: Rec, n: nat): View
    requires n < |Line(c, r)|
  {
    v.(file := v.file + Line(c, r)[..n], torn := Line(c, r)[..n], stopped := true)
  }

  lemma ToreGood(c: Codec, v: View, r: Rec, n: nat)
    requires Good(c, v) && !v.stopped && Next(c, v.written, r) && n < |Line(c, r)|
    ensures Good(c, Tore(c, v, r, n))
  {
    hide GoodRecords, Log, Line;
    TornIsPlain(c, r, n);
  }

  function Wrote(c: Codec, v: View, r: Rec): View {
    v.(file := v.file + Line(c, r), written := v.written + [r],
       pending := v.pending + if r.kind.Source? then 1 else 0)
  }

  lemma WroteBytes(c: Codec, v: View, r: Rec)
    requires Good(c, v) && !v.stopped && Next(c, v.written, r)
    ensures GoodRecords(c, v.written + [r]) && GoodBytes(c, Wrote(c, v, r))
  {
    hide GoodRecords, Log, Sources, Frames, CutAt, Line;
    Grown(c, v.written, r);
    Prefixes(v.written, r);
    LogSnoc(c, v.written, r);
  }

  lemma WroteCounts(c: Codec, v: View, r: Rec)
    requires Good(c, v) && !v.stopped && Next(c, v.written, r)
    ensures r.kind.Source? ==> GoodCounts(Wrote(c, v, r))
    ensures GoodCounts(Wrote(c, v, r).(stopped := true))
  {
    hide GoodRecords, GoodBytes, Log, Sources, Frames, CutAt, Line, Next;
    Counts(c, v.written, r);
    Prefixes(v.written, r);
    var w := v.written + [r];
    assert forall k :: 0 <= k < |v.written| ==> w[k] == v.written[k];
  }

  lemma WroteGood(c: Codec, v: View, r: Rec)
    requires Good(c, v) && !v.stopped && Next(c, v.written, r)
    ensures r.kind.Source? ==> Good(c, Wrote(c, v, r))
    ensures Good(c, Wrote(c, v, r).(stopped := true))
  {
    WroteBytes(c, v, r);
    WroteCounts(c, v, r);
    hide GoodRecords, GoodCounts, Log, Line;
  }

  lemma OpenFacts(c: Codec, v: View, r: Rec)
    requires Good(c, v) && !v.stopped && Next(c, v.written, r)
    ensures v.shown <= v.durable && !v.unsynced && v.torn == [] && !r.kind.Other?
    ensures v.file + Line(c, r) == Log(c, v.written + [r])
  {
    LogSnoc(c, v.written, r);
    hide GoodRecords, Log, Line;
  }

  function Ended(v: View): View {
    v.(sources := v.sources + v.pending, points := v.points + 1, pending := 0, counted := |v.written|)
  }

  lemma EndedGood(c: Codec, v: View, r: Rec, stopped: bool)
    requires Good(c, v) && !v.stopped && Next(c, v.written, r) && r.kind.FrameEnd?
    ensures GoodRecords(c, v.written + [r])
    ensures var e := Ended(Wrote(c, v, r));
      && Good(c, e.(unsynced := true, stopped := true))
      && Good(c, Shown(e.(synced := |e.file|, durable := |e.written|, stopped := stopped)))
  {
    hide GoodRecords, Log, Sources, Frames, CutAt, Line;
    Grown(c, v.written, r);
    Counts(c, v.written, r);
    Prefixes(v.written, r);
    LogSnoc(c, v.written, r);
  }

  function Shown(v: View): View { v.(shownSources := v.sources, shownPoints := v.points, shown := v.counted) }

  lemma ShownGood(c: Codec, v: View)
    requires Good(c, v)
    ensures Good(c, Shown(v).(stopped := true)) && v.shownSources <= v.sources && v.shownPoints <= v.points
  {
    hide GoodRecords, Log, Sources, Frames, CutAt;
    var rs := v.written[..v.counted];
    Monotone(rs, v.shown);
    assert rs[..v.shown] == v.written[..v.shown];
  }

  class Window {
    const c: Codec
    var file: Bytes
    var synced: nat
    var sources: nat
    var points: nat
    var pending: nat
    var shownSources: nat
    var shownPoints: nat
    var stopped: bool
    ghost var written: seq<Rec>
    ghost var torn: Bytes
    ghost var durable: nat
    ghost var counted: nat
    ghost var shown: nat
    ghost var unsynced: bool

    ghost function State(): View
      reads this
    {
      View(file, synced, sources, points, pending, shownSources, shownPoints, stopped, written, torn, durable, counted,
          shown, unsynced)
    }

    ghost predicate Valid()
      reads this
    {
      Good(c, State())
    }

    // Memory shows a frame that was never synced.
    ghost predicate Ahead()
      reads this
    {
      shown > durable
    }

    constructor (c: Codec)
      ensures Valid() && this.c == c && !stopped && written == [] && !Ahead()
    {
      hide Good;
      this.c := c;
      file, synced, sources, points, pending := [], 0, 0, 0, 0;
      shownSources, shownPoints, stopped := 0, 0, false;
      written, torn, durable, counted, shown, unsynced := [], [], 0, 0, 0, false;
      new;
      EmptyGood(c);
    }

    // An append that failed: some bytes of the line may be in the file.
    method Break(r: Rec, wrote: nat)
      requires Valid() && !stopped && Next(c, written, r)
      modifies this`file, this`torn, this`written, this`pending, this`stopped
      ensures Valid() && stopped && !Ahead()
    {
      hide Good, GoodRecords, GoodBytes, GoodCounts, Next, Log, Line, Sources, Frames, CutAt;
      var line := Line(c, r);
      OpenFacts(c, State(), r);
      WroteGood(c, State(), r);
      stopped := true;
      if wrote < |line| {
        ToreGood(c, old(State()), r, wrote);
        file := file + line[..wrote];
        torn := line[..wrote];
      } else {
        file := file + line;
        written := written + [r];
        pending := pending + if r.kind.Source? then 1 else 0;
      }
    }

    method Write(r: Rec)
      modifies this`file, this`written, this`pending
      ensures State() == Wrote(c, old(State()), r)
    {
      file := file + Line(c, r);
      written := written + [r];
      if r.kind.Source? { pending := pending + 1; }
    }

    // The frame is counted.
    method Count()
      modifies this`sources, this`points, this`pending, this`counted
      ensures State() == Ended(old(State()))
    {
      sources := sources + pending;
      pending := 0;
      points := points + 1;
      counted := |written|;
    }

    method Sync()
      modifies this`synced, this`durable
      ensures State() == old(State()).(synced := |old(file)|, durable := |old(written)|)
    {
      synced, durable := |file|, |written|;
    }

    // publish: memory shows the counters; a write that failed ends the session.
    method Show(stop: bool)
      modifies this`shownSources, this`shownPoints, this`shown, this`stopped
      ensures State() == Shown(old(State()).(stopped := stop))
    {
      shownSources, shownPoints, shown := sources, points, counted;
      stopped := stop;
    }

    // The callback of runWindow: append, sync, publish. An error ends the session.
    method Emit(r: Rec, io: Io) returns (ok: bool)
      requires Valid() && !stopped && Next(c, written, r)
      modifies this
      ensures Valid() && stopped == !ok && (ok <==> io.append && (r.kind.FrameEnd? ==> io.sync && io.saved))
      ensures io.append ==> written == old(written) + [r] && file == Log(c, written)
      // The counters move exactly at a frame_end, and memory shows them only after its sync.
      ensures if io.append && r.kind.FrameEnd? then points == old(points) + 1 && sources == old(sources) + old(pending)
              else points == old(points) && sources == old(sources)
      ensures if io.append && r.kind.FrameEnd? && io.sync
        then shownPoints == points && shownSources == sources && synced == |file|
              else shownPoints == old(shownPoints) && shownSources == old(shownSources) && synced == old(synced)
      ensures unsynced == (io.append && r.kind.FrameEnd? && !io.sync)
      // What a reader was shown before is never more than what is shown now.
      ensures old(shownSources) <= shownSources && old(shownPoints) <= shownPoints
      ensures !Ahead()
    {
      hide Good, GoodRecords, GoodBytes, GoodCounts, Next, Log, Line, Sources, Frames, CutAt;
      ghost var v := State();
      ShownGood(c, v);
      OpenFacts(c, v, r);
      WroteGood(c, v, r);
      if r.kind.FrameEnd? { EndedGood(c, v, r, !io.saved); }
      if !io.append { Break(r, io.wrote); return false; }
      Write(r);
      if r.kind.Source? { return true; }
      Count();
      if !io.sync {
        unsynced, stopped := true, true;
        return false;
      }
      Sync();
      Show(!io.saved);
      return io.saved;
    }

    // The session is over: the packaging publish shows the counters as they stand.
    method Finish()
      requires Valid()
      modifies this`stopped, this`shownSources, this`shownPoints, this`shown
      ensures Valid() && stopped
      ensures old(shownSources) <= shownSources == sources && old(shownPoints) <= shownPoints == points
      ensures Ahead() <==> unsynced
    {
      hide GoodRecords, GoodBytes, Log, Sources, Frames;
      ShownGood(c, State());
      Show(true);
    }
  }

  // ---- crashes ----

  lemma Recovered(c: Codec, rs: seq<Rec>, i: nat, tail: Bytes)
    requires GoodRecords(c, rs) && i <= |rs| && Plain(tail)
    ensures var q := rs[..i]; var a := Tallied(c, Log(c, q) + tail);
      a.sources == Sources(q[..CutAt(q)]) && |a.ids| == Frames(q)
  {
    var q := rs[..i];
    FramedPrefix(rs, i);
    assert AllEncode(c, q) by { assert forall r :: r in q ==> r in rs; }
    assert DistinctFrames(q);
    LogCounts(c, q, tail);
    AcceptedIffFramed(q);
    IdsAreFrames(q);
    hide Log, Framed, CutAt, Frames, Sources, Feed;
  }

  // The counts at an earlier frame end are no larger than those of any longer prefix.
  lemma EarlierCounts(rs: seq<Rec>, k: nat, i: nat)
    requires k <= i <= |rs| && (k == 0 || rs[k - 1].kind.FrameEnd?)
    ensures var q := rs[..i]; Sources(rs[..k]) <= Sources(q[..CutAt(q)]) && Frames(rs[..k]) <= Frames(q)
  {
    CutCovers(rs, k, i);
    hide CutAt, Sources, Frames;
    var q := rs[..i];
    assert rs[..k] == q[..k] == q[..CutAt(q)][..k];
    Monotone(q, k);
    Monotone(q[..CutAt(q)], k);
  }

  // A crash keeps the synced bytes and any byte prefix of the rest. Unless memory ran ahead
  // of the last sync, recovery counts at least what any reader was shown.
  lemma NoVisibleFrameLost(c: Codec, v: View, m: nat)
    requires Good(c, v) && v.shown <= v.durable && v.synced <= m <= |v.file|
    ensures Tallied(c, v.file[..m]).sources >= v.shownSources && |Tallied(c, v.file[..m]).ids| >= v.shownPoints
  {
    hide Tallied, Log, CutAt, Sources, Frames, AllClean, Framed, DistinctFrames, AllEncode;
    assert AllEncode(c, v.written);
    var i, tail := LogPrefix(c, v.written, v.torn, m, v.durable);
    Recovered(c, v.written, i, tail);
    EarlierCounts(v.written, v.shown, i);
  }

  // When memory did run ahead, the crash that keeps the synced bytes alone loses a frame
  // that was shown.
  lemma AheadLoses(c: Codec, v: View)
    requires Good(c, v) && v.shown > v.durable
    ensures v.synced <= |v.file| && |Tallied(c, v.file[..v.synced]).ids| < v.shownPoints
  {
    hide Tallied, Log, CutAt, Sources, AllClean, Framed, DistinctFrames, AllEncode;
    Recovered(c, v.written, v.durable, []);
    LogParts(c, v.written, v.durable);
    var rs := v.written[..v.durable];
    assert Log(c, rs) + [] == Log(c, rs) == v.file[..v.synced];
    var before := v.written[..v.shown - 1];
    assert v.written[..v.shown][..v.shown - 1] == before && before[..v.durable] == rs;
    Monotone(before, v.durable);
  }

  lemma {:induction false} LogParts(c: Codec, rs: seq<Rec>, k: nat)
    requires k <= |rs|
    ensures |Log(c, rs[..k])| <= |Log(c, rs)| && Log(c, rs)[..|Log(c, rs[..k])|] == Log(c, rs[..k])
    decreases |rs|
  {
    hide Log;
    if k == |rs| { assert rs[..k] == rs; }
    else {
      var n := |rs| - 1;
      LogParts(c, rs[..n], k);
      assert rs[..n][..k] == rs[..k] && rs == rs[..n] + [rs[n]];
      LogSnoc(c, rs[..n], rs[n]);
    }
  }

  // ---- a session that does lose a frame ----

  const SAMPLE := Rec(2, Source, "f", "CPU", true)
  const CLOSE := Rec(2, FrameEnd, "f", "SEP", true)

  // A codec for these two records.
  function Enc(r: Rec): Bytes { if r.kind.FrameEnd? then [1] else [0] }
  function Dec(b: Bytes): Option<Rec> { if b == [0] then Some(SAMPLE) else if b == [1] then Some(CLOSE) else None }

  lemma FrameFollows(c: Codec)
    requires c == Codec(Dec, Enc)
    ensures Next(c, [], SAMPLE) && Next(c, [SAMPLE], CLOSE)
  {
    assert [SAMPLE][..0] == [];
    assert [SAMPLE][0].kind.Source?;
  }

  // One frame whose sync fails: the packaging publish shows it, and a crash that keeps the
  // synced bytes alone takes it back.
  method UnsyncedFrame() returns (w: Window)
    ensures fresh(w) && w.Valid() && w.Ahead() && w.shownPoints == 1 && w.synced <= |w.file|
    ensures Tallied(w.c, w.file[..w.synced]).ids == {}
  {
    w := new Window(Codec(Dec, Enc));
    FrameFollows(w.c);
    hide Good, Next, Tallied, Log;
    var more := w.Emit(SAMPLE, Io(true, 0, true, true));
    var synced := w.Emit(CLOSE, Io(true, 0, false, true));
    w.Finish();
    AheadLoses(w.c, w.State());
  }
}
