// The frame automaton over atop's parseable output (internal/agent/scenarios.go).
module AtopStream {
  import opened Records
  import opened AtopLine
  import FrameLog
  import FrameCoverage

  // ---- scenes and labels ----

  const ALL_SCENES: seq<string> := ["cpu", "io", "mem", "network"]

  function SceneLabels(scene: string): set<string> {
    if scene == "cpu" then {"CPU", "cpu", "CPL", "PRC", "PSI"}
    else if scene == "io" then {"DSK", "LVM", "MDD", "PRD", "PSI"}
    else if scene == "mem" then {"MEM", "SWP", "PAG", "PRM", "PSI"}
    else if scene == "network" then {"NET", "PRN"}
    else {}
  }

  function RequiredLabels(scene: string): set<string> {
    if scene == "cpu" then {"CPU", "cpu", "CPL", "PRC", "PSI"}
    else if scene == "io" then {"PRD", "PSI"}
    else if scene == "mem" then {"MEM", "SWP", "PAG", "PRM", "PSI"}
    else if scene == "network" then {"NET", "PRN"}
    else {}
  }

  function Wanted(scenes: seq<string>): seq<string> { if scenes == [] then ALL_SCENES else scenes }

  // labelsFor, as a set.
  function Selected(scenes: seq<string>): set<string> {
    {"PRG"} + set s, l | s in Wanted(scenes) && l in SceneLabels(s) :: l
  }

  // What completeLabels demands.
  function Required(scenes: seq<string>): set<string> {
    {"PRG"} + set s, l | s in Wanted(scenes) && l in RequiredLabels(s) :: l
  }

  // ---- records ----

  datatype Sample = Sample(end: bool, id: string, tag: string, epoch: int, interval: int, host: string, baseline: bool,
    row: Option<Row>)

  predicate SameFrame(a: Sample, b: Sample) {
    a.id == b.id && a.epoch == b.epoch && a.interval == b.interval && a.host == b.host && a.baseline == b.baseline
  }

  predicate Open(out: seq<Sample>) { out != [] && !out[|out| - 1].end }

  function Ids(out: seq<Sample>): set<string> { set r | r in out :: r.id }

  // The labels of the frame that is still open.
  function OpenTags(out: seq<Sample>): set<string> {
    if !Open(out) then {} else OpenTags(out[..|out| - 1]) + {out[|out| - 1].tag}
  }

  // The next record: one id, epoch, interval and host per frame; a frame begins with a fresh
  // id and a later epoch, the very first one as baseline; it ends with all its labels seen.
  predicate Fits(scenes: seq<string>, out: seq<Sample>, r: Sample) {
    var last := |out| - 1;
    if r.end then Open(out) && SameFrame(out[last], r) && r.row.None? && r.tag == "SEP" &&
        Required(scenes) <= OpenTags(out)
    else
      && r.row.Some? && r.tag in Selected(scenes)
      && if Open(out) then SameFrame(out[last], r)
         else r.id != "" && r.id !in Ids(out) && r.epoch > 0 && r.interval > 0 && r.baseline == (out == [])
              && (out != [] ==> r.epoch > out[last].epoch)
  }

  // Complete frames and at most one unfinished frame after them.
  predicate Shape(scenes: seq<string>, out: seq<Sample>) {
    forall i :: 0 <= i < |out| ==> Fits(scenes, out[..i], out[i])
  }

  lemma ShapeSnoc(scenes: seq<string>, out: seq<Sample>, r: Sample)
    requires Shape(scenes, out) && Fits(scenes, out, r)
    ensures Shape(scenes, out + [r])
  {
    var more := out + [r];
    hide Fits;
    forall i | 0 <= i < |more| ensures Fits(scenes, more[..i], more[i]) {
      if i < |out| { assert more[..i] == out[..i]; } else { assert more[..i] == out; }
    }
  }

  lemma Snoc(out: seq<Sample>, r: Sample)
    ensures Ids(out + [r]) == Ids(out) + {r.id}
    ensures OpenTags(out + [r]) == if r.end then {} else OpenTags(out) + {r.tag}
    ensures Open(out + [r]) == !r.end
    ensures Rows(out + [r]) == Rows(out) + EntriesOf(r)
    ensures Ends(out + [r]) == Ends(out) + if r.end then 1 else 0
  {
    assert (out + [r])[..|out|] == out;
    forall x ensures x in Ids(out + [r]) <==> x in Ids(out) + {r.id} {
      assert forall q :: q in out + [r] <==> q in out || q == r;
    }
  }

  // A row under its label, with host, epoch and interval.
  datatype Entry = Entry(tag: string, host: string, epoch: int, interval: int, row: Row)

  function EntriesOf(r: Sample): seq<Entry> {
    if r.row.Some? then [Entry(r.tag, r.host, r.epoch, r.interval, r.row.value)] else []
  }

  function Rows(out: seq<Sample>): seq<Entry> {
    if out == [] then [] else Rows(out[..|out| - 1]) + EntriesOf(out[|out| - 1])
  }

  function Ends(out: seq<Sample>): nat {
    if out == [] then 0 else Ends(out[..|out| - 1]) + if out[|out| - 1].end then 1 else 0
  }

  // ---- input ----

  // A scanned line; one that is not UTF-8 has no text.
  datatype Token = Text(s: string) | NotUtf8

  predicate IsRow(t: Token) { t.Text? && t.s != "RESET" && t.s != "SEP" }

  // What a line contributes: the first, second, third and sixth of its fields, and its row.
  function KeptOf(t: Token, threads: bool): seq<Entry> {
    if !IsRow(t) || !ParseRow(t.s, threads).Kept? then []
    else
      var f := SplitN(t.s, 7);
      var e, dt := ParseInt(f[2]), ParseInt(f[5]);
      if e.None? || dt.None? then [] else [Entry(f[0], f[1], e.value, dt.value, ParseRow(t.s, threads).row)]
  }

  // The rows kept of the first lines, in order.
  function KeptRows(lines: seq<Token>, threads: bool): seq<Entry> {
    if lines == [] then [] else KeptRows(lines[..|lines| - 1], threads) + KeptOf(lines[|lines| - 1], threads)
  }

  function Seps(lines: seq<Token>): nat {
    if lines == [] then 0 else Seps(lines[..|lines| - 1]) + if lines[|lines| - 1] == Text("SEP") then 1 else 0
  }

  datatype Result = Fine | BadFormat | SinkFailed

  // Fresh ids: never empty, never twice.
  ghost predicate Fresh(ids: nat -> string) {
    (forall i :: ids(i) != "") && forall i, j :: i != j ==> ids(i) != ids(j)
  }

  // ---- the parser's variables against what it has emitted ----

  datatype Vars = Vars(id: string, baseline: bool, first: bool, epoch: int, interval: int, host: string, records: nat,
    seen: set<string>, used: nat)

  ghost predicate Agree(v: Vars, out: seq<Sample>, ids: nat -> string) {
    && (forall x :: x in Ids(out) ==> exists j :: 0 <= j < v.used && ids(j) == x)
    && (v.first <==> Ends(out) == 0)
    && (!v.first && v.id == "" ==> out != [] && v.epoch == out[|out| - 1].epoch)
    && (if v.id == "" then !Open(out) && v.records == 0 && v.seen == {} && (!v.first ==> !v.baseline)
        else v.used > 0 && v.epoch > 0 && v.interval > 0 && v.baseline == v.first && v.id == ids(v.used - 1)
             && if v.records == 0 then
                   && v.seen == {} && !Open(out) && v.id !in Ids(out)
                   && (out != [] ==> v.epoch > out[|out| - 1].epoch)
                 else
                   && Open(out) && v.seen == OpenTags(out)
                   && SameFrame(out[|out| - 1], Sample(false, v.id, "", v.epoch, v.interval, v.host, v.baseline, None)))
    && (v.id == "" && v.first ==> out == [])
    && (!Open(out) && v.first ==> out == [])
  }

  lemma BeginAgrees(v: Vars, out: seq<Sample>, ids: nat -> string, e: int, dt: int, host: string)
    requires Fresh(ids) && Agree(v, out, ids) && v.id == "" && e > 0 && dt > 0
    requires (v.first ==> v.baseline) && (!v.first ==> e > v.epoch)
    ensures Agree(v.(id := ids(v.used), epoch := e, interval := dt, host := host, used := v.used + 1), out, ids)
  {
    hide OpenTags, Ends;
    var w := v.(id := ids(v.used), epoch := e, interval := dt, host := host, used := v.used + 1);
    forall x | x in Ids(out) ensures x != w.id && exists j :: 0 <= j < w.used && ids(j) == x {
      var j :| 0 <= j < v.used && ids(j) == x;
    }
  }

  function RowSample(v: Vars, tag: string, row: Row): Sample {
    Sample(false, v.id, tag, v.epoch, v.interval, v.host, v.baseline, Some(row))
  }

  lemma RowFits(scenes: seq<string>, v: Vars, out: seq<Sample>, ids: nat -> string, tag: string, row: Row)
    requires Fresh(ids) && Agree(v, out, ids) && v.id != "" && tag in Selected(scenes)
    ensures Fits(scenes, out, RowSample(v, tag, row))
    ensures Agree(v.(records := v.records + 1, seen := v.seen + {tag}), out + [RowSample(v, tag, row)], ids)
  {
    hide OpenTags, Ends, Selected, Ids;
    var r := RowSample(v, tag, row);
    Snoc(out, r);
    OpenTagsClosed(out);
    NoEnds();
    assert ids(v.used - 1) == v.id;
  }

  lemma NoEnds()
    ensures Ends([]) == 0
  {}

  lemma OpenTagsClosed(out: seq<Sample>)
    ensures !Open(out) ==> OpenTags(out) == {}
  {}

  function EndSample(v: Vars): Sample { Sample(true, v.id, "SEP", v.epoch, v.interval, v.host, v.baseline, None) }

  lemma EndFits(scenes: seq<string>, v: Vars, out: seq<Sample>, ids: nat -> string)
    requires Fresh(ids) && Agree(v, out, ids) && v.id != "" && v.records > 0 && Required(scenes) <= v.seen
    ensures Fits(scenes, out, EndSample(v))
    ensures Agree(v.(id := "", records := 0, seen := {}, baseline := false, first := false), out + [EndSample(v)], ids)
  {
    hide OpenTags, Ends, Required, Ids;
    Snoc(out, EndSample(v));
    assert ids(v.used - 1) == v.id;
  }

  lemma KeptSnoc(lines: seq<Token>, i: nat, threads: bool)
    requires i < |lines|
    ensures KeptRows(lines[..i + 1], threads) == KeptRows(lines[..i], threads) + KeptOf(lines[i], threads)
    ensures Seps(lines[..i + 1]) == Seps(lines[..i]) + if lines[i] == Text("SEP") then 1 else 0
  {
    assert lines[..i + 1][..i] == lines[..i];
  }

  predicate CompleteLabels(scenes: seq<string>, seen: set<string>) { Required(scenes) <= seen }

  // ---- which inputs are accepted ----

  // What the parser remembers, without ids and without what it emitted.
  datatype Reader = Reader(open: bool, baseline: bool, first: bool, epoch: int, interval: int, host: string,
    records: nat, seen: set<string>)

  const FRESH := Reader(false, false, true, 0, 0, "", 0, {})

  function ReadRow(scenes: seq<string>, threads: bool, v: Reader, line: string): Option<Reader> {
    var f := SplitN(line, 7);
    if |f| != 7 || f[0] !in Selected(scenes) then None
    else
      var e, dt := ParseInt(f[2]), ParseInt(f[5]);
      if e.None? || e.value <= 0 || dt.None? || dt.value <= 0 then None
      else if !v.open && ((v.first && !v.baseline) || (!v.first && e.value <= v.epoch)) then None
      else
        var w := if v.open then v else v.(open := true, epoch := e.value, interval := dt.value, host := f[1]);
        if e.value != w.epoch || dt.value != w.interval || f[1] != w.host then None
        else
          match ParseRow(line, threads)
          case Bad => None
          case Skipped => Some(w)
          case Kept(_) => Some(w.(records := w.records + 1, seen := w.seen + {f[0]}))
  }

  function Read(scenes: seq<string>, threads: bool, v: Reader, t: Token): Option<Reader> {
    if t.NotUtf8? || '\0' in t.s then None
    else if t.s == "RESET" then (if v.open || !v.first then None else Some(v.(baseline := true)))
    else if t.s == "SEP" then
      (if !v.open || v.records == 0 || !CompleteLabels(scenes, v.seen) then None
       else Some(v.(open := false, records := 0, seen := {}, baseline := false, first := false)))
    else ReadRow(scenes, threads, v, t.s)
  }

  function ReadAll(scenes: seq<string>, threads: bool, v: Reader, lines: seq<Token>): Option<Reader> {
    if lines == [] then Some(v)
    else
      var w := ReadAll(scenes, threads, v, lines[..|lines| - 1]);
      if w.None? then None else Read(scenes, threads, w.value, lines[|lines| - 1])
  }

  predicate Ended(v: Reader) { !v.open && !v.first && !v.baseline }

  predicate Accepts(lines: seq<Token>, tooLong: bool, scenes: seq<string>, threads: bool, limit: int) {
    && 256 <= limit <= 16777216 && !tooLong
    && var v := ReadAll(scenes, threads, FRESH, lines); v.Some? && Ended(v.value)
  }

  function ReaderOf(v: Vars): Reader {
    Reader(v.id != "", v.baseline, v.first, v.epoch, v.interval, v.host, v.records, v.seen)
  }

  lemma ReadMore(scenes: seq<string>, threads: bool, v: Reader, lines: seq<Token>, i: nat)
    requires i < |lines|
    ensures ReadAll(scenes, threads, v, lines[..i + 1]) ==
            var w := ReadAll(scenes, threads, v, lines[..i]);
                if w.None? then None else Read(scenes, threads, w.value, lines[i])
  {
    assert lines[..i + 1][..i] == lines[..i];
  }

  lemma {:induction false} ReadStuck(scenes: seq<string>, threads: bool, v: Reader, lines: seq<Token>, i: nat, j: nat)
    requires i <= j <= |lines| && ReadAll(scenes, threads, v, lines[..i]).None?
    ensures ReadAll(scenes, threads, v, lines[..j]).None?
    decreases j
  {
    if i < j {
      ReadStuck(scenes, threads, v, lines, i, j - 1);
      ReadMore(scenes, threads, v, lines, j - 1);
    }
  }

  lemma Refused(lines: seq<Token>, tooLong: bool, scenes: seq<string>, threads: bool, limit: int, i: nat)
    requires i <= |lines| && ReadAll(scenes, threads, FRESH, lines[..i]).None?
    ensures !Accepts(lines, tooLong, scenes, threads, limit)
  {
    ReadStuck(scenes, threads, FRESH, lines, i, |lines|);
    assert lines[..|lines|] == lines;
  }

  // ParseAtopStream. `tooLong`: the scanner stopped at a line over the limit. The sink may
  // refuse any record; `out` are the records it took.
  method Parse(lines: seq<Token>, tooLong: bool, scenes: seq<string>, threads: bool, limit: int,
               ids: nat -> string, sink: nat -> bool)
    returns (result: Result, out: seq<Sample>)
    requires Fresh(ids)
    // Whatever the input, what was emitted is frames and at most one unfinished frame.
    ensures Shape(scenes, out)
    // Success: at least one frame, nothing unfinished, every kept row, under its label and with its
    // host, epoch and interval, and every separator accounted for.
    ensures result == Fine ==> out != [] && !Open(out)
    ensures result == Fine ==> Rows(out) == KeptRows(lines, threads) && Ends(out) == Seps(lines)
    // Otherwise the rows of some first lines.
    ensures exists k :: 0 <= k <= |lines| && Rows(out) == KeptRows(lines[..k], threads) && Ends(out) == Seps(lines[..k])
    ensures limit < 256 || limit > 16777216 ==> result == BadFormat && out == []
    // And it succeeds exactly on the inputs that are accepted, unless the sink refuses.
    ensures result == Fine ==> Accepts(lines, tooLong, scenes, threads, limit)
    ensures result == BadFormat ==> !Accepts(lines, tooLong, scenes, threads, limit)
    ensures result == SinkFailed ==> !sink(|out|)
  {
    hide Fits, Shape, Open, OpenTags, Ends, Rows, KeptRows, KeptOf, Seps, Selected, Required, Ids, ParseRow, Agree,
      SameFrame,
      ParseBody, SplitN, ParseInt, Fresh, ReadAll;
    out := [];
    NothingYet(scenes, lines, threads, ids);
    if limit < 256 || limit > 16777216 { return BadFormat, out; }
    var v := Vars("", false, true, 0, 0, "", 0, {}, 0);
    for i := 0 to |lines|
      invariant Shape(scenes, out) && Agree(v, out, ids)
      invariant Rows(out) == KeptRows(lines[..i], threads) && Ends(out) == Seps(lines[..i])
      invariant ReadAll(scenes, threads, FRESH, lines[..i]) == Some(ReaderOf(v))
    {
      ReadMore(scenes, threads, FRESH, lines, i);
      if Read(scenes, threads, ReaderOf(v), lines[i]).None? { Refused(lines, tooLong, scenes, threads, limit, i + 1); }
      if lines[i].NotUtf8? { return BadFormat, out; }
      var line := lines[i].s;
      KeptSnoc(lines, i, threads);
      KeptNothing(threads);
      if '\0' in line { return BadFormat, out; }
      if line == "RESET" {
        if v.id != "" || !v.first { return BadFormat, out; }
        ResetAgrees(v, out, ids);
        v := v.(baseline := true);
        continue;
      }
      if line == "SEP" {
        if v.id == "" || v.records == 0 || !CompleteLabels(scenes, v.seen) { return BadFormat, out; }
        var r := EndSample(v);
        if !sink(|out|) { return SinkFailed, out; }
        EndFits(scenes, v, out, ids);
        ShapeSnoc(scenes, out, r);
        Snoc(out, r);
        out := out + [r];
        v := v.(id := "", records := 0, seen := {}, baseline := false, first := false);
        continue;
      }
      var fields := SplitN(line, 7);
      if |fields| != 7 || fields[0] !in Selected(scenes) { return BadFormat, out; }
      var e, dt := ParseInt(fields[2]), ParseInt(fields[5]);
      if e.None? || e.value <= 0 || dt.None? || dt.value <= 0 { return BadFormat, out; }
      if v.id == "" {
        if v.first && !v.baseline { return BadFormat, out; }
        if !v.first && e.value <= v.epoch { return BadFormat, out; }
        BeginAgrees(v, out, ids, e.value, dt.value, fields[1]);
        FreshId(ids, v.used);
        v := v.(id := ids(v.used), epoch := e.value, interval := dt.value, host := fields[1], used := v.used + 1);
      }
      if e.value != v.epoch || dt.value != v.interval || fields[1] != v.host { return BadFormat, out; }
      var p := ParseBody(line, fields, threads);
      RowIsBody(line, fields, threads);
      KeptIs(line, fields, threads);
      if p.Bad? { return BadFormat, out; }
      if p.Kept? {
        var r := RowSample(v, fields[0], p.row);
        if !sink(|out|) { return SinkFailed, out; }
        RowFits(scenes, v, out, ids, fields[0], p.row);
        ShapeSnoc(scenes, out, r);
        Snoc(out, r);
        out := out + [r];
        v := v.(records := v.records + 1, seen := v.seen + {fields[0]});
      }
    }
    assert lines[..|lines|] == lines;
    if tooLong { return BadFormat, out; }
    if v.id != "" || v.first || v.baseline { return BadFormat, out; }
    Closed(v, out, ids);
    return Fine, out;
  }

  lemma KeptIs(line: string, fields: seq<string>, threads: bool)
    requires fields == SplitN(line, 7) && |fields| == 7 && line != "RESET" && line != "SEP"
    requires ParseInt(fields[2]).Some? && ParseInt(fields[5]).Some?
    ensures var p := ParseRow(line, threads);
      KeptOf(Text(line), threads) ==
        if !p.Kept? then []
        else [Entry(fields[0], fields[1], ParseInt(fields[2]).value, ParseInt(fields[5]).value, p.row)]
  {
    hide ParseRow, SplitN, ParseInt;
  }

  lemma KeptNothing(threads: bool)
    ensures KeptOf(Text("RESET"), threads) == [] && KeptOf(Text("SEP"), threads) == []
  {}

  lemma NothingYet(scenes: seq<string>, lines: seq<Token>, threads: bool, ids: nat -> string)
    ensures Shape(scenes, []) && Agree(Vars("", false, true, 0, 0, "", 0, {}, 0), [], ids)
    ensures Rows([]) == KeptRows(lines[..0], threads) && Ends([]) == Seps(lines[..0])
    ensures ReadAll(scenes, threads, FRESH, lines[..0]) == Some(FRESH)
  {}

  lemma ResetAgrees(v: Vars, out: seq<Sample>, ids: nat -> string)
    requires Agree(v, out, ids) && v.id == "" && v.first
    ensures Agree(v.(baseline := true), out, ids)
  {}

  lemma FreshId(ids: nat -> string, n: nat)
    requires Fresh(ids)
    ensures ids(n) != ""
  {}

  lemma RowIsBody(line: string, fields: seq<string>, threads: bool)
    requires fields == SplitN(line, 7) && |fields| == 7
    ensures ParseRow(line, threads) == ParseBody(line, fields, threads)
  {}

  lemma Closed(v: Vars, out: seq<Sample>, ids: nat -> string)
    requires Agree(v, out, ids) && v.id == "" && !v.first
    ensures out != [] && !Open(out)
  {}

  // ---- well-formed streams ----

  // A frame as atop prints it: rows of one host, epoch and interval.
  datatype Frame = Frame(epoch: int, interval: int, host: string, rows: seq<string>)

  predicate RowOf(scenes: seq<string>, threads: bool, f: Frame, row: string) {
    var p := SplitN(row, 7);
    && |p| == 7 && p[0] in Selected(scenes) && p[1] == f.host
    && ParseInt(p[2]) == Some(f.epoch) && ParseInt(p[5]) == Some(f.interval)
    && !ParseRow(row, threads).Bad? && '\0' !in row && IsRow(Text(row))
  }

  // The labels of the rows that are kept.
  function KeptTags(rows: seq<string>, threads: bool): set<string> {
    if rows == [] then {}
    else
      var r := rows[|rows| - 1];
      KeptTags(rows[..|rows| - 1], threads) + if ParseRow(r, threads).Kept? then {SplitN(r, 7)[0]} else {}
  }

  predicate FrameOk(scenes: seq<string>, threads: bool, f: Frame) {
    && f.epoch > 0 && f.interval > 0 && (forall row :: row in f.rows ==> RowOf(scenes, threads, f, row))
    && Required(scenes) <= KeptTags(f.rows, threads)
  }

  function RowTokens(rows: seq<string>): seq<Token> {
    if rows == [] then [] else RowTokens(rows[..|rows| - 1]) + [Text(rows[|rows| - 1])]
  }

  function FrameTokens(f: Frame): seq<Token> { RowTokens(f.rows) + [Text("SEP")] }

  function Resets(n: nat): seq<Token> { if n == 0 then [] else Resets(n - 1) + [Text("RESET")] }

  // Frames after their RESET, or after several.
  function StreamTokens(n: nat, fs: seq<Frame>): seq<Token> {
    if fs == [] then Resets(n) else StreamTokens(n, fs[..|fs| - 1]) + FrameTokens(fs[|fs| - 1])
  }

  predicate Rising(fs: seq<Frame>) { forall i :: 0 < i < |fs| ==> fs[i - 1].epoch < fs[i].epoch }

  lemma {:induction false} ReadTwo(scenes: seq<string>, threads: bool, v: Reader, a: seq<Token>, b: seq<Token>)
    requires ReadAll(scenes, threads, v, a).Some?
    ensures ReadAll(scenes, threads, v, a + b) == ReadAll(scenes, threads, ReadAll(scenes, threads, v, a).value, b)
    decreases |b|
  {
    hide Read;
    if b == [] {
      assert a + b == a;
    } else {
      var n := |b| - 1;
      ReadTwo(scenes, threads, v, a, b[..n]);
      assert (a + b)[..|a + b| - 1] == a + b[..n];
    }
  }

  // The reader may begin this frame.
  predicate MayBegin(v: Reader, f: Frame) {
    !v.open && v.records == 0 && v.seen == {} && (v.first ==> v.baseline) && (!v.first ==> v.epoch < f.epoch)
  }

  // The reader is inside this frame.
  predicate Inside(v: Reader, w: Reader, f: Frame) {
    && w.open && w.first == v.first && w.baseline == v.baseline
    && w.epoch == f.epoch && w.interval == f.interval && w.host == f.host && (w.seen != {} ==> w.records > 0)
  }

  lemma RowRead(scenes: seq<string>, threads: bool, v: Reader, w: Reader, f: Frame, row: string)
    requires f.epoch > 0 && f.interval > 0 && RowOf(scenes, threads, f, row)
    requires (w == v && MayBegin(v, f)) || Inside(v, w, f)
    ensures var x := Read(scenes, threads, w, Text(row));
      x.Some? && Inside(v, x.value, f)
      && x.value.seen == w.seen + if ParseRow(row, threads).Kept? then {SplitN(row, 7)[0]} else {}
  {
    hide ParseRow, ParseInt, SplitN, Selected;
  }

  lemma {:induction false} RowsRead(scenes: seq<string>, threads: bool, v: Reader, f: Frame, rows: seq<string>)
    requires MayBegin(v, f) && f.epoch > 0 && f.interval > 0
    requires forall row :: row in rows ==> RowOf(scenes, threads, f, row)
    ensures var w := ReadAll(scenes, threads, v, RowTokens(rows));
      w.Some? && w.value.seen == KeptTags(rows, threads) && if rows == [] then w.value == v else Inside(v, w.value, f)
    decreases |rows|
  {
    hide Read, RowOf, Inside, ParseRow, SplitN;
    if rows != [] {
      var init, r := rows[..|rows| - 1], rows[|rows| - 1];
      RowsRead(scenes, threads, v, f, init);
      var ts := RowTokens(rows);
      assert ts[..|ts| - 1] == RowTokens(init) && ts[|ts| - 1] == Text(r);
      RowRead(scenes, threads, v, ReadAll(scenes, threads, v, RowTokens(init)).value, f, r);
    }
  }

  lemma FrameRead(scenes: seq<string>, threads: bool, v: Reader, f: Frame)
    requires MayBegin(v, f) && FrameOk(scenes, threads, f)
    ensures var w := ReadAll(scenes, threads, v, FrameTokens(f));
      w.Some? && Ended(w.value) && w.value.epoch == f.epoch && w.value.records == 0 && w.value.seen == {}
  {
    RowsRead(scenes, threads, v, f, f.rows);
    assert "PRG" in Required(scenes);
    hide ReadRow, KeptTags, Required, RowOf;
    var ts := FrameTokens(f);
    assert ts[..|ts| - 1] == RowTokens(f.rows);
  }

  predicate AllFrames(scenes: seq<string>, threads: bool, fs: seq<Frame>) {
    Rising(fs) && forall f :: f in fs ==> FrameOk(scenes, threads, f)
  }

  lemma {:induction false} ResetsRead(scenes: seq<string>, threads: bool, n: nat)
    requires n > 0
    ensures ReadAll(scenes, threads, FRESH, Resets(n)) == Some(FRESH.(baseline := true))
    decreases n
  {
    var ts := Resets(n);
    assert ts[..|ts| - 1] == Resets(n - 1);
    if n > 1 { ResetsRead(scenes, threads, n - 1); } else { assert Resets(0) == []; }
  }

  lemma {:induction false} FramesRead(scenes: seq<string>, threads: bool, n: nat, fs: seq<Frame>)
    requires n > 0 && AllFrames(scenes, threads, fs)
    ensures var w := ReadAll(scenes, threads, FRESH, StreamTokens(n, fs));
      && w.Some? && !w.value.open && w.value.records == 0 && w.value.seen == {}
      && (fs == [] ==> w.value.first && w.value.baseline)
      && (fs != [] ==> Ended(w.value) && w.value.epoch == fs[|fs| - 1].epoch)
    decreases |fs|
  {
    hide Read, FrameOk, FrameTokens;
    if fs == [] {
      hide ReadAll;
      ResetsRead(scenes, threads, n);
    } else {
      var init, f := fs[..|fs| - 1], fs[|fs| - 1];
      FramesRead(scenes, threads, n, init);
      assert f in fs;
      var v := ReadAll(scenes, threads, FRESH, StreamTokens(n, init)).value;
      FrameRead(scenes, threads, v, f);
      ReadTwo(scenes, threads, FRESH, StreamTokens(n, init), FrameTokens(f));
    }
  }

  // ---- accepted streams are these streams ----

  // The frame that is open: the rows read of it so far.
  function Unfinished(v: Reader, rows: seq<string>): Frame { Frame(v.epoch, v.interval, v.host, rows) }

  lemma SameHeader(scenes: seq<string>, threads: bool, v: Reader, rows: seq<string>, row: string)
    ensures RowOf(scenes, threads, Unfinished(v, rows), row) == RowOf(scenes, threads, Unfinished(v, []), row)
  {
    hide ParseRow, ParseInt, SplitN, Selected;
  }

  // What the reader remembers of complete frames and the rows of one more.
  ghost predicate Tells(scenes: seq<string>, threads: bool, v: Reader, n: nat, fs: seq<Frame>, rows: seq<string>) {
    && AllFrames(scenes, threads, fs) && (v.first <==> fs == []) && (v.baseline <==> fs == [] && n > 0)
    && (fs != [] ==> n > 0)
    && v.seen == KeptTags(rows, threads)
    && if !v.open then
         rows == [] && v.records == 0 && (fs != [] ==> v.epoch == fs[|fs| - 1].epoch)
       else
         && n > 0 && v.epoch > 0 && v.interval > 0 && (fs != [] ==> v.epoch > fs[|fs| - 1].epoch)
         && forall row :: row in rows ==> RowOf(scenes, threads, Unfinished(v, []), row)
  }

  lemma TellsReset(scenes: seq<string>, threads: bool, v: Reader, n: nat, fs: seq<Frame>, rows: seq<string>)
    requires Tells(scenes, threads, v, n, fs, rows) && Read(scenes, threads, v, Text("RESET")).Some?
    ensures fs == [] && rows == []
    ensures Tells(scenes, threads, Read(scenes, threads, v, Text("RESET")).value, n + 1, fs, rows)
    ensures StreamTokens(n, fs) + RowTokens(rows) + [Text("RESET")] == StreamTokens(n + 1, fs) + RowTokens(rows)
  {
    hide AllFrames, ReadRow;
  }

  lemma TellsSep(scenes: seq<string>, threads: bool, v: Reader, n: nat, fs: seq<Frame>, rows: seq<string>)
    requires Tells(scenes, threads, v, n, fs, rows) && Read(scenes, threads, v, Text("SEP")).Some?
    ensures var more := fs + [Unfinished(v, rows)];
      && Tells(scenes, threads, Read(scenes, threads, v, Text("SEP")).value, n, more, [])
      && StreamTokens(n, fs) + RowTokens(rows) + [Text("SEP")] == StreamTokens(n, more) + RowTokens([])
  {
    hide ReadRow, RowOf, KeptTags, Required, ParseRow;
    var f := Unfinished(v, rows);
    var more := fs + [f];
    assert more[..|more| - 1] == fs;
    forall row | row in rows ensures RowOf(scenes, threads, f, row) { SameHeader(scenes, threads, v, rows, row); }
    assert FrameOk(scenes, threads, f) && CompleteLabels(scenes, v.seen);
    assert KeptTags([], threads) == {} by { NoTags(threads); }
    hide FrameOk;
    assert Rising(more) && forall g :: g in more ==> g in fs || g == f;
    assert StreamTokens(n, fs) + RowTokens(rows) + [Text("SEP")] == StreamTokens(n, fs) + FrameTokens(f);
  }

  lemma NoTags(threads: bool)
    ensures KeptTags([], threads) == {}
  {}

  lemma TellsRow(scenes: seq<string>, threads: bool, v: Reader, n: nat, fs: seq<Frame>, rows: seq<string>, line: string)
    requires Tells(scenes, threads, v, n, fs, rows) && IsRow(Text(line)) && Read(scenes, threads, v, Text(line)).Some?
    ensures Tells(scenes, threads, Read(scenes, threads, v, Text(line)).value, n, fs, rows + [line])
    ensures StreamTokens(n, fs) + RowTokens(rows) + [Text(line)] == StreamTokens(n, fs) + RowTokens(rows + [line])
  {
    hide AllFrames, ParseRow, ParseInt, SplitN, Selected, StreamTokens, Read, RowOf;
    var more := rows + [line];
    assert more[..|more| - 1] == rows;
    RowTaken(scenes, threads, v, line);
  }

  // A row that is read is a row of the frame it is in.
  lemma RowTaken(scenes: seq<string>, threads: bool, v: Reader, line: string)
    requires IsRow(Text(line)) && Read(scenes, threads, v, Text(line)).Some?
    ensures var w := Read(scenes, threads, v, Text(line)).value;
      && w.open && w.first == v.first && w.baseline == v.baseline && w.epoch > 0 && w.interval > 0
      && RowOf(scenes, threads, Unfinished(w, []), line)
      && w.seen == v.seen + (if ParseRow(line, threads).Kept? then {SplitN(line, 7)[0]} else {})
      && (v.open ==> Unfinished(w, []) == Unfinished(v, []))
      && (!v.open ==> (v.first ==> v.baseline) && (!v.first ==> w.epoch > v.epoch))
  {
    hide ParseRow, ParseInt, SplitN, Selected;
  }

  // Whatever was read without a complaint is RESETs, complete frames, and rows of one more.
  lemma {:induction false} ReadTells(scenes: seq<string>, threads: bool, lines: seq<Token>)
    returns (n: nat, fs: seq<Frame>, rows: seq<string>)
    requires ReadAll(scenes, threads, FRESH, lines).Some?
    ensures Tells(scenes, threads, ReadAll(scenes, threads, FRESH, lines).value, n, fs, rows)
    ensures lines == StreamTokens(n, fs) + RowTokens(rows)
    decreases |lines|
  {
    if lines == [] {
      n, fs, rows := 0, [], [];
      NoTags(threads);
      assert RowTokens([]) == [];
      return;
    }
    var init, t := lines[..|lines| - 1], lines[|lines| - 1];
    assert lines == init + [t];
    n, fs, rows := ReadTells(scenes, threads, init);
    var v := ReadAll(scenes, threads, FRESH, init).value;
    ReadMore(scenes, threads, FRESH, lines, |lines| - 1);
    assert lines[..|lines|] == lines;
    hide Tells, Read, ReadAll, StreamTokens, RowTokens;
    n, fs, rows := MoreTells(scenes, threads, v, n, fs, rows, t);
  }

  lemma MoreTells(scenes: seq<string>, threads: bool, v: Reader, n: nat, fs: seq<Frame>, rows: seq<string>, t: Token)
    returns (k: nat, gs: seq<Frame>, more: seq<string>)
    requires Tells(scenes, threads, v, n, fs, rows) && Read(scenes, threads, v, t).Some?
    ensures Tells(scenes, threads, Read(scenes, threads, v, t).value, k, gs, more)
    ensures StreamTokens(n, fs) + RowTokens(rows) + [t] == StreamTokens(k, gs) + RowTokens(more)
  {
    TextRead(scenes, threads, v, t);
    hide Tells, Read, StreamTokens, RowTokens;
    k, gs, more := n, fs, rows;
    if t.s == "RESET" {
      TellsReset(scenes, threads, v, n, fs, rows);
      k := n + 1;
    } else if t.s == "SEP" {
      TellsSep(scenes, threads, v, n, fs, rows);
      gs, more := fs + [Unfinished(v, rows)], [];
    } else {
      TellsRow(scenes, threads, v, n, fs, rows, t.s);
      more := rows + [t.s];
    }
  }

  lemma TextRead(scenes: seq<string>, threads: bool, v: Reader, t: Token)
    requires Read(scenes, threads, v, t).Some?
    ensures t.Text?
  {}

  // The streams that are accepted are exactly RESETs and then complete frames with rising epochs:
  // every row with seven fields, a wanted label, and the host, epoch and interval of its frame,
  // and every required label kept.
  lemma AcceptedIff(lines: seq<Token>, tooLong: bool, scenes: seq<string>, threads: bool, limit: int)
    ensures Accepts(lines, tooLong, scenes, threads, limit) <==>
      && 256 <= limit <= 16777216 && !tooLong
      && exists n: nat, fs :: n > 0 && fs != [] && AllFrames(scenes, threads, fs) && lines == StreamTokens(n, fs)
  {
    hide AllFrames;
    if Accepts(lines, tooLong, scenes, threads, limit) {
      var n, fs, rows := ReadTells(scenes, threads, lines);
      assert RowTokens([]) == [];
      assert lines == StreamTokens(n, fs);
    }
    if 256 <= limit <= 16777216 && !tooLong {
      forall n: nat, fs | n > 0 && fs != [] && AllFrames(scenes, threads, fs) && lines == StreamTokens(n, fs)
        ensures Accepts(lines, tooLong, scenes, threads, limit)
      {
        FramesRead(scenes, threads, n, fs);
      }
    }
    hide ReadAll, StreamTokens;
  }

  // The labels of each scene: those a stream may have, and those every frame must have.
  lemma LabelsSay()
    ensures SceneLabels("cpu") == {"CPU", "cpu", "CPL", "PRC", "PSI"} == RequiredLabels("cpu")
    ensures SceneLabels("io") == {"DSK", "LVM", "MDD", "PRD", "PSI"} && RequiredLabels("io") == {"PRD", "PSI"}
    ensures SceneLabels("mem") == {"MEM", "SWP", "PAG", "PRM", "PSI"} == RequiredLabels("mem")
    ensures SceneLabels("network") == {"NET", "PRN"} == RequiredLabels("network")
    ensures forall scene :: Selected([scene]) == {"PRG"} + SceneLabels(scene)
    ensures forall scene :: Required([scene]) == {"PRG"} + RequiredLabels(scene)
    ensures Selected([]) ==
      {"PRG"} + SceneLabels("cpu") + SceneLabels("io") + SceneLabels("mem") + SceneLabels("network")
    ensures Required([]) ==
      {"PRG"} + RequiredLabels("cpu") + RequiredLabels("io") + RequiredLabels("mem") + RequiredLabels("network")
  {
    AllScenes();
    hide Selected, Required;
    forall scene ensures Selected([scene]) == {"PRG"} + SceneLabels(scene) { OneScene(scene); }
    forall scene ensures Required([scene]) == {"PRG"} + RequiredLabels(scene) { OneScene(scene); }
  }

  lemma OneScene(scene: string)
    ensures Selected([scene]) == {"PRG"} + SceneLabels(scene) && Required([scene]) == {"PRG"} + RequiredLabels(scene)
  {
    assert forall s :: s in [scene] <==> s == scene;
    hide SceneLabels, RequiredLabels;
  }

  lemma FourScenes()
    ensures forall s :: s in Wanted([]) <==> s == "cpu" || s == "io" || s == "mem" || s == "network"
  {}

  lemma AllScenes()
    ensures Selected([]) ==
      {"PRG"} + SceneLabels("cpu") + SceneLabels("io") + SceneLabels("mem") + SceneLabels("network")
    ensures Required([]) ==
      {"PRG"} + RequiredLabels("cpu") + RequiredLabels("io") + RequiredLabels("mem") + RequiredLabels("network")
  {
    hide SceneLabels, RequiredLabels, Wanted;
    FourScenes();
  }

  // ---- what the capture writes of it ----

  function Logged(r: Sample): FrameLog.Rec {
    FrameLog.Rec(2, if r.end then FrameLog.FrameEnd else FrameLog.Source, r.id, "atop/" + r.tag, true)
  }

  function LogOf(out: seq<Sample>): (rs: seq<FrameLog.Rec>)
    ensures |rs| == |out| && forall i :: 0 <= i < |out| ==> rs[i] == Logged(out[i])
  {
    if out == [] then [] else LogOf(out[..|out| - 1]) + [Logged(out[|out| - 1])]
  }

  lemma SepIsNoLabel(scenes: seq<string>)
    ensures "SEP" !in Selected(scenes)
  {}

  // A record continues the frame of the one before, or begins one with a fresh id.
  lemma ContinuesOrBegins(scenes: seq<string>, out: seq<Sample>, i: nat)
    requires Shape(scenes, out) && i < |out|
    ensures (i > 0 && !out[i - 1].end && out[i].id == out[i - 1].id)
         || (out[i].id != "" && !out[i].end && (i > 0 ==> out[i - 1].end) && forall k :: 0 <= k < i ==>
             out[k].id != out[i].id)
  {
    FitsThere(scenes, out, i);
    hide Shape, OpenTags, Selected, Required, Ids;
    if out[i].id !in Ids(out[..i]) {
      forall k | 0 <= k < i ensures out[k].id != out[i].id { IdIsIn(out[..i], k); }
    }
  }

  lemma FitsThere(scenes: seq<string>, out: seq<Sample>, i: nat)
    requires Shape(scenes, out) && i < |out|
    ensures Fits(scenes, out[..i], out[i])
  {
    hide Fits;
  }

  lemma IdIsIn(out: seq<Sample>, k: nat)
    requires k < |out|
    ensures out[k].id in Ids(out)
  {}

  lemma {:induction false} IdsNonEmpty(scenes: seq<string>, out: seq<Sample>, i: nat)
    requires Shape(scenes, out) && i < |out|
    ensures out[i].id != ""
    decreases i
  {
    hide Shape;
    ContinuesOrBegins(scenes, out, i);
    if i > 0 { IdsNonEmpty(scenes, out, i - 1); }
  }

  // A frame that has ended does not come back.
  lemma {:induction false} EndedIdsDiffer(scenes: seq<string>, out: seq<Sample>, i: nat, j: nat)
    requires Shape(scenes, out) && i < j < |out| && out[i].end
    ensures out[j].id != out[i].id
    decreases j
  {
    hide Shape;
    ContinuesOrBegins(scenes, out, j);
    if i < j - 1 { EndedIdsDiffer(scenes, out, i, j - 1); }
  }

  // What the parser emits is what repair accepts and coverage counts: framed records of
  // schema 2 with distinct frame ids.
  lemma EmittedIsAccepted(scenes: seq<string>, out: seq<Sample>)
    requires Shape(scenes, out)
    ensures var rs := LogOf(out);
      FrameCoverage.AllClean(rs) && FrameCoverage.Framed(rs) && FrameCoverage.DistinctFrames(rs) &&
          FrameCoverage.SepMarks(rs)
    ensures FrameCoverage.Feed(LogOf(out)).Some?
  {
    var rs := LogOf(out);
    forall i | 0 <= i < |rs|
      ensures FrameCoverage.Clean(rs[i]) && FrameCoverage.Follows(rs[..i], rs[i])
      ensures rs[i].source == FrameCoverage.SEP <==> rs[i].kind.FrameEnd?
    {
      IdsNonEmpty(scenes, out, i);
      OneFollows(scenes, out, i);
    }
    forall i, j | 0 <= i < j < |rs| && rs[i].kind.FrameEnd? && rs[j].kind.FrameEnd? ensures rs[i].id != rs[j].id {
      EndedIdsDiffer(scenes, out, i, j);
    }
    FrameCoverage.AcceptedIffFramed(rs);
  }

  lemma OneFollows(scenes: seq<string>, out: seq<Sample>, i: nat)
    requires Shape(scenes, out) && i < |out|
    ensures FrameCoverage.Follows(LogOf(out)[..i], LogOf(out)[i])
    ensures LogOf(out)[i].source == FrameCoverage.SEP <==> out[i].end
  {
    hide Fits, OpenTags, Selected, Required, Ids, LogOf;
    FitsFacts(scenes, out, i);
    assert LogOf(out)[i] == Logged(out[i]);
    SepTag(out[i].tag);
    if i > 0 { assert LogOf(out)[i - 1] == Logged(out[i - 1]); }
  }

  lemma FitsFacts(scenes: seq<string>, out: seq<Sample>, i: nat)
    requires Shape(scenes, out) && i < |out|
    ensures out[i].end <==> out[i].tag == "SEP"
    ensures out[i].end ==> i > 0 && !out[i - 1].end
    ensures i > 0 && !out[i - 1].end ==> out[i - 1].id == out[i].id
  {
    FitsThere(scenes, out, i);
    SepIsNoLabel(scenes);
    hide Shape, OpenTags, Selected, Required, Ids;
  }

  lemma SepTag(tag: string)
    ensures "atop/" + tag == FrameCoverage.SEP <==> tag == "SEP"
  {
    assert ("atop/" + tag)[5..] == tag;
    assert FrameCoverage.SEP == "atop/" + "SEP";
  }

  // In a committed frame every required label was seen.
  lemma CommittedFramesComplete(scenes: seq<string>, out: seq<Sample>, i: nat, tag: string) returns (j: nat)
    requires Shape(scenes, out) && i < |out| && out[i].end && tag in Required(scenes)
    ensures j < i && !out[j].end && out[j].tag == tag && out[j].id == out[i].id
  {
    hide Shape, OpenTags, Required, Selected, Ids;
    FitsThere(scenes, out, i);
    assert i > 0 && out[..(i - 1) + 1] == out[..i] && out[..i][i - 1] == out[i - 1];
    j := TagSeen(scenes, out, i - 1, tag);
  }

  lemma {:induction false} TagSeen(scenes: seq<string>, out: seq<Sample>, i: nat, tag: string) returns (j: nat)
    requires Shape(scenes, out) && i < |out| && tag in OpenTags(out[..i + 1])
    ensures j <= i && !out[j].end && out[j].tag == tag && out[j].id == out[i].id
    decreases i
  {
    hide Shape, Selected, Required, Ids, Fits, OpenTags, SameFrame;
    TagsOpen(out, i);
    if out[i].tag == tag { return i; }
    SameIdBefore(scenes, out, i);
    j := TagSeen(scenes, out, i - 1, tag);
  }

  lemma TagsOpen(out: seq<Sample>, i: nat)
    requires i < |out|
    ensures OpenTags(out[..i + 1]) == if out[i].end then {} else OpenTags(out[..i]) + {out[i].tag}
    ensures i == 0 || out[i - 1].end ==> OpenTags(out[..i]) == {}
  {
    assert out[..i + 1][..i] == out[..i];
    if i > 0 { assert out[..i][i - 1] == out[i - 1]; }
  }

  lemma SameIdBefore(scenes: seq<string>, out: seq<Sample>, i: nat)
    requires Shape(scenes, out) && 0 < i < |out| && !out[i - 1].end
    ensures out[i].id == out[i - 1].id
  {
    hide Shape, Selected, Required, Ids, OpenTags;
    FitsThere(scenes, out, i);
    assert out[..i][i - 1] == out[i - 1];
  }
}
