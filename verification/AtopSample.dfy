// A stream of one frame as atop prints it (internal/agent/scenarios.go): system rows, the row of
// a process and its command line. It is accepted.
module AtopSample {
  import opened Records
  import opened AtopLine
  import opened AtopStream

  function HeadOf(tag: string): seq<string> { [tag, "host", "17", "2023/11/14", "22:13:20", "5"] }

  function SystemRow(tag: string, rest: string): string { Join(HeadOf(tag)) + " " + rest }

  function Worker(): Proc {
    Proc(HeadOf("PRC"), "42", "worker", ["S", "100", "2", "3", "0", "120", "0", "0", "1", "0", "42", "y", "0", "(0)"])
  }

  function WorkerProcess(): Prg {
    Prg(HeadOf("PRG"), "42", "worker", 'S', ["1", "1", "42", "1", "1", "17"],
        ["0", "0", "0", "0", "0", "0", "0", "0", "0", "0", "0", "y", "-", "-", "-", "-"])
  }

  function ProcessRow(cmd: string): string { Line(WorkerProcess(), cmd, Join(WorkerProcess().suffix)) }

  // One frame of the cpu scene: its system rows, and a process with its command line.
  function CpuFrame(cmd: string): Frame {
    Frame(17, 5, "host",
          [SystemRow("CPU", "1"), SystemRow("cpu", "1"), SystemRow("CPL", "1"), SystemRow("PSI", "y"),
           ProcLine(Worker()), ProcessRow(cmd)])
  }

  lemma Numbers()
    ensures ParseInt("17") == Some(17) && ParseInt("5") == Some(5) && ParseInt("42") == Some(42)
    ensures ParseInt("0") == Some(0) && ParseInt("1") == Some(1)
  {
    assert "17"[..1] == "1" && "42"[..1] == "4" && Value("1") == 1 && Value("4") == 4;
    assert Value("17") == 17 && Value("42") == 42 && Value("5") == 5 && Value("0") == 0;
  }

  predicate Printable(s: string) { '\0' !in s }

  // A word of visible characters.
  predicate Word(f: string) { f != "" && forall i :: 0 <= i < |f| ==> '!' <= f[i] <= '~' }

  predicate Words(fs: seq<string>) { forall i :: 0 <= i < |fs| ==> Word(fs[i]) }

  lemma WordFacts(f: string)
    requires Word(f)
    ensures Solid(f) && NoSpace(f) && Printable(f)
  {
    forall c | c in f ensures !IsSpace(c) && c != ' ' && c != '\0' {
      var i :| 0 <= i < |f| && f[i] == c;
    }
  }

  lemma AllWords(fs: seq<string>)
    requires Words(fs)
    ensures forall f :: f in fs ==> Solid(f) && NoSpace(f) && Printable(f)
  {
    hide Solid, NoSpace, Printable;
    forall f | f in fs ensures Solid(f) && NoSpace(f) && Printable(f) {
      var i :| 0 <= i < |fs| && fs[i] == f;
      WordFacts(f);
    }
  }

  lemma {:induction false} JoinPrintable(fs: seq<string>)
    requires Words(fs)
    ensures Printable(Join(fs))
    decreases |fs|
  {
    if fs != [] {
      WordFacts(fs[0]);
      JoinPrintable(fs[1..]);
      assert [fs[0]] + fs[1..] == fs;
    }
  }

  lemma HeadWords(tag: string)
    requires Word(tag)
    ensures Words(HeadOf(tag))
  {
    assert Word("host") && Word("17") && Word("2023/11/14") && Word("22:13:20") && Word("5");
    hide Word;
  }

  // Seven fields, and the header of the frame.
  lemma HeadedRow(scenes: seq<string>, threads: bool, f: Frame, tag: string, rest: string)
    requires Word(tag) && Printable(rest) && tag in Selected(scenes)
    requires f.host == "host" && f.epoch == 17 && f.interval == 5 && ParseRow(SystemRow(tag, rest), threads).Kept?
    ensures RowOf(scenes, threads, f, SystemRow(tag, rest)) && SplitN(SystemRow(tag, rest), 7)[0] == tag
  {
    hide ParseInt, SplitN, Join, ParseRow, Selected, Word, Words, HeadOf;
    Numbers();
    var head := HeadOf(tag);
    HeadIs(tag);
    HeadWords(tag);
    AllWords(head);
    SplitJoined(head, rest);
    JoinPrintable(head);
    LongRow(tag, rest);
    assert SplitN(SystemRow(tag, rest), 7) == head + [rest];
  }

  lemma HeadIs(tag: string)
    ensures var h := HeadOf(tag); |h| == 6 && h[0] == tag && h[1] == "host" && h[2] == "17" && h[5] == "5"
  {}

  lemma LongRow(tag: string, rest: string)
    ensures IsRow(Text(SystemRow(tag, rest)))
  {
    var h := HeadOf(tag);
    assert h == [tag] + h[1..] && h[1..] == ["host"] + h[2..] && h[2..] == ["17"] + h[3..];
    JoinMore(tag, h[1..]);
    JoinMore("host", h[2..]);
    JoinMore("17", h[3..]);
    hide Join;
    assert |SystemRow(tag, rest)| > 5;
  }

  lemma {:induction false} TagKept(rows: seq<string>, threads: bool, i: nat)
    requires i < |rows| && ParseRow(rows[i], threads).Kept?
    ensures SplitN(rows[i], 7)[0] in KeptTags(rows, threads)
    decreases |rows|
  {
    hide ParseRow, SplitN;
    if i < |rows| - 1 { TagKept(rows[..|rows| - 1], threads, i); }
  }

  lemma SystemRowKept(tag: string, rest: string, threads: bool)
    requires Word(tag) && !("PR" <= tag) && (tag == "PSI" ==> rest == "y")
    ensures ParseRow(SystemRow(tag, rest), threads).Kept?
  {
    hide ParseRow, Fields, Join, HeadOf, Words, Word;
    HeadWords(tag);
    AllWords(HeadOf(tag));
    HeadIs(tag);
    HostRow(HeadOf(tag), rest, threads);
    if tag == "PSI" { FieldY(); }
  }

  lemma FieldY()
    ensures Fields("y") == ["y"]
  {
    assert Word("y");
    WordFacts("y");
    FieldsJoined(["y"]);
    JoinOne(["y"]);
  }

  lemma WorkerWords()
    ensures Words(Worker().v)
  {
    assert Word("S") && Word("100") && Word("2") && Word("3") && Word("0") && Word("120") && Word("1") && Word("42") &&
      Word("y") && Word("(0)");
    hide Word;
  }

  lemma WorkerFacts()
    ensures var p := Worker();
      && p.head == HeadOf("PRC") && p.pid == "42" && p.name == "worker" && '\n' !in p.name
      && |p.v| == 14 && p.v[0] == ['S'] && p.v[10] == "42" && p.v[11] == "y"
      && forall i :: 1 <= i < 8 ==> p.v[i] == "100" || p.v[i] == "2" || p.v[i] == "3" || p.v[i] == "0" || p.v[i] == "120"
  {}

  lemma NoBrackets()
    ensures ')' !in "100" && ')' !in "2" && ')' !in "3" && ')' !in "0" && ')' !in "120"
    ensures "PR" <= "PRC" && "PRC" != "PRG" && |"worker"| == 6
  {}

  lemma WorkerFormed()
    ensures ProcFormed(Worker())
  {
    hide ParseInt, Words, Word, Solid, NoSpace, Printable, Worker, HeadOf;
    Numbers();
    SmallWords();
    HeadIs("PRC");
    HeadWords("PRC");
    AllWords(HeadOf("PRC"));
    WordFacts("42");
    WorkerWords();
    WorkerFacts();
    NoBrackets();
    AllWords(Worker().v);
  }

  lemma WorkerKept(threads: bool)
    ensures var r := ParseRow(ProcLine(Worker()), threads);
      r == Kept(Row("process", ProcLine(Worker()) + "\n", false, None, Some(42), None, "", ""))
  {
    hide ParseRow, ParseInt, ProcLine, ProcFormed, Worker, HeadOf;
    WorkerFormed();
    WorkerFacts();
    HeadIs("PRC");
    Numbers();
    ProcRow(Worker(), threads);
  }

  lemma ProcessFacts()
    ensures var p := WorkerProcess();
      && p.head == HeadOf("PRG") && p.pid == "42" && p.name == "worker" && p.state == 'S'
      && |p.nums| == 6 && |p.suffix| == 16 && p.nums[2] == "42" && p.nums[5] == "17"
      && (forall f :: f in p.nums ==> f == "1" || f == "42" || f == "17")
      && (forall f :: f in p.suffix[..11] ==> f == "0")
      && (forall f :: f in p.suffix ==> f == "0" || f == "y" || f == "-")
      && p.suffix[11] == "y" && p.suffix[14] == "-"
  {}

  lemma SmallWords()
    ensures Word("0") && Word("y") && Word("-") && Word("1") && Word("42") && Word("17") && Word("PRG") && Word("PRC")
    ensures !EndsClose("0") && !EndsClose("y") && !EndsClose("-")
  {}

  lemma ProcessWords()
    ensures var p := WorkerProcess(); Words(p.suffix) && Words(p.nums) && AllInts(p.nums) && AllInts(p.suffix[..11])
    ensures var p := WorkerProcess(); forall i :: 0 <= i < 16 ==> |p.suffix| == 16 && !EndsClose(p.suffix[i])
  {
    hide WorkerProcess, Word, EndsClose, ParseInt, HeadOf;
    ProcessFacts();
    SmallWords();
    Numbers();
    var p := WorkerProcess();
    forall i | 0 <= i < 16 ensures Word(p.suffix[i]) && !EndsClose(p.suffix[i]) { assert p.suffix[i] in p.suffix; }
    forall i | 0 <= i < 6 ensures Word(p.nums[i]) { assert p.nums[i] in p.nums; }
  }

  lemma ProcessFormed()
    ensures var p := WorkerProcess();
      WellFormed(p) && !HasClose(Join(p.suffix)) && Written(p, Join(p.suffix))
  {
    hide ParseInt, Join, HasClose, Solid, Written, Fields, EndsClose, Word, Words, NoSpace, AllInts, Printable;
    hide WorkerProcess, HeadOf;
    var p := WorkerProcess();
    ProcessFacts();
    ProcessWords();
    Numbers();
    SmallWords();
    HeadWords("PRG");
    HeadIs("PRG");
    AllWords(HeadOf("PRG"));
    WordFacts("42");
    AllWords(p.suffix);
    CloseIff(p.suffix);
    assert WellFormed(p);
    PlainWritten(p);
  }

  lemma ProcessKept(cmd: string, threads: bool)
    requires '\n' !in cmd
    ensures ParseRow(ProcessRow(cmd), threads) ==
            Kept(Row("process", Plain(WorkerProcess()) + "\n", true, None, Some(42), None, "17", ""))
  {
    hide ParseRow, ParseInt, Line, Plain, WellFormed, Written, Redacted, HasClose, Join, WorkerProcess, HeadOf;
    var p := WorkerProcess();
    ProcessFormed();
    ProcessFacts();
    Numbers();
    RedactionIgnoresCommand(p, cmd, Join(p.suffix), threads);
    RedactedSays(p, threads);
  }

  lemma WorkerRest() returns (rest: string)
    ensures ProcLine(Worker()) == SystemRow("PRC", rest) && Printable(rest)
  {
    hide Join, Words, Word, Worker, HeadOf;
    WorkerWords();
    WorkerFacts();
    JoinPrintable(Worker().v);
    rest := "42 " + ("(" + "worker" + ") " + Join(Worker().v));
    assert Printable("42 ") && Printable("worker");
  }

  lemma ProcessRest(cmd: string) returns (rest: string)
    requires Printable(cmd)
    ensures ProcessRow(cmd) == SystemRow("PRG", rest) && Printable(rest)
  {
    hide Join, Words, Word, AllInts, EndsClose, WorkerProcess, HeadOf;
    var p := WorkerProcess();
    ProcessFacts();
    ProcessWords();
    JoinPrintable(p.suffix);
    JoinPrintable(p.nums);
    rest := p.pid + " " + Rest(p, cmd, Join(p.suffix));
    PrintableRest("42", "worker", 'S', Join(p.nums), cmd, Join(p.suffix));
  }

  lemma PrintableRest(pid: string, name: string, state: char, nums: string, cmd: string, text: string)
    requires Printable(nums) && Printable(cmd) && Printable(text) && pid == "42" && name == "worker" && state == 'S'
    ensures Printable(pid + " " + ("(" + name + ") " + [state] + " " + nums + " (" + cmd + ") " + text))
  {
    assert Printable(pid) && Printable(name);
  }

  lemma SystemIn(f: Frame, threads: bool, tag: string, rest: string)
    requires f.host == "host" && f.epoch == 17 && f.interval == 5
    requires tag == "CPU" || tag == "cpu" || tag == "CPL" || tag == "PSI"
    requires rest == if tag == "PSI" then "y" else "1"
    ensures Shown(f, threads, SystemRow(tag, rest), tag)
  {
    SystemTag(tag, rest);
    hide ParseRow, SplitN, RowOf, Selected, SystemRow, Word, Printable;
    SystemRowKept(tag, rest, threads);
    CpuLabels();
    HeadedRow(["cpu"], threads, f, tag, rest);
  }

  lemma SystemTag(tag: string, rest: string)
    requires tag == "CPU" || tag == "cpu" || tag == "CPL" || tag == "PSI"
    requires rest == if tag == "PSI" then "y" else "1"
    ensures Word(tag) && !("PR" <= tag) && Printable(rest) && (tag == "PSI" ==> rest == "y")
  {
    assert tag[0] != 'P' || tag[1] != 'R';
    assert "PR"[0] == 'P' && "PR"[1] == 'R';
  }

  // The row is kept, under this label.
  predicate Shown(f: Frame, threads: bool, row: string, tag: string) {
    RowOf(["cpu"], threads, f, row) && ParseRow(row, threads).Kept? && SplitN(row, 7)[0] == tag
  }

  lemma WorkerIn(f: Frame, threads: bool)
    requires f.host == "host" && f.epoch == 17 && f.interval == 5
    ensures Shown(f, threads, ProcLine(Worker()), "PRC")
  {
    hide ParseRow, SplitN, RowOf, Selected, SystemRow, Word, Printable, Worker, ProcLine;
    SmallWords();
    WorkerKept(threads);
    var rest := WorkerRest();
    CpuLabels();
    HeadedRow(["cpu"], threads, f, "PRC", rest);
  }

  lemma ProcessIn(f: Frame, threads: bool, cmd: string)
    requires f.host == "host" && f.epoch == 17 && f.interval == 5 && '\n' !in cmd && Printable(cmd)
    ensures Shown(f, threads, ProcessRow(cmd), "PRG")
  {
    hide ParseRow, SplitN, RowOf, Selected, SystemRow, Word, Printable, ProcessRow, Plain, WorkerProcess;
    SmallWords();
    ProcessKept(cmd, threads);
    var rest := ProcessRest(cmd);
    CpuLabels();
    HeadedRow(["cpu"], threads, f, "PRG", rest);
  }

  lemma CpuLabels()
    ensures Selected(["cpu"]) == {"PRG", "CPU", "cpu", "CPL", "PRC", "PSI"} == Required(["cpu"])
  {
    hide Selected, Required, SceneLabels, RequiredLabels;
    LabelsSay();
  }

  lemma RowShown(f: Frame, threads: bool, i: nat, tag: string)
    requires i < |f.rows| && Shown(f, threads, f.rows[i], tag)
    ensures tag in KeptTags(f.rows, threads)
  {
    hide ParseRow, SplitN, RowOf, KeptTags;
    TagKept(f.rows, threads, i);
  }

  lemma CpuFrameOk(cmd: string, threads: bool)
    requires '\n' !in cmd && Printable(cmd)
    ensures FrameOk(["cpu"], threads, CpuFrame(cmd))
  {
    hide ParseRow, SplitN, RowOf, KeptTags, Selected, Required, SystemRow, ProcessRow, ProcLine, Worker, Shown,
      Printable;
    var f := CpuFrame(cmd);
    SystemIn(f, threads, "CPU", "1");
    SystemIn(f, threads, "cpu", "1");
    SystemIn(f, threads, "CPL", "1");
    SystemIn(f, threads, "PSI", "y");
    WorkerIn(f, threads);
    ProcessIn(f, threads, cmd);
    AllShown(f, threads);
  }

  lemma AllShown(f: Frame, threads: bool)
    requires |f.rows| == 6 && f.epoch > 0 && f.interval > 0
    requires Shown(f, threads, f.rows[0], "CPU") && Shown(f, threads, f.rows[1], "cpu")
    requires Shown(f, threads, f.rows[2], "CPL") && Shown(f, threads, f.rows[3], "PSI")
    requires Shown(f, threads, f.rows[4], "PRC") && Shown(f, threads, f.rows[5], "PRG")
    ensures FrameOk(["cpu"], threads, f)
  {
    hide ParseRow, SplitN, RowOf, KeptTags, Selected, Required;
    RowShown(f, threads, 0, "CPU");
    RowShown(f, threads, 1, "cpu");
    RowShown(f, threads, 2, "CPL");
    RowShown(f, threads, 3, "PSI");
    RowShown(f, threads, 4, "PRC");
    RowShown(f, threads, 5, "PRG");
    CpuLabels();
  }

  // Such a stream is accepted, whatever the command line.
  lemma CpuStreamAccepted(cmd: string, threads: bool)
    requires '\n' !in cmd && Printable(cmd)
    ensures Accepts(StreamTokens(1, [CpuFrame(cmd)]), false, ["cpu"], threads, 65536)
  {
    hide FrameOk, StreamTokens, Accepts, CpuFrame, AllFrames, Printable;
    CpuFrameOk(cmd, threads);
    var fs := [CpuFrame(cmd)];
    OneFrame(["cpu"], threads, CpuFrame(cmd));
    AcceptedIff(StreamTokens(1, fs), false, ["cpu"], threads, 65536);
  }

  lemma OneFrame(scenes: seq<string>, threads: bool, f: Frame)
    requires FrameOk(scenes, threads, f)
    ensures AllFrames(scenes, threads, [f])
  {
    hide FrameOk;
  }
}
