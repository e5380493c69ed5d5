// One row of atop's parseable output (internal/agent/scenarios.go): the string functions
// the parser calls, the row itself, and the redaction of the command line in PRG rows.
// A line is a sequence of runes.
module AtopLine {
  import opened Records

  // ---- strings ----

  // The first space, or the length.
  function Space(s: string): (i: nat)
    ensures i <= |s| && ' ' !in s[..i] && (i < |s| ==> s[i] == ' ')
  {
    if s == "" || s[0] == ' ' then 0
    else
      var i := 1 + Space(s[1..]);
      assert s[..i] == [s[0]] + s[1..][..i - 1];
      i
  }

  // strings.SplitN on a single space; the last part is the unsplit rest.
  function SplitN(s: string, n: nat): (parts: seq<string>)
    requires n > 0
    ensures 1 <= |parts| <= n
  {
    var i := Space(s);
    if n == 1 || i == |s| then [s] else [s[..i]] + SplitN(s[i + 1..], n - 1)
  }

  // unicode.IsSpace.
  predicate IsSpace(c: char) {
    || '\t' <= c <= '\r' || c == ' ' || c == '\U{85}' || c == '\U{A0}' || c == '\U{1680}'
    || '\U{2000}' <= c <= '\U{200A}' || c == '\U{2028}' || c == '\U{2029}' || c == '\U{202F}' || c == '\U{205F}' ||
        c == '\U{3000}'
  }

  predicate Solid(f: string) { f != "" && forall c :: c in f ==> !IsSpace(c) }

  // The first white space, or the length.
  function Blank(s: string): (i: nat)
    ensures i <= |s| && (forall c :: c in s[..i] ==> !IsSpace(c)) && (i < |s| ==> IsSpace(s[i]))
  {
    if s == "" || IsSpace(s[0]) then 0
    else
      var i := 1 + Blank(s[1..]);
      assert s[..i] == [s[0]] + s[1..][..i - 1];
      i
  }

  // strings.Fields.
  function Fields(s: string): (fs: seq<string>)
    ensures forall f :: f in fs ==> Solid(f)
  {
    if s == "" then []
    else if IsSpace(s[0]) then Fields(s[1..])
    else
      var i := Blank(s);
      assert i > 0;
      [s[..i]] + Fields(s[i..])
  }

  // strings.Join with a single space.
  function Join(fs: seq<string>): string {
    if fs == [] then "" else if |fs| == 1 then fs[0] else fs[0] + " " + Join(fs[1..])
  }

  predicate Digits(s: string) { forall i :: 0 <= i < |s| ==> '0' <= s[i] <= '9' }

  function Value(s: string): (v: int)
    requires Digits(s)
    ensures v >= 0
  {
    if s == "" then 0 else Value(s[..|s| - 1]) * 10 + s[|s| - 1] as int - '0' as int
  }

  // strconv.ParseInt in base 10 with 64 bits; strconv.Atoi is the same.
  function ParseInt(s: string): Option<int> {
    if s == "" then None
    else
      var signed := s[0] == '-' || s[0] == '+';
      var d := if signed then s[1..] else s;
      if d == "" || !Digits(d) then None
      else
        var v := if s[0] == '-' then -Value(d) else Value(d);
        if -0x8000_0000_0000_0000 <= v <= 0x7fff_ffff_ffff_ffff then Some(v) else None
  }

  // The last place where ") " starts.
  function LastClose(s: string): Option<nat>
    ensures LastClose(s).Some? ==> LastClose(s).value + 2 <= |s|
  {
    if |s| < 2 then None
    else if s[|s| - 2] == ')' && s[|s| - 1] == ' ' then Some(|s| - 2)
    else LastClose(s[..|s| - 1])
  }

  predicate HasClose(s: string) { exists i :: 0 <= i < |s| - 1 && s[i] == ')' && s[i + 1] == ' ' }

  // ---- the name pattern: "(" up to 15 runes ") " letter " " rest ----

  predicate IsLetter(c: char) { 'a' <= c <= 'z' || 'A' <= c <= 'Z' }

  predicate NameAt(b: string, k: nat) {
    && k + 5 <= |b| && b[0] == '(' && b[k + 1] == ')' && b[k + 2] == ' ' && IsLetter(b[k + 3]) && b[k + 4] == ' '
    && '\n' !in b
  }

  // The greedy match: the longest name.
  function NameLength(b: string, most: nat): (k: Option<nat>)
    ensures k.Some? ==> k.value <= most && NameAt(b, k.value) && forall j :: k.value < j <= most ==> !NameAt(b, j)
    ensures k.None? ==> forall j :: 0 <= j <= most ==> !NameAt(b, j)
  {
    if NameAt(b, most) then Some(most) else if most == 0 then None else NameLength(b, most - 1)
  }

  const NAME_MAX := 15

  // ---- rows ----

  // What a row contributes to its record. `startEpoch` and `container` are kept for PRG only.
  datatype Row = Row(scope: string, content: string, redacted: bool, supported: Option<bool>,
                     pid: Option<int>, tid: Option<int>, startEpoch: string, container: string)

  // Skipped: a thread row while threads are not asked for.
  datatype Parsed = Bad | Skipped | Kept(row: Row)

  function BoolFlag(s: string): Option<bool> { if s == "y" then Some(true) else if s == "n" then Some(false) else None }

  predicate AllInts(fs: seq<string>) { forall f :: f in fs ==> ParseInt(f).Some? }

  // The row of a process, once the place of its group and its kind are known.
  function Process(row: Row, pid: int, group: string, kind: string, threads: bool): Parsed {
    if kind != "y" && kind != "n" then Bad
    else
      var g := ParseInt(group);
      if g.None? || g.value <= 0 then Bad
      else if kind == "y" then Kept(row.(scope := "process", pid := Some(pid)))
      else if !threads then Skipped
      else Kept(row.(scope := "thread", pid := g, tid := Some(pid)))
  }

  // A PRG row: the command line, between the seventh field and the sixteen last, goes.
  function ParsePrg(head: seq<string>, pidText: string, pid: int, name: string, tail: string, row: Row,
    threads: bool): Parsed {
    var prefix := SplitN(tail, 8);
    if |prefix| != 8 then Bad
    else
      var rest := prefix[7];
      var end := LastClose(rest);
      if rest == "" || rest[0] != '(' || end.None? then Bad
      else
        var suffix := Fields(rest[end.value + 2..]);
        if |suffix| != 16 || !AllInts(prefix[1..7]) || !AllInts(suffix[..11]) then Bad
        else
          var content := Join(head) + " " + pidText + " (" + name + ") "
                         + Join(prefix[..7]) + " () " + Join(suffix) + "\n";
          Process(row.(content := content, redacted := true, startEpoch := prefix[6],
                       container := if suffix[14] == "-" then "" else suffix[14]),
                  pid, prefix[3], suffix[11], threads)
  }

  function ParseOther(tag: string, v: seq<string>, pid: int, row: Row, threads: bool): Parsed {
    if tag == "PRC" then (if |v| != 14 then Bad else Process(row, pid, v[10], v[11], threads))
    else if tag == "PRM" then (if |v| != 17 then Bad else Process(row, pid, v[13], v[14], threads))
    else if tag == "PRD" then
      (if |v| != 11 then Bad else Process(row.(supported := BoolFlag(v[2])), pid, v[8], v[10], threads))
    else if tag == "PRN" then
      (if |v| != 14 then Bad else Process(row.(supported := BoolFlag(v[1])), pid, v[12], v[13], threads))
    else Bad
  }

  // The seventh field of a process row.
  function ParseProcess(head: seq<string>, body: string, row: Row, threads: bool): Parsed
    requires |head| == 6
  {
    var i := Space(body);
    if i == |body| then Bad
    else
      var pid := ParseInt(body[..i]);
      var b := body[i + 1..];
      var k := NameLength(b, NAME_MAX);
      if pid.None? || pid.value <= 0 || k.None? then Bad
      else
        var n := k.value;
        var tail := [b[n + 3]] + " " + b[n + 5..];
        if head[0] == "PRG" then ParsePrg(head, body[..i], pid.value, b[1..n + 1], tail, row, threads)
        else ParseOther(head[0], Fields(tail), pid.value, row, threads)
  }

  // A row split into its seven fields.
  function ParseBody(line: string, fields: seq<string>, threads: bool): Parsed
    requires |fields| == 7
  {
    var row := Row("host", line + "\n", false, None, None, None, "", "");
    if "PR" <= fields[0] then ParseProcess(fields[..6], fields[6], row, threads)
    else if fields[0] == "PSI" then
      var v := Fields(fields[6]);
      if v == [] || BoolFlag(v[0]).None? then Bad else Kept(row.(supported := BoolFlag(v[0])))
    else Kept(row)
  }

  function ParseRow(line: string, threads: bool): Parsed {
    var fields := SplitN(line, 7);
    if |fields| != 7 then Bad else ParseBody(line, fields, threads)
  }

  // ---- splitting and joining undo each other ----

  predicate NoSpace(f: string) { ' ' !in f }

  lemma SpaceAfter(f: string, rest: string)
    requires NoSpace(f)
    ensures Space(f + " " + rest) == |f|
  {
    var s := f + " " + rest;
    assert s[|f|] == ' ' && s[..|f|] == f;
    assert forall i :: 0 <= i < Space(s) ==> s[i] in s[..Space(s)];
    assert forall i :: 0 <= i < |f| ==> s[i] in f;
    hide Space;
  }

  lemma JoinMore(f: string, fs: seq<string>)
    requires fs != []
    ensures Join([f] + fs) == f + " " + Join(fs)
  {
    assert ([f] + fs)[1..] == fs;
  }

  lemma {:induction false} SplitJoined(fs: seq<string>, rest: string)
    requires forall f :: f in fs ==> NoSpace(f)
    requires fs != []
    ensures SplitN(Join(fs) + " " + rest, |fs| + 1) == fs + [rest]
    decreases |fs|
  {
    var s := Join(fs) + " " + rest;
    hide Space, Join;
    if |fs| == 1 {
      assert fs == [fs[0]] && Join(fs) == fs[0] by { JoinOne(fs); }
      SpaceAfter(fs[0], rest);
      assert s[|fs[0]| + 1..] == rest && s[..|fs[0]|] == fs[0];
      assert SplitN(rest, 1) == [rest];
    } else {
      assert [fs[0]] + fs[1..] == fs;
      JoinMore(fs[0], fs[1..]);
      var more := Join(fs[1..]) + " " + rest;
      assert s == fs[0] + " " + more;
      SpaceAfter(fs[0], more);
      SplitJoined(fs[1..], rest);
      assert s[|fs[0]| + 1..] == more && s[..|fs[0]|] == fs[0];
    }
  }

  lemma JoinOne(fs: seq<string>)
    requires |fs| == 1
    ensures Join(fs) == fs[0]
  {}

  lemma BlankAt(f: string, rest: string)
    requires Solid(f) && (rest == "" || IsSpace(rest[0]))
    ensures Blank(f + rest) == |f|
  {
    var s := f + rest;
    assert s[..|f|] == f;
    assert forall i :: 0 <= i < Blank(s) ==> s[i] in s[..Blank(s)];
    assert forall i :: 0 <= i < |f| ==> s[i] in f;
    if rest != "" { assert s[|f|] == rest[0]; }
    hide Blank;
  }

  lemma {:induction false} FieldsJoined(fs: seq<string>)
    requires forall f :: f in fs ==> Solid(f)
    ensures Fields(Join(fs)) == fs
    decreases |fs|
  {
    hide IsSpace, Blank;
    if fs != [] {
      var f := fs[0];
      assert Solid(f) && f[0] in f;
      assert [f] + fs[1..] == fs;
      FieldsJoined(fs[1..]);
      if |fs| == 1 {
        assert Join(fs) == f + "";
        BlankAt(f, "");
        assert f[|f|..] == "" && f[..|f|] == f;
        assert Join(fs)[0] == f[0];
      } else {
        JoinMore(f, fs[1..]);
        var s := f + " " + Join(fs[1..]);
        assert s == f + (" " + Join(fs[1..]));
        assert IsSpace(' ') by { SpaceIsSpace(); }
        BlankAt(f, " " + Join(fs[1..]));
        assert s[0] == f[0] && s[..|f|] == f && s[|f|..] == " " + Join(fs[1..]);
        SkipSpace(Join(fs[1..]));
      }
    }
  }

  lemma SpaceIsSpace()
    ensures IsSpace(' ')
  {}

  lemma SkipSpace(s: string)
    ensures Fields(" " + s) == Fields(s)
  {
    assert (" " + s)[1..] == s;
  }

  lemma ClosePrefix(b: string, n: nat)
    requires n <= |b| && HasClose(b[..n])
    ensures HasClose(b)
  {
    var i :| 0 <= i < n - 1 && b[..n][i] == ')' && b[..n][i + 1] == ' ';
    assert b[i] == ')' && b[i + 1] == ' ';
  }

  lemma {:induction false} LastCloseAt(a: string, b: string)
    requires !HasClose(b)
    ensures LastClose(a + ") " + b) == Some(|a|)
    decreases |b|
  {
    var s := a + ") " + b;
    if b == "" {
      assert s == a + ") ";
    } else {
      var n := |b| - 1;
      assert s[..|s| - 1] == a + ") " + b[..n];
      if HasClose(b[..n]) { ClosePrefix(b, n); assert false; }
      LastCloseAt(a, b[..n]);
      if |b| >= 2 { assert s[|s| - 2] == b[n - 1] && s[|s| - 1] == b[n]; }
    }
  }

  // ---- a PRG row put together ----

  // The parts of a PRG row around its command line.
  datatype Prg = Prg(head: seq<string>, pid: string, name: string, state: char, nums: seq<string>, suffix: seq<string>)

  predicate WellFormed(p: Prg) {
    && |p.head| == 6 && (forall f :: f in p.head ==> NoSpace(f)) && p.head[0] == "PRG"
    && NoSpace(p.pid) && ParseInt(p.pid).Some? && ParseInt(p.pid).value > 0
    && |p.name| <= 15 && '\n' !in p.name && IsLetter(p.state)
    && |p.nums| == 6 && AllInts(p.nums)
    && |p.suffix| == 16 && (forall f :: f in p.suffix ==> Solid(f)) && AllInts(p.suffix[..11])
  }

  function Before(p: Prg): string { "(" + p.name + ") " + [p.state] + " " + Join(p.nums) + " (" }

  // A way to write the fields after the command line: white space between them as it comes.
  predicate Written(p: Prg, text: string) { Fields(text) == p.suffix && '\n' !in text }

  function Rest(p: Prg, cmd: string, text: string): string { Before(p) + cmd + ") " + text }

  // The row with a given command line.
  function Line(p: Prg, cmd: string, text: string): string { Join(p.head) + " " + (p.pid + " " + Rest(p, cmd, text)) }

  // The row as it is emitted.
  function Plain(p: Prg): string { Line(p, "", Join(p.suffix)) }

  lemma IntIsPlain(s: string)
    requires ParseInt(s).Some?
    ensures s != "" && forall i :: 0 <= i < |s| ==> s[i] == '-' || s[i] == '+' || '0' <= s[i] <= '9'
  {
    var d := if s[0] == '-' || s[0] == '+' then s[1..] else s;
    hide Value;
    forall i | 0 <= i < |s| ensures s[i] == '-' || s[i] == '+' || '0' <= s[i] <= '9' {
      if d == s { assert '0' <= d[i] <= '9'; } else if i > 0 { assert '0' <= d[i - 1] <= '9'; }
    }
  }

  predicate Safe(s: string) { forall i :: 0 <= i < |s| ==> s[i] != ')' && s[i] != '(' && s[i] != '\n' }

  lemma {:induction false} JoinedInts(fs: seq<string>)
    requires AllInts(fs)
    ensures Safe(Join(fs)) && (fs != [] ==> |Join(fs)| >= 2 * |fs| - 1) && forall f :: f in fs ==> NoSpace(f)
    decreases |fs|
  {
    hide ParseInt;
    if fs != [] {
      var f := fs[0];
      IntIsPlain(f);
      assert [f] + fs[1..] == fs;
      JoinedInts(fs[1..]);
      if |fs| > 1 { JoinMore(f, fs[1..]); }
    }
  }

  // No place within reach of the pattern after the real name looks like its end.
  lemma NameFound(p: Prg, cmd: string, text: string)
    requires WellFormed(p) && '\n' !in cmd && '\n' !in text
    ensures NameLength(Rest(p, cmd, text), NAME_MAX) == Some(|p.name|)
  {
    hide ParseInt, Join, Solid;
    var b, n, j := Rest(p, cmd, text), |p.name|, Join(p.nums);
    JoinedInts(p.nums);
    var end := cmd + ") " + text;
    assert b == "(" + p.name + (") " + [p.state] + " " + j + " (" + end);
    assert forall i :: 0 <= i < n ==> b[i + 1] == p.name[i];
    assert b[n + 1] == ')' && b[n + 2] == ' ' && b[n + 3] == p.state && b[n + 4] == ' ';
    assert forall i :: 0 <= i < |j| ==> b[n + 5 + i] == j[i];
    assert b[n + 5 + |j|] == ' ' && b[n + 6 + |j|] == '(';
    assert '\n' !in b by { NoNewline(p, cmd, text); }
    assert NameAt(b, n);
    forall k | n < k <= NAME_MAX ensures !NameAt(b, k) {
      assert b[k + 1] != ')' by {
        if k + 1 >= n + 5 { assert k + 1 - (n + 5) < |j| + 2; }
      }
    }
  }

  lemma {:induction false} SuffixPlain(fs: seq<string>)
    requires forall f :: f in fs ==> Solid(f)
    ensures '\n' !in Join(fs)
    decreases |fs|
  {
    if fs != [] {
      assert Solid(fs[0]) && IsSpace('\n');
      assert [fs[0]] + fs[1..] == fs;
      SuffixPlain(fs[1..]);
      if |fs| > 1 { JoinMore(fs[0], fs[1..]); }
    }
  }

  lemma NoNewline(p: Prg, cmd: string, text: string)
    requires WellFormed(p) && '\n' !in cmd && '\n' !in text
    ensures '\n' !in Rest(p, cmd, text)
  {
    hide ParseInt, Join, Solid;
    JoinedInts(p.nums);
    assert IsLetter(p.state) && p.state != '\n';
  }

  // What the row stands for, whatever its command line.
  function Redacted(p: Prg, threads: bool): Parsed
    requires WellFormed(p)
  {
    Process(Row("host", Plain(p) + "\n", true, None, None, None, p.nums[5],
                if p.suffix[14] == "-" then "" else p.suffix[14]),
            ParseInt(p.pid).value, p.nums[2], p.suffix[11], threads)
  }

  lemma LineSplits(p: Prg, cmd: string, text: string)
    requires WellFormed(p)
    ensures SplitN(Line(p, cmd, text), 7) == p.head + [p.pid + " " + Rest(p, cmd, text)]
    ensures Space(p.pid + " " + Rest(p, cmd, text)) == |p.pid|
  {
    SplitJoined(p.head, p.pid + " " + Rest(p, cmd, text));
    SpaceAfter(p.pid, Rest(p, cmd, text));
  }

  function Tail(p: Prg, cmd: string, text: string): string {
    Join([[p.state]] + p.nums) + " " + ("(" + cmd + ") " + text)
  }

  lemma TailOf(p: Prg, cmd: string, text: string)
    requires WellFormed(p)
    ensures var b, n := Rest(p, cmd, text), |p.name|;
      n + 5 <= |b| && b[1..n + 1] == p.name && [b[n + 3]] + " " + b[n + 5..] == Tail(p, cmd, text)
  {
    hide ParseInt, Join, Solid;
    JoinMore([p.state], p.nums);
    var b, n := Rest(p, cmd, text), |p.name|;
    var after := Join(p.nums) + " (" + cmd + ") " + text;
    assert b == "(" + p.name + ") " + [p.state] + " " + after;
    assert b[n + 5..] == after && b[n + 3] == p.state;
    assert Tail(p, cmd, text) == [p.state] + " " + after;
  }

  // What is made of the row is the same for every command line: the row with "()" in its
  // place, or a rejection when the rest of the row itself holds ") ".
  lemma RedactionIgnoresCommand(p: Prg, cmd: string, text: string, threads: bool)
    requires WellFormed(p) && '\n' !in cmd && Written(p, text)
    ensures ParseRow(Line(p, cmd, text), threads) == if HasClose(text) then Bad else Redacted(p, threads)
  {
    LineSplits(p, cmd, text);
    NameFound(p, cmd, text);
    TailOf(p, cmd, text);
    var row := Row("host", Line(p, cmd, text) + "\n", false, None, None, None, "", "");
    if HasClose(text) { ClosedSuffixRejected(p, cmd, text, row, threads); }
        else { PrgParsed(p, cmd, text, row, threads); }
    hide ParseInt, Join, Solid, Redacted, HasClose, Rest, Line, NameLength, SplitN, ParsePrg, Space, Tail, Fields;
    var fields := p.head + [p.pid + " " + Rest(p, cmd, text)];
    assert fields[..6] == p.head && fields[6] == p.pid + " " + Rest(p, cmd, text);
    var body := fields[6];
    assert body[..|p.pid|] == p.pid && body[|p.pid| + 1..] == Rest(p, cmd, text);
    assert ParseRow(Line(p, cmd, text), threads) == ParseProcess(p.head, body, row, threads);
  }

  lemma PrgParsed(p: Prg, cmd: string, text: string, row: Row, threads: bool)
    requires WellFormed(p) && Written(p, text) && !HasClose(text) &&
      row == Row("host", row.content, false, None, None, None, "", "")
    ensures ParsePrg(p.head, p.pid, ParseInt(p.pid).value, p.name, Tail(p, cmd, text), row, threads) == Redacted(p,
      threads)
  {
    var fs := [[p.state]] + p.nums;
    var rest := "(" + cmd + ") " + text;
    JoinedInts(p.nums);
    SplitJoined(fs, rest);
    assert SplitN(Tail(p, cmd, text), 8) == fs + [rest];
    LastCloseAt("(" + cmd, text);
    hide ParseInt, Solid, Fields, LastClose, SplitN, HasClose;
    var prefix := fs + [rest];
    assert rest == ("(" + cmd) + ") " + text && rest[|cmd| + 3..] == text;
    assert prefix[1..7] == p.nums && prefix[..7] == fs && prefix[3] == p.nums[2] && prefix[6] == p.nums[5];
    Rejoined(p);
  }

  lemma Rejoined(p: Prg)
    requires WellFormed(p)
    ensures Plain(p) == Join(p.head) + " " + p.pid + " (" + p.name + ") "
                        + Join([[p.state]] + p.nums) + " () " + Join(p.suffix)
  {
    JoinMore([p.state], p.nums);
    hide Join, ParseInt, Solid;
    var left := Join(p.head) + " " + p.pid + " ";
    var mid := "(" + p.name + ") " + ([p.state] + " " + Join(p.nums));
    assert left + mid == Join(p.head) + " " + p.pid + " (" + p.name + ") " + Join([[p.state]] + p.nums);
    assert mid + " (" == Before(p);
    Bracket(left, mid, Join(p.suffix));
    assert Plain(p) == left + (mid + " (" + "" + ") " + Join(p.suffix));
  }

  lemma Bracket(left: string, mid: string, right: string)
    ensures left + mid + " () " + right == left + (mid + " (" + "" + ") " + right)
  {}

  // ---- what rows stand for ----

  // A row of a process, or of a thread, which goes under the process of its group; rows of
  // threads are left out unless they are asked for.
  predicate Attributed(r: Parsed, row: Row, pid: int, group: string, kind: string, threads: bool) {
    if (kind != "y" && kind != "n") || ParseInt(group).None? || ParseInt(group).value <= 0 then r == Bad
    else if kind == "y" then r == Kept(row.(scope := "process", pid := Some(pid)))
    else if threads then r == Kept(row.(scope := "thread", pid := ParseInt(group), tid := Some(pid)))
    else r == Skipped
  }

  lemma ProcessAttributes(row: Row, pid: int, group: string, kind: string, threads: bool)
    ensures Attributed(Process(row, pid, group, kind, threads), row, pid, group, kind, threads)
  {
    hide ParseInt;
  }

  // A PRG row keeps its command line to itself, and gives start time and container.
  lemma RedactedSays(p: Prg, threads: bool)
    requires WellFormed(p)
    ensures Attributed(Redacted(p, threads),
                       Row("host", Plain(p) + "\n", true, None, None, None, p.nums[5],
                           if p.suffix[14] == "-" then "" else p.suffix[14]),
                       ParseInt(p.pid).value, p.nums[2], p.suffix[11], threads)
  {
    hide ParseInt, Process, Plain;
    ProcessAttributes(Row("host", Plain(p) + "\n", true, None, None, None, p.nums[5],
                          if p.suffix[14] == "-" then "" else p.suffix[14]),
                      ParseInt(p.pid).value, p.nums[2], p.suffix[11], threads);
  }

  // The parts of a process row of another label: its fields after the name, the state first.
  datatype Proc = Proc(head: seq<string>, pid: string, name: string, v: seq<string>)

  predicate ProcFormed(p: Proc) {
    && |p.head| == 6 && (forall f :: f in p.head ==> NoSpace(f)) && "PR" <= p.head[0] && p.head[0] != "PRG"
    && NoSpace(p.pid) && ParseInt(p.pid).Some? && ParseInt(p.pid).value > 0
    && |p.name| <= 15 && '\n' !in p.name
    && |p.v| >= 8 && (forall f :: f in p.v ==> Solid(f)) && |p.v[0]| == 1 && IsLetter(p.v[0][0])
    && forall i :: 1 <= i < 8 ==> ')' !in p.v[i]
  }

  function ProcBody(p: Proc): string { "(" + p.name + ") " + Join(p.v) }

  function ProcLine(p: Proc): string { Join(p.head) + " " + (p.pid + " " + ProcBody(p)) }

  lemma {:induction false} JoinOpen(fs: seq<string>, m: nat)
    requires 0 < m <= |fs| && forall i :: 0 <= i < m ==> fs[i] != "" && ')' !in fs[i]
    ensures forall i :: 0 <= i < 2 * m - 1 && i < |Join(fs)| ==> Join(fs)[i] != ')'
    decreases m
  {
    if |fs| > 1 {
      var f, rest := fs[0], Join(fs[1..]);
      assert Join(fs) == f + " " + rest;
      if m > 1 { JoinOpen(fs[1..], m - 1); }
      hide Join;
      forall i | 0 <= i < 2 * m - 1 && i < |f + " " + rest| ensures (f + " " + rest)[i] != ')' {
        if i > |f| { assert (f + " " + rest)[i] == rest[i - |f| - 1]; }
      }
    }
  }

  lemma ProcParts(p: Proc)
    requires ProcFormed(p)
    ensures Join(p.v) == p.v[0] + " " + Join(p.v[1..]) && '\n' !in Join(p.v)
    ensures forall i :: 0 <= i < 13 && i < |Join(p.v[1..])| ==> Join(p.v[1..])[i] != ')'
  {
    assert p.v == [p.v[0]] + p.v[1..];
    JoinMore(p.v[0], p.v[1..]);
    SuffixPlain(p.v);
    hide Join, ParseInt;
    assert forall i :: 0 <= i < 7 ==> p.v[1..][i] == p.v[i + 1] && p.v[i + 1] in p.v;
    JoinOpen(p.v[1..], 7);
  }

  lemma ProcNameFound(p: Proc)
    requires ProcFormed(p)
    ensures NameLength(ProcBody(p), NAME_MAX) == Some(|p.name|)
    ensures var b, n := ProcBody(p), |p.name|;
      n + 5 <= |b| && [b[n + 3]] + " " + b[n + 5..] == Join(p.v)
  {
    hide ParseInt, Join, Solid, NameLength;
    ProcParts(p);
    var b, n, j := ProcBody(p), |p.name|, Join(p.v[1..]);
    var state := p.v[0][0];
    assert p.v[0] == [state];
    assert b == "(" + p.name + ") " + [state] + " " + j;
    assert forall i :: 0 <= i < n ==> b[i + 1] == p.name[i];
    assert b[n + 1] == ')' && b[n + 2] == ' ' && b[n + 3] == state && b[n + 4] == ' ';
    assert b[n + 5..] == j;
    assert forall i :: 0 <= i < |j| ==> b[n + 5 + i] == j[i];
    assert NameAt(b, n);
    forall k | n < k <= NAME_MAX ensures !NameAt(b, k) {
      if k + 1 < |b| && k + 1 >= n + 5 { assert b[k + 1] == j[k + 1 - (n + 5)]; }
    }
    OnlyName(b, n);
  }

  lemma OnlyName(b: string, n: nat)
    requires n <= NAME_MAX && NameAt(b, n) && forall k :: n < k <= NAME_MAX ==> !NameAt(b, k)
    ensures NameLength(b, NAME_MAX) == Some(n)
  {
    hide NameAt;
    assert NameLength(b, NAME_MAX).Some?;
  }

  function Flag(s: string): Option<bool> { if s == "y" then Some(true) else if s == "n" then Some(false) else None }

  // A process row as it comes: by its label it has a number of fields after the name, places for
  // its group and kind, and for some a flag whether the kernel supports what it tells. The row
  // itself is its content; any other label is no row.
  lemma ProcRow(p: Proc, threads: bool)
    requires ProcFormed(p)
    ensures var r, v, pid := ParseRow(ProcLine(p), threads), p.v, ParseInt(p.pid).value;
      var row := Row("host", ProcLine(p) + "\n", false, None, None, None, "", "");
      match p.head[0]
      case "PRC" => if |v| != 14 then r == Bad else Attributed(r, row, pid, v[10], v[11], threads)
      case "PRM" => if |v| != 17 then r == Bad else Attributed(r, row, pid, v[13], v[14], threads)
      case "PRD" =>
        if |v| != 11 then r == Bad else Attributed(r, row.(supported := Flag(v[2])), pid, v[8], v[10], threads)
      case "PRN" =>
        if |v| != 14 then r == Bad else Attributed(r, row.(supported := Flag(v[1])), pid, v[12], v[13], threads)
      case _ => r == Bad
  {
    SplitJoined(p.head, p.pid + " " + ProcBody(p));
    SpaceAfter(p.pid, ProcBody(p));
    ProcNameFound(p);
    FieldsJoined(p.v);
    var row := Row("host", ProcLine(p) + "\n", false, None, None, None, "", "");
    OtherSays(p.head[0], p.v, ParseInt(p.pid).value, row, threads);
    hide ParseInt, Join, Solid, ProcBody, ProcLine, NameLength, SplitN, ParsePrg, ParseOther, Space, Fields, Attributed;
    var fields := p.head + [p.pid + " " + ProcBody(p)];
    assert fields[..6] == p.head && fields[6] == p.pid + " " + ProcBody(p);
    var body := fields[6];
    assert body[..|p.pid|] == p.pid && body[|p.pid| + 1..] == ProcBody(p);
    SplitLine(p);
    assert ParseRow(ProcLine(p), threads) == ParseProcess(p.head, body, row, threads);
  }

  lemma SplitLine(p: Proc)
    requires SplitN(Join(p.head) + " " + (p.pid + " " + ProcBody(p)), 7) == p.head + [p.pid + " " + ProcBody(p)]
    ensures SplitN(ProcLine(p), 7) == p.head + [p.pid + " " + ProcBody(p)]
  {}

  lemma OtherSays(tag: string, v: seq<string>, pid: int, row: Row, threads: bool)
    ensures var r := ParseOther(tag, v, pid, row, threads);
      match tag
      case "PRC" => if |v| != 14 then r == Bad else Attributed(r, row, pid, v[10], v[11], threads)
      case "PRM" => if |v| != 17 then r == Bad else Attributed(r, row, pid, v[13], v[14], threads)
      case "PRD" =>
        if |v| != 11 then r == Bad else Attributed(r, row.(supported := Flag(v[2])), pid, v[8], v[10], threads)
      case "PRN" =>
        if |v| != 14 then r == Bad else Attributed(r, row.(supported := Flag(v[1])), pid, v[12], v[13], threads)
      case _ => r == Bad
  {
    hide ParseInt;
  }

  // A row of the system is its own content; PSI rows tell first whether they are supported.
  lemma HostRow(head: seq<string>, rest: string, threads: bool)
    requires |head| == 6 && (forall f :: f in head ==> NoSpace(f)) && !("PR" <= head[0])
    ensures var line := Join(head) + " " + rest; var v := Fields(rest);
      var row := Row("host", line + "\n", false, None, None, None, "", "");
      ParseRow(line, threads) ==
        if head[0] != "PSI" then Kept(row)
        else if v != [] && (v[0] == "y" || v[0] == "n") then Kept(row.(supported := Some(v[0] == "y")))
        else Bad
  {
    SplitJoined(head, rest);
    hide Fields, Join, SplitN;
    var fields := head + [rest];
    assert fields[6] == rest && fields[0] == head[0];
  }

  // ---- a suffix with ") " inside ----

  predicate EndsClose(f: string) { f != "" && f[|f| - 1] == ')' }

  lemma {:induction false} LastCloseShift(a: string, b: string)
    requires HasClose(b)
    ensures LastClose(b).Some? && LastClose(a + b) == Some(|a| + LastClose(b).value)
    decreases |b|
  {
    var s, n := a + b, |b| - 1;
    var i :| 0 <= i < n && b[i] == ')' && b[i + 1] == ' ';
    assert s[|s| - 2] == b[n - 1] && s[|s| - 1] == b[n];
    if !(b[n - 1] == ')' && b[n] == ' ') {
      assert s[..|s| - 1] == a + b[..n];
      assert b[..n][i] == ')' && b[..n][i + 1] == ' ';
      LastCloseShift(a, b[..n]);
    }
  }

  lemma FirstClose(f: string, b: string)
    requires Solid(f)
    ensures HasClose(f + " " + b) <==> EndsClose(f) || HasClose(b)
  {
    if HasClose(b) { CloseBehind(f + " ", b); }
    if EndsClose(f) { CloseBetween(f, b); }
    if HasClose(f + " " + b) { CloseWhere(f, b); }
    hide HasClose, EndsClose, Solid;
  }

  lemma CloseBehind(a: string, b: string)
    requires HasClose(b)
    ensures HasClose(a + b)
  {
    var i :| 0 <= i < |b| - 1 && b[i] == ')' && b[i + 1] == ' ';
    var s := a + b;
    assert s[|a| + i] == b[i] && s[|a| + i + 1] == b[i + 1];
  }

  lemma CloseBetween(f: string, b: string)
    requires EndsClose(f)
    ensures HasClose(f + " " + b)
  {
    var s, i := f + " " + b, |f| - 1;
    assert s[i] == ')' && s[i + 1] == ' ';
  }

  lemma CloseWhere(f: string, b: string)
    requires Solid(f) && HasClose(f + " " + b)
    ensures EndsClose(f) || HasClose(b)
  {
    SolidNoSpace(f);
    var s := f + " " + b;
    var i :| 0 <= i < |s| - 1 && s[i] == ')' && s[i + 1] == ' ';
    assert s[|f|] == ' ' && forall k :: 0 <= k < |f| ==> s[k] == f[k];
    if i > |f| {
      var j := i - |f| - 1;
      assert b[j] == s[i] && b[j + 1] == s[i + 1];
    }
    hide Solid;
  }

  lemma SolidNoSpace(f: string)
    requires Solid(f)
    ensures forall i :: 0 <= i < |f| ==> f[i] != ' '
  {
    forall i | 0 <= i < |f| ensures f[i] != ' ' { assert f[i] in f; }
  }

  // A joined suffix holds ") " exactly when a field before its last ends with ")".
  lemma {:induction false} CloseIff(fs: seq<string>)
    requires forall f :: f in fs ==> Solid(f)
    ensures HasClose(Join(fs)) <==> exists i :: 0 <= i < |fs| - 1 && EndsClose(fs[i])
    decreases |fs|
  {
    hide Solid, EndsClose, HasClose, Join;
    if |fs| <= 1 {
      SingleClose(fs);
    } else {
      var gs := fs[1..];
      assert [fs[0]] + gs == fs;
      JoinMore(fs[0], gs);
      FirstClose(fs[0], Join(gs));
      CloseIff(gs);
      if j :| 0 <= j < |gs| - 1 && EndsClose(gs[j]) { assert EndsClose(fs[j + 1]); }
      if i :| 0 <= i < |fs| - 1 && EndsClose(fs[i]) { if i > 0 { assert EndsClose(gs[i - 1]); } }
    }
  }

  lemma SingleClose(fs: seq<string>)
    requires |fs| <= 1 && forall f :: f in fs ==> Solid(f)
    ensures !HasClose(Join(fs))
  {
    if fs != [] {
      assert Solid(fs[0]);
      SolidNoSpace(fs[0]);
    }
  }

  // White space parts the fields of a text from those of the text after it.
  lemma {:induction false} FieldsParted(a: string, b: string)
    requires a != "" && IsSpace(a[|a| - 1])
    ensures Fields(a + b) == Fields(a) + Fields(b)
    decreases |a|
  {
    hide IsSpace;
    var s := a + b;
    assert s[0] == a[0];
    if IsSpace(a[0]) {
      assert s[1..] == a[1..] + b;
      if |a| > 1 { FieldsParted(a[1..], b); } else { assert a[1..] + b == b; }
    } else {
      var i := Blank(a);
      BlankStays(a, b);
      assert s[..i] == a[..i] && s[i..] == a[i..] + b;
      FieldsParted(a[i..], b);
    }
  }

  lemma {:induction false} BlankIs(s: string, i: nat)
    requires i <= |s| && (forall k :: 0 <= k < i ==> !IsSpace(s[k])) && (i < |s| ==> IsSpace(s[i]))
    ensures Blank(s) == i
    decreases |s|
  {
    hide IsSpace;
    if i > 0 {
      BlankIs(s[1..], i - 1);
    }
  }

  lemma BlankPlain(s: string)
    ensures forall k :: 0 <= k < Blank(s) ==> !IsSpace(s[k])
  {
    hide IsSpace, Blank;
    assert forall k :: 0 <= k < Blank(s) ==> s[k] in s[..Blank(s)];
  }

  lemma BlankStays(a: string, b: string)
    requires a != "" && IsSpace(a[|a| - 1])
    ensures Blank(a + b) == Blank(a) < |a|
  {
    hide IsSpace, Blank;
    BlankPlain(a);
    BlankIs(a + b, Blank(a));
  }

  lemma {:induction false} SomeField(s: string, i: nat)
    requires i < |s| && !IsSpace(s[i])
    ensures Fields(s) != []
  {
    if i > 0 && IsSpace(s[0]) { SomeField(s[1..], i - 1); }
  }

  lemma {:induction false} LastCloseFound(s: string)
    requires HasClose(s)
    ensures LastClose(s).Some? && s[LastClose(s).value] == ')' && s[LastClose(s).value + 1] == ' '
  {
    var n := |s| - 1;
    if !(s[n - 1] == ')' && s[n] == ' ') {
      var i :| 0 <= i < |s| - 1 && s[i] == ')' && s[i + 1] == ' ';
      assert s[..n][i] == ')' && s[..n][i + 1] == ' ';
      LastCloseFound(s[..n]);
    }
  }

  // Cut at the last ") ", the rest of the row loses at least one field.
  lemma CutLosesField(text: string)
    requires HasClose(text)
    ensures LastClose(text).Some? && |Fields(text[LastClose(text).value + 2..])| < |Fields(text)|
  {
    LastCloseFound(text);
    hide HasClose, LastClose, Fields;
    var e := LastClose(text).value;
    var a, b := text[..e + 2], text[e + 2..];
    assert text == a + b && a[e] == ')' && a[e + 1] == ' ';
    FieldsParted(a, b);
    SomeField(a, e);
  }

  lemma ClosedSuffixRejected(p: Prg, cmd: string, text: string, row: Row, threads: bool)
    requires WellFormed(p) && Written(p, text) && HasClose(text)
    ensures ParsePrg(p.head, p.pid, ParseInt(p.pid).value, p.name, Tail(p, cmd, text), row, threads) == Bad
  {
    hide ParseInt, Solid, Fields, LastClose, SplitN, HasClose, Join, IsLetter, Process;
    var fs := [[p.state]] + p.nums;
    var rest := "(" + cmd + ") " + text;
    JoinedInts(p.nums);
    StateNoSpace(p.state);
    SplitJoined(fs, rest);
    LastCloseShift("(" + cmd + ") ", text);
    CutLosesField(text);
    assert rest == ("(" + cmd + ") ") + text;
    var e := LastClose(text).value;
    assert rest[|cmd| + 3 + e + 2..] == text[e + 2..];
  }

  lemma StateNoSpace(c: char)
    requires IsLetter(c)
    ensures NoSpace([c])
  {}

  // ---- redacting the result again ----

  lemma {:induction false} SplitNoSpace(s: string, n: nat)
    requires n > 0
    ensures forall i :: 0 <= i < |SplitN(s, n)| - 1 ==> NoSpace(SplitN(s, n)[i])
    decreases n
  {
    var i := Space(s);
    if !(n == 1 || i == |s|) { SplitNoSpace(s[i + 1..], n - 1); }
  }

  lemma SplitFirst(c: char, rest: string, n: nat)
    requires c != ' ' && n > 1
    ensures SplitN([c] + " " + rest, n)[0] == [c]
  {
    SpaceAfter([c], rest);
  }

  // An emitted PRG row is the redaction of its parts.
  lemma PartsOf(line: string, threads: bool) returns (p: Prg)
    requires ParseRow(line, threads).Kept? && ParseRow(line, threads).row.redacted
    ensures WellFormed(p) && ParseRow(line, threads) == Redacted(p, threads)
  {
    hide ParseInt, Fields, LastClose, SplitN, Join, NameLength, Space, ParsePrg, WellFormed, Redacted;
    SplitNoSpace(line, 7);
    var fields := SplitN(line, 7);
    var row := Row("host", line + "\n", false, None, None, None, "", "");
    KeptPrg(fields[..6], fields[6], row, threads);
    p := ProcessParts(fields[..6], fields[6], row, threads);
  }

  lemma ProcessParts(head: seq<string>, body: string, row: Row, threads: bool) returns (p: Prg)
    requires |head| == 6 && (forall f :: f in head ==> NoSpace(f)) && head[0] == "PRG"
    requires row == Row("host", row.content, false, None, None, None, "", "") &&
      ParseProcess(head, body, row, threads).Kept?
    ensures WellFormed(p) && ParseProcess(head, body, row, threads) == Redacted(p, threads)
  {
    hide ParseInt, Fields, LastClose, SplitN, Join, NameLength, Space, ParsePrg, WellFormed, Redacted;
    var i := Space(body);
    var b := body[i + 1..];
    var n := NameLength(b, NAME_MAX).value;
    assert forall c :: c in b[1..n + 1] ==> c in b;
    p := PrgParts(head, body[..i], b[1..n + 1], b[n + 3], b[n + 5..], row, threads);
  }

  lemma PrgParts(head: seq<string>, pid: string, name: string, state: char, after: string, row: Row,
    threads: bool) returns (p: Prg)
    requires |head| == 6 && (forall f :: f in head ==> NoSpace(f)) && head[0] == "PRG"
    requires NoSpace(pid) && ParseInt(pid).Some? && ParseInt(pid).value > 0
    requires |name| <= NAME_MAX && '\n' !in name && IsLetter(state)
    requires row == Row("host", row.content, false, None, None, None, "", "")
    requires ParsePrg(head, pid, ParseInt(pid).value, name, [state] + " " + after, row, threads).Kept?
    ensures WellFormed(p) && ParsePrg(head, pid, ParseInt(pid).value, name, [state] + " " + after, row,
      threads) == Redacted(p, threads)
  {
    hide ParseInt, Solid, Fields, LastClose, SplitN, Join, IsLetter, Process;
    var prefix := SplitN([state] + " " + after, 8);
    StateNoSpace(state);
    assert [state][0] == state;
    SplitFirst(state, after, 8);
    var suffix := Fields(prefix[7][LastClose(prefix[7]).value + 2..]);
    p := Prg(head, pid, name, state, prefix[1..7], suffix);
    assert prefix[..7] == [[p.state]] + p.nums;
    Rejoined(p);
    hide Line;
  }

  // Only a PRG row is marked redacted.
  lemma KeptPrg(head: seq<string>, body: string, row: Row, threads: bool)
    requires |head| == 6 && !row.redacted
    ensures ParseProcess(head, body, row, threads).Kept? && ParseProcess(head, body, row, threads).row.redacted ==>
      head[0] == "PRG"
  {
    hide ParseInt, Fields, NameLength, Space;
  }

  lemma PlainWritten(p: Prg)
    requires WellFormed(p)
    ensures Written(p, Join(p.suffix))
  {
    FieldsJoined(p.suffix);
    SuffixPlain(p.suffix);
  }

  // Redacting an emitted row again gives the same row exactly when no field of its suffix
  // but the last ends with ")"; otherwise the row is rejected.
  lemma RedactionTwice(line: string, threads: bool) returns (p: Prg)
    requires ParseRow(line, threads).Kept? && ParseRow(line, threads).row.redacted
    ensures WellFormed(p) && ParseRow(line, threads).row.content == Plain(p) + "\n"
    ensures ParseRow(Plain(p), threads) ==
            if exists i :: 0 <= i < 15 && EndsClose(p.suffix[i]) then Bad else ParseRow(line, threads)
  {
    p := PartsOf(line, threads);
    PlainWritten(p);
    RedactionIgnoresCommand(p, "", Join(p.suffix), threads);
    CloseIff(p.suffix);
    hide ParseRow, HasClose, Join, Line, ParseInt, Solid;
  }

  // ---- a row that is accepted once but not twice ----

  lemma {:induction false} FieldsTrail(s: string, c: char)
    requires IsSpace(c)
    ensures Fields(s + [c]) == Fields(s)
    decreases |s|
  {
    hide IsSpace;
    var t := s + [c];
    if s == "" {
      assert t[1..] == "";
    } else if IsSpace(s[0]) {
      assert t[1..] == s[1..] + [c];
      FieldsTrail(s[1..], c);
    } else {
      var i := Blank(s);
      assert s[..i] == t[..i];
      BlankTrail(s, c);
      assert t[i..] == s[i..] + [c];
      FieldsTrail(s[i..], c);
    }
  }

  lemma BlankTrail(s: string, c: char)
    requires IsSpace(c)
    ensures Blank(s + [c]) == Blank(s)
  {
    hide IsSpace, Blank;
    BlankPlain(s);
    BlankIs(s + [c], Blank(s));
  }

  // Two lists of fields with a tab between them.
  lemma Tabbed(xs: seq<string>, ys: seq<string>)
    requires (forall f :: f in xs ==> Solid(f)) && (forall f :: f in ys ==> Solid(f)) && xs != [] && ys != []
    requires !HasClose(Join(xs)) && !HasClose(Join(ys))
    ensures var text := Join(xs) + "\t" + Join(ys);
      Fields(text) == xs + ys && '\n' !in text && !HasClose(text)
  {
    var a, b := Join(xs), Join(ys);
    var text := a + "\t" + b;
    FieldsJoined(xs);
    FieldsJoined(ys);
    SuffixPlain(xs);
    SuffixPlain(ys);
    TabIsSpace();
    FieldsTrail(a, '\t');
    FieldsParted(a + "\t", b);
    hide Fields, Join, Solid, IsSpace;
  }

  lemma TabIsSpace()
    ensures IsSpace('\t')
  {}

  // A row with a tab after a field that ends with ")" is redacted; the result, with a space
  // there, is rejected.
  lemma RedactedOnce(cmd: string, threads: bool) returns (line: string, p: Prg)
    requires '\n' !in cmd
    ensures ParseRow(line, threads).Kept? && ParseRow(line, threads).row.redacted &&
      ParseRow(line, threads).row.content == Plain(p) + "\n"
    ensures ParseRow(Plain(p), threads) == Bad
  {
    var xs := ["0", "0", "0", "0", "0", "0", "0", "0", "0", "0", "0", "y", "x)"];
    var ys := ["-", "-", "-"];
    p := Prg(["PRG", "h", "1", "d", "t", "1"], "1", "n", 'S', ["1", "1", "1", "1", "1", "1"], xs + ys);
    hide *;
    OnceFields(xs, ys);
    CloseIff(xs);
    CloseIff(ys);
    CloseIff(xs + ys);
    var text := Join(xs) + "\t" + Join(ys);
    Tabbed(xs, ys);
    OnceWellFormed(p, xs, ys);
    line := Line(p, cmd, text);
    TabWritten(p, text);
    RedactionIgnoresCommand(p, cmd, text, threads);
    PlainRow(p);
    RedactionIgnoresCommand(p, "", Join(p.suffix), threads);
  }

  lemma OnceFields(xs: seq<string>, ys: seq<string>)
    requires xs == ["0", "0", "0", "0", "0", "0", "0", "0", "0", "0", "0", "y", "x)"] && ys == ["-", "-", "-"]
    ensures forall f :: f in xs || f in ys || f in xs + ys ==> Solid(f)
    ensures forall i :: 0 <= i < 12 ==> !EndsClose(xs[i])
    ensures forall i :: 0 <= i < 2 ==> !EndsClose(ys[i])
    ensures EndsClose((xs + ys)[12])
  {}

  lemma TabWritten(p: Prg, text: string)
    requires Fields(text) == p.suffix && '\n' !in text
    ensures Written(p, text)
  {}

  lemma PlainRow(p: Prg)
    requires WellFormed(p)
    ensures Written(p, Join(p.suffix)) && Plain(p) == Line(p, "", Join(p.suffix))
    ensures forall threads :: Redacted(p, threads).Kept? ==>
      Redacted(p, threads).row.redacted && Redacted(p, threads).row.content == Plain(p) + "\n"
  {
    PlainWritten(p);
    hide WellFormed, Written, Plain;
  }

  lemma OneAndZero()
    ensures ParseInt("0") == Some(0) && ParseInt("1") == Some(1)
  {
    assert Value("0") == 0 && Value("1") == 1;
  }

  lemma OnceWellFormed(p: Prg, xs: seq<string>, ys: seq<string>)
    requires xs == ["0", "0", "0", "0", "0", "0", "0", "0", "0", "0", "0", "y", "x)"] && ys == ["-", "-", "-"]
    requires p == Prg(["PRG", "h", "1", "d", "t", "1"], "1", "n", 'S', ["1", "1", "1", "1", "1", "1"], xs + ys)
    requires forall f :: f in xs + ys ==> Solid(f)
    ensures WellFormed(p) && forall threads :: Redacted(p, threads).Kept?
  {
    OneAndZero();
    hide ParseInt, Solid, Plain;
    assert forall f :: f in p.suffix[..11] ==> f == "0";
  }
}
