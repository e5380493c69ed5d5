// The samples file of a task: crash repair and coverage (internal/agent/archive.go) and
// the capture that writes it (internal/agent/window_task.go), over bytes. JSON encoding
// and decoding are a parameter; a JSON text holds no raw newline (RFC 8259, section 7).
module FrameLog {
  import opened Records

  type Bytes = seq<bv8>

  const NEWLINE: bv8 := 10
  const RETURN: bv8 := 13
  const LINE_LIMIT := 6 * 16777216 + 65536

  datatype Kind = Source | FrameEnd | Other

  datatype Rec = Rec(version: int, kind: Kind, id: string, source: string, complete: bool)

  datatype Codec = Codec(dec: Bytes -> Option<Rec>, enc: Rec -> Bytes)

  // What the codec does for a record the agent writes.
  ghost predicate Encodes(c: Codec, r: Rec) {
    c.dec(c.enc(r)) == Some(r) && NEWLINE !in c.enc(r) && |c.enc(r)| + 1 <= LINE_LIMIT
  }

  // ---- terminated lines ----

  function LineEnd(b: Bytes): (n: nat)
    ensures n <= |b| && NEWLINE !in b[..n] && (n < |b| ==> b[n] == NEWLINE)
  {
    if b == [] || b[0] == NEWLINE then 0
    else
      var n := 1 + LineEnd(b[1..]);
      assert b[..n] == [b[0]] + b[1..][..n - 1];
      n
  }

  function Lines(b: Bytes): seq<Bytes> {
    var n := LineEnd(b);
    if n == |b| then [] else [b[..n]] + Lines(b[n + 1..])
  }

  function Tail(b: Bytes): Bytes {
    var n := LineEnd(b);
    if n == |b| then b else Tail(b[n + 1..])
  }

  function Text(ls: seq<Bytes>): Bytes {
    if ls == [] then [] else Text(ls[..|ls| - 1]) + ls[|ls| - 1] + [NEWLINE]
  }

  predicate Plain(l: Bytes) { NEWLINE !in l }

  lemma LineEndIs(l: Bytes, rest: Bytes)
    requires Plain(l)
    ensures LineEnd(l + [NEWLINE] + rest) == |l|
  {
    var b := l + [NEWLINE] + rest;
    var n := LineEnd(b);
    assert b[|l|] == NEWLINE && b[..|l|] == l;
    assert forall i :: 0 <= i < n ==> b[i] in b[..n];
    assert forall i :: 0 <= i < |l| ==> b[i] in l;
    hide LineEnd;
  }

  lemma NoLineEnd(l: Bytes)
    requires Plain(l)
    ensures LineEnd(l) == |l| && Lines(l) == [] && Tail(l) == l
  {
    assert forall i :: 0 <= i < |l| ==> l[i] in l;
    hide LineEnd;
  }

  lemma FirstLine(b: Bytes)
    requires LineEnd(b) < |b|
    ensures var n := LineEnd(b); Lines(b) == [b[..n]] + Lines(b[n + 1..]) && Tail(b) == Tail(b[n + 1..])
  {
    hide LineEnd;
  }

  lemma OneLine(l: Bytes)
    ensures Text([l]) == l + [NEWLINE]
  {
    assert [l][..0] == [];
  }

  lemma {:induction false} TextAppends(a: seq<Bytes>, b: seq<Bytes>)
    ensures Text(a + b) == Text(a) + Text(b)
    decreases |b|
  {
    if b == [] {
      assert a + b == a;
    } else {
      var n := |b| - 1;
      TextAppends(a, b[..n]);
      assert (a + b)[..|a + b| - 1] == a + b[..n];
    }
  }

  // Lines and tail take any bytes apart, and put together they are the bytes again.
  lemma {:induction false} LinesAndTail(b: Bytes)
    ensures b == Text(Lines(b)) + Tail(b) && Plain(Tail(b))
    ensures forall l :: l in Lines(b) ==> Plain(l)
    decreases |b|
  {
    hide LineEnd, Lines, Tail, Text;
    var n := LineEnd(b);
    if n < |b| {
      LinesAndTail(b[n + 1..]);
      FirstLine(b);
      TextAppends([b[..n]], Lines(b[n + 1..]));
      OneLine(b[..n]);
      assert b == b[..n] + [NEWLINE] + b[n + 1..];
    } else {
      assert b[..n] == b;
      NoLineEnd(b);
      TextOfNone();
    }
  }

  lemma TextOfNone()
    ensures Text([]) == []
  {}

  // The only way to read terminated lines and a tail is the way they were written.
  lemma {:induction false} LinesOf(ls: seq<Bytes>, tail: Bytes)
    requires (forall l :: l in ls ==> Plain(l)) && Plain(tail)
    ensures Lines(Text(ls) + tail) == ls && Tail(Text(ls) + tail) == tail
    decreases |ls|
  {
    hide LineEnd, Lines, Tail, Text;
    if ls == [] {
      TextOfNone();
      assert Text(ls) + tail == tail;
      NoLineEnd(tail);
    } else {
      LinesOf(ls[1..], tail);
      TextAppends([ls[0]], ls[1..]);
      assert [ls[0]] + ls[1..] == ls;
      OneLine(ls[0]);
      var rest := Text(ls[1..]) + tail;
      var b := ls[0] + [NEWLINE] + rest;
      assert Text(ls) + tail == b;
      LineEndIs(ls[0], rest);
      FirstLine(b);
      assert b[..|ls[0]|] == ls[0] && b[|ls[0]| + 1..] == rest;
    }
  }

  // ---- the automaton of repair ----

  datatype Auto = Auto(pendingId: string, pending: nat, sources: nat, ids: set<string>)

  const START := Auto("", 0, 0, {})

  function Accept(a: Auto, r: Rec): Option<Auto> {
    if r.version == 2 then
      match r.kind
      case Source =>
        if a.pendingId != "" && a.pendingId != r.id then None
        else Some(a.(pendingId := r.id, pending := a.pending + 1))
      case FrameEnd =>
        if a.pending == 0 || a.pendingId != r.id || !r.complete then None
        else Some(Auto("", 0, a.sources + a.pending, a.ids + {r.id}))
      case Other => Some(a)
    else if r.version == 1 then
      Some(a.(sources := a.sources + if r.kind.Source? then 1 else 0, ids := a.ids + {r.id}))
    else None
  }

  function AcceptLine(c: Codec, a: Auto, l: Bytes): Option<Auto> {
    if |l| + 1 > LINE_LIMIT || c.dec(l).None? then None else Accept(a, c.dec(l).value)
  }

  function Runs(c: Codec, ls: seq<Bytes>): Option<Auto> {
    if ls == [] then Some(START)
    else
      var a := Runs(c, ls[..|ls| - 1]);
      if a.None? then None else AcceptLine(c, a.value, ls[|ls| - 1])
  }

  // The first k lines are accepted and no longer prefix is.
  predicate Longest(c: Codec, ls: seq<Bytes>, k: nat) {
    k <= |ls| && Runs(c, ls[..k]).Some? && (k < |ls| ==> Runs(c, ls[..k + 1]).None?)
  }

  lemma {:induction false} RejectedStays(c: Codec, ls: seq<Bytes>, k: nat, j: nat)
    requires k <= j <= |ls| && Runs(c, ls[..k]).None?
    ensures Runs(c, ls[..j]).None?
    decreases j
  {
    if k < j {
      RejectedStays(c, ls, k, j - 1);
      assert ls[..j][..j - 1] == ls[..j - 1];
    }
  }

  lemma LongestIsUnique(c: Codec, ls: seq<Bytes>, k: nat, j: nat)
    requires Longest(c, ls, k) && j <= |ls|
    ensures Runs(c, ls[..j]).Some? <==> j <= k
  {
    if j > k { RejectedStays(c, ls, k + 1, j); }
    else if Runs(c, ls[..j]).None? { RejectedStays(c, ls, j, k); }
  }

  function Kept(c: Codec, ls: seq<Bytes>): (k: nat)
    ensures Longest(c, ls, k)
  {
    if ls == [] then 0
    else
      var n := |ls| - 1;
      var k := Kept(c, ls[..n]);
      assert ls[..n][..k] == ls[..k] && ls[..n + 1] == ls && (k < n ==> ls[..n][..k + 1] == ls[..k + 1]);
      if k == n && Runs(c, ls).Some? then |ls| else k
  }

  lemma KeptIsLongest(c: Codec, ls: seq<Bytes>, k: nat)
    requires Longest(c, ls, k)
    ensures k == Kept(c, ls)
  {
    LongestIsUnique(c, ls, k, Kept(c, ls));
    LongestIsUnique(c, ls, Kept(c, ls), k);
  }

  // What repair leaves of a file, and the automaton's state over it.
  function Repaired(c: Codec, file: Bytes): Bytes { Text(Lines(file)[..Kept(c, Lines(file))]) }

  function Tallied(c: Codec, file: Bytes): Auto { Runs(c, Lines(file)[..Kept(c, Lines(file))]).value }

  lemma RunsStep(c: Codec, ls: seq<Bytes>, k: nat)
    requires k < |ls| && Runs(c, ls[..k]).Some?
    ensures Runs(c, ls[..k + 1]) == AcceptLine(c, Runs(c, ls[..k]).value, ls[k])
    ensures Text(ls[..k + 1]) == Text(ls[..k]) + ls[k] + [NEWLINE]
  {
    assert ls[..k + 1][..k] == ls[..k];
  }

  lemma NoLines(c: Codec, ls: seq<Bytes>)
    ensures Runs(c, ls[..0]) == Some(START) && Text(ls[..0]) == []
  {}

  lemma TextGrows(ls: seq<Bytes>, k: nat)
    requires k < |ls|
    ensures |Text(ls[..k])| < |Text(ls)|
  {
    assert ls == ls[..k] + [ls[k]] + ls[k + 1..];
    TextAppends(ls[..k] + [ls[k]], ls[k + 1..]);
    TextAppends(ls[..k], [ls[k]]);
    OneLine(ls[k]);
  }

  lemma WholeOrShorter(file: Bytes, k: nat)
    requires k <= |Lines(file)|
    ensures Text(Lines(file)[..k]) == file <==> k == |Lines(file)| && Tail(file) == []
  {
    LinesAndTail(file);
    var ls := Lines(file);
    hide Lines, Tail, Text;
    if k < |ls| { TextGrows(ls, k); } else { assert ls[..k] == ls; }
  }

  // repair on a samples file of schema 2: what it would leave, and the counts it reports.
  method Repair(c: Codec, file: Bytes) returns (out: Bytes, damaged: bool, sources: nat, points: nat)
    ensures out == Repaired(c, file) && (damaged <==> out != file)
    ensures sources == Tallied(c, file).sources && points == |Tallied(c, file).ids|
  {
    hide Runs, Lines, Tail, Text, LineEnd;
    out, damaged := [], false;
    ghost var k := 0;
    sources := 0;
    var rest, pendingId, pending := file, "", 0;
    var ids: set<string> := {};
    ghost var ls := Lines(file);
    NoLines(c, ls);
    while rest != []
      invariant k <= |ls| && ls[k..] == Lines(rest) && Tail(file) == Tail(rest) && !damaged
      invariant out == Text(ls[..k])
      invariant pending >= 0 && Runs(c, ls[..k]) == Some(Auto(pendingId, pending, sources, ids))
      decreases |rest|
    {
      var n := LineEnd(rest);
      if n == |rest| { damaged := true; LastLine(rest); break; }
      var l := rest[..n];
      FirstLine(rest);
      assert ls[k] == l && ls[k + 1..] == ls[k..][1..];
      RunsStep(c, ls, k);
      var r := c.dec(l);
      if |l| + 1 > LINE_LIMIT || r.None? || (r.value.version != 1 && r.value.version != 2) { damaged := true; break; }
      if r.value.version == 2 {
        if r.value.kind.Source? {
          if pendingId != "" && pendingId != r.value.id { damaged := true; break; }
          pendingId := r.value.id;
          pending := pending + 1;
        }
        if r.value.kind.FrameEnd? {
          if pending == 0 || pendingId != r.value.id || !r.value.complete { damaged := true; break; }
          pendingId := "";
          sources := sources + pending;
          pending := 0;
          ids := ids + {r.value.id};
        }
      } else {
        if r.value.kind.Source? { sources := sources + 1; }
        ids := ids + {r.value.id};
      }
      out := out + l + [NEWLINE];
      rest := rest[n + 1..];
      k := k + 1;
    }
    if rest == [] { NoLineEnd(rest); }
    points := |ids|;
    KeptIsLongest(c, ls, k);
    WholeOrShorter(file, k);
  }

  lemma LastLine(b: Bytes)
    requires LineEnd(b) == |b| && b != []
    ensures Lines(b) == [] && Tail(b) != []
  {
    hide LineEnd;
  }

  // Exactly the longest prefix of terminated lines that the automaton accepts is kept.
  lemma RepairKeepsLongest(c: Codec, file: Bytes, j: nat)
    requires j <= |Lines(file)|
    ensures Runs(c, Lines(file)[..j]).Some? <==> j <= Kept(c, Lines(file))
    ensures file == Repaired(c, file) <==> Tail(file) == [] && Runs(c, Lines(file)).Some?
  {
    var ls := Lines(file);
    var k := Kept(c, ls);
    LongestIsUnique(c, ls, k, j);
    LongestIsUnique(c, ls, k, |ls|);
    assert ls[..|ls|] == ls;
    hide Lines, Tail, Text, Runs, Kept;
    WholeOrShorter(file, k);
  }

  // The kept text is read back as the kept lines, so repairing again changes nothing,
  // neither the bytes nor the counts.
  lemma RepairIdempotent(c: Codec, file: Bytes)
    ensures var out := Repaired(c, file);
      Lines(out) == Lines(file)[..Kept(c, Lines(file))] && Repaired(c, out) == out &&
          Tallied(c, out) == Tallied(c, file)
  {
    var ls := Lines(file);
    var kept := ls[..Kept(c, ls)];
    LinesAndTail(file);
    LinesOf(kept, []);
    assert Text(kept) + [] == Text(kept);
    assert kept[..|kept|] == kept;
    KeptIsLongest(c, kept, |kept|);
  }
}
