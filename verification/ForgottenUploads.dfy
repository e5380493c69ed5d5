// Multipart uploads the agent will never hear of again: which they are, how they come about, and
// runs in which one is left behind for good and in which one is found again.
module ForgottenUploads {
  import opened Records
  import opened AgentWorld
  import opened AgentInvariant
  import opened AgentRuns
  import opened SampleRuns
  import opened TransferTheorems
  import opened UploadedRecords

  // The worker may still put the id on record, complete it or abort it.
  predicate Borne(p: Position, u: string) {
    match p
    case Cleaning(_, s) => s.upload == Some(u)
    case Chosen(_, s) => s.upload == Some(u)
    case Begun(_, s) => s.upload == Some(u)
    case Verified(_, s) => s.upload == Some(u)
    case Stale(_, s, _) => s.upload == Some(u)
    case Created(_, _, up) => up == u
    case Orphaned(_, _, up) => up == u
    case Sending(_, _, up) => up == u
    case Undoing(_, _, up) => up == u
    case _ => false
  }

  predicate InMemory(w: World, id: Id, u: string) { id in w.mem && UploadOf(w.mem[id]) == Some(u) }

  // Some version of the record a crash may leave names the id.
  ghost predicate OnFile(w: World, id: Id, u: string) {
    id in w.disk && exists v :: v in Versions(w.disk[id]) && UploadOf(v) == Some(u)
  }

  // The running agent has the id, for this task.
  predicate Has(w: World, id: Id, u: string) { InMemory(w, id, u) || (Borne(w.upload, u) && w.upload.id == id) }

  ghost predicate Named(w: World, id: Id, u: string) { Has(w, id, u) || OnFile(w, id, u) }

  // An upload once created whose id is nowhere on the agent's side.
  ghost predicate Forgotten(w: World, u: string) { u in w.owner && forall id :: !Named(w, id, u) }

  // ---- where an id can come from ----

  predicate Creates(a: Action, u: string) { a == Upload(Create(u, true)) }

  // A record is written with the id memory has, with none, or by a checkpoint.
  predicate IdsOf(w: World, rw: RecordWrite, u: string) {
    rw.RecordWrite? && (UploadOf(rw.t) == Some(u) || UploadOf(rw.m) == Some(u)) ==> Has(w, rw.id, u)
  }

  lemma ServiceIds(w: World, s: Service, u: string)
    requires MayServe(w, s)
    ensures IdsOf(w, ServiceRecord(w, s), u)
  {
    hide EndTimes, FinalState, MaySubmit, MaySelect;
  }

  lemma MoveIds(w: World, m: Move, u: string)
    requires MayMove(w, m)
    ensures IdsOf(w, MoveRecord(w, m), u)
  {
    if m.Checkpoint? { assert w.upload.Created?; }
    hide MayMove;
  }

  lemma RestartIds(w: World, r: Restart, u: string)
    requires MayRestart(w, r)
    ensures IdsOf(w, RestartRecord(w, r), u)
  {
    hide EndTimes, FinalState, Owners, Survives, Ambiguous, Readable;
  }

  lemma RecordIds(w: World, a: Action, u: string)
    requires Enabled(w, a)
    ensures IdsOf(w, RecordOf(w, a), u)
  {
    hide MayServe, MayMove, MayRestart, ServiceRecord, MoveRecord, RestartRecord, Has;
    match a
    case Tick(_) =>
    case Serve(s) => ServiceIds(w, s, u);
    case Upload(m) => MoveIds(w, m, u);
    case Again(r) => RestartIds(w, r, u);
  }

  lemma MoveBears(w: World, m: Move, u: string)
    requires MayMove(w, m) && Borne(Moved(w, m).upload, u)
    ensures w.upload != Idle && Moved(w, m).upload.id == w.upload.id
    ensures Borne(w.upload, u) || m == Create(u, true)
  {
    hide StoreOk, Written;
  }

  lemma ServeBears(w: World, s: Service, u: string)
    requires Borne(Served(w, s).upload, u)
    ensures Served(w, s).upload == w.upload || (s.Select? && Served(w, s).upload.id == s.id && InMemory(w, s.id, u))
  {
    hide Finalize, Persist, OwnedBy, WithoutRequest, Lapsed;
  }

  lemma RestartBears(w: World, r: Restart, u: string)
    requires Borne(Restarted(w, r).upload, u)
    ensures Restarted(w, r).upload == w.upload
  {
    hide Finalize, Persist, Damaged, Stopped, Write, Born, CutOff, Settle, Readable;
  }

  lemma StepBears(w: World, a: Action, u: string)
    requires Enabled(w, a) && Borne(Next(w, a).upload, u)
    ensures Has(w, Next(w, a).upload.id, u) || (Creates(a, u) && w.upload != Idle && Next(w, a).upload.id == w.upload.id)
  {
    hide MayServe, MayMove, MayRestart, Moved, Served, Restarted, Borne;
    match a
    case Tick(_) =>
    case Serve(s) => ServeBears(w, s, u);
    case Upload(m) => MoveBears(w, m, u);
    case Again(r) => RestartBears(w, r, u);
  }

  // Records and memory of the next state name an id only if the state before did.
  ghost predicate Handed(w: World, v: World, id: Id, u: string) {
    InMemory(v, id, u) || OnFile(v, id, u) ==> Named(w, id, u)
  }

  lemma PlainHands(w: World, v: World, rw: RecordWrite, id: Id, u: string)
    requires Writes(w, v, rw) && IdsOf(w, rw, u)
    ensures Handed(w, v, id, u)
  {
    hide Borne;
  }

  lemma SubmitHands(w: World, t: Task, o: Outcome, id: Id, u: string)
    requires MaySubmit(w, t)
    ensures Handed(w, Submitted(w, t, o), id, u)
  {
    hide ValidTask, Vacant, Borne;
    assert UploadOf(t) == None;
    if id != t.id && id in w.disk { assert Submitted(w, t, o).disk[id] == w.disk[id]; }
  }

  lemma FewerHands(w: World, v: World, id: Id, u: string)
    requires id in v.disk ==> id in w.disk && Versions(v.disk[id]) <= Versions(w.disk[id])
    requires id in v.mem ==>
      (id in w.mem && v.mem[id] == w.mem[id]) || (id in w.disk && v.mem[id] in Versions(w.disk[id]))
    ensures Handed(w, v, id, u)
  {
    hide Borne;
  }

  lemma CrashHands(w: World, r: Restart, id: Id, u: string)
    requires MayRestart(w, r) && (r.Exit? || r.Crash? || r.Load?)
    ensures Handed(w, Restarted(w, r), id, u)
  {
    hide Owners, Ambiguous, ValidRecord, Write, Born, CutOff, Handed;
    FewerHands(w, Restarted(w, r), id, u);
  }

  lemma BigHands(w: World, a: Action, id: Id, u: string)
    requires Enabled(w, a) && !Plain(a)
    ensures Handed(w, Next(w, a), id, u)
  {
    hide MayRestart, MaySubmit, Submitted, OwnedBy, WithoutRequest, Handed;
    if a.Again? {
      CrashHands(w, a.r, id, u);
    } else if a.s.Submit? {
      SubmitHands(w, a.s.t, a.s.o, id, u);
    } else {
      FewerHands(w, Next(w, a), id, u);
    }
  }

  // Only the create that is answered brings a new id in.
  lemma NamedBefore(w: World, a: Action, id: Id, u: string)
    requires Enabled(w, a) && Named(Next(w, a), id, u)
    ensures Named(w, id, u) || (Creates(a, u) && w.upload != Idle && id == w.upload.id)
  {
    hide Enabled, Next, RecordOf, InMemory, OnFile, Borne;
    if InMemory(Next(w, a), id, u) || OnFile(Next(w, a), id, u) {
      if Plain(a) {
        ActionWrites(w, a);
        RecordIds(w, a, u);
        hide Writes, IdsOf;
        PlainHands(w, Next(w, a), RecordOf(w, a), id, u);
      } else {
        BigHands(w, a, id, u);
      }
    } else {
      StepBears(w, a, u);
    }
  }

  // ---- every id is named for its own task ----

  lemma OwnerAfter(w: World, a: Action, u: string)
    requires Enabled(w, a)
    ensures u in w.owner ==> u in Next(w, a).owner && Next(w, a).owner[u] == w.owner[u] && !Creates(a, u)
    ensures Creates(a, u) && w.upload != Idle ==> u in Next(w, a).owner && Next(w, a).owner[u] == w.upload.id
  {
    match a
    case Tick(_) =>
    case Serve(s) => ServedOwner(w, s); hide MayServe, Served;
    case Upload(m) => hide WriteOf, Written, UploadAfter, LiveAfter, LostAfter, ObjectsAfter;
    case Again(r) => RestartedOwner(w, r); hide MayRestart, Restarted;
  }

  lemma ServedOwner(w: World, s: Service)
    ensures Served(w, s).owner == w.owner
  {
    hide Finalize, Persist, WithoutRequest, Lapsed, OwnedBy;
  }

  lemma RestartedOwner(w: World, r: Restart)
    requires MayRestart(w, r)
    ensures forall u :: u in w.owner ==> u in Restarted(w, r).owner && Restarted(w, r).owner[u] == w.owner[u]
  {
    hide Finalize, Persist, Write, Readable, CutOff, Settle, Survives, Owners, Ambiguous;
  }

  ghost predicate Traced(w: World, u: string) {
    forall id :: Named(w, id, u) ==> u in w.owner && w.owner[u] == id
  }

  lemma StepTraced(w: World, a: Action, u: string)
    requires Enabled(w, a) && Traced(w, u)
    ensures Traced(Next(w, a), u)
  {
    OwnerAfter(w, a, u);
    hide Enabled, Next, Named;
    forall id | Named(Next(w, a), id, u) ensures u in Next(w, a).owner && Next(w, a).owner[u] == id {
      NamedBefore(w, a, id, u);
    }
  }

  lemma {:induction false} RunTraced(run: seq<World>, i: nat, u: string)
    requires IsRun(run) && Init(run[0]) && i < |run|
    ensures Traced(run[i], u)
    decreases i
  {
    hide Enabled, Next, IsRun, Traced, Init;
    if i == 0 {
      assert Traced(run[0], u) by { NoneTraced(run[0], u); }
    } else {
      RunTraced(run, i - 1, u);
      var a := StepOf(run, i - 1);
      StepTraced(run[i - 1], a, u);
    }
  }

  lemma NoneTraced(w: World, u: string)
    requires Init(w)
    ensures Traced(w, u)
  {}

  // ---- forgotten is for good ----

  lemma LiveStays(w: World, a: Action, u: string)
    requires Enabled(w, a) && u in w.live && !Borne(w.upload, u)
    ensures u in Next(w, a).live
  {
    match a
    case Tick(_) =>
    case Serve(s) => ServedLive(w, s); hide MayServe, Served;
    case Upload(m) => hide WriteOf, Written, UploadAfter, LostAfter, ObjectsAfter;
    case Again(r) => RestartedLive(w, r); hide MayRestart, Restarted;
  }

  lemma ServedLive(w: World, s: Service)
    ensures Served(w, s).live == w.live
  {
    hide Finalize, Persist, WithoutRequest, Lapsed, OwnedBy;
  }

  lemma RestartedLive(w: World, r: Restart)
    ensures w.live <= Restarted(w, r).live
  {
    hide Finalize, Persist, Write, Readable, CutOff, Born, Settle;
  }

  lemma NotBorne(w: World, u: string)
    requires Forgotten(w, u)
    ensures !Borne(w.upload, u)
  {
    if w.upload != Idle { assert !Named(w, w.upload.id, u); }
  }

  // No step brings a forgotten id back, and none ends its upload.
  lemma StaysForgotten(w: World, a: Action, u: string)
    requires Enabled(w, a) && Forgotten(w, u)
    ensures Forgotten(Next(w, a), u) && (u in w.live ==> u in Next(w, a).live)
  {
    OwnerAfter(w, a, u);
    NotBorne(w, u);
    if u in w.live { LiveStays(w, a, u); }
    hide Enabled, Next, Named;
    forall id ensures !Named(Next(w, a), id, u) {
      if Named(Next(w, a), id, u) { NamedBefore(w, a, id, u); }
    }
  }

  ghost predicate GoesTo(cont: seq<World>, w: World, j: nat) { IsRun(cont) && j < |cont| && cont[0] == w }

  lemma {:induction false} ForgottenOnward(cont: seq<World>, w: World, j: nat, u: string)
    requires GoesTo(cont, w, j) && Forgotten(w, u)
    ensures Forgotten(cont[j], u) && (u in w.live ==> u in cont[j].live)
    decreases j
  {
    hide Enabled, Next, IsRun, Forgotten;
    if j > 0 {
      ForgottenOnward(cont, w, j - 1, u);
      var a := StepOf(cont, j - 1);
      StaysForgotten(cont[j - 1], a, u);
    }
  }

  // However the run goes on, the agent never has the id again.
  ghost predicate NeverHad(w: World, u: string) {
    forall cont: seq<World>, j: nat, id: Id :: GoesTo(cont, w, j) ==> !Has(cont[j], id, u)
  }

  // However the run goes on, the upload stays on the remote store.
  ghost predicate LivesOn(w: World, u: string) {
    forall cont: seq<World>, j: nat :: GoesTo(cont, w, j) ==> u in cont[j].live
  }

  // The agent will never have the id of an upload again, through restarts and crashes, exactly
  // when it is forgotten; and then nothing the agent does ends that upload.
  lemma ForgottenForGoodIff(run: seq<World>, i: nat, u: string)
    requires IsRun(run) && Init(run[0]) && i < |run| && u in run[i].live
    ensures Forgotten(run[i], u) <==> NeverHad(run[i], u)
    ensures Forgotten(run[i], u) ==> LivesOn(run[i], u)
  {
    var w := run[i];
    RunInv(run, i);
    assert u in w.owner;
    hide Inv, Init, IsRun, Has, OnFile;
    if Forgotten(w, u) {
      forall cont: seq<World>, j: nat, id: Id | GoesTo(cont, w, j) ensures !Has(cont[j], id, u) {
        ForgottenOnward(cont, w, j, u);
        assert !Named(cont[j], id, u);
      }
      forall cont: seq<World>, j: nat | GoesTo(cont, w, j) ensures u in cont[j].live {
        ForgottenOnward(cont, w, j, u);
      }
    } else {
      var id :| Named(w, id, u);
      HadAgain(w, id, u);
    }
  }

  // An id in memory or with the worker is had at once, one on file after the right crash.
  lemma HadAgain(w: World, id: Id, u: string)
    requires Inv(w) && Named(w, id, u)
    ensures !NeverHad(w, u)
  {
    hide Inv, Borne;
    if Has(w, id, u) {
      OneRun(w);
      assert GoesTo([w], w, 0);
      assert Has([w][0], id, u);
    } else {
      var v :| v in Versions(w.disk[id]) && UploadOf(v) == Some(u);
      var cont := CrashTo(w, id, v);
      hide IsRun;
      assert GoesTo(cont, w, 2) && Has(cont[2], id, u);
    }
  }

  // ---- how an id comes to be forgotten ----

  lemma {:induction false} LostInHistory(run: seq<World>, acts: seq<Action>, n: nat, u: string)
    requires Trace(run, acts) && Init(run[0]) && n <= |acts| && u in run[n].lost
    ensures exists i :: 0 <= i < n && Loses(run[i], acts[i], u)
    decreases n
  {
    hide Enabled, Next, Loses;
    assert run[0].lost == {};
    if n > 0 {
      assert Enabled(run[n - 1], acts[n - 1]) && run[n] == Next(run[n - 1], acts[n - 1]);
      hide Init;
      LostOnlyThen(run[n - 1], acts[n - 1], u);
      if u in run[n - 1].lost { LostInHistory(run, acts, n - 1, u); }
    }
  }

  // An upload is forgotten only if its create was never answered, its checkpoint was cut off or
  // failed together with its abort, or the removal of its task's record was begun.
  lemma ForgottenOnlyAfter(run: seq<World>, acts: seq<Action>, n: nat, u: string)
    requires Trace(run, acts) && Init(run[0]) && n <= |acts| && u in run[n].live && Forgotten(run[n], u)
    ensures exists i :: 0 <= i < n && Loses(run[i], acts[i], u)
  {
    TraceIsRun(run, acts);
    RunInv(run, n);
    ForgottenIsLost(run[n], u);
    hide Inv, IsRun, Init, Trace, Loses;
    LostInHistory(run, acts, n, u);
  }

  lemma ForgottenIsLost(w: World, u: string)
    requires LiveInv(w) && u in w.live && Forgotten(w, u)
    ensures u in w.lost
  {
    var id := w.owner[u];
    NotBorne(w, u);
    assert !Named(w, id, u);
    if id in w.disk { assert w.disk[id].cur in Versions(w.disk[id]); }
  }

  predicate Resets(a: Action) { a.Again? && (a.r.Exit? || a.r.Crash?) }

  // The create takes effect, but its answer does not reach the agent.
  predicate Unanswered(w: World, a: Action, u: string) {
    a == Upload(Create(u, false)) || (Resets(a) && w.upload.Missing? && a.r.born == Some(u))
  }

  // Such an upload is alive and forgotten at once.
  lemma UnansweredCreate(run: seq<World>, i: nat, a: Action, u: string)
    requires IsRun(run) && Init(run[0]) && i < |run| && Enabled(run[i], a) && Unanswered(run[i], a, u)
    ensures u in Next(run[i], a).live && Forgotten(Next(run[i], a), u)
  {
    var w := run[i];
    RunTraced(run, i, u);
    UnansweredLive(w, a, u);
    hide IsRun, Init, Enabled, Next, Named;
    forall id ensures !Named(Next(w, a), id, u) {
      if Named(Next(w, a), id, u) { NamedBefore(w, a, id, u); }
    }
  }

  lemma UnansweredLive(w: World, a: Action, u: string)
    requires Enabled(w, a) && Unanswered(w, a, u)
    ensures u !in w.owner && u in Next(w, a).live && u in Next(w, a).owner && !Creates(a, u)
  {
    hide Written, ObjectsAfter, LostAfter, UploadAfter, Write, Settle, Survives, CutOff, WriteOf;
  }

  // The agent gives up an id that is not safely on record: the abort after a failed checkpoint
  // fails, or the process or the machine stops before the checkpoint or that abort is done.
  predicate GivesUp(w: World, a: Action, u: string) {
    (w.upload.Created? || w.upload.Orphaned?) && w.upload.up == u && (a == Upload(AbortOrphan(false)) || Resets(a))
  }

  // Then the id is forgotten exactly when no version of its task's record that is left names it,
  // and with the checkpoint not yet begun none does.
  lemma GivenUpIff(run: seq<World>, i: nat, a: Action, u: string)
    requires IsRun(run) && Init(run[0]) && i < |run| && Enabled(run[i], a) && GivesUp(run[i], a, u)
    ensures var v := Next(run[i], a); Forgotten(v, u) <==> !OnFile(v, run[i].upload.id, u)
    ensures run[i].upload.Created? ==> Forgotten(Next(run[i], a), u)
  {
    var w, v := run[i], Next(run[i], a);
    var j := w.upload.id;
    RunInv(run, i);
    RunTraced(run, i, u);
    assert Named(w, j, u);
    StepTraced(w, a, u);
    OwnerAfter(w, a, u);
    GivenUpHas(w, a, u);
    hide IsRun, Init, Enabled, Next, Has, OnFile, Inv;
    assert forall id :: Named(v, id, u) ==> id == j;
    assert Named(v, j, u) <==> OnFile(v, j, u);
  }

  lemma GivenUpHas(w: World, a: Action, u: string)
    requires UploadInv(w) && Enabled(w, a) && GivesUp(w, a, u)
    ensures !Has(Next(w, a), w.upload.id, u)
    ensures w.upload.Created? ==> !OnFile(Next(w, a), w.upload.id, u)
  {
    var v := Next(w, a);
    if a.Upload? {
      assert w.upload.Orphaned? && v.mem == w.mem && !Borne(v.upload, u);
    } else {
      assert v.mem == map[] && v.upload == Idle;
      if w.upload.Created? {
        assert !OnFile(w, w.upload.id, u) && !Has(w.(upload := Idle), w.upload.id, u);
        FewerHands(w.(upload := Idle), v, w.upload.id, u);
      }
    }
    hide Write, Born, CutOff;
  }

  // ---- two runs ----

  lemma AbsentShows(w: World, id: Id, s: Transfer)
    requires w.upload == Verified(id, s) && s.key.Some? && s.key.value !in w.objects
    ensures MayMove(w, Check(Absent))
    ensures Moved(w, Check(Absent)) == w.(upload := if s.upload.Some? then Stale(id, s, true) else Missing(id, s))
  {}

  lemma CreateShows(w: World, id: Id, s: Transfer, u: string, ack: bool)
    requires w.upload == Missing(id, s) && !s.target.yos && u !in w.owner
    ensures MayMove(w, Create(u, ack))
    ensures Moved(w, Create(u, ack)) ==
      w.(live := w.live + {u}, owner := w.owner[u := id], lost := if ack then w.lost else w.lost + {u},
         upload := if ack then Created(id, s, u) else Failing(id))
  {}

  // The new contents of the record, with the id, may or may not outlive a crash.
  lemma CheckpointWrites(w: World, id: Id, s: Transfer, u: string, b: Task)
    requires w.upload == Created(id, s, u) && b.s3.Some?
    requires w.mem == map[id := b] && w.disk == map[id := File(b, {}, false)]
    ensures MayMove(w, Checkpoint(Renamed))
    ensures var c := b.(s3 := Some(b.s3.value.(upload := Some(u)))); var x := Written(w, Checkpoint(Renamed));
      && x == w.(mem := x.mem, disk := map[id := File(c, {b}, false)])
      && x.mem.Keys == {id} && x.mem[id].s3.Some? && UploadOf(x.mem[id]) == UploadOf(b)
  {
    assert Versions(File(b, {}, false)) == {b};
  }

  lemma CheckpointShows(w: World, id: Id, s: Transfer, u: string, b: Task)
    requires w.upload == Created(id, s, u) && b.s3.Some?
    requires w.mem == map[id := b] && w.disk == map[id := File(b, {}, false)]
    ensures MayMove(w, Checkpoint(Renamed))
    ensures var c := b.(s3 := Some(b.s3.value.(upload := Some(u)))); var v := Moved(w, Checkpoint(Renamed));
      && v == w.(mem := v.mem, disk := map[id := File(c, {b}, false)], upload := Orphaned(id, s, u))
      && v.mem.Keys == {id} && v.mem[id].s3.Some? && UploadOf(v.mem[id]) == UploadOf(b)
  {
    CheckpointWrites(w, id, s, u, b);
    hide Written, WriteOf;
  }

  lemma AbortShows(w: World, id: Id, s: Transfer, u: string)
    requires w.upload == Orphaned(id, s, u)
    ensures MayMove(w, AbortOrphan(false))
    ensures Moved(w, AbortOrphan(false)) == w.(lost := w.lost + {u}, upload := Failing(id))
  {}

  lemma RetryShows(w: World, id: Id)
    requires w.upload == Failing(id)
    ensures MayMove(w, Retry("remote_error", w.now, Unchanged))
    ensures var v := Moved(w, Retry("remote_error", w.now, Unchanged)); v == w.(mem := v.mem, upload := Idle)
  {
    hide Changed, NotStored;
  }

  lemma StaleShows(w: World, id: Id, s: Transfer, u: string)
    requires w.upload == Stale(id, s, true) && s.upload == Some(u)
    ensures MayMove(w, AbortStale(true)) && u !in Moved(w, AbortStale(true)).live
  {}

  // An attempt that finds no object.
  lemma FindsNothing(run: seq<World>, w: World, id: Id, f: Task) returns (more: seq<World>, b: Task)
    requires |run| > 0 && IsRun(run) && run[|run| - 1] == w
    requires f.s3.Some? && w.upload == Chosen(id, f.s3.value) && w.mem == map[id := f] && w.disk.Keys == {id}
    requires f.s3.value.key.Some? && f.s3.value.key.value !in w.objects
    ensures IsRun(more) && |more| == |run| + 3 && run <= more
    ensures b == f.(s3 := Some(Apply(ToUploading, f.s3.value)))
    ensures var s := f.s3.value;
      more[|more| - 1] == w.(mem := map[id := b], disk := map[id := File(b, {}, false)],
                             upload := if s.upload.Some? then Stale(id, s, true) else Missing(id, s))
  {
    hide IsRun, Moved, MayMove;
    var s := f.s3.value;
    BegunShows(w, id, f);
    more := Then(run, Upload(Begin(Saved)));
    b := f.(s3 := Some(Apply(ToUploading, s)));
    InspectShows(more[|more| - 1], id, s);
    more := Then(more, Upload(Inspect(Intact, Saved)));
    AbsentShows(more[|more| - 1], id, s);
    more := Then(more, Upload(Check(Absent)));
  }

  // The first attempt for the first task of an empty store, its archive large enough for parts.
  lemma FirstAttempt() returns (run: seq<World>, w: World, id: Id, b: Task, s: Transfer)
    ensures |run| > 0 && IsRun(run) && Init(run[0]) && run[|run| - 1] == w
    ensures w.upload == Missing(id, s) && !s.target.yos && w.objects == map[] && w.owner == map[] && w.lost == {}
    ensures w.mode == Serving && !w.degraded && w.cfg == Settings(true) && w.now == 1
    ensures w.mem == map[id := b] && w.disk == map[id := File(b, {}, false)]
    ensures b.id == id && b.state != Running && !Repackaged(b) && b.times == Some(Times(1, 11, 21))
    ensures b.s3.Some? && b.s3.value == Apply(ToUploading, s) && b.s3.value.target == PLACE && b.s3.value.key.Some? &&
      b.s3.value.upload == None
  {
    id := SampleId('a');
    var archive := Archive(100_000_000, Digest());
    var w0, a := EmptyStore(true, map[]), Asked(id, true, 1);
    Starts(true, map[]);
    assert IsDigest(archive.sha);
    FirstFinal(w0, a, archive);
    var f := Finalize(a, Some(archive), w0);
    assert !Repackaged(f);
    hide IsRun, Init, MaySubmit, Finalize, Step, SampleId, Digest, IsDigest;
    var w1, r1 := Selected(w0, a, archive);
    s := f.s3.value;
    run, b := FindsNothing(r1, w1, id, f);
    w := run[|run| - 1];
  }

  // A create whose answer is lost: the upload stays on the remote store, forgotten.
  lemma ForgottenUpload() returns (run: seq<World>, u: string)
    ensures IsRun(run) && Init(run[0]) && var w := run[|run| - 1]; u in w.live && Forgotten(w, u)
  {
    var w, id, b, s;
    run, w, id, b, s := FirstAttempt();
    u := "upload";
    CreateShows(w, id, s, u, false);
    hide IsRun, Init, Enabled, Next, Forgotten, MayMove;
    assert Enabled(w, Upload(Create(u, false)));
    UnansweredCreate(run, |run| - 1, Upload(Create(u, false)), u);
    run := Then(run, Upload(Create(u, false)));
  }

  // A checkpoint whose directory sync fails, then an abort that fails, then a retry that cannot
  // be written: the agent has given the id up.
  lemma GivenUp(run: seq<World>, w: World, id: Id, b: Task, s: Transfer, u: string)
    returns (more: seq<World>, c: Task)
    requires IsRun(run) && run[|run| - 1] == w && w.upload == Missing(id, s) && !s.target.yos && u !in w.owner
    requires w.mem == map[id := b] && w.disk == map[id := File(b, {}, false)] && b.s3.Some? && UploadOf(b) == None
    ensures IsRun(more) && |more| == |run| + 4 && run <= more
    ensures c == b.(s3 := Some(b.s3.value.(upload := Some(u))))
    ensures var v := more[|run| + 2]; u in v.live && u in v.lost && forall k :: !Has(v, k, u)
    ensures var v := more[|run| + 3];
      v == w.(mem := v.mem, disk := map[id := File(c, {b}, false)], live := w.live + {u}, owner := w.owner[u := id],
              lost := w.lost + {u}, upload := Idle)
  {
    hide IsRun, Moved, MayMove;
    CreateShows(w, id, s, u, true);
    more := Then(run, Upload(Create(u, true)));
    var w1 := more[|more| - 1];
    CheckpointShows(w1, id, s, u, b);
    c := b.(s3 := Some(b.s3.value.(upload := Some(u))));
    more := Then(more, Upload(Checkpoint(Renamed)));
    AbortShows(more[|more| - 1], id, s, u);
    more := Then(more, Upload(AbortOrphan(false)));
    RetryShows(more[|more| - 1], id);
    more := Then(more, Upload(Retry("remote_error", w.now, Unchanged)));
  }

  // The agent is restarted, reads the id off the record and selects the task again.
  lemma Found(run: seq<World>, w: World, id: Id, b: Task, c: Task) returns (more: seq<World>)
    requires IsRun(run) && Init(run[0]) && run[|run| - 1] == w
    requires w.upload == Idle && w.disk == map[id := File(c, {b}, false)]
    requires w.cfg.enabled && w.cfg.remote && !TaskExpired(c, w.now) && !ResultExpired(c, w.now)
    requires c.state != Running && !Repackaged(c) && c.s3.Some? && !Terminal(c.s3.value.state) && c.s3.value.next == None
    requires c.s3.value.target == w.cfg.target
    ensures IsRun(more) && |more| >= |run| + 2 && run <= more
    ensures more[|run| + 1].mem == map[id := c] && more[|run| + 1].live == w.live
    ensures var v := more[|more| - 1]; v == w.(mem := map[id := c], requests := v.requests, active := None, jobs := [],
      sampler := None, mode := Serving, degraded := false, upload := Chosen(id, c.s3.value))
  {
    RunInv(run, |run| - 1);
    OnFileValid(w, id, c);
    hide Inv, Init, IsRun, ValidConfig, ValidRecord, TaskExpired, ResultExpired, Repackaged, Step;
    var w1, r1 := Reread(w, id, File(c, {b}, false));
    Joined(run, r1);
    var read := run + r1[1..];
    var open := Reopened(read, w1, id, c);
    var w2 := open[|open| - 1];
    var r2 := SelectedRun(w2, id, c);
    Joined(open, r2);
    more := open + r2[1..];
  }

  lemma Reopened(run: seq<World>, w: World, id: Id, c: Task) returns (more: seq<World>)
    requires IsRun(run) && run[|run| - 1] == w && w.mode == Recovering({id}) && w.mem == map[id := c]
    requires c.state != Running && !Repackaged(c)
    ensures IsRun(more) && |more| == |run| + 2 && run <= more && more[|more| - 1] == w.(mode := Serving)
  {
    hide IsRun, Repackaged, ResultExpired;
    more := Then(run, Again(Recheck(id, true, Saved)));
    assert {id} - {id} == {};
    more := Then(more, Again(Open));
  }

  // An id the agent has given up, yet on its record: a restart finds it, and the next attempt
  // ends the upload.
  lemma FoundAgain() returns (run: seq<World>, i: nat, j: nat, id: Id, u: string)
    ensures IsRun(run) && Init(run[0]) && i < j < |run|
    ensures u in run[i].live && u in run[i].lost && forall k :: !Has(run[i], k, u)
    ensures u in run[j].live && InMemory(run[j], id, u)
    ensures u !in run[|run| - 1].live
  {
    var w, b, s, c;
    run, w, id, b, s := FirstAttempt();
    u := "upload";
    hide IsRun, Init, Has, Moved, MayMove;
    i := |run| + 2;
    var first := run;
    run, c := GivenUp(run, w, id, b, s, u);
    assert run[0] == first[0];
    j := |run| + 1;
    var given := run;
    run := Found(run, run[|run| - 1], id, b, c);
    assert InMemory(run[j], id, u);
    var d;
    run, d := FindsNothing(run, run[|run| - 1], id, c);
    StaleShows(run[|run| - 1], id, c.s3.value, u);
    run := Then(run, Upload(AbortStale(true)));
    assert run[i] == given[i];
  }
}
