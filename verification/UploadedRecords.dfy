// A task shown as uploaded: what the record and the remote store hold then, whether it is shown
// for good, and a run in which it is taken back.
module UploadedRecords {
  import opened Records
  import opened AgentWorld
  import opened AgentInvariant
  import opened AgentRuns
  import opened AgentTheorems
  import opened AdmissionTheorems
  import opened SampleRuns
  import RecordSteps

  // Memory shows uploaded only when task.json does, with the object on the remote store under
  // the task's own key, of the archive's size and digest; no version names another object.
  lemma UploadedOnRecord(run: seq<World>, i: nat, id: Id)
    requires IsRun(run) && Init(run[0]) && i < |run|
    requires id in run[i].mem && IsUploaded(run[i].mem[id])
    ensures var w := run[i]; var t := w.mem[id]; var s := t.s3.value;
      && (id in w.removed || id in w.disk)
      && (id in w.disk ==>
          && SameUploaded(w.disk[id].cur, t)
          && forall v :: v in Versions(w.disk[id]) && IsUploaded(v) ==> SameUploaded(v, t))
      && s.key == Some(ObjectKey(s.target, w.cfg.agent, id, t.sha)) && s.key.value in w.objects
      && w.objects[s.key.value].size == t.size && w.objects[s.key.value].sha == t.sha
      && (!s.target.yos ==> w.objects[s.key.value].agent == w.cfg.agent && w.objects[s.key.value].task == id)
  {
    RunInv(run, i);
    UploadedLinked(run[i], id);
  }

  lemma UploadedLinked(w: World, id: Id)
    requires Inv(w) && id in w.mem && IsUploaded(w.mem[id])
    ensures id in w.removed || id in w.disk
    ensures var t := w.mem[id];
      id in w.disk ==> IsUploaded(w.disk[id].cur) && forall v :: v in Versions(w.disk[id]) && IsUploaded(v) ==>
          SameUploaded(v, t)
    ensures Sound(w.mem[id], id, w.cfg.agent, w.objects)
  {
    assert TaskInv(w, id);
    if id in w.disk {
      assert FileInv(w, id);
      forall v | v in Versions(w.disk[id]) && IsUploaded(v) ensures SameUploaded(v, w.mem[id]) {
        SoundUploaded(w, v, id);
      }
    }
    hide Inv, Sound, Precedes;
  }

  lemma SoundUploaded(w: World, v: Task, id: Id)
    requires id in w.mem && Sound(v, id, w.cfg.agent, w.objects) && IsUploaded(v) && IsUploaded(w.mem[id]) &&
      Precedes(v, w.mem[id])
    ensures SameUploaded(v, w.mem[id])
  {}

  // ---- shown for good ----

  // Whatever a crash leaves of the record shows uploaded.
  ghost predicate Sure(w: World, id: Id) {
    id in w.disk && forall v :: v in Versions(w.disk[id]) ==> IsUploaded(v)
  }

  // A run goes on from w, and the record exists up to j.
  ghost predicate GoesOn(cont: seq<World>, w: World, j: nat, id: Id) {
    IsRun(cont) && j < |cont| && cont[0] == w && forall k :: 0 <= k <= j ==> id in cont[k].disk
  }

  // However the run goes on, memory shows this object whenever it holds the task.
  ghost predicate ShownForGood(w: World, id: Id)
    requires id in w.mem
  {
    forall cont: seq<World>, j: nat :: GoesOn(cont, w, j, id) && id in cont[j].mem ==>
        SameUploaded(cont[j].mem[id], w.mem[id])
  }

  // Uploaded is shown for good exactly when every version of the record shows it; otherwise
  // a crash of the machine may take it back.
  lemma ShownForGoodIff(w: World, id: Id)
    requires Inv(w) && id in w.mem && id in w.disk && IsUploaded(w.mem[id])
    ensures ShownForGood(w, id) <==> Sure(w, id)
  {
    UploadedLinked(w, id);
    hide Inv, IsRun, SameUploaded, Sound;
    if Sure(w, id) {
      assert SameUploaded(w.mem[id], w.mem[id]) by { SelfUploaded(w.mem[id]); }
      assert Everywhere(w, id, ObjectOf(w.mem[id]));
      forall cont: seq<World>, j: nat | GoesOn(cont, w, j, id) &&
          id in cont[j].mem ensures SameUploaded(cont[j].mem[id], w.mem[id]) {
        EverywhereKept(cont, 0, j, id, ObjectOf(w.mem[id]));
      }
    } else {
      var v :| v in Versions(w.disk[id]) && !IsUploaded(v);
      var cont := CrashTo(w, id, v);
      assert GoesOn(cont, w, 2, id);
      assert !SameUploaded(cont[2].mem[id], w.mem[id]) by { NotUploaded(v, w.mem[id]); }
    }
  }

  lemma SelfUploaded(t: Task)
    requires IsUploaded(t)
    ensures SameUploaded(t, t)
  {}

  lemma NotUploaded(v: Task, t: Task)
    requires !IsUploaded(v)
    ensures !SameUploaded(v, t)
  {}

  // A crash leaves this version, and recovery reads this record alone.
  lemma CrashTo(w: World, id: Id, v: Task) returns (cont: seq<World>)
    requires Inv(w) && id in w.disk && v in Versions(w.disk[id])
    ensures |cont| == 3 && IsRun(cont) && cont[0] == w
    ensures id in cont[1].disk && id in cont[2].disk && id in cont[2].mem && cont[2].mem[id] == v
  {
    var x := LeaveOne(w, id, v);
    assert Sound(v, id, w.cfg.agent, w.objects) by { assert FileInv(w, id); }
    hide Inv, Step;
    var y := LoadOne(x, id, v);
    cont := [w, x, y];
    assert Step(cont[0], cont[1]) && Step(cont[1], cont[2]);
  }

  lemma LeaveOne(w: World, id: Id, v: Task) returns (x: World)
    requires ValidConfig(w.cfg) && id in w.disk && v in Versions(w.disk[id])
    ensures Step(w, x) && x.mode == Loading && x.cfg == w.cfg && x.now == w.now && id in x.disk &&
      x.disk[id] == File(v, {}, false)
  {
    var keep := map j | j in w.disk :: if j == id then v else w.disk[j].cur;
    var crash := Crash(w.cfg, keep, None, None);
    assert Survives(w, keep);
    x := Restarted(w, crash);
    hide Survives, ValidConfig, Write, Born, CutOff;
    assert Enabled(w, Again(crash)) && x == Next(w, Again(crash));
  }

  // Recovery that can read one record only.
  lemma LoadOne(x: World, id: Id, v: Task) returns (y: World)
    requires x.mode == Loading && id in x.disk && x.disk[id].cur == v && ValidRecord(v, id, x.cfg.agent)
    ensures Step(x, y) && y.disk == x.disk && y.mem == map[id := v] && y.mode == Recovering({id})
    ensures y == x.(mem := y.mem, requests := y.requests, degraded := true, mode := y.mode)
  {
    var owners := if TaskExpired(v, x.now) then map[] else map[v.request := id];
    var load := Load(x.disk.Keys - {id}, owners, true);
    hide ValidRecord, TaskExpired;
    assert Readable(x, load.unread) == map[id := v];
    OneOwner(owners, id, v, x.now);
    y := Restarted(x, load);
    assert Enabled(x, Again(load)) && y == Next(x, Again(load));
    assert map[id := v].Keys == {id};
  }

  lemma OneOwner(owners: map<string, Id>, id: Id, v: Task, now: Time)
    requires owners == if TaskExpired(v, now) then map[] else map[v.request := id]
    ensures Owners(owners, map[id := v], now)
  {
    hide TaskExpired;
    assert forall i, j :: !Rivals(map[id := v], now, i, j);
  }

  // ---- when it is not ----

  predicate Commits(a: Action) { a.Upload? && a.m.Commit? }

  // What one more action makes of the doubt about a record.
  ghost predicate DoubtAfter(w: World, a: Action, id: Id, before: bool)
    requires Enabled(w, a)
  {
    if id !in w.disk || id !in Next(w, a).disk || (a.Again? && a.r.Crash?) then false
    else
      var rw := if Plain(a) then RecordOf(w, a) else NoRecord;
      if rw.RecordWrite? && rw.id == id && rw.o == Saved then false
      else before || (rw.RecordWrite? && rw.id == id && rw.o == Renamed && Commits(a))
  }

  // Since the record was last saved, or settled by a crash of the machine, a commit of it
  // failed after the rename.
  ghost predicate Doubted(run: seq<World>, acts: seq<Action>, n: nat, id: Id)
    requires Trace(run, acts) && n <= |acts|
    decreases n
  {
    n > 0 && DoubtAfter(run[n - 1], acts[n - 1], id, Doubted(run, acts, n - 1, id))
  }

  predicate On(w: World, id: Id) { w.upload != Idle && w.upload.id == id }

  // The worker is done with this task for good.
  predicate Over(w: World, id: Id) { id in w.mem ==> TaskExpired(w.mem[id], w.now) && !On(w, id) }

  // What the history says of the versions of the record. A task that memory does not show as
  // uploaded has a version that is not, unless it is over.
  ghost predicate Told(w: World, id: Id, doubted: bool) {
    && (doubted ==> id in w.disk && Lacking(w, id))
    && (!doubted && id in w.disk && IsUploaded(w.disk[id].cur) ==> Sure(w, id))
    && (id in w.mem && id in w.disk && !IsUploaded(w.mem[id]) ==> Lacking(w, id) || Over(w, id))
  }

  ghost predicate Lacking(w: World, id: Id)
    requires id in w.disk
  {
    exists v :: v in Versions(w.disk[id]) && !IsUploaded(v)
  }

  // Only the commit of an upload turns a record uploaded; a saved record is the one memory shows.
  lemma OnlyCommits(w: World, a: Action)
    requires Inv(w) && Enabled(w, a) && Plain(a)
    ensures var rw := RecordOf(w, a);
      rw.RecordWrite? && rw.id in w.mem ==>
        && (IsUploaded(rw.t) && !IsUploaded(w.mem[rw.id]) ==> Commits(a))
        && (rw.o == Saved ==> rw.m == rw.t)
  {
    hide Inv;
    match a
    case Tick(_) =>
    case Serve(s) => ServiceUploads(w, s);
    case Upload(m) => MoveUploads(w, m);
    case Again(r) => RestartUploads(w, r);
  }

  lemma ServiceUploads(w: World, s: Service)
    requires MayServe(w, s)
    ensures var rw := ServiceRecord(w, s);
      rw.RecordWrite? && rw.id in w.mem ==>
          (IsUploaded(rw.t) ==> IsUploaded(w.mem[rw.id])) && (rw.o == Saved ==> rw.m == rw.t)
  {
    hide EndTimes, FinalState, MaySubmit, MaySelect;
  }

  lemma MoveUploads(w: World, m: Move)
    requires MayMove(w, m)
    ensures var rw := MoveRecord(w, m);
      rw.RecordWrite? && rw.id in w.mem ==>
        (IsUploaded(rw.t) && !IsUploaded(w.mem[rw.id]) ==> m.Commit?) && (rw.o == Saved ==> rw.m == rw.t)
  {
    hide MayMove;
  }

  lemma RestartUploads(w: World, r: Restart)
    requires MayRestart(w, r)
    ensures var rw := RestartRecord(w, r);
      rw.RecordWrite? && rw.id in w.mem ==>
          (IsUploaded(rw.t) ==> IsUploaded(w.mem[rw.id])) && (rw.o == Saved ==> rw.m == rw.t)
  {
    hide EndTimes, FinalState, Owners, Survives, Ambiguous, Readable;
  }

  // The task a commit is about is not yet shown as uploaded, and afterwards the worker is idle.
  lemma CommitOfOther(w: World, a: Action)
    requires Inv(w) && Enabled(w, a) && Commits(a)
    ensures var rw := RecordOf(w, a); rw.RecordWrite? ==> rw.id in w.mem && !IsUploaded(w.mem[rw.id]) && On(w, rw.id)
    ensures Next(w, a).upload == Idle
  {
    CommitUnderway(w);
    hide Inv, Written, ObjectsAfter, LiveAfter, LostAfter, Changed, NotStored;
  }

  lemma CommitUnderway(w: World)
    requires Inv(w) && w.upload.Matched?
    ensures var id := w.upload.id; id in w.mem ==> w.mem[id].s3.Some? && w.mem[id].s3.value.state == Uploading
  {
    hide DiskInv, MemInv, AdmissionInv, LiveInv;
  }

  // A task that is over stays over: only a selection moves the worker to a task.
  lemma StaysOver(w: World, a: Action, id: Id)
    requires Inv(w) && Enabled(w, a) && Plain(a) && Over(w, id) && id in w.mem
    ensures Over(Next(w, a), id)
  {
    var v := Next(w, a);
    ActionWrites(w, a);
    ActionOrderly(w, a);
    NextOnward(w, a);
    hide Inv, Enabled, Next, RecordOf, IsUploaded;
    if a != Serve(Select(id)) { SameTask(w, a, id); } else { NotEligible(w, id); }
  }

  lemma NotEligible(w: World, id: Id)
    requires Enabled(w, Serve(Select(id)))
    ensures id in w.mem && !TaskExpired(w.mem[id], w.now)
  {}

  lemma MoveSameTask(w: World, m: Move)
    requires MayMove(w, m)
    ensures w.upload != Idle
    ensures var u := Moved(w, m).upload; u == Idle || u.id == w.upload.id
  {
    hide StoreOk, Written;
  }

  lemma ServeSameTask(w: World, s: Service)
    ensures s.Select? || Served(w, s).upload == w.upload
    ensures s.Select? ==> Served(w, s).upload == w.upload || Served(w, s).upload.id == s.id
  {
    hide Finalize, Persist, OwnedBy, WithoutRequest, Lapsed;
  }

  lemma RestartSameTask(w: World, r: Restart)
    requires Plain(Again(r))
    ensures Restarted(w, r).upload == w.upload
  {
    hide Finalize, Persist, Damaged, Stopped;
  }

  lemma SameTask(w: World, a: Action, id: Id)
    requires Enabled(w, a) && Plain(a) && a != Serve(Select(id)) && !On(w, id)
    ensures !On(Next(w, a), id)
  {
    hide MayServe, MayMove, MayRestart, Moved, Served, Restarted;
    match a
    case Tick(_) =>
    case Serve(s) => ServeSameTask(w, s);
    case Upload(m) => MoveSameTask(w, m);
    case Again(r) => RestartSameTask(w, r);
  }

  // One write of the record, as the history sees it.
  ghost predicate Turns(w: World, rw: RecordWrite, id: Id, before: bool, after: bool, commits: bool) {
    if id !in w.disk then !after
    else if rw.RecordWrite? && rw.id == id then
      after == (rw.o != Saved && (before || (rw.o == Renamed && commits)))
    else after == before
  }

  lemma PlainTold(w: World, v: World, rw: RecordWrite, id: Id, before: bool, after: bool, commits: bool)
    requires Told(w, id, before) && Orderly(w, rw) && Writes(w, v, rw) && Turns(w, rw, id, before, after, commits)
    requires rw.RecordWrite? ==>
      (rw.o == Saved ==> rw.m == rw.t) && (IsUploaded(rw.t) && !IsUploaded(w.mem[rw.id]) ==> commits)
    requires rw.RecordWrite? && commits ==> !IsUploaded(w.mem[rw.id]) && On(w, rw.id) && v.upload == Idle
    requires id in w.mem ==> (Over(w, id) ==> Over(v, id)) && (id !in w.disk ==> TaskExpired(w.mem[id], w.now))
    requires id in w.mem && id in v.mem && TaskExpired(w.mem[id], w.now) ==> TaskExpired(v.mem[id], v.now)
    requires id in w.mem && id in w.disk && IsUploaded(w.mem[id]) ==> IsUploaded(w.disk[id].cur)
    requires !(id in w.disk && id !in v.disk)
    ensures Told(v, id, after)
  {
    hide Precedes, IsUploaded, TaskExpired;
    if rw.RecordWrite? && rw.id == id && rw.o != Unchanged { assert rw.t in Versions(v.disk[id]); }
  }

  lemma NewTold(w: World, t: Task, o: Outcome, id: Id, before: bool)
    requires MaySubmit(w, t) && Told(w, id, before) && (id !in w.disk ==> !before)
    ensures Told(Submitted(w, t, o), id, before)
  {
    hide ValidTask, Vacant;
    var v := Submitted(w, t, o);
    if t.id == id && o != Unchanged { assert t in Versions(v.disk[id]); }
  }

  lemma FewerTold(w: World, v: World, id: Id, before: bool, after: bool)
    requires Told(w, id, before) && (id in v.disk ==> id in w.disk && v.disk[id] == w.disk[id])
    requires id in v.mem ==>
      (id in w.mem && v.mem[id] == w.mem[id] && v.now == w.now && v.upload == w.upload) ||
          (id in v.disk && v.mem[id] == v.disk[id].cur)
    requires after == (before && id in v.disk)
    ensures Told(v, id, after)
  {}

  lemma CrashTold(w: World, r: Restart, id: Id)
    requires r.Crash?
    ensures Told(Restarted(w, r), id, false)
  {
    var v := Restarted(w, r);
    if id in v.disk { assert Versions(v.disk[id]) == {r.keep[id]}; }
    hide Write, Born, CutOff;
  }

  lemma BigTold(w: World, a: Action, id: Id, before: bool)
    requires Inv(w) && Enabled(w, a) && !Plain(a) && Told(w, id, before) && (id !in w.disk ==> !before)
    ensures Told(Next(w, a), id, before && id in Next(w, a).disk && !(a.Again? && a.r.Crash?))
  {
    hide Inv, Told, MayServe, MayRestart, Served, Restarted;
    if a.Again? {
      if a.r.Crash? { CrashTold(w, a.r, id); } else { AgainTold(w, a.r, id, before); }
    } else {
      ServedTold(w, a.s, id, before);
    }
  }

  lemma ServedTold(w: World, s: Service, id: Id, before: bool)
    requires MayServe(w, s) && !Plain(Serve(s)) && Told(w, id, before) && (id !in w.disk ==> !before)
    ensures Told(Served(w, s), id, before && id in Served(w, s).disk)
  {
    hide Told, MaySubmit, Submitted, OwnedBy, WithoutRequest;
    if s.Submit? {
      SubmitIs(w, s);
      NewTold(w, s.t, s.o, id, before);
      SubmitKeepsFile(w, s.t, s.o, id);
    } else {
      FewerTold(w, Served(w, s), id, before, before && id in Served(w, s).disk);
    }
  }

  lemma SubmitIs(w: World, s: Service)
    requires MayServe(w, s) && s.Submit?
    ensures MaySubmit(w, s.t) && Served(w, s) == Submitted(w, s.t, s.o)
  {
    hide MaySubmit, Submitted;
  }

  lemma AgainTold(w: World, r: Restart, id: Id, before: bool)
    requires (r.Exit? || r.Load?) && Told(w, id, before)
    ensures Told(Restarted(w, r), id, before && id in Restarted(w, r).disk)
  {
    hide Told, Write, Born, CutOff, ValidRecord;
    FewerTold(w, Restarted(w, r), id, before, before && id in Restarted(w, r).disk);
  }

  lemma SubmitKeepsFile(w: World, t: Task, o: Outcome, id: Id)
    ensures id in w.disk ==> id in Submitted(w, t, o).disk
  {}

  lemma {:induction false} HistoryTold(run: seq<World>, acts: seq<Action>, n: nat, id: Id)
    requires Trace(run, acts) && Init(run[0]) && n <= |acts|
    ensures Told(run[n], id, Doubted(run, acts, n, id))
    decreases n
  {
    hide Inv, Enabled, Next, Told, Init, DoubtAfter;
    if n == 0 {
      assert Told(run[0], id, false) by { EmptyTold(run[0], id); }
    } else {
      HistoryTold(run, acts, n - 1, id);
      TraceIsRun(run, acts);
      RunInv(run, n - 1);
      StepTold(run[n - 1], acts[n - 1], id, Doubted(run, acts, n - 1, id));
    }
  }

  lemma EmptyTold(w: World, id: Id)
    requires Init(w)
    ensures Told(w, id, false)
  {}

  lemma ToldOnDisk(w: World, id: Id, before: bool)
    requires Told(w, id, before)
    ensures id !in w.disk ==> !before
  {}

  lemma PlainKeepsFile(w: World, v: World, rw: RecordWrite, id: Id)
    requires Writes(w, v, rw) && id in w.disk
    ensures id in v.disk
  {}

  lemma MissingExpired(w: World, a: Action, id: Id)
    requires Inv(w) && Enabled(w, a) && Plain(a) && id in w.mem
    ensures id !in w.disk ==> TaskExpired(w.mem[id], w.now)
    ensures var v := Next(w, a);
      (Over(w, id) ==> Over(v, id)) && (TaskExpired(w.mem[id], w.now) && id in v.mem ==> TaskExpired(v.mem[id], v.now))
  {
    assert TaskInv(w, id);
    ActionWrites(w, a);
    ActionOrderly(w, a);
    NextOnward(w, a);
    if Over(w, id) { StaysOver(w, a, id); }
    hide Inv, Enabled, Next, RecordOf, Sound, IsUploaded;
  }

  lemma PlainStepTold(w: World, a: Action, id: Id, before: bool)
    requires Inv(w) && Enabled(w, a) && Plain(a) && Told(w, id, before) && (id !in w.disk ==> !before)
    ensures Told(Next(w, a), id, DoubtAfter(w, a, id, before))
  {
    hide Inv, Enabled, Next, RecordOf, Told, Writes, Follows, Sound, SameUploaded, Over, On;
    var rw, v := RecordOf(w, a), Next(w, a);
    ActionWrites(w, a);
    ActionOrderly(w, a);
    OnlyCommits(w, a);
    if Commits(a) { CommitOfOther(w, a); }
    if id in w.mem { MissingExpired(w, a, id); }
    if id in w.mem && IsUploaded(w.mem[id]) { UploadedLinked(w, id); }
    if id in w.disk { PlainKeepsFile(w, v, rw, id); }
    PlainTold(w, v, rw, id, before, DoubtAfter(w, a, id, before), Commits(a));
  }

  lemma StepTold(w: World, a: Action, id: Id, before: bool)
    requires Inv(w) && Enabled(w, a) && Told(w, id, before)
    ensures Told(Next(w, a), id, DoubtAfter(w, a, id, before))
  {
    ToldOnDisk(w, id, before);
    hide Inv, Enabled, Next, Told;
    if Plain(a) { PlainStepTold(w, a, id, before); } else { BigTold(w, a, id, before); }
  }

  // A task shown as uploaded is shown for good exactly when no commit of its record failed
  // after the rename since the record was last saved or settled by a crash.
  lemma UploadedForGoodIff(run: seq<World>, acts: seq<Action>, i: nat, id: Id)
    requires Trace(run, acts) && Init(run[0]) && i <= |acts|
    requires id in run[i].mem && id in run[i].disk && IsUploaded(run[i].mem[id])
    ensures ShownForGood(run[i], id) <==> !Doubted(run, acts, i, id)
  {
    TraceIsRun(run, acts);
    RunInv(run, i);
    HistoryTold(run, acts, i, id);
    UploadedLinked(run[i], id);
    ShownForGoodIff(run[i], id);
    hide Inv, IsRun, Init, Trace, ShownForGood, Doubted;
  }

  // ---- a run in which it is taken back ----

  // The first task of an empty store is finished with an archive and selected for its upload.
  lemma Selected(w: World, a: Task, archive: Archive) returns (v: World, run: seq<World>)
    requires Init(w) && MaySubmit(w, a) && w.cfg.enabled && w.cfg.remote
    requires IsDigest(archive.sha) && archive.size <= YOS_MAX_OBJECT
    requires a.s3.Some? && a.s3.value.target == w.cfg.target
    ensures IsRun(run) && run[0] == w && run[|run| - 1] == v
    ensures var f := Finalize(a, Some(archive), w);
      && f.s3.Some? && f.s3.value.state == Pending && f.s3.value.upload == None
      && f.s3.value.key == Some(ObjectKey(w.cfg.target, w.cfg.agent, a.id, archive.sha)) &&
          f.s3.value.size == archive.size && f.s3.value.sha == archive.sha
      && v == w.(mode := Serving, mem := map[a.id := f], disk := map[a.id := File(f, {}, false)],
          issued := w.issued + {a.id},
                 requests := map[a.request := a.id], upload := Chosen(a.id, f.s3.value))
  {
    var w2, r2 := Boot(w);
    var w4, r4 := Admit(w2, a);
    Joined(r2, r4);
    var f := Finalize(a, Some(archive), w);
    FirstFinal(w, a, archive);
    assert Finalize(a, Some(archive), w4) == f;
    hide IsRun, Init, Finalize, ValidId, Vacant, IsDigest;
    assert w4.mem == map[a.id := a] && w4.disk == map[a.id := File(a, {}, false)];
    hide MaySubmit, Submitted, Step;
    var w6, r6 := FinishedRun(w4, a, archive, f);
    Joined(r2 + r4[1..], r6);
    run := r2 + r4[1..] + r6[1..];
    v := w6;
  }

  lemma FinishedRun(w: World, a: Task, archive: Archive, f: Task) returns (v: World, run: seq<World>)
    requires w.mode == Serving && !w.degraded && w.sampler == Some(a.id) && w.upload == Idle
    requires w.cfg.enabled && w.cfg.remote
    requires w.mem == map[a.id := a] && w.disk == map[a.id := File(a, {}, false)]
    requires a.state == Running && a.phase != Finished
    requires f == Finalize(a, Some(archive), w) && IsDigest(archive.sha) && f.id == a.id && f.state != Running
    requires f.s3.Some? && f.s3.value.state == Pending && f.s3.value.next == None && f.s3.value.target == w.cfg.target
    requires !TaskExpired(f, w.now) && !ResultExpired(f, w.now)
    ensures IsRun(run) && |run| == 4 && run[0] == w && run[3] == v
    ensures v == w.(mem := map[a.id := f], disk := map[a.id := File(f, {}, false)], active := None, sampler := None,
                    upload := Chosen(a.id, f.s3.value))
  {
    hide Finalize, IsDigest, TaskExpired, ResultExpired, IsRun, Step;
    assert a == a.(phase := a.phase, sources := a.sources, points := a.points, errors := a.errors);
    OneRun(w);
    run := Then([w], Serve(Finish(a, Some(archive), Saved)));
    var w5 := run[1];
    assert w5 == w.(mem := map[a.id := f], disk := map[a.id := File(f, {}, false)]);
    run := Then(run, Serve(Release));
    var r := SelectedRun(run[2], a.id, f);
    Joined(run, r);
    run := run + r[1..];
    v := run[3];
  }

  lemma SelectedRun(w: World, id: Id, f: Task) returns (run: seq<World>)
    requires w.mode == Serving && !w.degraded && w.upload == Idle && w.cfg.enabled && w.cfg.remote
    requires w.mem == map[id := f]
    requires f.state != Running && !TaskExpired(f, w.now) && !ResultExpired(f, w.now)
    requires f.s3.Some? && !Terminal(f.s3.value.state) && f.s3.value.next == None && f.s3.value.target == w.cfg.target
    ensures |run| == 2 && IsRun(run) && run[0] == w && run[1] == w.(upload := Chosen(id, f.s3.value))
  {
    hide TaskExpired, ResultExpired;
    assert Eligible(w, id) && MaySelect(w, id);
    OneRun(w);
    run := Then([w], Serve(Select(id)));
  }

  lemma FirstFinal(w: World, a: Task, archive: Archive)
    requires ValidConfig(w.cfg) && MaySubmit(w, a) && archive.size <= YOS_MAX_OBJECT && a.s3.Some? &&
      a.s3.value.target == w.cfg.target
    ensures var f := Finalize(a, Some(archive), w);
      && f.id == a.id && f.request == a.request && f.state != Running && f.received == a.received
      && f.times == Some(Times(w.now, w.now + w.cfg.resultKeep, w.now + w.cfg.taskKeep))
      && f.s3.Some? && f.s3.value.state == Pending && f.s3.value.upload == None && f.s3.value.next == None &&
          f.s3.value.target == w.cfg.target
      && f.s3.value.key == Some(ObjectKey(w.cfg.target, w.cfg.agent, a.id, archive.sha)) &&
          f.s3.value.size == archive.size && f.s3.value.sha == archive.sha
  {
    hide ValidId, Vacant;
  }

  // An attempt that finds the object there already.
  lemma FindsIt(run: seq<World>, w: World, id: Id, f: Task) returns (more: seq<World>, b: Task)
    requires |run| > 0 && IsRun(run) && run[|run| - 1] == w
    requires f.s3.Some? && w.upload == Chosen(id, f.s3.value) && f.s3.value.upload == None
    requires w.mem == map[id := f] && w.disk.Keys == {id} && There(w, id, f.s3.value)
    ensures IsRun(more) && |more| == |run| + 3 && run <= more
    ensures b == f.(s3 := Some(Apply(ToUploading, f.s3.value)))
    ensures more[|more| - 1] ==
      w.(mem := map[id := b], disk := map[id := File(b, {}, false)], upload := Matched(id, f.s3.value))
  {
    hide IsRun, Moved, MayMove, There;
    var s := f.s3.value;
    BegunShows(w, id, f);
    more := Then(run, Upload(Begin(Saved)));
    b := f.(s3 := Some(Apply(ToUploading, s)));
    var w1 := more[|more| - 1];
    InspectShows(w1, id, s);
    more := Then(more, Upload(Inspect(Intact, Saved)));
    var w2 := more[|more| - 1];
    ThereAlso(w1, w2, id, s);
    CheckShows(w2, id, s);
    more := Then(more, Upload(Check(Matches)));
  }

  // The commit fails after the rename.
  lemma Attempted(run: seq<World>, w: World, id: Id, f: Task) returns (more: seq<World>, b: Task, u: Task)
    requires |run| > 0 && IsRun(run) && run[|run| - 1] == w
    requires f.s3.Some? && w.upload == Chosen(id, f.s3.value) && f.s3.value.upload == None
    requires w.mem == map[id := f] && w.disk == map[id := File(f, {}, false)] && There(w, id, f.s3.value)
    ensures IsRun(more) && |more| == |run| + 4 && more[0] == run[0]
    ensures !IsUploaded(b) && IsUploaded(u) && u.request == f.request && u.times == f.times
    ensures var v := more[|more| - 1]; v == w.(mem := v.mem, disk := map[id := File(u, {b}, false)], upload := Idle)
  {
    more, b := FindsIt(run, w, id, f);
    var w3 := more[|more| - 1];
    u := b.(s3 := Some(Apply(ToUploaded(w.now), b.s3.value)));
    CommitShows(w3, id, b, f.s3.value);
    hide IsRun, Moved, MayMove, There;
    more := Then(more, Upload(Commit(Renamed)));
  }

  lemma ThereAlso(w: World, v: World, id: Id, s: Transfer)
    requires There(w, id, s) && v == w.(upload := v.upload)
    ensures There(v, id, s)
  {}

  lemma BegunShows(w: World, id: Id, f: Task)
    requires f.s3.Some? && w.upload == Chosen(id, f.s3.value) && w.mem == map[id := f] && w.disk.Keys == {id}
    ensures var b := f.(s3 := Some(Apply(ToUploading, f.s3.value)));
      MayMove(w, Begin(Saved))
      && Moved(w, Begin(Saved)) == w.(mem := map[id := b], disk := map[id := File(b, {}, false)],
          upload := Begun(id, f.s3.value))
    ensures There(w, id, f.s3.value) ==> There(Moved(w, Begin(Saved)), id, f.s3.value)
  {}

  lemma InspectShows(w: World, id: Id, s: Transfer)
    requires w.upload == Begun(id, s)
    ensures MayMove(w, Inspect(Intact, Saved)) && Moved(w, Inspect(Intact, Saved)) == w.(upload := Verified(id, s))
  {}

  lemma CheckShows(w: World, id: Id, s: Transfer)
    requires w.upload == Verified(id, s) && There(w, id, s) && s.upload.None?
    ensures MayMove(w, Check(Matches)) && Moved(w, Check(Matches)) == w.(upload := Matched(id, s))
  {}

  lemma CommitWrites(w: World, id: Id, b: Task, s: Transfer)
    requires w.upload == Matched(id, s) && b.s3.Some? && w.mem == map[id := b]
    requires w.disk == map[id := File(b, {}, false)]
    ensures MayMove(w, Commit(Renamed))
    ensures var u := b.(s3 := Some(Apply(ToUploaded(w.now), b.s3.value))); var x := Written(w, Commit(Renamed));
      x == w.(mem := x.mem, disk := map[id := File(u, {b}, false)])
  {
    assert Versions(File(b, {}, false)) == {b};
    hide NotStored;
  }

  lemma CommitShows(w: World, id: Id, b: Task, s: Transfer)
    requires w.upload == Matched(id, s) && b.s3.Some? && w.mem == map[id := b]
    requires w.disk == map[id := File(b, {}, false)]
    ensures MayMove(w, Commit(Renamed))
    ensures var u := b.(s3 := Some(Apply(ToUploaded(w.now), b.s3.value))); var v := Moved(w, Commit(Renamed));
      v == w.(mem := v.mem, disk := map[id := File(u, {b}, false)], upload := Idle) && IsUploaded(u)
  {
    CommitWrites(w, id, b, s);
    hide Written, WriteOf;
  }

  // A commit whose directory sync fails; the agent is restarted and shows the task as uploaded;
  // the machine crashes, and it does not.
  lemma UploadedTakenBack() returns (run: seq<World>, i: nat, id: Id)
    ensures IsRun(run) && Init(run[0]) && i + 2 < |run|
    ensures id in run[i].mem && IsUploaded(run[i].mem[id]) && id in run[i].disk
    ensures id in run[i + 1].disk && id in run[i + 2].disk && id in run[i + 2].mem && !IsUploaded(run[i + 2].mem[id])
  {
    id := SampleId('a');
    var archive := Archive(7, Digest());
    var k := ObjectKey(PLACE, "agent", id, archive.sha);
    var objects := map[k := Object(7, archive.sha, "agent", id)];
    var w, a := EmptyStore(true, objects), Asked(id, true, 1);
    Starts(true, objects);
    assert IsDigest(archive.sha);
    FirstFinal(w, a, archive);
    hide IsRun, Init, MaySubmit, Finalize, Step, SampleId, Digest, IsDigest;
    var w1, r1 := Selected(w, a, archive);
    var f := Finalize(a, Some(archive), w);
    assert There(w1, id, f.s3.value);
    var r2, b, u := Attempted(r1, w1, id, f);
    var w2 := r2[|r2| - 1];
    hide There;
    run := TakenBack(r2, w2, id, u, b);
    i := |r2| + 1;
  }

  lemma TakenBack(run: seq<World>, w: World, id: Id, u: Task, b: Task) returns (more: seq<World>)
    requires IsRun(run) && Init(run[0]) && run[|run| - 1] == w && w.upload == Idle &&
      w.disk == map[id := File(u, {b}, false)]
    requires !TaskExpired(u, w.now)
    ensures IsRun(more) && |more| == |run| + 4 && more[0] == run[0]
    ensures var v := more[|run| + 1]; id in v.mem && v.mem[id] == u && id in v.disk && id in more[|run| + 2].disk
    ensures var v := more[|run| + 3]; id in v.mem && v.mem[id] == b && id in v.disk
  {
    RunInv(run, |run| - 1);
    OnFileValid(w, id, u);
    hide Init, Inv, IsRun, TaskExpired, ValidRecord, ValidConfig;
    var w3, r3 := Reread(w, id, File(u, {b}, false));
    Joined(run, r3);
    more := run + r3[1..];
    RunInv(more, |more| - 1);
    var cont := CrashTo(w3, id, b);
    Joined(more, cont);
    more := more + cont[1..];
  }

  lemma OnFileValid(w: World, id: Id, u: Task)
    requires Inv(w) && id in w.disk && w.disk[id].cur == u
    ensures ValidConfig(w.cfg) && ValidRecord(u, id, w.cfg.agent)
  {
    assert FileInv(w, id);
    assert u in Versions(w.disk[id]);
    hide DiskInv, MemInv, AdmissionInv, UploadInv, LiveInv, Precedes, ValidTask, ValidTransfer;
  }
}
