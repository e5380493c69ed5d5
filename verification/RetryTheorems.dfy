// The time a transfer waits for its next attempt, over every run: once it is on record no
// restart, crash or failed write lets the worker take the task up before.
module RetryTheorems {
  import opened Records
  import opened AgentWorld
  import opened AgentInvariant
  import opened AgentRuns
  import opened TransferTheorems
  import UploadedRecords

  // ---- the task the worker is on ----

  // It has been finished.
  predicate OnFinished(w: World) {
    w.upload != Idle && w.upload.id in w.mem ==> w.mem[w.upload.id].phase == Finished
  }

  lemma SelectedFinished(w: World, id: Id)
    requires Inv(w) && MayServe(w, Select(id))
    ensures w.mem[id].phase == Finished
  {
    hide DiskInv, MemInv, UploadInv, LiveInv, TableInv;
  }

  lemma NotRunning(w: World, id: Id)
    requires Inv(w) && id in w.mem && w.mem[id].phase == Finished
    ensures w.mem[id].state != Running && !Repackaged(w.mem[id])
  {
    assert TaskInv(w, id);
    hide Inv, ValidRecord, Linked;
  }

  // Only the sampler and recovery change the phase of a task, and they are done with it.
  lemma RecordPhase(w: World, a: Action, id: Id)
    requires Inv(w) && Enabled(w, a) && Plain(a) && id in w.mem && w.mem[id].phase == Finished
    ensures var rw := RecordOf(w, a);
      rw.RecordWrite? && rw.id == id ==> rw.m.phase == Finished && rw.t.phase == Finished
  {
    NotRunning(w, id);
    hide Inv, MaySubmit, MaySelect, EndTimes, FinalState, Owners, Survives, Ambiguous, Readable, Prepare;
  }

  // Only a selection moves the worker to another task.
  lemma WorkerTask(w: World, a: Action)
    requires Inv(w) && Enabled(w, a) && Plain(a) && Next(w, a).upload != Idle
    ensures var id := Next(w, a).upload.id;
      (w.upload != Idle && w.upload.id == id) || (a == Serve(Select(id)) && w.upload == Idle)
  {
    hide Inv, MayMove, MayRestart, Moved, Served, Restarted;
    match a
    case Tick(_) =>
    case Serve(s) => UploadedRecords.ServeSameTask(w, s); if s.Select? { SelectIdle(w, s.id); } hide MayServe;
    case Upload(m) => UploadedRecords.MoveSameTask(w, m);
    case Again(r) => UploadedRecords.RestartSameTask(w, r);
  }

  lemma SelectIdle(w: World, id: Id)
    requires MayServe(w, Select(id))
    ensures w.upload == Idle && id in w.mem
  {}

  lemma WorkerServes(w: World)
    requires Inv(w) && w.upload != Idle
    ensures w.mode == Serving && w.upload.id in w.issued
  {
    hide DiskInv, MemInv, AdmissionInv, LiveInv;
  }

  lemma PlainOnFinished(w: World, a: Action)
    requires Inv(w) && Enabled(w, a) && Plain(a) && OnFinished(w)
    ensures OnFinished(Next(w, a))
  {
    var v := Next(w, a);
    if v.upload != Idle && v.upload.id in v.mem {
      var id := v.upload.id;
      WorkerTask(w, a);
      ActionWrites(w, a);
      ActionOrderly(w, a);
      WrittenTask(w, v, RecordOf(w, a), id);
      if a == Serve(Select(id)) && w.upload == Idle { SelectedFinished(w, id); }
      RecordPhase(w, a, id);
      hide Inv, Enabled, Next, RecordOf, AgentWorld.Persist;
    }
  }

  lemma WrittenTask(w: World, v: World, rw: RecordWrite, id: Id)
    requires Writes(w, v, rw) && Orderly(w, rw) && id in v.mem
    ensures id in w.mem && v.mem[id] == if rw.RecordWrite? && rw.id == id then rw.m else w.mem[id]
  {
    hide Follows;
  }

  lemma BigOnFinished(w: World, a: Action)
    requires Inv(w) && Enabled(w, a) && !Plain(a) && OnFinished(w)
    ensures OnFinished(Next(w, a))
  {
    var v := Next(w, a);
    if v.upload != Idle && v.upload.id in v.mem {
      StepKeepsInv(w, a);
      WorkerServes(v);
      BigWorker(w, a);
      WorkerServes(w);
      IssuedStays(w, a, v.upload.id);
      hide Inv, Enabled, Next;
      BigKeepsTask(w, a, v.upload.id);
    }
  }

  lemma BigWorker(w: World, a: Action)
    requires Enabled(w, a) && !Plain(a)
    ensures Next(w, a).upload == Idle || Next(w, a).upload == w.upload
  {
    hide MayServe, MayRestart, Served, Restarted;
    if a.Serve? { UploadedRecords.ServeSameTask(w, a.s); } else { ResetIdle(w, a.r); }
  }

  lemma ResetIdle(w: World, r: Restart)
    requires !Plain(Again(r))
    ensures Restarted(w, r).upload == Idle || Restarted(w, r).upload == w.upload
  {
    hide Write, Born, CutOff, Settle, Readable;
  }

  lemma IssuedStays(w: World, a: Action, id: Id)
    requires Enabled(w, a) && !Plain(a) && id in w.issued && id in Next(w, a).mem && Next(w, a).mode == Serving
    ensures id in w.mem
  {
    hide MayServe, MayRestart, Served, Restarted;
    if a.Serve? { ServiceIssued(w, a.s, id); } else { NotServingAfter(a.r, w); }
  }

  lemma ServiceIssued(w: World, s: Service, id: Id)
    requires MayServe(w, s) && !Plain(Serve(s)) && id in w.issued && id in Served(w, s).mem
    ensures id in w.mem
  {
    hide OwnedBy, WithoutRequest, AgentWorld.Persist, Vacant, ValidTask;
  }

  lemma StepOnFinished(w: World, a: Action)
    requires Inv(w) && Enabled(w, a) && OnFinished(w)
    ensures OnFinished(Next(w, a))
  {
    hide Inv, Enabled, Next, OnFinished;
    if Plain(a) { PlainOnFinished(w, a); } else { BigOnFinished(w, a); }
  }

  lemma {:induction false} RunOnFinished(run: seq<World>, i: nat)
    requires IsRun(run) && Init(run[0]) && i < |run|
    ensures OnFinished(run[i])
    decreases i
  {
    assert run[0].upload == Idle;
    hide Inv, Enabled, Next, IsRun, Init;
    if i > 0 {
      RunOnFinished(run, i - 1);
      RunInv(run, i - 1);
      var a := StepOf(run, i - 1);
      hide OnFinished;
      StepOnFinished(run[i - 1], a);
    }
  }

  // ---- a time on record ----

  predicate SetBack(t: Task, at: Time) { t.phase == Finished && t.s3.Some? && t.s3.value.next == Some(at) }

  // Every version of the record waits for this time, and memory does if it holds the task.
  ghost predicate Postponed(w: World, id: Id, at: Time) {
    && id in w.disk && (forall v :: v in Versions(w.disk[id]) ==> SetBack(v, at))
    && (id in w.mem ==> SetBack(w.mem[id], at))
  }

  // Neither the worker nor the expiry of the archive has anything to do with the task.
  predicate Undisturbed(w: World, id: Id) { !Attempting(w, id) && !Overdue(w, id) }

  // Whatever else is written for the task, its transfer part stays.
  lemma SamePart(w: World, a: Action, id: Id)
    requires Inv(w) && Enabled(w, a) && Plain(a) && id in w.mem && w.mem[id].phase == Finished && Undisturbed(w, id)
    ensures var rw := RecordOf(w, a);
      rw.RecordWrite? && rw.id == id ==> rw.m.s3 == w.mem[id].s3 && rw.t.s3 == w.mem[id].s3
  {
    NotRunning(w, id);
    hide Inv, MaySubmit, MaySelect, EndTimes, FinalState, Owners, Survives, Ambiguous, Readable, Prepare, MayMove,
      WriteOf;
  }

  lemma PlainPostponed(w: World, v: World, rw: RecordWrite, id: Id, at: Time)
    requires Postponed(w, id, at) && Orderly(w, rw) && Writes(w, v, rw)
    requires rw.RecordWrite? && rw.id == id ==> SetBack(rw.t, at) && SetBack(rw.m, at)
    ensures Postponed(v, id, at)
  {
    hide SetBack, Follows;
  }

  lemma BigPostponed(w: World, a: Action, id: Id, at: Time)
    requires Enabled(w, a) && !Plain(a) && Postponed(w, id, at) && id in Next(w, a).disk
    ensures Postponed(Next(w, a), id, at)
  {
    hide SetBack, MayServe, MayRestart, Served, Restarted, Postponed;
    if a.Serve? { ServicePostponed(w, a.s, id, at); } else { ResetPostponed(w, a.r, id, at); }
  }

  lemma ServicePostponed(w: World, s: Service, id: Id, at: Time)
    requires MayServe(w, s) && !Plain(Serve(s)) && Postponed(w, id, at) && id in Served(w, s).disk
    ensures Postponed(Served(w, s), id, at)
  {
    hide SetBack, OwnedBy, WithoutRequest, Vacant, ValidTask;
  }

  lemma ResetPostponed(w: World, r: Restart, id: Id, at: Time)
    requires MayRestart(w, r) && !Plain(Again(r)) && Postponed(w, id, at) && id in Restarted(w, r).disk
    ensures Postponed(Restarted(w, r), id, at)
  {
    hide SetBack, Owners, Ambiguous, ValidRecord, Write, Born, CutOff;
  }

  lemma StepPostponed(w: World, a: Action, id: Id, at: Time)
    requires Inv(w) && Enabled(w, a) && Postponed(w, id, at) && Undisturbed(w, id) && id in Next(w, a).disk
    ensures Postponed(Next(w, a), id, at)
  {
    if Plain(a) {
      ActionWrites(w, a);
      ActionOrderly(w, a);
      if id in w.mem {
        SamePart(w, a, id);
        RecordPhase(w, a, id);
      }
      hide Inv, Enabled, Next, RecordOf, Undisturbed;
      PlainPostponed(w, Next(w, a), RecordOf(w, a), id, at);
    } else {
      hide Inv, Undisturbed;
      BigPostponed(w, a, id, at);
    }
  }

  lemma {:induction false} RunPostponed(run: seq<World>, i: nat, j: nat, id: Id, at: Time)
    requires IsRun(run) && Init(run[0]) && i <= j < |run| && Postponed(run[i], id, at)
    requires forall k :: i <= k < j ==> Undisturbed(run[k], id)
    requires forall k :: i <= k <= j ==> id in run[k].disk
    ensures Postponed(run[j], id, at)
    decreases j
  {
    hide Inv, Enabled, Next, IsRun, Init, Undisturbed, Postponed;
    if i < j {
      RunPostponed(run, i, j - 1, id, at);
      RunInv(run, j - 1);
      var a := StepOf(run, j - 1);
      StepPostponed(run[j - 1], a, id, at);
    }
  }

  // A retry that is saved puts its time on record.
  lemma RetryPostpones(run: seq<World>, i: nat, code: string, at: Time)
    requires IsRun(run) && Init(run[0]) && i < |run| && MayMove(run[i], AgentWorld.Retry(code, at, Saved))
    requires Tracked(run[i], run[i].upload.id)
    ensures Postponed(Moved(run[i], AgentWorld.Retry(code, at, Saved)), run[i].upload.id, at)
  {
    var w := run[i];
    RunInv(run, i);
    RunOnFinished(run, i);
    RetrySets(w, code, at);
    hide IsRun, Init, Inv, Moved, MayMove, OnFinished;
  }

  lemma RetrySets(w: World, code: string, at: Time)
    requires Inv(w) && OnFinished(w) && MayMove(w, AgentWorld.Retry(code, at, Saved)) && Tracked(w, w.upload.id)
    ensures Postponed(Moved(w, AgentWorld.Retry(code, at, Saved)), w.upload.id, at)
  {
    hide Inv, ObjectsAfter, LiveAfter, LostAfter, UploadAfter;
  }

  // Over every run: after a saved retry the worker does not take the task up before the time
  // the retry gave, through restarts, crashes and failed writes, while the record stays and the
  // time of the archive is not over.
  lemma NotBeforeRetry(run: seq<World>, i: nat, j: nat, code: string, at: Time)
    requires IsRun(run) && Init(run[0]) && i < j < |run| && MayMove(run[i], AgentWorld.Retry(code, at, Saved))
    requires run[i + 1] == Moved(run[i], AgentWorld.Retry(code, at, Saved)) && Tracked(run[i], run[i].upload.id)
    requires var id := run[i].upload.id;
      (forall k :: i < k < j ==> Undisturbed(run[k], id)) && (forall k :: i < k <= j ==> id in run[k].disk)
    ensures MaySelect(run[j], run[i].upload.id) ==> at <= run[j].now
  {
    RetryPostpones(run, i, code, at);
    hide IsRun, Init, Moved, MayMove;
    RunPostponed(run, i + 1, j, run[i].upload.id, at);
  }
}
