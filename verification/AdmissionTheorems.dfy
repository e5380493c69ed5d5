// Admission over every run with crashes: valid records, one active task, replay of
// a request_id.
module AdmissionTheorems {
  import opened Records
  import opened AgentWorld
  import opened AgentInvariant
  import opened AgentRuns
  import AdmissionSteps
  import RecordSteps

  // Recovery never meets a task.json it would refuse: everything ever renamed into place is valid.
  lemma RecordsValid(run: seq<World>, i: nat)
    requires IsRun(run) && Init(run[0]) && i < |run|
    ensures var w := run[i]; forall id :: id in w.disk ==> forall v :: v in Versions(w.disk[id]) ==>
      ValidRecord(v, id, w.cfg.agent)
    ensures Readable(run[i], {}).Keys == run[i].disk.Keys
  {
    var w := run[i];
    RunInv(run, i);
    forall id | id in w.disk
      ensures forall v :: v in Versions(w.disk[id]) ==> ValidRecord(v, id, w.cfg.agent)
    {
      assert FileInv(w, id);
    }
  }

  // A finished task on a serving agent that is not degraded has left waiting_result.
  lemma NeverLeftWaiting(run: seq<World>, i: nat, id: Id)
    requires IsRun(run) && Init(run[0]) && i < |run|
    requires var w := run[i]; w.mode == Serving && !w.degraded && Tracked(w, id) && w.mem[id].state != Running
    ensures run[i].mem[id].s3.value.state != WaitingResult
  {
    RunInv(run, i);
    assert TaskInv(run[i], id);
  }

  // Every running task of a serving agent is the active one, and when none is active the
  // job channel (capacity one) is empty: the send made under the mutex cannot block.
  lemma OneActive(run: seq<World>, i: nat)
    requires IsRun(run) && Init(run[0]) && i < |run| && run[i].mode == Serving
    ensures var w := run[i]; forall id :: id in w.mem && w.mem[id].state == Running ==> w.active == Some(id)
    ensures var w := run[i]; |w.jobs| <= 1 && (w.active == None ==> |w.jobs| == 0 && w.sampler == None)
    ensures forall t, o :: MaySubmit(run[i], t) ==> |Submitted(run[i], t, o).jobs| <= 1
  {
    RunInv(run, i);
  }

  // ---- replay ----

  // The task of this request is on record, its creation safe, and once recovery has read every
  // record it is in memory.
  ghost predicate Registered(w: World, id: Id, request: string) {
    && id in w.disk && !w.disk[id].unsynced && w.disk[id].cur.request == request
    && (w.mode != Loading && !w.degraded ==> id in w.mem)
  }

  lemma PlainKeepsRegistered(w: World, v: World, rw: RecordWrite, id: Id, request: string)
    requires Inv(w) && Registered(w, id, request) && Orderly(w, rw) && Writes(w, v, rw)
    requires (w.mode == Loading ==> v.mode == Loading) && (w.degraded ==> v.degraded)
    ensures Registered(v, id, request)
  {
    if id in w.mem { assert TaskInv(w, id); }
  }

  lemma DegradedStays(w: World, a: Action)
    requires Enabled(w, a) && Plain(a) && w.degraded
    ensures Next(w, a).degraded
  {
    if a.Upload? { RecordStepsDegraded(w, a.m); }
    hide MayServe, MayMove, MayRestart, Moved, Finalize, AgentWorld.Persist;
  }

  lemma RecordStepsDegraded(w: World, m: Move)
    requires MayMove(w, m)
    ensures Moved(w, m).degraded == w.degraded
  {
    AdmissionSteps.MoveTouches(w, m);
    hide MayMove, Moved;
  }

  lemma PlainMode(w: World, a: Action)
    requires Enabled(w, a) && Plain(a) && w.mode == Loading && (w.upload != Idle ==> w.mode == Serving)
    ensures Next(w, a).mode == Loading
  {
    if a.Again? { assert false; }
    hide Finalize, Persist, Served, Moved;
  }

  lemma ResetKeepsRegistered(w: World, r: Restart, id: Id, request: string)
    requires OnFile(w, id) && (r.Exit? || (r.Crash? && Survives(w, r.keep))) && Registered(w, id, request)
    ensures Registered(Restarted(w, r), id, request)
  {
    if r.Crash? { assert r.keep[id] in Versions(w.disk[id]); }
    hide Write, Born, CutOff, Sound;
  }

  ghost predicate OnFile(w: World, id: Id) { id in w.disk && FileInv(w, id) }

  lemma LoadKeepsRegistered(w: World, r: Restart, id: Id, request: string)
    requires r.Load? && MayRestart(w, r) && Registered(w, id, request)
    ensures Registered(Restarted(w, r), id, request)
  {
    hide Owners, Ambiguous, ValidRecord;
    assert !r.damage ==> id in Readable(w, r.unread).Keys;
  }

  lemma SubmitKeepsRegistered(w: World, t: Task, o: Outcome, id: Id, request: string)
    requires t.id !in w.disk && Registered(w, id, request)
    ensures Registered(Submitted(w, t, o), id, request)
  {}

  lemma EvictedKeepsRegistered(w: World, j: Id, r: Removal, id: Id, request: string)
    requires j in w.mem && j != id && Registered(w, id, request)
    ensures Registered(Evicted(w, j, r), id, request)
  {
    hide OwnedBy, WithoutRequest;
  }

  lemma EvictedRemoved(w: World, j: Id, r: Removal)
    requires j in w.mem
    ensures j in Evicted(w, j, r).removed
  {
    hide OwnedBy, WithoutRequest;
  }

  lemma BigKeepsRegistered(w: World, a: Action, id: Id, request: string)
    requires DiskInv(w) && Enabled(w, a) && !Plain(a) && Registered(w, id, request) && id !in Next(w, a).removed
    ensures Registered(Next(w, a), id, request)
  {
    assert FileInv(w, id);
    assert OnFile(w, id);
    if a == Serve(DropDir(id)) { assert false; }
    if a.Again? {
      hide DiskInv, Registered, Restarted, OnFile, Owners, Ambiguous;
      if a.r.Exit? || a.r.Crash? { ResetKeepsRegistered(w, a.r, id, request); }
          else { LoadKeepsRegistered(w, a.r, id, request); }
    } else if a.s.Submit? {
      hide DiskInv, Registered, Submitted;
      SubmitKeepsRegistered(w, a.s.t, a.s.o, id, request);
    } else if a.s.Cleanup? {
      EvictedRemoved(w, a.s.id, a.s.r);
      hide DiskInv, Registered, Evicted;
      EvictedKeepsRegistered(w, a.s.id, a.s.r, id, request);
    } else {
      hide DiskInv, OwnedBy;
    }
  }

  lemma StepKeepsRegistered(w: World, a: Action, id: Id, request: string)
    requires Inv(w) && Enabled(w, a) && Registered(w, id, request) && id !in Next(w, a).removed
    ensures Registered(Next(w, a), id, request)
  {
    if Plain(a) {
      ActionWrites(w, a);
      ActionOrderly(w, a);
      assert w.upload != Idle ==> w.mode == Serving;
      if w.mode == Loading { PlainMode(w, a); }
      if w.degraded { DegradedStays(w, a); }
      hide Inv, Enabled, Next, RecordOf, Registered, Orderly, Writes;
      PlainKeepsRegistered(w, Next(w, a), RecordOf(w, a), id, request);
    } else {
      BigKeepsRegistered(w, a, id, request);
    }
  }

  // Removal and the clock only go forward.
  predicate Onward(w: World, v: World) { w.removed <= v.removed && w.now <= v.now }

  lemma ServedOnward(w: World, s: Service)
    ensures Onward(w, Served(w, s))
  {
    hide OwnedBy, WithoutRequest, Finalize, Persist, Lapsed;
  }

  lemma MovedOnward(w: World, m: Move)
    requires MayMove(w, m)
    ensures Onward(w, Moved(w, m))
  {
    RecordSteps.MovedFields(w, m);
    hide MayMove, Moved, Written, WriteOf, Persist, Changed, NotStored;
  }

  lemma RestartedOnward(w: World, r: Restart)
    ensures Onward(w, Restarted(w, r))
  {
    hide Finalize, Persist, Write, Born, CutOff, Readable, Settle;
  }

  lemma NextOnward(w: World, a: Action)
    requires Enabled(w, a)
    ensures Onward(w, Next(w, a))
  {
    hide MayServe, MayMove, MayRestart, Moved, Served, Restarted;
    match a
    case Tick(_) =>
    case Serve(s) => ServedOnward(w, s);
    case Upload(m) => MovedOnward(w, m);
    case Again(r) => RestartedOnward(w, r);
  }

  lemma {:induction false} RegisteredStable(run: seq<World>, i: nat, j: nat, id: Id, request: string)
    requires IsRun(run) && Init(run[0]) && i <= j < |run|
    requires Registered(run[i], id, request) && id !in run[j].removed
    ensures Registered(run[j], id, request)
    decreases j
  {
    hide Inv, Init, Enabled, Next, IsRun, Registered;
    if i < j {
      var a := StepOf(run, j - 1);
      NextOnward(run[j - 1], a);
      RegisteredStable(run, i, j - 1, id, request);
      RunInv(run, j - 1);
      StepKeepsRegistered(run[j - 1], a, id, request);
    }
  }

  // An admission that was saved registers its task, and until cleanup begins to remove it ...
  lemma AdmittedIsRegistered(w: World, t: Task)
    requires MaySubmit(w, t)
    ensures Registered(Submitted(w, t, Saved), t.id, t.request)
  {
    hide ValidTask, Vacant;
  }

  // ... a serving agent that is not degraded has it in memory under its request, and answers the
  // request from it while it is unexpired. A degraded agent, which may have failed to read the
  // record, does so when it holds the task. Neither admits a second task meanwhile.
  lemma ReplayIsStable(run: seq<World>, i: nat, j: nat, id: Id, request: string)
    requires IsRun(run) && Init(run[0]) && i <= j < |run|
    requires Registered(run[i], id, request) && id !in run[j].removed && run[j].mode == Serving
    ensures var w := run[j];
      && (!w.degraded ==> id in w.mem && (!TaskExpired(w.mem[id], w.now) ==> request in w.requests))
      && (id in w.mem ==>
            && w.mem[id].request == request
            && (!TaskExpired(w.mem[id], w.now) && request in w.requests ==> w.requests[request] == id))
      && ((id in w.mem ==> !TaskExpired(w.mem[id], w.now)) ==> forall t: Task :: t.request == request ==>
          !MaySubmit(w, t))
  {
    RegisteredStable(run, i, j, id, request);
    RunInv(run, j);
    var w := run[j];
    if id in w.mem { assert TaskInv(w, id); assert w.disk[id].cur in Versions(w.disk[id]); }
    hide DiskInv, MemInv, UploadInv, LiveInv, QueueInv, Sound, NewTask, IsRun, Init;
  }
}
