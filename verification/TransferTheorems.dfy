// Multipart bookkeeping and fairness of the upload worker over every run.
module TransferTheorems {
  import opened Records
  import opened AgentWorld
  import opened AgentInvariant
  import opened AgentRuns
  import RecordSteps
  import AdmissionTheorems

  // Every multipart upload alive on the remote store is in its task's record, in memory and in
  // all a crash may leave, or its checkpoint is still under way, or it is one of the lost ids.
  lemma LiveIsRecorded(run: seq<World>, i: nat, u: string)
    requires IsRun(run) && Init(run[0]) && i < |run| && u in run[i].live && u !in run[i].lost
    requires !(run[i].upload.Created? || run[i].upload.Orphaned?) || run[i].upload.up != u
    ensures var w := run[i]; u in w.owner
    ensures var w := run[i]; var id := w.owner[u];
      && id in w.disk && (forall v :: v in Versions(w.disk[id]) ==> UploadOf(v) == Some(u))
      && (id in w.mem ==> UploadOf(w.mem[id]) == Some(u))
  {
    RunInv(run, i);
  }

  // Its create was never acknowledged, its checkpoint was cut off by a restart or failed together
  // with its abort, or the removal of its task's record is begun.
  predicate Loses(w: World, a: Action, u: string) {
    || (a.Upload? && a.m.Create? && !a.m.ack && u == a.m.up)
    || (a == Upload(AbortOrphan(false)) && w.upload.Orphaned? && u == w.upload.up)
    || (a.Again? && (a.r.Exit? || a.r.Crash?) && (u in CutOff(w.upload) || (w.upload.Missing? && a.r.born == Some(u))))
    || (a.Serve? && (a.s.Cleanup? || a.s.DropDir?) && u in OwnedBy(w, a.s.id))
  }

  // The agent gives an id up in no other way.
  lemma LostOnlyThen(w: World, a: Action, u: string)
    requires Enabled(w, a) && u in Next(w, a).lost
    ensures u in w.lost || Loses(w, a, u)
  {
    match a
    case Tick(_) =>
    case Serve(s) => ServedLost(w, s); hide MayServe, Served, OwnedBy;
    case Upload(m) => MovedLost(w, m); hide Moved;
    case Again(r) => RestartedLost(w, r); hide MayRestart, Restarted;
  }

  lemma ServedLost(w: World, s: Service)
    ensures Served(w, s).lost ==
      if (s.Cleanup? && s.id in w.mem) || s.DropDir? then w.lost + OwnedBy(w, s.id) else w.lost
  {
    hide Finalize, Persist, WithoutRequest, Lapsed, OwnedBy;
  }

  lemma RestartedLost(w: World, r: Restart)
    ensures Restarted(w, r).lost == if r.Exit? || r.Crash? then w.lost + CutOff(w.upload) + Born(w, r.born) else w.lost
  {
    hide Finalize, Persist, Write, Readable, CutOff, Born, Settle;
  }

  lemma MovedLost(w: World, m: Move)
    requires MayMove(w, m)
    ensures Moved(w, m).lost == LostAfter(w, m)
  {
    hide MayMove, Written, LostAfter;
  }

  // Parts are sent only under an id that is durable in the task's record.
  lemma PartsUnderDurableId(run: seq<World>, i: nat, ok: bool)
    requires IsRun(run) && Init(run[0]) && i < |run| && MayMove(run[i], SendPart(ok))
    ensures var w := run[i]; var id := w.upload.id;
      && (id in w.disk ==> forall v :: v in Versions(w.disk[id]) ==> UploadOf(v) == Some(w.upload.up))
      && (id in w.mem ==> UploadOf(w.mem[id]) == Some(w.upload.up))
  {
    RunInv(run, i);
  }

  // No multipart upload is created while the record carries an id.
  lemma CreateOnlyWithoutId(run: seq<World>, i: nat, up: string, ack: bool)
    requires IsRun(run) && Init(run[0]) && i < |run| && MayMove(run[i], Create(up, ack))
    ensures var w := run[i]; var id := w.upload.id;
      && (id in w.disk ==> forall v :: v in Versions(w.disk[id]) ==> UploadOf(v) == None)
      && (id in w.mem ==> UploadOf(w.mem[id]) == None)
  {
    RunInv(run, i);
  }

  // In every state of every run, a multipart upload alive on the remote store, neither lost
  // nor in flight, whose finished task is unexpired and of the configured target, is in that
  // task's record, and the task can be selected for its clean-up, now or once its archive is
  // marked expired or its next time has come.
  lemma LeftoverIsSelectable(run: seq<World>, i: nat, u: string)
    requires IsRun(run) && Init(run[0]) && i < |run| && u in run[i].live && u in run[i].owner && u !in run[i].lost
    requires !(run[i].upload.Created? || run[i].upload.Orphaned?) || run[i].upload.up != u
    requires var w := run[i]; w.cfg.enabled && w.cfg.remote && !w.degraded
    requires var w := run[i]; var id := w.owner[u];
      id in w.mem && w.mem[id].state != Running && !TaskExpired(w.mem[id], w.now) &&
          (w.mem[id].s3.Some? ==> w.mem[id].s3.value.target == w.cfg.target)
    ensures var w := run[i]; var id := w.owner[u];
      && Tracked(w, id) && w.mem[id].s3.value.upload == Some(u)
      && var s := w.mem[id].s3.value;
      (Eligible(w, id) || Overdue(w, id) || (s.next.Some? && w.now < s.next.value))
  {
    LiveIsRecorded(run, i, u);
  }

  // ---- no starvation ----

  predicate Attempting(w: World, id: Id) { w.upload != Idle && w.upload.id == id }

  // The agent serves without restart from i to j.
  ghost predicate Serves(run: seq<World>, i: nat, j: nat)
    requires i <= j < |run|
  {
    forall k :: i <= k <= j ==> run[k].mode == Serving
  }

  // Unless the worker is on the task or its archive expires, its transfer part is left alone.
  ghost predicate Untouched(w: World, v: World, id: Id) {
    id in w.mem && id in v.mem && v.mem[id].s3 == w.mem[id].s3 && v.mem[id].received == w.mem[id].received &&
        v.mem[id].state != Running
  }

  predicate Idles(w: World, id: Id) {
    Tracked(w, id) && w.mem[id].state != Running && !Attempting(w, id) && !Overdue(w, id)
  }

  lemma ServiceUntouched(w: World, s: Service, id: Id)
    requires MayServe(w, s) && Idles(w, id)
    ensures var rw := ServiceRecord(w, s); rw.RecordWrite? && rw.id == id ==>
      rw.m.s3 == w.mem[id].s3 && rw.m.received == w.mem[id].received && rw.m.state != Running
  {
    hide Finalize, MaySubmit, MaySelect;
  }

  lemma PlainUntouched(w: World, a: Action, id: Id)
    requires Inv(w) && Enabled(w, a) && Plain(a) && w.mode == Serving && Idles(w, id)
    ensures Untouched(w, Next(w, a), id)
  {
    ActionWrites(w, a);
    if a.Serve? { ServiceUntouched(w, a.s, id); }
    hide Inv, Next, MayServe, MayMove, WriteOf, Changed, NotStored, ServiceRecord, Persist, Finalize, Overdue;
  }

  lemma BigUntouched(w: World, a: Action, id: Id)
    requires Enabled(w, a) && !Plain(a) && Next(w, a).mode == Serving && Idles(w, id) && id in Next(w, a).mem
    ensures Untouched(w, Next(w, a), id)
  {
    BigKeepsTask(w, a, id);
    hide Enabled, Next, Overdue, Attempting;
  }

  lemma StepUntouched(w: World, a: Action, id: Id)
    requires Inv(w) && Enabled(w, a) && w.mode == Serving && Next(w, a).mode == Serving
    requires Idles(w, id) && id in Next(w, a).mem
    ensures Untouched(w, Next(w, a), id)
  {
    hide Inv, Enabled, Next, Idles, Untouched;
    if Plain(a) { PlainUntouched(w, a, id); } else { BigUntouched(w, a, id); }
  }

  lemma {:induction false} DueStays(run: seq<World>, i: nat, j: nat, id: Id)
    requires IsRun(run) && Init(run[0]) && i <= j < |run| && Serves(run, i, j)
    requires forall k :: i <= k < j ==> Idles(run[k], id)
    requires forall k :: i <= k <= j ==> id in run[k].mem
    ensures run[j].mem[id].s3 == run[i].mem[id].s3 && Due(run[j].mem[id]) == Due(run[i].mem[id])
    decreases j
  {
    hide Inv, Init, Enabled, Next, IsRun, Idles;
    if i < j {
      DueStays(run, i, j - 1, id);
      RunInv(run, j - 1);
      var a := StepOf(run, j - 1);
      StepUntouched(run[j - 1], a, id);
    }
  }

  // An archive that has expired stays expired.
  lemma StepStaysExpired(w: World, a: Action, id: Id)
    requires Inv(w) && Enabled(w, a) && w.mode == Serving && Next(w, a).mode == Serving
    requires id in w.mem && ResultExpired(w.mem[id], w.now) && id in Next(w, a).mem
    ensures ResultExpired(Next(w, a).mem[id], Next(w, a).now)
  {
    AdmissionTheorems.NextOnward(w, a);
    if Plain(a) {
      ActionWrites(w, a);
      ActionOrderly(w, a);
      hide Inv, Enabled, Next, RecordOf;
    } else {
      BigKeepsTask(w, a, id);
      hide Inv, Enabled, Next;
    }
  }

  lemma BigKeepsTask(w: World, a: Action, id: Id)
    requires Enabled(w, a) && !Plain(a) && Next(w, a).mode == Serving
    requires id in w.mem && id in Next(w, a).mem
    ensures Next(w, a).mem[id] == w.mem[id]
  {
    hide MayServe, MayRestart, Served, Restarted;
    if a.Again? { NotServingAfter(a.r, w); } else { BigServiceKeeps(w, a.s, id); }
  }

  lemma BigServiceKeeps(w: World, s: Service, id: Id)
    requires MayServe(w, s) && (s.Submit? || s.Cleanup? || s.DropDir?) && id in w.mem && id in Served(w, s).mem
    ensures Served(w, s).mem[id] == w.mem[id]
  {
    hide OwnedBy, WithoutRequest, ValidTask, AgentWorld.Persist;
  }

  lemma NotServingAfter(r: Restart, w: World)
    requires r.Exit? || r.Crash? || r.Load?
    ensures Restarted(w, r).mode != Serving
  {
    hide Write, Born, CutOff, Settle, Readable;
  }

  lemma {:induction false} StaysExpired(run: seq<World>, i: nat, j: nat, id: Id)
    requires IsRun(run) && Init(run[0]) && i <= j < |run| && Serves(run, i, j)
    requires forall k :: i <= k <= j ==> id in run[k].mem
    requires ResultExpired(run[i].mem[id], run[i].now)
    ensures ResultExpired(run[j].mem[id], run[j].now)
    decreases j
  {
    hide Inv, Init, Enabled, Next, IsRun, ResultExpired;
    if i < j {
      StaysExpired(run, i, j - 1, id);
      RunInv(run, j - 1);
      var a := StepOf(run, j - 1);
      StepStaysExpired(run[j - 1], a, id);
    }
  }

  // Between two upload attempts of task a, every other task that was eligible with a strictly
  // earlier due time when the first ended is taken up or leaves eligibility.
  lemma NoStarvation(run: seq<World>, i: nat, j: nat, a: Id, b: Id)
    requires IsRun(run) && Init(run[0]) && i <= j < |run| && Serves(run, i, j)
    requires forall k :: i <= k <= j ==> Tracked(run[k], a) && run[k].mem[a].state != Running && !Attempting(run[k], a)
    requires MaySelect(run[j], a) && !Terminal(run[j].mem[a].s3.value.state)
    requires a in run[i].mem && Eligible(run[i], b) && Due(run[i].mem[b]) < Due(run[i].mem[a])
    ensures exists k :: i <= k <= j && (Attempting(run[k], b) || !Eligible(run[k], b))
  {
    if forall k :: i <= k <= j ==> !Attempting(run[k], b) && Eligible(run[k], b) {
      forall k | i <= k <= j ensures Idles(run[k], a) {
        if Overdue(run[k], a) { StaysExpired(run, k, j, a); }
      }
      DueStays(run, i, j, a);
      DueStays(run, i, j, b);
      assert false;
    }
  }
}
