// What holds over whole runs, through failed writes, lost acknowledgements,
// corrupt puts, crashes and recovery.
module AgentTheorems {
  import opened Records
  import opened AgentWorld
  import opened AgentInvariant
  import opened AgentRuns
  import RecordSteps
  import AdmissionSteps

  // ---- what is durable stays ----

  // What a record can show for good: an uploaded object, or its end times.
  datatype Claim = ObjectOf(m: Task) | EndsAt(x: Times)

  predicate Shows(t: Task, c: Claim) {
    match c
    case ObjectOf(m) => SameUploaded(t, m)
    case EndsAt(x) => t.times == Some(x)
  }

  // Everything a crash may leave of the record shows it, and memory does if it holds the task.
  ghost predicate Everywhere(w: World, id: Id, c: Claim) {
    id in w.disk && (forall v :: v in Versions(w.disk[id]) ==> Shows(v, c)) && (id in w.mem ==> Shows(w.mem[id], c))
  }

  lemma PlainKeeps(w: World, v: World, rw: RecordWrite, id: Id, c: Claim)
    requires Everywhere(w, id, c) && Orderly(w, rw) && Writes(w, v, rw)
    requires id in w.mem && IsUploaded(w.mem[id]) ==> Keyed(w.mem[id])
    ensures Everywhere(v, id, c)
  {}

  lemma UploadedKeyed(w: World, id: Id)
    requires Inv(w) && id in w.mem && IsUploaded(w.mem[id])
    ensures Keyed(w.mem[id])
  {
    assert TaskInv(w, id);
  }

  lemma SubmitKeeps(w: World, t: Task, o: Outcome, id: Id, c: Claim)
    requires MaySubmit(w, t) && Everywhere(w, id, c)
    ensures Everywhere(Submitted(w, t, o), id, c)
  {
    hide ValidTask, Vacant;
  }

  lemma EvictedKeeps(w: World, j: Id, r: Removal, id: Id, c: Claim)
    requires j in w.mem && Everywhere(w, id, c) && id in Evicted(w, j, r).disk
    ensures Everywhere(Evicted(w, j, r), id, c)
  {
    hide OwnedBy, WithoutRequest;
  }

  lemma ResetKeeps(w: World, r: Restart, id: Id, c: Claim)
    requires (r.Exit? || r.Crash? || r.Load?) && MayRestart(w, r) && Everywhere(w, id, c) && id in Restarted(w, r).disk
    ensures Everywhere(Restarted(w, r), id, c)
  {
    hide ValidRecord, Owners, Ambiguous;
  }

  lemma BigKeeps(w: World, a: Action, id: Id, c: Claim)
    requires Enabled(w, a) && !Plain(a) && Everywhere(w, id, c) && id in Next(w, a).disk
    ensures Everywhere(Next(w, a), id, c)
  {
    if a.Again? {
      ResetKeeps(w, a.r, id, c);
    } else if a.s.Submit? {
      hide Everywhere, MaySubmit, Submitted;
      SubmitKeeps(w, a.s.t, a.s.o, id, c);
    } else if a.s.Cleanup? {
      hide Everywhere, Evicted;
      EvictedKeeps(w, a.s.id, a.s.r, id, c);
    } else {
      hide OwnedBy;
    }
  }

  lemma StepKeeps(w: World, a: Action, id: Id, c: Claim)
    requires Inv(w) && Enabled(w, a) && Everywhere(w, id, c) && id in Next(w, a).disk
    ensures Everywhere(Next(w, a), id, c)
  {
    if Plain(a) {
      ActionWrites(w, a);
      ActionOrderly(w, a);
      if id in w.mem && IsUploaded(w.mem[id]) { UploadedKeyed(w, id); }
      hide Inv, Enabled, Next, RecordOf, Keyed;
      PlainKeeps(w, Next(w, a), RecordOf(w, a), id, c);
    } else {
      BigKeeps(w, a, id, c);
    }
  }

  lemma {:induction false} EverywhereKept(run: seq<World>, i: nat, j: nat, id: Id, c: Claim)
    requires IsRun(run) && Inv(run[0]) && i <= j < |run|
    requires Everywhere(run[i], id, c)
    requires forall k :: i <= k <= j ==> id in run[k].disk
    ensures Everywhere(run[j], id, c)
    decreases j
  {
    hide Inv, Enabled, Next, Everywhere, IsRun;
    if i < j {
      EverywhereKept(run, i, j - 1, id, c);
      KeptInv(run, j - 1);
      var a := StepOf(run, j - 1);
      StepKeeps(run[j - 1], a, id, c);
    }
  }

  // What every version of a record shows, everything later shows, as long as the record exists.
  lemma EverywhereStable(run: seq<World>, i: nat, j: nat, id: Id, c: Claim)
    requires IsRun(run) && Init(run[0]) && i <= j < |run|
    requires Everywhere(run[i], id, c)
    requires forall k :: i <= k <= j ==> id in run[k].disk
    ensures Everywhere(run[j], id, c)
  {
    InitInv(run[0]);
    hide Inv, Init, Everywhere, IsRun;
    EverywhereKept(run, i, j, id, c);
  }

  // Once the end times are durable no later step or restart changes them.
  lemma EndTimesStable(run: seq<World>, i: nat, j: nat, id: Id)
    requires IsRun(run) && Init(run[0]) && i <= j < |run|
    requires id in run[i].disk && Fixed(run[i].disk[id])
    requires forall k :: i <= k <= j ==> id in run[k].disk
    ensures forall v :: v in Versions(run[j].disk[id]) ==> v.times == run[i].disk[id].cur.times
    ensures id in run[j].mem ==> run[j].mem[id].times == run[i].disk[id].cur.times
  {
    RunInv(run, i);
    if id in run[i].mem { assert TaskInv(run[i], id); }
    EverywhereStable(run, i, j, id, EndsAt(run[i].disk[id].cur.times.value));
  }

  // ---- the remote store ----

  // No object is ever replaced or removed, although Put itself would overwrite.
  lemma {:induction false} ObjectsStable(run: seq<World>, i: nat, j: nat)
    requires IsRun(run) && Init(run[0]) && i <= j < |run|
    ensures Grows(run[i].objects, run[j].objects)
    decreases j
  {
    hide Inv, Init, Enabled, Next, IsRun;
    if i < j {
      ObjectsStable(run, i, j - 1);
      RunInv(run, j - 1);
      var a := StepOf(run, j - 1);
      StepKeepsInv(run[j - 1], a);
    }
  }

  lemma ResetWrites(w: World, r: Restart)
    requires (r.Exit? || r.Crash?) && Restarted(w, r).objects != w.objects
    ensures (w.upload.Missing? || w.upload.Sending?) && w.upload.s.key.Some?
    ensures forall k :: k in Restarted(w, r).objects && k !in w.objects ==> k == w.upload.s.key.value
  {}

  lemma MoveWritesObjects(w: World, m: Move)
    requires MayMove(w, m)
    requires ObjectsAfter(w, m) != w.objects || m.PutWhole? || m.Create? || m.Complete?
    ensures w.upload.Missing? || w.upload.Sending?
    ensures w.upload.s.key.Some? ==> forall k :: k in ObjectsAfter(w, m) && k !in w.objects ==>
      k == w.upload.s.key.value
  {}

  lemma VacantKey(w: World)
    requires UploadInv(w) && (w.upload.Missing? || w.upload.Sending?)
    ensures var s := w.upload.s;
      s.key.Some? && s.key.value !in w.objects && s.key == Some(ObjectKey(s.target, w.cfg.agent, w.upload.id, s.sha))
  {}

  // A Put or a multipart create happens only where the Check of the same attempt said
  // missing, and the key, the task's own, still holds nothing.
  lemma PutOnlyWhereMissing(run: seq<World>, i: nat, a: Action)
    requires IsRun(run) && Init(run[0]) && i < |run| && Enabled(run[i], a)
    requires Next(run[i], a).objects != run[i].objects || (a.Upload? && (a.m.PutWhole? || a.m.Create? || a.m.Complete?))
    ensures var w := run[i]; (w.upload.Missing? || w.upload.Sending?) && w.upload.s.key.Some?
    ensures var w := run[i]; var s := w.upload.s;
      s.key.value !in w.objects && s.key == Some(ObjectKey(s.target, w.cfg.agent, w.upload.id, s.sha))
    ensures var w := run[i]; forall k :: k in Next(w, a).objects && k !in w.objects ==> k == w.upload.s.key.value
  {
    var w := run[i];
    RunInv(run, i);
    hide IsRun, Init, Inv, MayMove, MayServe, MayRestart, Moved, Served, Restarted, ObjectsAfter, UploadInv;
    assert UploadInv(w) && RecordInv(w) && ValidConfig(w.cfg) && AdmissionInv(w) by { InvParts(w); }
    match a
    case Tick(_) =>
    case Serve(s) => RecordSteps.ServeKeepsRecords(w, s);
    case Upload(m) => RecordSteps.MovedFields(w, m); MoveWritesObjects(w, m); VacantKey(w);
    case Again(r) =>
      if r.Exit? || r.Crash? { ResetWrites(w, r); VacantKey(w); } else { RestartSameObjects(w, r); }
  }

  // Once an object is under a key, restarts included, no attempt puts or creates anything
  // for that key again, and nothing else replaces the object.
  lemma NoPutOnceThere(run: seq<World>, i: nat, j: nat, k: Key, a: Action)
    requires IsRun(run) && Init(run[0]) && i <= j < |run| && Enabled(run[j], a) && k in run[i].objects
    ensures k in run[j].objects && run[j].objects[k] == run[i].objects[k]
    ensures a.Upload? && (a.m.PutWhole? || a.m.Create? || a.m.Complete?) ==>
      run[j].upload.s.key.Some? && run[j].upload.s.key.value != k
    ensures k in Next(run[j], a).objects && Next(run[j], a).objects[k] == run[i].objects[k]
  {
    ObjectsStable(run, i, j);
    RunInv(run, j);
    StepKeepsInv(run[j], a);
    hide Inv, Enabled, Next, IsRun, Init;
    if a.Upload? && (a.m.PutWhole? || a.m.Create? || a.m.Complete?) { PutOnlyWhereMissing(run, j, a); }
  }

  ghost predicate RecordInv(w: World) { RecordSteps.RecordInv(w) }

  lemma InvParts(w: World)
    requires Inv(w)
    ensures UploadInv(w) && RecordInv(w) && ValidConfig(w.cfg) && AdmissionInv(w)
  {}

  lemma RestartSameObjects(w: World, r: Restart)
    requires !r.Exit? && !r.Crash?
    ensures Restarted(w, r).objects == w.objects
  {
    hide Persist, Finalize;
  }

  // The task is in memory with the object of s, and that object is on the remote store.
  predicate There(w: World, id: Id, s: Transfer) {
    Tracked(w, id) && SameObject(w.mem[id].s3.value, s) && Present(w, id, s)
  }

  lemma OnTheWay(w: World, id: Id, s: Transfer, m: Move) returns (v: World)
    requires There(w, id, s) && MayMove(w, m) && w.upload.id == id && !m.PutWhole? && !m.Complete?
    ensures v == Moved(w, m) && Step(w, v) && There(v, id, s) && v.objects == w.objects && v.upload == UploadAfter(w, m)
    ensures WriteOf(w, m) == StateWrite(ToUploaded(w.now), Saved) ==>
      IsUploaded(v.mem[id]) && UploadOf(v.mem[id]) == None
  {
    v := Moved(w, m);
    RecordSteps.MovedFields(w, m);
    assert Enabled(w, Upload(m)) && v == Next(w, Upload(m));
    assert ObjectsAfter(w, m) == w.objects;
    hide Moved, Written, LiveAfter, LostAfter, MayMove, ObjectsAfter, WriteOf, Persist;
  }

  lemma ThereIsMatch(w: World, id: Id, s: Transfer)
    requires There(w, id, s)
    ensures Honest(w, Matches, id, s) && Tracked(w, id) && SameObject(w.mem[id].s3.value, s)
  {}

  // The object is there: what each section of an undisturbed attempt does next.
  lemma FirstSections(w: World, id: Id, s: Transfer)
    requires There(w, id, s)
    ensures w.upload == Chosen(id, s) ==> MayMove(w, Begin(Saved)) && UploadAfter(w, Begin(Saved)) == Begun(id, s)
    ensures w.upload == Begun(id, s) ==>
      MayMove(w, Inspect(Intact, Saved)) && UploadAfter(w, Inspect(Intact, Saved)) == Verified(id, s)
    ensures w.upload == Verified(id, s) ==>
      MayMove(w, Check(Matches))
      && UploadAfter(w, Check(Matches)) == if s.upload.Some? then Stale(id, s, false) else Matched(id, s)
  {
    ThereIsMatch(w, id, s);
  }

  lemma LastSections(w: World, id: Id, s: Transfer)
    requires There(w, id, s)
    ensures w.upload == Stale(id, s, false) && s.upload.Some? ==>
      MayMove(w, AbortStale(true)) && UploadAfter(w, AbortStale(true)) == Purged(id, s, false)
    ensures w.upload == Purged(id, s, false) ==>
      MayMove(w, ClearStale(Saved)) && UploadAfter(w, ClearStale(Saved)) == Matched(id, s)
    ensures w.upload == Matched(id, s) ==>
      MayMove(w, Commit(Saved)) && UploadAfter(w, Commit(Saved)) == Idle
      && WriteOf(w, Commit(Saved)) == StateWrite(ToUploaded(w.now), Saved)
  {
    ThereIsMatch(w, id, s);
  }

  // Moves that leave the object and the task's claim to it in place, step by step.
  ghost predicate Trail(run: seq<World>, id: Id, s: Transfer) {
    && IsRun(run)
    && forall k :: 0 <= k < |run| ==>
         There(run[k], id, s) && run[k].objects == run[0].objects && !run[k].upload.Missing?
  }

  lemma TrailGrows(run: seq<World>, id: Id, s: Transfer, m: Move) returns (more: seq<World>)
    requires Trail(run, id, s)
    requires var w := run[|run| - 1];
      MayMove(w, m) && w.upload.id == id && !m.PutWhole? && !m.Complete? && !UploadAfter(w, m).Missing?
    ensures |more| == |run| + 1 && more[0] == run[0] && Trail(more, id, s)
    ensures var w := run[|run| - 1]; var v := more[|run|]; v.upload == UploadAfter(w, m)
    ensures var w := run[|run| - 1]; var v := more[|run|];
      WriteOf(w, m) == StateWrite(ToUploaded(w.now), Saved) ==>
          v.mem[id].s3.value.state == Uploaded && UploadOf(v.mem[id]) == None
  {
    var w := run[|run| - 1];
    var v := OnTheWay(w, id, s, m);
    more := run + [v];
    ThereIsMatch(v, id, s);
    hide MayMove, Moved, There, Step;
    forall i | 0 <= i < |more| - 1 ensures Step(more[i], more[i + 1]) {
      if i < |run| - 1 { assert Step(run[i], run[i + 1]); }
    }
  }

  // An attempt that finds the matching object already there, after a restart say, can go on to
  // uploaded without a Put, dropping an unfinished multipart upload on the way.
  lemma MatchNeedsNoPut(w: World, id: Id, s: Transfer) returns (run: seq<World>)
    requires w.upload == Chosen(id, s) && There(w, id, s)
    ensures |run| > 0 && run[0] == w && Trail(run, id, s)
    ensures var v := run[|run| - 1];
      v.upload == Idle && Tracked(v, id) && v.mem[id].s3.value.state == Uploaded && UploadOf(v.mem[id]) == None
  {
    hide There, MayMove, UploadAfter, WriteOf, UploadOf, IsRun;
    run := [w];
    assert Trail(run, id, s) by { TrailStarts(w, id, s); }
    FirstSections(w, id, s);
    run := TrailGrows(run, id, s, Begin(Saved));
    FirstSections(run[1], id, s);
    run := TrailGrows(run, id, s, Inspect(Intact, Saved));
    FirstSections(run[2], id, s);
    run := TrailGrows(run, id, s, Check(Matches));
    LastSections(run[3], id, s);
    if s.upload.Some? {
      run := TrailGrows(run, id, s, AbortStale(true));
      LastSections(run[4], id, s);
      run := TrailGrows(run, id, s, ClearStale(Saved));
      LastSections(run[5], id, s);
    }
    run := TrailGrows(run, id, s, Commit(Saved));
    ThereIsMatch(run[|run| - 1], id, s);
  }

  lemma TrailStarts(w: World, id: Id, s: Transfer)
    requires There(w, id, s) && !w.upload.Missing?
    ensures Trail([w], id, s)
  {}
}
