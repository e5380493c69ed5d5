// Every step of every run keeps the invariant; what record, if any, a step writes.
module AgentRuns {
  import opened Records
  import opened AgentWorld
  import opened AgentInvariant
  import RecordSteps
  import AdmissionSteps
  import UploadSteps
  import LiveSteps

  lemma StepKeepsInv(w: World, a: Action)
    requires Inv(w) && Enabled(w, a)
    ensures Inv(Next(w, a)) && Grows(w.objects, Next(w, a).objects)
  {
    hide Inv, MayServe, MayMove, MayRestart, Served, Moved, Restarted;
    match a
    case Tick(d) => TickKeepsInv(w, d);
    case Serve(s) => ServeKeepsInv(w, s);
    case Upload(m) => MoveKeepsInv(w, m);
    case Again(r) => RestartKeepsInv(w, r);
  }

  lemma TickKeepsUpload(w: World, d: nat)
    requires UploadInv(w)
    ensures UploadInv(w.(now := w.now + d))
  {}

  lemma TickKeepsInv(w: World, d: nat)
    requires Inv(w)
    ensures Inv(w.(now := w.now + d))
  {
    hide DiskInv, MemInv, AdmissionInv, LiveInv, UploadInv;
    AdmissionSteps.TickKeepsAdmission(w, d);
    TickKeepsUpload(w, d);
    RecordSteps.SameRecords(w, w.(now := w.now + d));
    LiveSteps.SameLive(w, w.(now := w.now + d));
  }

  lemma ServeKeepsInv(w: World, s: Service)
    requires Inv(w) && MayServe(w, s)
    ensures Inv(Served(w, s)) && Served(w, s).objects == w.objects
  {
    AdmissionSteps.MemFacts(w);
    hide DiskInv, MemInv, AdmissionInv, LiveInv, UploadInv, MayServe, Served, AdmissionSteps.Facts;
    ServedConfig(w, s);
    RecordSteps.ServeKeepsRecords(w, s);
    AdmissionSteps.ServeKeepsAdmission(w, s);
    UploadSteps.ServeKeepsUpload(w, s);
    LiveSteps.ServeKeepsLive(w, s);
  }

  lemma ServedConfig(w: World, s: Service)
    ensures Served(w, s).cfg == w.cfg && Served(w, s).objects == w.objects
  {
    hide OwnedBy, WithoutRequest, AgentWorld.Persist, Finalize, Lapsed;
  }

  lemma MoveKeepsInv(w: World, m: Move)
    requires Inv(w) && MayMove(w, m)
    ensures Inv(Moved(w, m)) && Grows(w.objects, Moved(w, m).objects)
  {
    assert w.mode == Serving;
    hide DiskInv, MemInv, AdmissionInv, LiveInv, UploadInv, MayMove;
    RecordSteps.MoveKeepsRecords(w, m);
    AdmissionSteps.MoveTouches(w, m);
    AdmissionSteps.MoveKeepsAdmission(w, m);
    UploadSteps.MoveKeepsUpload(w, m);
    LiveSteps.MoveKeepsLive(w, m);
    hide Moved;
  }

  lemma RestartKeepsInv(w: World, r: Restart)
    requires Inv(w) && MayRestart(w, r)
    ensures Inv(Restarted(w, r)) && Grows(w.objects, Restarted(w, r).objects)
  {
    AdmissionSteps.MemFacts(w);
    assert UploadInv(Restarted(w, r));
    assert ValidConfig(Restarted(w, r).cfg);
    hide DiskInv, MemInv, AdmissionInv, LiveInv, UploadInv, MayRestart, Restarted, AdmissionSteps.Facts;
    RecordSteps.RestartKeepsRecords(w, r);
    AdmissionSteps.RestartKeepsAdmission(w, r);
    LiveSteps.RestartKeepsLive(w, r);
  }

  lemma StepOf(run: seq<World>, i: nat) returns (a: Action)
    requires IsRun(run) && i + 1 < |run|
    ensures Enabled(run[i], a) && run[i + 1] == Next(run[i], a)
  {
    hide Enabled, Next;
    assert Step(run[i], run[i + 1]);
    a :| Enabled(run[i], a) && run[i + 1] == Next(run[i], a);
  }

  // Every run keeps the invariant from where it starts.
  lemma {:induction false} KeptInv(run: seq<World>, i: nat)
    requires IsRun(run) && Inv(run[0]) && i < |run|
    ensures Inv(run[i])
  {
    hide Inv, Enabled, Next, IsRun;
    if i > 0 {
      KeptInv(run, i - 1);
      var a := StepOf(run, i - 1);
      StepKeepsInv(run[i - 1], a);
    }
  }

  // Every state of every run from an empty store satisfies the invariant.
  lemma RunInv(run: seq<World>, i: nat)
    requires IsRun(run) && Init(run[0]) && i < |run|
    ensures Inv(run[i])
  {
    hide Inv, Init, IsRun;
    InitInv(run[0]);
    KeptInv(run, i);
  }

  // The actions of a run, step by step.
  ghost predicate Trace(run: seq<World>, acts: seq<Action>) {
    && |run| == |acts| + 1
    && forall i :: 0 <= i < |acts| ==> Enabled(run[i], acts[i]) && run[i + 1] == Next(run[i], acts[i])
  }

  lemma TraceIsRun(run: seq<World>, acts: seq<Action>)
    requires Trace(run, acts)
    ensures IsRun(run)
  {
    hide Enabled, Next;
    forall i | 0 <= i < |run| - 1 ensures Step(run[i], run[i + 1]) { assert Enabled(run[i], acts[i]); }
  }

  lemma Joined(r: seq<World>, q: seq<World>)
    requires IsRun(r) && IsRun(q) && r[|r| - 1] == q[0]
    ensures IsRun(r + q[1..])
  {
    hide Step;
    var p := r + q[1..];
    forall i | 0 <= i < |p| - 1 ensures Step(p[i], p[i + 1]) {
      if i < |r| - 1 { assert Step(r[i], r[i + 1]); }
      else { var k := i - |r| + 1; assert Step(q[k], q[k + 1]); assert p[i] == q[k]; }
    }
  }

  // ---- the record an action writes ----

  datatype RecordWrite = NoRecord | RecordWrite(id: Id, t: Task, m: Task, o: Outcome)

  function ServiceRecord(w: World, s: Service): RecordWrite {
    match s
    case Publish(t, o) => RecordWrite(t.id, t, t, o)
    case Finish(t, built, o) =>
      var f := Finalize(t, built, w);
      RecordWrite(t.id, f, f, o)
    case Corrupt(id, o) =>
      if id in w.mem then RecordWrite(id, Damaged(w.mem[id]), Damaged(w.mem[id]), o) else NoRecord
    case Expire(id, o) =>
      if !Tracked(w, id) then NoRecord
      else RecordWrite(id, Lapsed(w.mem[id]), if o == Saved then Lapsed(w.mem[id]) else w.mem[id], o)
    case _ => NoRecord
  }

  function MoveRecord(w: World, m: Move): RecordWrite
    requires MayMove(w, m)
  {
    var wr := WriteOf(w, m);
    var id := w.upload.id;
    if wr.NoWrite? || !Tracked(w, id) then NoRecord
    else RecordWrite(id, Changed(w, id, wr.c), if wr.o == Saved then Changed(w, id, wr.c) else NotStored(w, id), wr.o)
  }

  function RestartRecord(w: World, r: Restart): RecordWrite {
    match r
    case Mark(id, o) => if id in w.mem then RecordWrite(id, Stopped(w.mem[id], w), Stopped(w.mem[id], w), o)
        else NoRecord
    case Rebuild(id, t, built, _, o) =>
      var f := Finalize(t.(errors := true), built, w);
      RecordWrite(id, f, f, o)
    case Recheck(id, intact, o) =>
      if id !in w.mem || intact || !w.mem[id].available || ResultExpired(w.mem[id], w.now) then NoRecord
      else RecordWrite(id, Damaged(w.mem[id]), Damaged(w.mem[id]), o)
    case _ => NoRecord
  }

  ghost function RecordOf(w: World, a: Action): RecordWrite
    requires Enabled(w, a)
  {
    match a
    case Tick(_) => NoRecord
    case Serve(s) => ServiceRecord(w, s)
    case Upload(m) => MoveRecord(w, m)
    case Again(r) => RestartRecord(w, r)
  }

  // The actions that touch at most one existing record.
  predicate Plain(a: Action) {
    match a
    case Serve(s) => !s.Submit? && !s.Cleanup? && !s.DropDir?
    case Again(r) => !r.Exit? && !r.Crash? && !r.Load?
    case _ => true
  }

  ghost predicate Writes(w: World, v: World, rw: RecordWrite) {
    match rw
    case NoRecord => v.mem == w.mem && v.disk == w.disk
    case RecordWrite(id, t, m, o) => v.mem == w.mem[id := m] && v.disk == Persist(w.disk, id, t, o)
  }

  lemma MoveWrites(w: World, m: Move)
    requires MayMove(w, m)
    ensures Writes(w, Moved(w, m), MoveRecord(w, m))
  {
    RecordSteps.MovedFields(w, m);
    hide MayMove, Moved, Written, WriteOf, Persist, Changed, NotStored;
  }

  lemma ServiceWrites(w: World, s: Service)
    requires Plain(Serve(s))
    ensures Writes(w, Served(w, s), ServiceRecord(w, s))
  {
    hide Persist, Finalize, Lapsed;
  }

  lemma RestartWrites(w: World, r: Restart)
    requires Plain(Again(r))
    ensures Writes(w, Restarted(w, r), RestartRecord(w, r))
  {
    hide Persist, Finalize;
  }

  lemma ActionWrites(w: World, a: Action)
    requires Enabled(w, a) && Plain(a)
    ensures Writes(w, Next(w, a), RecordOf(w, a))
  {
    hide MayServe, MayMove, MayRestart, Served, Moved, Restarted, Writes, ServiceRecord, MoveRecord, RestartRecord;
    match a
    case Tick(d) => assert Writes(w, Next(w, a), NoRecord) by { TickWrites(w, d); }
    case Serve(s) => ServiceWrites(w, s);
    case Upload(m) => MoveWrites(w, m);
    case Again(r) => RestartWrites(w, r);
  }

  lemma TickWrites(w: World, d: nat)
    ensures Writes(w, w.(now := w.now + d), NoRecord)
  {}

  // x may take the place of y: later, and uploaded if y is.
  predicate Follows(x: Task, y: Task) { Precedes(y, x) && (IsUploaded(y) ==> IsUploaded(x)) }

  ghost predicate Orderly(w: World, rw: RecordWrite) {
    rw.RecordWrite? ==>
      && rw.id in w.mem && Follows(rw.t, w.mem[rw.id]) && Follows(rw.m, w.mem[rw.id])
      && rw.m.times == rw.t.times && (IsUploaded(rw.m) ==>
          IsUploaded(rw.t) && (rw.o == Saved || IsUploaded(w.mem[rw.id])))
  }

  lemma ServiceOrderly(w: World, s: Service)
    requires MemInv(w) && MayServe(w, s)
    ensures Orderly(w, ServiceRecord(w, s))
  {
    var rw := ServiceRecord(w, s);
    if rw.RecordWrite? {
      assert TaskInv(w, rw.id);
      hide MemInv, Linked, ValidRecord;
    }
  }

  lemma MoveOrderly(w: World, m: Move)
    requires MemInv(w) && DiskInv(w) && UploadInv(w) && MayMove(w, m)
    ensures Orderly(w, MoveRecord(w, m))
  {
    var rw := MoveRecord(w, m);
    if rw.RecordWrite? {
      var c := WriteOf(w, m).c;
      RecordSteps.MovesSanctioned(w, m);
      RecordSteps.ChangedKeeps(w, rw.id, c);
      PrecedesThrough(w.mem[rw.id], rw.t, rw.m);
      hide MemInv, UploadInv, DiskInv, MayMove, WriteOf, Sound, Changed, NotStored, Precedes, IsUploaded;
    }
  }

  lemma RestartOrderly(w: World, r: Restart)
    requires MemInv(w) && MayRestart(w, r)
    ensures Orderly(w, RestartRecord(w, r))
  {
    var rw := RestartRecord(w, r);
    if rw.RecordWrite? {
      assert TaskInv(w, rw.id);
      hide MemInv, Linked, ValidRecord, Owners, Survives;
    }
  }

  lemma ActionOrderly(w: World, a: Action)
    requires Inv(w) && Enabled(w, a)
    ensures Orderly(w, RecordOf(w, a))
  {
    hide MemInv, DiskInv, AdmissionInv, UploadInv, LiveInv, MayServe, MayMove, MayRestart, Orderly, ServiceRecord,
      MoveRecord, RestartRecord;
    match a
    case Tick(_) => assert Orderly(w, NoRecord) by { NoRecordOrderly(w); }
    case Serve(s) => ServiceOrderly(w, s);
    case Upload(m) => MoveOrderly(w, m);
    case Again(r) => RestartOrderly(w, r);
  }

  lemma NoRecordOrderly(w: World)
    ensures Orderly(w, NoRecord)
  {}
}
