// At most one unexpired record per request_id: what keeps it, the exact condition for an
// admission and for whole runs, and a run in which a refused final write breaks it.
module UniqueRecords {
  import opened Records
  import opened AgentWorld
  import opened AgentInvariant
  import opened AgentRuns
  import opened AdmissionTheorems
  import opened SampleRuns

  // ---- one unexpired record per request ----

  // Some version of the record a crash may leave is unexpired.
  ghost predicate MayRevive(w: World, id: Id) {
    id in w.disk && exists v :: v in Versions(w.disk[id]) && !TaskExpired(v, w.now)
  }

  ghost predicate UniqueOnDisk(w: World) {
    forall i, j :: i != j && MayRevive(w, i) && MayRevive(w, j) ==> w.disk[i].cur.request != w.disk[j].cur.request
  }

  // A write gives no record new life: what is unexpired afterwards was unexpired before.
  lemma PlainRevives(w: World, v: World, rw: RecordWrite, id: Id)
    requires Inv(w) && Orderly(w, rw) && Writes(w, v, rw) && w.now <= v.now && MayRevive(v, id)
    ensures MayRevive(w, id) && v.disk[id].cur.request == w.disk[id].cur.request
  {
    hide Inv, Sound, Follows;
    if id in w.mem { InvLinked(w, id); }
    var x :| x in Versions(v.disk[id]) && !TaskExpired(x, v.now);
    if rw.RecordWrite? && rw.id == id { FollowsTimes(rw.t, w.mem[id]); }
    if rw.RecordWrite? && rw.id == id && x == rw.t {
      if id in w.disk {
        assert w.disk[id].cur in Versions(w.disk[id]);
        assert !TaskExpired(w.disk[id].cur, w.now);
      }
    } else {
      assert x in Versions(w.disk[id]) && !TaskExpired(x, w.now);
    }
  }

  lemma InvLinked(w: World, id: Id)
    requires Inv(w) && id in w.mem
    ensures Linked(w, id)
  {
    assert TaskInv(w, id);
  }

  lemma FollowsTimes(x: Task, y: Task)
    requires Follows(x, y)
    ensures x.request == y.request && (y.times.Some? ==> x.times == y.times)
  {}

  lemma CrashRevives(w: World, r: Restart, id: Id)
    requires id in w.disk && FileInv(w, id) && r.Crash? && Survives(w, r.keep) && MayRevive(Restarted(w, r), id)
    ensures MayRevive(w, id) && Restarted(w, r).disk[id].cur.request == w.disk[id].cur.request
  {
    hide Sound, Write, Born, CutOff, TaskExpired, Keyed;
    var v := Restarted(w, r);
    assert Versions(v.disk[id]) == {r.keep[id]} && r.keep[id] in Versions(w.disk[id]);
  }

  lemma SameRevives(w: World, v: World, id: Id)
    requires id in v.disk ==> id in w.disk && v.disk[id] == w.disk[id]
    requires v.now == w.now && MayRevive(v, id)
    ensures MayRevive(w, id) && v.disk[id].cur.request == w.disk[id].cur.request
  {}

  lemma BigRevives(w: World, a: Action, id: Id)
    requires DiskInv(w) && Enabled(w, a) && !Plain(a) && !(a.Serve? && a.s.Submit?) && MayRevive(Next(w, a), id)
    ensures MayRevive(w, id) && Next(w, a).disk[id].cur.request == w.disk[id].cur.request
  {
    hide MayRevive, OwnedBy, WithoutRequest, Readable, Owners, Ambiguous, Born, CutOff, Write;
    if a.Again? && a.r.Crash? {
      CrashHasFile(w, a.r, id);
      assert FileInv(w, id);
      hide DiskInv;
      CrashRevives(w, a.r, id);
    } else {
      hide DiskInv, MayServe, MayRestart;
      SameRevives(w, Next(w, a), id);
    }
  }

  lemma CrashHasFile(w: World, r: Restart, id: Id)
    requires r.Crash? && Survives(w, r.keep) && MayRevive(Restarted(w, r), id)
    ensures id in w.disk
  {
    hide Write, Born, CutOff;
  }

  // Nothing but an admission can give one request two unexpired records.
  lemma OnlySubmitBreaksUnique(w: World, a: Action)
    requires Inv(w) && Enabled(w, a) && UniqueOnDisk(w) && !(a.Serve? && a.s.Submit?)
    ensures UniqueOnDisk(Next(w, a))
  {
    var v := Next(w, a);
    NextOnward(w, a);
    if Plain(a) { ActionWrites(w, a); ActionOrderly(w, a); }
    hide Enabled, Next, RecordOf, Orderly, Writes, MayRevive, Inv;
    forall i, j | i != j && MayRevive(v, i) && MayRevive(v, j)
      ensures v.disk[i].cur.request != v.disk[j].cur.request
    {
      if Plain(a) {
        PlainRevives(w, v, RecordOf(w, a), i);
        PlainRevives(w, v, RecordOf(w, a), j);
      } else {
        assert DiskInv(w) by { InvDisk(w); }
        BigRevives(w, a, i);
        BigRevives(w, a, j);
      }
    }
  }

  lemma InvDisk(w: World)
    requires Inv(w)
    ensures DiskInv(w)
  {}

  lemma SubmitRevives(w: World, t: Task, o: Outcome, id: Id)
    requires MaySubmit(w, t)
    ensures id != t.id ==> MayRevive(Submitted(w, t, o), id) == MayRevive(w, id)
    ensures id != t.id && id in w.disk ==> Submitted(w, t, o).disk[id] == w.disk[id]
    ensures o != Unchanged ==> MayRevive(Submitted(w, t, o), t.id) && Submitted(w, t, o).disk[t.id].cur == t
  {
    var v := Submitted(w, t, o);
    hide ValidId, Vacant;
    if o != Unchanged { assert t in Versions(v.disk[t.id]) && !TaskExpired(t, v.now); }
  }

  // ---- the exact condition ----

  // No crash can bring back a version of the record without its end times.
  ghost predicate EndsDurable(f: File) { forall v :: v in Versions(f) ==> v.times.Some? }

  // Every record of the request has its end times durable.
  ghost predicate Settled(w: World, request: string) {
    forall id :: id in w.disk && w.disk[id].cur.request == request ==> EndsDurable(w.disk[id])
  }

  // Once recovery has read every record: one that memory has let go has run out in every version
  // that has end times.
  ghost predicate LetGo(w: World) {
    w.mode != Loading && !w.degraded ==>
      forall id :: id in w.disk && id !in w.mem ==> forall v :: v in Versions(w.disk[id]) ==>
          v.times.None? || TaskExpired(v, w.now)
  }

  lemma PlainLetGo(w: World, v: World, rw: RecordWrite)
    requires LetGo(w) && Orderly(w, rw) && Writes(w, v, rw) && w.now <= v.now
    requires (w.mode == Loading ==> v.mode == Loading) && (w.degraded ==> v.degraded)
    ensures LetGo(v)
  {
    hide Follows;
    if v.mode != Loading && !v.degraded {
      forall id, x | id in v.disk && id !in v.mem && x in Versions(v.disk[id]) ensures x.times.None? ||
          TaskExpired(x, v.now) {
        assert id in w.disk && id !in w.mem && v.disk[id] == w.disk[id];
      }
    }
  }

  lemma EvictedLetGo(w: World, j: Id, r: Removal)
    requires LetGo(w) && j in w.mem && Linked(w, j) && TaskExpired(w.mem[j], w.now) && w.mode != Loading
    ensures LetGo(Evicted(w, j, r))
  {
    hide OwnedBy, WithoutRequest, IsUploaded, Keyed;
  }

  lemma SubmittedLetGo(w: World, t: Task, o: Outcome)
    requires LetGo(w) && t.times.None? && t.id !in w.disk
    ensures LetGo(Submitted(w, t, o))
  {}

  lemma LoadLetGo(w: World, r: Restart)
    requires r.Load? && MayRestart(w, r)
    ensures LetGo(Restarted(w, r))
  {
    hide Owners, Ambiguous, ValidRecord, TaskExpired;
    assert !r.damage ==> Readable(w, r.unread).Keys == w.disk.Keys;
  }

  lemma BigLetGo(w: World, a: Action)
    requires Inv(w) && Enabled(w, a) && !Plain(a) && LetGo(w)
    ensures LetGo(Next(w, a))
  {
    if a.Again? {
      if a.r.Load? { LoadLetGo(w, a.r); }
      hide Inv, MayRestart, Readable, Settle, Write, Born, CutOff;
    } else if a.s.Submit? {
      NewTaskFacts(w, a.s.t);
      hide Inv, MaySubmit, LetGo, Submitted;
      SubmittedLetGo(w, a.s.t, a.s.o);
    } else if a.s.Cleanup? {
      InvLinked(w, a.s.id);
      hide Inv, LetGo, Evicted, Linked;
      EvictedLetGo(w, a.s.id, a.s.r);
    } else {
      hide Inv, OwnedBy;
    }
  }

  lemma NewTaskFacts(w: World, t: Task)
    requires MaySubmit(w, t)
    ensures t.times.None? && t.id !in w.disk && t.id !in w.mem
  {}

  lemma StepLetGo(w: World, a: Action)
    requires Inv(w) && Enabled(w, a) && LetGo(w)
    ensures LetGo(Next(w, a))
  {
    if Plain(a) {
      ActionWrites(w, a);
      ActionOrderly(w, a);
      NextOnward(w, a);
      LoadingStays(w, a);
      if w.degraded { DegradedStays(w, a); }
      hide Inv, Enabled, Next, RecordOf, LetGo, Orderly, Writes;
      PlainLetGo(w, Next(w, a), RecordOf(w, a));
    } else {
      BigLetGo(w, a);
    }
  }

  lemma LoadingStays(w: World, a: Action)
    requires Inv(w) && Enabled(w, a) && Plain(a)
    ensures w.mode == Loading ==> Next(w, a).mode == Loading
  {
    assert w.upload != Idle ==> w.mode == Serving;
    hide Inv;
    if w.mode == Loading { PlainMode(w, a); }
  }

  lemma {:induction false} RunLetGo(run: seq<World>, i: nat)
    requires IsRun(run) && Init(run[0]) && i < |run|
    ensures LetGo(run[i])
    decreases i
  {
    hide Inv, Enabled, Next, IsRun, LetGo;
    if i == 0 {
      assert LetGo(run[0]) by { StartLetGo(run[0]); }
    } else {
      RunLetGo(run, i - 1);
      RunInv(run, i - 1);
      var a := StepOf(run, i - 1);
      StepLetGo(run[i - 1], a);
    }
  }

  lemma StartLetGo(w: World)
    requires Init(w)
    ensures LetGo(w)
  {}

  // For a record whose task memory has let go, or holds as expired, the question is whether
  // its end times are durable.
  lemma RevivesUnlessDurable(w: World, id: Id)
    requires Inv(w) && LetGo(w) && w.mode == Serving && !w.degraded && id in w.disk &&
      (id in w.mem ==> TaskExpired(w.mem[id], w.now))
    ensures MayRevive(w, id) <==> !EndsDurable(w.disk[id])
  {
    if id in w.mem { InvLinked(w, id); }
    hide Inv, IsUploaded, Keyed;
    if !EndsDurable(w.disk[id]) {
      var v :| v in Versions(w.disk[id]) && v.times.None?;
      assert !TaskExpired(v, w.now);
    }
  }

  // Where a request may be admitted, every task of it in memory has expired.
  lemma VacantExpired(w: World, request: string, id: Id)
    requires Inv(w) && !w.degraded && Vacant(w, request) && id in w.disk && id in w.mem &&
      w.disk[id].cur.request == request
    ensures TaskExpired(w.mem[id], w.now)
  {
    InvLinked(w, id);
    assert w.disk[id].cur in Versions(w.disk[id]);
    hide MemInv, DiskInv, UploadInv, LiveInv, QueueInv, IsUploaded, Keyed;
  }

  lemma SameUnique(w: World, v: World)
    requires v.disk == w.disk && v.now == w.now && UniqueOnDisk(w)
    ensures UniqueOnDisk(v)
  {
    assert forall id :: MayRevive(v, id) == MayRevive(w, id);
    hide MayRevive;
  }

  // An admission keeps at most one unexpired record per request exactly when the end times
  // of every earlier record of that request are durable, or its own record never got to the disk.
  lemma SubmitKeepsUniqueIff(run: seq<World>, i: nat, t: Task, o: Outcome)
    requires IsRun(run) && Init(run[0]) && i < |run| && run[i].mode == Serving && MaySubmit(run[i], t)
    requires UniqueOnDisk(run[i])
    ensures UniqueOnDisk(Submitted(run[i], t, o)) <==> o == Unchanged || Settled(run[i], t.request)
  {
    if o == Unchanged { SameUnique(run[i], Submitted(run[i], t, o)); } else { WrittenKeepsUniqueIff(run, i, t, o); }
    hide IsRun, Init, UniqueOnDisk, Settled, MaySubmit, Submitted;
  }

  lemma WrittenKeepsUniqueIff(run: seq<World>, i: nat, t: Task, o: Outcome)
    requires IsRun(run) && Init(run[0]) && i < |run| && run[i].mode == Serving && MaySubmit(run[i], t)
    requires UniqueOnDisk(run[i]) && o != Unchanged
    ensures UniqueOnDisk(Submitted(run[i], t, o)) <==> Settled(run[i], t.request)
  {
    var w := run[i];
    RunInv(run, i);
    RunLetGo(run, i);
    hide IsRun, Init, Inv, LetGo, NewTask, Vacant, EndsDurable, MayRevive;
    var v := Submitted(w, t, o);
    forall id ensures id != t.id ==>
        MayRevive(v, id) == MayRevive(w, id) && (id in w.disk ==> v.disk[id] == w.disk[id]) {
      SubmitRevives(w, t, o, id);
    }
    forall id | id in w.disk && w.disk[id].cur.request == t.request ensures MayRevive(w, id) <==>
        !EndsDurable(w.disk[id]) {
      if id in w.mem { VacantExpired(w, t.request, id); }
      RevivesUnlessDurable(w, id);
    }
    SubmitRevives(w, t, o, t.id);
    NewTaskFacts(w, t);
    hide MaySubmit, Submitted;
    UniqueAfter(w, v, t);
  }

  lemma UniqueAfter(w: World, v: World, t: Task)
    requires UniqueOnDisk(w) && t.id !in w.disk && MayRevive(v, t.id) && v.disk[t.id].cur == t
    requires forall id :: id != t.id ==>
      MayRevive(v, id) == MayRevive(w, id) && (id in w.disk ==> id in v.disk && v.disk[id] == w.disk[id])
    requires forall id :: id in w.disk && w.disk[id].cur.request == t.request ==>
      (MayRevive(w, id) <==> !EndsDurable(w.disk[id]))
    ensures UniqueOnDisk(v) <==> Settled(w, t.request)
  {
    assert forall id :: MayRevive(w, id) ==> id in w.disk;
    hide MayRevive, EndsDurable;
    if !Settled(w, t.request) {
      var id :| id in w.disk && w.disk[id].cur.request == t.request && !EndsDurable(w.disk[id]);
      assert MayRevive(v, id) && v.disk[id].cur.request == v.disk[t.id].cur.request;
    }
  }

  // An admission that put a record on disk.
  predicate Admission(a: Action) { a.Serve? && a.s.Submit? && a.s.o != Unchanged }

  // Over every run: no request ever has two unexpired records exactly when every admission
  // met only durable end times.
  lemma {:induction false} UniqueThroughoutIff(run: seq<World>, acts: seq<Action>, n: nat)
    requires Trace(run, acts) && Init(run[0]) && n <= |acts|
    ensures (forall j :: 0 <= j <= n ==> UniqueOnDisk(run[j])) <==>
            (forall i :: 0 <= i < n && Admission(acts[i]) ==> Settled(run[i], acts[i].s.t.request))
    decreases n
  {
    TraceIsRun(run, acts);
    if n == 0 {
      assert UniqueOnDisk(run[0]) by { StartUnique(run[0]); }
    } else {
      hide Inv, Init, IsRun, UniqueOnDisk, Settled, MaySubmit, Next, MayRestart, MayMove;
      UniqueThroughoutIff(run, acts, n - 1);
      assert Enabled(run[n - 1], acts[n - 1]) && run[n] == Next(run[n - 1], acts[n - 1]);
      if UniqueOnDisk(run[n - 1]) { OneMoreStep(run, n - 1, acts[n - 1]); }
    }
  }

  lemma StartUnique(w: World)
    requires Init(w)
    ensures UniqueOnDisk(w)
  {}

  lemma OneMoreStep(run: seq<World>, i: nat, a: Action)
    requires IsRun(run) && Init(run[0]) && i < |run| && Enabled(run[i], a) && UniqueOnDisk(run[i])
    ensures UniqueOnDisk(Next(run[i], a)) <==> (Admission(a) ==> Settled(run[i], a.s.t.request))
  {
    if a.Serve? && a.s.Submit? {
      SubmitIs(run[i], a);
      hide Enabled, Next, Submitted, IsRun, Init;
      SubmitKeepsUniqueIff(run, i, a.s.t, a.s.o);
    } else {
      RunInv(run, i);
      hide Inv, Enabled, Next, IsRun, Init;
      OnlySubmitBreaksUnique(run[i], a);
    }
  }

  lemma SubmitIs(w: World, a: Action)
    requires Enabled(w, a) && a.Serve? && a.s.Submit?
    ensures w.mode == Serving && MaySubmit(w, a.s.t) && Next(w, a) == Submitted(w, a.s.t, a.s.o)
  {
    hide MaySubmit, Submitted;
  }

  // ---- when end times are saved as they are written ----

  // The two places that write a task's end times first: the end of its sampling, and the
  // interruption recovery finds.
  predicate EndsSaved(a: Action) {
    (a.Serve? && a.s.Finish? ==> a.s.o == Saved) && (a.Again? && a.r.Mark? ==> a.r.o == Saved)
  }

  // Every version of a record has its end times or none has; all have when memory does, or when
  // memory of an agent that has read every record does not hold the task.
  ghost predicate EndsKept(w: World) {
    forall id :: id in w.disk ==>
      && (EndsDurable(w.disk[id]) || forall v :: v in Versions(w.disk[id]) ==> v.times.None?)
      && (id in w.mem && w.mem[id].times.Some? ==> EndsDurable(w.disk[id]))
      && (id !in w.mem && w.mode != Loading && !w.degraded ==> EndsDurable(w.disk[id]))
  }

  lemma EndsAreWritten(w: World, a: Action)
    requires Inv(w) && Enabled(w, a) && Plain(a) && EndsSaved(a)
    ensures var rw := RecordOf(w, a);
      rw.RecordWrite? && rw.id in w.mem && w.mem[rw.id].times.None? && rw.t.times.Some? ==> rw.o == Saved
  {
    var rw := RecordOf(w, a);
    if rw.RecordWrite? && rw.id in w.mem && w.mem[rw.id].times.None? {
      SoundTask(w, rw.id);
      hide Inv, Sound;
      if a.Upload? { MoveTimes(w, a.m); }
      else if a.Serve? { ServeEnds(w, a.s); }
      else if a.Again? { AgainEnds(w, a.r); }
    }
    hide Inv, MayServe, Served, ServiceRecord, MayMove, Moved, MoveRecord, MayRestart, Restarted, RestartRecord;
  }

  lemma AgainEnds(w: World, r: Restart)
    requires MayRestart(w, r) && Plain(Again(r)) && EndsSaved(Again(r))
    ensures var rw := RecordOf(w, Again(r));
      rw.RecordWrite? && rw.id in w.mem && rw.t.times.Some? ==> rw.o == Saved || w.mem[rw.id].state != Running
  {
    hide Owners, Survives, Finalize, AgentWorld.Persist;
  }

  lemma ServeEnds(w: World, s: Service)
    requires MayServe(w, s) && Plain(Serve(s)) && EndsSaved(Serve(s))
    ensures var rw := RecordOf(w, Serve(s));
      rw.RecordWrite? && rw.id in w.mem && w.mem[rw.id].times.None? && rw.t.times.Some? ==>
        rw.o == Saved || w.mem[rw.id].state != Running
  {
    hide Served, Finalize;
  }

  lemma SoundTask(w: World, id: Id)
    requires Inv(w) && id in w.mem
    ensures w.mem[id].state == Running <==> w.mem[id].times.None?
  {
    assert TaskInv(w, id);
  }

  lemma MoveTimes(w: World, m: Move)
    requires MayMove(w, m)
    ensures var rw := MoveRecord(w, m); rw.RecordWrite? ==> rw.id in w.mem && rw.t.times == w.mem[rw.id].times
  {
    hide MayMove, WriteOf, Apply;
  }

  lemma PlainEndsKept(w: World, v: World, rw: RecordWrite)
    requires EndsKept(w) && Orderly(w, rw) && Writes(w, v, rw)
    requires (w.mode == Loading ==> v.mode == Loading) && (w.degraded ==> v.degraded)
    requires rw.RecordWrite? && rw.id in w.disk ==> forall x :: x in Versions(w.disk[rw.id]) ==>
      Precedes(x, w.mem[rw.id])
    requires rw.RecordWrite? && w.mem[rw.id].times.None? && rw.t.times.Some? ==> rw.o == Saved
    ensures EndsKept(v)
  {
    if rw.RecordWrite? {
      FollowsTimes(rw.t, w.mem[rw.id]);
      FollowsTimes(rw.m, w.mem[rw.id]);
      if rw.id in w.disk && w.mem[rw.id].times.None? {
        forall x | x in Versions(w.disk[rw.id]) ensures x.times.None? { TimesBefore(x, w.mem[rw.id]); }
      }
    }
    hide Follows, Precedes;
  }

  lemma TimesBefore(x: Task, m: Task)
    requires Precedes(x, m) && m.times.None?
    ensures x.times.None?
  {}

  lemma EvictedEndsKept(w: World, j: Id, r: Removal)
    requires EndsKept(w) && j in w.mem && w.mem[j].times.Some?
    ensures EndsKept(Evicted(w, j, r))
  {
    hide OwnedBy, WithoutRequest;
  }

  lemma SubmittedEndsKept(w: World, t: Task, o: Outcome)
    requires EndsKept(w) && t.times.None? && t.id !in w.disk && t.id !in w.mem
    ensures EndsKept(Submitted(w, t, o))
  {}

  lemma LoadEndsKept(w: World, r: Restart)
    requires EndsKept(w) && r.Load? && MayRestart(w, r)
    ensures EndsKept(Restarted(w, r))
  {
    hide Owners, Ambiguous, ValidRecord;
    assert !r.damage ==> Readable(w, r.unread).Keys == w.disk.Keys;
    forall id | id in w.disk && w.disk[id].cur.times.Some? ensures EndsDurable(w.disk[id]) {
      assert w.disk[id].cur in Versions(w.disk[id]);
    }
    hide EndsDurable;
  }

  lemma ResetEndsKept(w: World, r: Restart)
    requires EndsKept(w) && (r.Exit? || r.Crash?)
    ensures EndsKept(Restarted(w, r))
  {
    hide Write, Born, CutOff;
    if r.Crash? {
      var v := Restarted(w, r);
      forall id | id in v.disk ensures Versions(v.disk[id]) == {r.keep[id]} {}
    }
  }

  lemma BigEndsKept(w: World, a: Action)
    requires Inv(w) && Enabled(w, a) && !Plain(a) && EndsKept(w)
    ensures EndsKept(Next(w, a))
  {
    if a.Again? {
      hide Inv, EndsKept, MayRestart, Restarted;
      if a.r.Load? { LoadEndsKept(w, a.r); } else { ResetEndsKept(w, a.r); }
    } else if a.s.Submit? {
      NewTaskFacts(w, a.s.t);
      hide Inv, MaySubmit, EndsKept, Submitted;
      SubmittedEndsKept(w, a.s.t, a.s.o);
    } else if a.s.Cleanup? {
      hide Inv, EndsKept, Evicted;
      EvictedEndsKept(w, a.s.id, a.s.r);
    } else {
      hide Inv, OwnedBy, EndsDurable;
    }
  }

  lemma StepEndsKept(w: World, a: Action)
    requires Inv(w) && Enabled(w, a) && EndsSaved(a) && EndsKept(w)
    ensures EndsKept(Next(w, a))
  {
    if Plain(a) {
      ActionWrites(w, a);
      ActionOrderly(w, a);
      LoadingStays(w, a);
      EndsAreWritten(w, a);
      if w.degraded { DegradedStays(w, a); }
      var rw := RecordOf(w, a);
      if rw.RecordWrite? { InvLinked(w, rw.id); }
      hide Inv, Enabled, Next, RecordOf, EndsKept, Writes, Follows, Precedes;
      PlainEndsKept(w, Next(w, a), RecordOf(w, a));
    } else {
      BigEndsKept(w, a);
    }
  }

  lemma {:induction false} RunEndsKept(run: seq<World>, acts: seq<Action>, i: nat)
    requires Trace(run, acts) && Init(run[0]) && i < |run| && forall k :: 0 <= k < |acts| ==> EndsSaved(acts[k])
    ensures EndsKept(run[i])
    decreases i
  {
    TraceIsRun(run, acts);
    if i == 0 {
      assert EndsKept(run[0]) by { StartEndsKept(run[0]); }
    } else {
      hide Inv, Enabled, Next, IsRun, EndsKept, Init;
      RunEndsKept(run, acts, i - 1);
      RunInv(run, i - 1);
      StepEndsKept(run[i - 1], acts[i - 1]);
    }
  }

  lemma StartEndsKept(w: World)
    requires Init(w)
    ensures EndsKept(w)
  {}

  lemma KeptIsSettled(w: World, t: Task)
    requires Inv(w) && EndsKept(w) && w.mode == Serving && MaySubmit(w, t)
    ensures Settled(w, t.request)
  {
    hide Inv, NewTask, Vacant, EndsDurable;
    assert !w.degraded;
    forall id | id in w.disk && w.disk[id].cur.request == t.request ensures EndsDurable(w.disk[id]) {
      if id in w.mem { VacantExpired(w, t.request, id); }
    }
  }

  // If end times are saved as they are first written, no request ever has two unexpired records,
  // whatever else fails, over every run with restarts, crashes and recoveries.
  lemma SavedEndsKeepUnique(run: seq<World>, acts: seq<Action>, i: nat)
    requires Trace(run, acts) && Init(run[0]) && i < |run| && forall k :: 0 <= k < |acts| ==> EndsSaved(acts[k])
    ensures UniqueOnDisk(run[i])
  {
    TraceIsRun(run, acts);
    forall k | 0 <= k < |acts| && Admission(acts[k]) ensures Settled(run[k], acts[k].s.t.request) {
      RunInv(run, k);
      RunEndsKept(run, acts, k);
      SubmitIs(run[k], acts[k]);
      KeptIsSettled(run[k], acts[k].s.t);
    }
    hide Trace, Settled, UniqueOnDisk;
    UniqueThroughoutIff(run, acts, |acts|);
  }

  // ---- a run in which it fails ----

  lemma Fail(w: World, a: Task) returns (v: World, run: seq<World>)
    requires w.mode == Serving && w.jobs == [] && Sampled(w, a)
    ensures |run| == 3 && run[0] == w && run[2] == v && IsRun(run)
    ensures var f := Finalize(a, None, w);
      v == w.(mem := w.mem[a.id := f], active := None, sampler := None) && f.state != Running
  {
    var u := Served(w, Finish(a, None, Unchanged));
    v := Served(u, Release);
    run := [w, u, v];
    assert Step(w, u) by { assert Enabled(w, Serve(Finish(a, None, Unchanged))); }
    assert Step(u, v) by { assert Enabled(u, Serve(Release)); }
  }

  // The final write of task a is refused and its end times expire in memory only.
  lemma StaleStart(w: World, a: Task) returns (v: World, run: seq<World>)
    requires Init(w) && MaySubmit(w, a)
    ensures IsRun(run) && |run| > 0 && run[0] == w && run[|run| - 1] == v
    ensures var f := Finalize(a, None, w);
      v == w.(mode := Serving, mem := map[a.id := f], disk := map[a.id := File(a, {}, false)],
          issued := w.issued + {a.id},
              requests := map[a.request := a.id], now := w.now + w.cfg.taskKeep)
  {
    hide ValidId, Finalize;
    var w2, r2 := Boot(w);
    var w4, r4 := Admit(w2, a);
    assert w4.mem == map[a.id := a] && w4.disk == map[a.id := File(a, {}, false)] &&
      w4.requests == map[a.request := a.id];
    assert a == a.(phase := a.phase, sources := a.sources, points := a.points, errors := a.errors);
    var w6, r6 := Fail(w4, a);
    v := w6.(now := w6.now + w.cfg.taskKeep);
    assert Step(w6, v) by { assert Enabled(w6, Tick(w.cfg.taskKeep)); }
    SameFinal(w, w4, a);
    hide Step, IsRun, Init, MaySubmit, Submitted;
    TwoRun(w6, v);
    Joined(r2, r4);
    Joined(r2 + r4[1..], r6);
    Joined(r2 + r4[1..] + r6[1..], [w6, v]);
    run := r2 + r4[1..] + r6[1..] + [w6, v][1..];
  }

  lemma SameFinal(w: World, v: World, a: Task)
    requires v.now == w.now && v.cfg == w.cfg
    ensures Finalize(a, None, v) == Finalize(a, None, w)
  {}

  lemma FinalTimes(w: World, a: Task)
    requires a.times.None?
    ensures var f := Finalize(a, None, w);
      f.times == Some(Times(w.now, w.now + w.cfg.resultKeep, w.now + w.cfg.taskKeep)) && f.request == a.request
  {}

  // Without that it fails: the final write of the first task is refused, its end times
  // expire in memory, and a second task of the same request is admitted beside the
  // record that still says running.
  lemma StaleRecordRun(w: World, a: Task, b: Task) returns (run: seq<World>)
    requires Init(w) && MaySubmit(w, a) && ValidTask(b, b.id)
    requires b == a.(id := b.id, received := w.now + w.cfg.taskKeep) && a.id != b.id
    ensures IsRun(run) && run[0] == w
    ensures var v := run[|run| - 1]; v.mode == Serving && !v.degraded && !UniqueOnDisk(v)
  {
    hide ValidId, Finalize, IsRun, Step;
    var w7, r7 := StaleStart(w, a);
    FinalTimes(w, a);
    assert TaskExpired(w7.mem[a.id], w7.now);
    assert Vacant(w7, b.request);
    assert NewTask(w7, b);
    var w9, r9 := Admit(w7, b);
    RivalVersions(w9, a, b);
    hide Init, MaySubmit, UniqueOnDisk, Submitted;
    Joined(r7, r9);
    run := r7 + r9[1..];
  }

  // Such a run, with nothing left open.
  lemma StaleRecord() returns (run: seq<World>)
    ensures IsRun(run) && Init(run[0])
    ensures var v := run[|run| - 1]; v.mode == Serving && !v.degraded && !UniqueOnDisk(v)
  {
    Starts(false, map[]);
    hide Init, MaySubmit, ValidTask, IsRun, UniqueOnDisk;
    run := StaleRecordRun(EmptyStore(false, map[]), Asked(SampleId('a'), false, 1), Asked(SampleId('b'), false, 21));
  }

  // ---- a run in which recovery fails it, without any final write ----

  // The process ends while task a runs; the next one finds it interrupted, and its write fails
  // after the rename; the one after that reads it so.
  lemma MarkedRun(w: World, a: Task) returns (v: World, run: seq<World>)
    requires Init(w) && MaySubmit(w, a)
    ensures IsRun(run) && run[0] == w && run[|run| - 1] == v
    ensures var t := Stopped(a, w);
      v == w.(mode := Recovering({a.id}), mem := map[a.id := t], disk := map[a.id := File(t, {a}, false)],
          issued := w.issued + {a.id},
              requests := map[a.request := a.id])
  {
    hide ValidId, Step;
    var id := a.id;
    var w2, r2 := Boot(w);
    var w4, r4 := Admit(w2, a);
    assert w4.disk == map[id := File(a, {}, false)];
    NewIsValid(w, a);
    var w6, r6 := Reread(w4, id, File(a, {}, false));
    Joined(r2, r4);
    Joined(r2 + r4[1..], r6);
    hide IsRun, Init, MaySubmit, Submitted, ValidRecord, ValidConfig;
    var t := Stopped(a, w);
    var r7 := Marked(r2 + r4[1..] + r6[1..], w6, a);
    var w7 := r7[|r7| - 1];
    assert t.request == a.request && !TaskExpired(t, w.now);
    StoppedIsValid(w, a);
    var w9, r9 := Reread(w7, id, File(t, {a}, false));
    Joined(r7, r9);
    v, run := w9, r7 + r9[1..];
  }

  lemma Marked(run: seq<World>, w: World, a: Task) returns (more: seq<World>)
    requires IsRun(run) && run[|run| - 1] == w && w.mode == Recovering({a.id}) && w.mem == map[a.id := a] &&
      a.state == Running
    requires w.disk == map[a.id := File(a, {}, false)]
    ensures IsRun(more) && |more| == |run| + 1 && more[0] == run[0]
    ensures var t := Stopped(a, w);
      more[|run|] == w.(mem := map[a.id := t], disk := map[a.id := File(t, {a}, false)], degraded := true,
          mode := Recovering({}))
  {
    var mark := Again(Mark(a.id, Renamed));
    assert Waits(w, a.id) && Enabled(w, mark);
    hide IsRun;
    more := Then(run, mark);
    assert Versions(File(a, {}, false)) == {a} && w.mode.todo - {a.id} == {};
  }

  lemma NewIsValid(w: World, a: Task)
    requires ValidConfig(w.cfg) && MaySubmit(w, a)
    ensures ValidRecord(a, a.id, w.cfg.agent) && a.state == Running && a.times.None?
  {
    hide ValidId;
  }

  lemma StoppedIsValid(w: World, a: Task)
    requires ValidConfig(w.cfg) && ValidRecord(a, a.id, w.cfg.agent)
    ensures ValidRecord(Stopped(a, w), a.id, w.cfg.agent)
    ensures a.times.None? ==>
      Stopped(a, w).times == Some(Times(w.now, w.now + w.cfg.resultKeep, w.now + w.cfg.taskKeep))
  {
    hide ValidId, IsDigest;
  }

  // It is rebuilt, the write fails without touching the file, and its end times expire in memory.
  lemma RebuiltRun(w: World, a: Task, t: Task) returns (v: World, run: seq<World>)
    requires w.mode == Recovering({a.id}) && w.mem == map[a.id := t] && t.id == a.id && Repackaged(t)
    requires t.times == Some(Times(w.now, w.now + w.cfg.resultKeep, w.now + w.cfg.taskKeep)) && w.cfg.taskKeep > 0
    ensures |run| == 4 && IsRun(run) && run[0] == w && run[3] == v
    ensures v == w.(mode := Serving, mem := v.mem, now := w.now + w.cfg.taskKeep)
    ensures v.mem.Keys == {a.id} && v.mem[a.id].request == t.request && TaskExpired(v.mem[a.id], v.now)
  {
    hide Step, IsRun, TaskExpired;
    var r1 := RebuiltStep(w, a, t);
    var r2 := OpenedRun(r1[1], w.cfg.taskKeep);
    Joined(r1, r2);
    run := r1 + r2[1..];
    v := run[3];
    ExpiredThen(v.mem[a.id], w.now, w.cfg.resultKeep, w.cfg.taskKeep);
  }

  lemma ExpiredThen(t: Task, at: Time, resultKeep: int, taskKeep: int)
    requires t.times == Some(Times(at, at + resultKeep, at + taskKeep))
    ensures TaskExpired(t, at + taskKeep)
  {}

  lemma OpenedRun(u: World, d: nat) returns (run: seq<World>)
    requires u.mode == Recovering({})
    ensures |run| == 3 && IsRun(run) && run[0] == u && run[2] == u.(mode := Serving, now := u.now + d)
  {
    run := Then([u], Again(Open));
    run := Then(run, Tick(d));
  }

  lemma RebuiltStep(w: World, a: Task, t: Task) returns (run: seq<World>)
    requires w.mode == Recovering({a.id}) && w.mem == map[a.id := t] && t.id == a.id && Repackaged(t) && t.times.Some?
    ensures |run| == 2 && IsRun(run) && run[0] == w
    ensures var u := run[1];
      && u == w.(mem := u.mem, mode := Recovering({}))
      && u.mem.Keys == {a.id} && u.mem[a.id].request == t.request && u.mem[a.id].times == t.times
  {
    var rebuild := Again(Rebuild(a.id, t, None, false, Unchanged));
    var f := Finalize(t.(errors := true), None, w);
    assert f.request == t.request && f.times == t.times;
    assert t == t.(phase := t.phase, sources := t.sources, points := t.points, errors := t.errors);
    assert w.mode.todo - {a.id} == {};
    hide Finalize;
    assert Enabled(w, rebuild);
    var u := Next(w, rebuild);
    assert u == w.(mem := map[a.id := f], mode := Recovering({}));
    assert Step(w, u);
    hide Step, Enabled, Next;
    run := [w, u];
    TwoRun(w, u);
  }

  // Recovery's first write of the end times fails after the rename: later a second task of the
  // same request is admitted beside a record that a crash may still bring back unexpired.
  lemma RecoveryStaleRecord() returns (run: seq<World>)
    ensures IsRun(run) && Init(run[0])
    ensures var v := run[|run| - 1]; v.mode == Serving && !v.degraded && !UniqueOnDisk(v)
  {
    var w, a, b := EmptyStore(false, map[]), Asked(SampleId('a'), false, 1), Asked(SampleId('b'), false, 21);
    Starts(false, map[]);
    hide ValidId, SampleId;
    NewIsValid(w, a);
    StoppedIsValid(w, a);
    var t := Stopped(a, w);
    assert t.id == a.id && Repackaged(t) && t.request == a.request;
    hide Stopped, IsRun, Init;
    var w1, r1 := MarkedRun(w, a);
    var w2, r2 := RebuiltRun(w1, a, t);
    assert Vacant(w2, b.request) && NewTask(w2, b);
    var w3, r3 := Admit(w2, b);
    Joined(r1, r2);
    Joined(r1 + r2[1..], r3);
    run := r1 + r2[1..] + r3[1..];
    assert w3.disk[a.id] == File(t, {a}, false) && w3.disk[b.id] == File(b, {}, false);
    hide Vacant, NewTask, MaySubmit, Submitted;
    RivalVersions(w3, a, b);
  }

  lemma RivalVersions(w: World, a: Task, b: Task)
    requires a.id in w.disk && b.id in w.disk && a in Versions(w.disk[a.id]) && b in Versions(w.disk[b.id])
    requires w.disk[a.id].cur.request == w.disk[b.id].cur.request && a.id != b.id && a.times.None? && b.times.None?
    ensures !UniqueOnDisk(w)
  {
    assert MayRevive(w, a.id) && MayRevive(w, b.id);
  }

  // ---- the request table ----

  // While no request has two unexpired records, the table of a serving agent names for a request
  // no unexpired task but the one whose record is unexpired.
  lemma TableNamesIt(run: seq<World>, i: nat, id: Id)
    requires IsRun(run) && Init(run[0]) && i < |run| && UniqueOnDisk(run[i]) && MayRevive(run[i], id)
    ensures var w := run[i]; var r := w.disk[id].cur.request;
      r in w.requests ==> w.requests[r] in w.mem && (w.requests[r] == id || TaskExpired(w.mem[w.requests[r]], w.now))
  {
    var w := run[i];
    RunInv(run, i);
    TableEntry(w);
    var r := w.disk[id].cur.request;
    if r in w.requests && !TaskExpired(w.mem[w.requests[r]], w.now) {
      var j := w.requests[r];
      InvLinked(w, j);
      assert w.disk[j].cur in Versions(w.disk[j]) && Precedes(w.disk[j].cur, w.mem[j]);
      TimesRevive(w, j);
    }
    hide Inv, IsRun, Init, MayRevive;
  }

  // One read error at start: the agent serves, degraded, and does not know a task it admitted.
  lemma UnreadRecord() returns (run: seq<World>, i: nat, id: Id)
    ensures IsRun(run) && Init(run[0]) && i < |run| && Registered(run[i], id, "request")
    ensures var v := run[|run| - 1];
      v.mode == Serving && v.degraded && Registered(v, id, "request") && id !in v.mem && v.requests == map[]
  {
    id := SampleId('a');
    var w, a := EmptyStore(false, map[]), Asked(id, false, 1);
    Starts(false, map[]);
    hide ValidId, SampleId;
    var w2, r2 := Boot(w);
    var w4, r4 := Admit(w2, a);
    Joined(r2, r4);
    run, i := r2 + r4[1..], 4;
    assert w4.disk == map[id := File(a, {}, false)];
    hide IsRun, Init, MaySubmit, Submitted, Step;
    var exit := Again(Exit(w4.cfg, None, None));
    assert Enabled(w4, exit);
    run := Then(run, exit);
    var w5 := run[5];
    assert w5.disk == w4.disk && w5.mode == Loading;
    var r6 := UnreadLoad(w5, id);
    Joined(run, r6);
    run := run + r6[1..];
  }

  lemma UnreadLoad(w: World, id: Id) returns (run: seq<World>)
    requires w.mode == Loading && w.disk.Keys == {id}
    ensures |run| == 3 && IsRun(run) && run[0] == w
    ensures run[2] == w.(mode := Serving, mem := map[], requests := map[], degraded := true)
  {
    hide ValidRecord, TaskExpired;
    var load := Load({id}, map[], true);
    assert Readable(w, {id}) == map[];
    assert forall i, j :: !Rivals(map[], w.now, i, j);
    assert Enabled(w, Again(load));
    OneRun(w);
    run := Then([w], Again(load));
    assert run[1].mode == Recovering({});
    run := Then(run, Again(Open));
  }

  lemma TableEntry(w: World)
    requires Inv(w)
    ensures forall r :: r in w.requests ==> w.requests[r] in w.mem && w.mem[w.requests[r]].request == r
  {}

  lemma TimesRevive(w: World, j: Id)
    requires j in w.mem && Linked(w, j) && !TaskExpired(w.mem[j], w.now)
    ensures MayRevive(w, j)
  {
    assert w.disk[j].cur in Versions(w.disk[j]) && Precedes(w.disk[j].cur, w.mem[j]);
    assert !TaskExpired(w.disk[j].cur, w.now);
  }
}
