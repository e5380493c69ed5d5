// Every action keeps the records on disk and in memory sound, linked and backed.
module RecordSteps {
  import opened Records
  import opened AgentWorld
  import opened AgentInvariant

  ghost predicate RecordInv(w: World) { DiskInv(w) && MemInv(w) }

  lemma SameRecords(w: World, v: World)
    requires RecordInv(w)
    requires v.cfg.agent == w.cfg.agent && v.mem == w.mem && v.disk == w.disk && v.removed == w.removed &&
      v.issued == w.issued && w.now <= v.now
    requires Grows(w.objects, v.objects)
    ensures RecordInv(v)
  {
    SoundGrows(w, v);
    hide Sound;
    forall j | j in v.disk ensures FileInv(v, j) { assert FileInv(w, j); }
    forall j | j in v.mem ensures TaskInv(v, j) { assert TaskInv(w, j); }
  }

  lemma SoundGrows(w: World, v: World)
    requires v.cfg.agent == w.cfg.agent && Grows(w.objects, v.objects)
    ensures forall t, id :: Sound(t, id, w.cfg.agent, w.objects) ==> Sound(t, id, v.cfg.agent, v.objects)
  {
    hide ValidRecord, Staged;
  }

  lemma RecordedKeeps(w: World, v: World, id: Id, t: Task, m: Task, o: Outcome)
    requires RecordInv(w) && id in w.mem
    requires v.cfg == w.cfg && v.objects == w.objects && v.removed == w.removed && v.issued == w.issued &&
      v.now == w.now
    requires v.disk == Persist(w.disk, id, t, o) && v.mem == w.mem[id := m]
    requires Sound(t, id, w.cfg.agent, w.objects) && Sound(m, id, w.cfg.agent, w.objects)
    requires Precedes(w.mem[id], t) && Precedes(t, m)
    requires IsUploaded(m) ==> IsUploaded(t) && (o == Saved || IsUploaded(w.mem[id]))
    ensures RecordInv(v)
  {
    hide Sound, IsUploaded, Precedes;
    assert TaskInv(w, id);
    MayRewrite(w, id, t, m, o);
    WriteKeeps(w, v, id, t, m, o);
  }

  // ---- the upload worker's moves ----

  lemma MovesGrow(w: World, m: Move)
    requires UploadInv(w) && MayMove(w, m)
    ensures Grows(w.objects, ObjectsAfter(w, m))
  {}

  predicate Sanctioned(w: World, id: Id, c: Change) {
    Tracked(w, id) ==>
      && Sound(Changed(w, id, c), id, w.cfg.agent, w.objects)
      && (IsUploaded(w.mem[id]) ==> IsUploaded(Changed(w, id, c)))
  }

  lemma MovesSanctioned(w: World, m: Move)
    requires RecordInv(w) && UploadInv(w) && MayMove(w, m) && WriteOf(w, m).StateWrite?
    ensures Sanctioned(w, w.upload.id, WriteOf(w, m).c)
  {
    hide ValidId, IsDigest, RecordInv;
    if Tracked(w, w.upload.id) { SoundInMemory(w, w.upload.id); }
  }

  lemma SoundInMemory(w: World, id: Id)
    requires RecordInv(w) && id in w.mem
    ensures Sound(w.mem[id], id, w.cfg.agent, w.objects)
  {
    assert TaskInv(w, id);
  }

  lemma NotStoredSound(w: World, id: Id)
    requires Tracked(w, id) && Sound(w.mem[id], id, w.cfg.agent, w.objects)
    ensures Sound(NotStored(w, id), id, w.cfg.agent, w.objects)
  {
    hide ValidId, IsDigest;
  }

  // A change leaves request, end times and object as they are, and so does a change not stored.
  lemma ChangedKeeps(w: World, id: Id, c: Change)
    requires Tracked(w, id)
    ensures var t, m := Changed(w, id, c), NotStored(w, id);
      && Precedes(w.mem[id], t) && Precedes(t, m) && Precedes(t, t)
      && t.request == m.request == w.mem[id].request && t.times == m.times == w.mem[id].times
      && (IsUploaded(m) <==> IsUploaded(w.mem[id]))
  {}

  lemma StoreKeepsRecords(w: World, id: Id, c: Change, o: Outcome)
    requires RecordInv(w) && Sanctioned(w, id, c)
    ensures RecordInv(Store(w, id, c, o))
  {
    if Tracked(w, id) {
      hide Sound, Changed, NotStored, Precedes, IsUploaded, Apply, Persist;
      assert TaskInv(w, id);
      NotStoredSound(w, id);
      ChangedKeeps(w, id, c);
      var t := Changed(w, id, c);
      var m := if o == Saved then t else NotStored(w, id);
      RecordedKeeps(w, Store(w, id, c, o), id, t, m, o);
    }
  }

  lemma MovedFields(w: World, m: Move)
    requires MayMove(w, m)
    ensures var v := Moved(w, m); var x := Written(w, m);
      && v.cfg == x.cfg == w.cfg && v.mem == x.mem && v.disk == x.disk && v.removed == x.removed &&
          v.issued == x.issued && v.now == x.now == w.now
      && v.objects == ObjectsAfter(w, m) && x.objects == w.objects
    ensures WriteOf(w, m).NoWrite? ==> Written(w, m) == w
    ensures WriteOf(w, m).StateWrite? ==> Written(w, m) == Store(w, w.upload.id, WriteOf(w, m).c, WriteOf(w, m).o)
  {
    hide MayMove, WriteOf, ObjectsAfter, LiveAfter, LostAfter, UploadAfter, Tracked, Persist, Changed, NotStored;
  }

  lemma MoveKeepsRecords(w: World, m: Move)
    requires RecordInv(w) && UploadInv(w) && MayMove(w, m)
    ensures RecordInv(Moved(w, m)) && Grows(w.objects, Moved(w, m).objects)
  {
    MovesGrow(w, m);
    MovedFields(w, m);
    if WriteOf(w, m).StateWrite? { MovesSanctioned(w, m); }
    hide RecordInv, UploadInv, MayMove, Moved, Written, ObjectsAfter, WriteOf, Store, Sanctioned, Grows;
    var wr := WriteOf(w, m);
    if wr.StateWrite? { StoreKeepsRecords(w, w.upload.id, wr.c, wr.o); }
    SameRecords(Written(w, m), Moved(w, m));
  }

  // ---- service ----

  lemma FinalizedSound(t: Task, id: Id, built: Option<Archive>, w: World)
    requires Sound(t, id, w.cfg.agent, w.objects) && t.phase != Finished && GoodArchive(built)
    ensures var f := Finalize(t, built, w);
      && Sound(f, id, w.cfg.agent, w.objects) && Sound(Damaged(f), id, w.cfg.agent, w.objects)
      && Precedes(t, f) && Precedes(f, Damaged(f)) && Precedes(f, f) && !IsUploaded(f)
      && f.phase == Finished && f.state != Running && UploadOf(f) == UploadOf(t)
  {
    hide ValidId, IsDigest;
  }

  lemma SubmitKeepsRecords(w: World, t: Task, o: Outcome)
    requires RecordInv(w) && ValidConfig(w.cfg) && MaySubmit(w, t)
    ensures RecordInv(Submitted(w, t, o))
  {
    var v := Submitted(w, t, o);
    NewRecordHolds(w, t, o);
    forall j | j in v.disk && j != t.id ensures FileInv(v, j) { assert FileInv(w, j); }
    forall j | j in v.mem && j != t.id ensures TaskInv(v, j) { assert TaskInv(w, j); }
    hide Sound, MaySubmit;
  }

  lemma NewRecordHolds(w: World, t: Task, o: Outcome)
    requires ValidConfig(w.cfg) && MaySubmit(w, t)
    ensures var v := Submitted(w, t, o);
      t.id in v.issued && (t.id in v.disk ==> FileInv(v, t.id)) && (t.id in v.mem ==> TaskInv(v, t.id))
  {
    hide ValidId, Vacant;
  }

  lemma EvictedKeepsRecords(w: World, id: Id, r: Removal)
    requires RecordInv(w) && id in w.mem && TaskExpired(w.mem[id], w.now)
    ensures RecordInv(Evicted(w, id, r))
  {
    var v := Evicted(w, id, r);
    forall j | j in v.disk ensures FileInv(v, j) { assert FileInv(w, j); }
    forall j | j in v.mem ensures TaskInv(v, j) { assert TaskInv(w, j); }
  }

  lemma SampledKeepsRecords(w: World, s: Service)
    requires RecordInv(w) && MayServe(w, s) && (s.Publish? || s.Finish?)
    ensures RecordInv(Served(w, s))
  {
    assert TaskInv(w, s.t.id);
    if s.Publish? {
      RecordedKeeps(w, Served(w, s), s.t.id, s.t, s.t, s.o);
    } else {
      FinalizedSound(s.t, s.t.id, s.built, w);
      var f := Finalize(s.t, s.built, w);
      hide Sound;
      RecordedKeeps(w, Served(w, s), s.t.id, f, f, s.o);
    }
  }

  lemma DamagedKeepsRecords(w: World, v: World, id: Id, o: Outcome)
    requires RecordInv(w) && id in w.mem && v == Recorded(w, id, Damaged(w.mem[id]), Damaged(w.mem[id]),
      o).(mode := v.mode, degraded := v.degraded)
    ensures RecordInv(v)
  {
    assert TaskInv(w, id);
    RecordedKeeps(w, v, id, Damaged(w.mem[id]), Damaged(w.mem[id]), o);
  }

  lemma ExpireKeepsRecords(w: World, id: Id, o: Outcome)
    requires RecordInv(w) && Overdue(w, id)
    ensures RecordInv(Served(w, Service.Expire(id, o)))
  {
    assert TaskInv(w, id);
    var t := Lapsed(w.mem[id]);
    RecordedKeeps(w, Served(w, Service.Expire(id, o)), id, t, if o == Saved then t else w.mem[id], o);
  }

  lemma DropKeepsRecords(w: World, id: Id)
    requires RecordInv(w) && id !in w.mem
    ensures RecordInv(Served(w, DropDir(id)))
  {
    hide Sound;
    var v := Served(w, DropDir(id));
    forall j | j in v.disk ensures FileInv(v, j) { assert FileInv(w, j); }
    forall j | j in v.mem ensures TaskInv(v, j) { assert TaskInv(w, j); }
  }

  lemma ServeKeepsRecords(w: World, s: Service)
    requires RecordInv(w) && ValidConfig(w.cfg) && MayServe(w, s)
    ensures RecordInv(Served(w, s)) && Served(w, s).objects == w.objects
  {
    hide DiskInv, MemInv;
    match s
    case Submit(t, o) => SubmitKeepsRecords(w, t, o);
    case Publish(t, o) => SampledKeepsRecords(w, s);
    case Finish(t, built, o) => SampledKeepsRecords(w, s);
    case Corrupt(id, o) => DamagedKeepsRecords(w, Served(w, s), id, o);
    case Cleanup(id, r) => EvictedKeepsRecords(w, id, r);
    case DropDir(id) => DropKeepsRecords(w, id);
    case Expire(id, o) => ExpireKeepsRecords(w, id, o);
    case _ => SameRecords(w, Served(w, s));
  }

  // ---- restart ----

  lemma ResetGrows(w: World, r: Restart)
    requires UploadInv(w) && (r.Exit? || r.Crash?)
    ensures Grows(w.objects, Restarted(w, r).objects)
  {}

  lemma ResetKeepsRecords(w: World, r: Restart)
    requires RecordInv(w) && UploadInv(w) && (r.Exit? || r.Crash?) && MayRestart(w, r)
    ensures RecordInv(Restarted(w, r)) && Grows(w.objects, Restarted(w, r).objects)
  {
    ResetGrows(w, r);
    var v := Restarted(w, r);
    SoundGrows(w, v);
    hide Sound, UploadInv;
    forall j | j in v.disk ensures FileInv(v, j) {
      assert FileInv(w, j);
      if r.Crash? { assert Versions(v.disk[j]) == {r.keep[j]}; SelfPrecedes(r.keep[j]); }
    }
  }

  lemma SelfPrecedes(t: Task)
    ensures Precedes(t, t)
  {}

  lemma LoadKeepsRecords(w: World, r: Restart)
    requires RecordInv(w) && r.Load? && MayRestart(w, r)
    ensures RecordInv(Restarted(w, r)) && Restarted(w, r).objects == w.objects
  {
    hide Sound, Precedes, Owners, Ambiguous;
    var v := Restarted(w, r);
    forall j | j in v.disk ensures FileInv(v, j) { assert FileInv(w, j); }
    forall j | j in v.mem ensures TaskInv(v, j) { assert FileInv(w, j); }
  }

  lemma MarkKeepsRecords(w: World, id: Id, o: Outcome)
    requires RecordInv(w) && MayRestart(w, Mark(id, o))
    ensures RecordInv(Restarted(w, Mark(id, o))) && Restarted(w, Mark(id, o)).objects == w.objects
  {
    hide Owners, Survives, Ambiguous, Readable;
    var t := Stopped(w.mem[id], w);
    StoppedSound(w, id);
    hide Sound, Stopped;
    RecordedKeeps(w, Restarted(w, Mark(id, o)), id, t, t, o);
  }

  lemma StoppedSound(w: World, id: Id)
    requires RecordInv(w) && id in w.mem && w.mem[id].state == Running
    ensures var t := Stopped(w.mem[id], w);
      && Sound(t, id, w.cfg.agent, w.objects) && Precedes(w.mem[id], t) && Precedes(t, t) && !IsUploaded(t)
  {
    SoundInMemory(w, id);
    hide RecordInv, ValidId, IsDigest, Linked;
  }

  lemma RebuildKeepsRecords(w: World, r: Restart)
    requires RecordInv(w) && r.Rebuild? && MayRestart(w, r)
    ensures RecordInv(Restarted(w, r)) && Restarted(w, r).objects == w.objects
  {
    assert TaskInv(w, r.id);
    var t := r.t.(errors := true);
    FinalizedSound(t, r.id, r.built, w);
    hide Sound, Finalized;
    var f := Finalize(t, r.built, w);
    RecordedKeeps(w, Restarted(w, r), r.id, f, f, r.o);
  }

  lemma RecheckKeepsRecords(w: World, id: Id, intact: bool, o: Outcome)
    requires RecordInv(w) && id in w.mem
    ensures RecordInv(Rechecked(w, id, intact, o)) && Rechecked(w, id, intact, o).objects == w.objects
  {
    hide RecordInv, Persist;
    if intact || !w.mem[id].available || ResultExpired(w.mem[id], w.now) {
      SameRecords(w, w.(mode := Done(w, id)));
    } else {
      DamagedKeepsRecords(w, Rechecked(w, id, intact, o), id, o);
    }
  }

  lemma RestartKeepsRecords(w: World, r: Restart)
    requires RecordInv(w) && UploadInv(w) && MayRestart(w, r)
    ensures RecordInv(Restarted(w, r)) && Grows(w.objects, Restarted(w, r).objects)
  {
    hide RecordInv, UploadInv, Persist, Finalize, Readable, Survives, Owners, Rechecked, Reset, Recorded;
    match r
    case Exit(_, _, _) => ResetKeepsRecords(w, r);
    case Crash(_, _, _, _) => ResetKeepsRecords(w, r);
    case Load(_, _, _) => LoadKeepsRecords(w, r);
    case Mark(id, o) => MarkKeepsRecords(w, id, o);
    case Rebuild(_, _, _, _, _) => RebuildKeepsRecords(w, r);
    case Recheck(id, intact, o) => RecheckKeepsRecords(w, id, intact, o);
    case Open => SameRecords(w, Restarted(w, r));
  }
}
