// Every action keeps what is known at the upload worker's position.
module UploadSteps {
  import opened Records
  import opened AgentWorld
  import opened AgentInvariant

  predicate Early(m: Move) { m.Drop? || m.AbortStale? || m.CleanAbort? || m.GiveUp? }

  lemma EarlyMoveKeepsUpload(w: World, m: Move)
    requires UploadInv(w) && MayMove(w, m) && Early(m)
    ensures UploadInv(Moved(w, m))
  {
    assert Written(w, m) == w && ObjectsAfter(w, m) == w.objects;
    hide Store, Written, LostAfter, WriteOf, ObjectsAfter;
  }

  lemma PutMoveKeepsUpload(w: World, m: Move)
    requires UploadInv(w) && MayMove(w, m) && WriteOf(w, m).NoWrite? && !m.Inspect? && !Early(m) && !m.Check? &&
      !m.CheckAgain?
    ensures UploadInv(Moved(w, m))
  {
    assert Written(w, m) == w;
    hide Store, Written, LostAfter, WriteOf;
  }

  lemma CheckKeepsUpload(w: World, m: Move)
    requires UploadInv(w) && MayMove(w, m) && (m.Check? || m.CheckAgain?)
    ensures UploadInv(Moved(w, m))
  {}

  lemma InspectKeepsUpload(w: World, v: Verdict, o: Outcome)
    requires UploadInv(w) && w.upload.Begun?
    ensures UploadInv(Moved(w, Inspect(v, o)))
  {}

  lemma BeginKeepsUpload(w: World, o: Outcome)
    requires UploadInv(w) && w.upload.Chosen?
    ensures UploadInv(Moved(w, Begin(o)))
  {}

  lemma ClearKeepsUpload(w: World, o: Outcome)
    requires UploadInv(w) && w.upload.Purged?
    ensures UploadInv(Moved(w, ClearStale(o)))
  {}

  lemma CheckpointKeepsUpload(w: World, o: Outcome)
    requires UploadInv(w) && w.upload.Created?
    ensures UploadInv(Moved(w, Checkpoint(o)))
  {}

  lemma ForgetKeepsUpload(w: World, o: Outcome)
    requires UploadInv(w) && w.upload.Undone?
    ensures UploadInv(Moved(w, Forget(o)))
  {}

  lemma MoveKeepsUpload(w: World, m: Move)
    requires UploadInv(w) && MayMove(w, m)
    ensures UploadInv(Moved(w, m))
  {
    if m.Commit? || m.Retry? || m.CleanForget? { assert UploadInv(Moved(w, m)); }
    hide UploadInv, Moved;
    match m
    case Commit(_) =>
    case Retry(_, _, _) =>
    case CleanForget(_) =>
    case Begin(o) => BeginKeepsUpload(w, o);
    case Inspect(v, o) => InspectKeepsUpload(w, v, o);
    case ClearStale(o) => ClearKeepsUpload(w, o);
    case Checkpoint(o) => CheckpointKeepsUpload(w, o);
    case Forget(o) => ForgetKeepsUpload(w, o);
    case Check(_) => CheckKeepsUpload(w, m);
    case CheckAgain(_) => CheckKeepsUpload(w, m);
    case _ => if Early(m) { EarlyMoveKeepsUpload(w, m); } else { PutMoveKeepsUpload(w, m); }
  }

  // Everything the position knows carries over from w to v.
  ghost predicate CarriesOver(w: World, v: World, id: Id) {
    && (forall s :: Underway(w, id, s) ==> Underway(v, id, s))
    && (forall up :: Carries(w, id, up) ==> Carries(v, id, up))
    && (Quiet(w, id) ==> Quiet(v, id))
    && (Tried(w, id) ==> Tried(v, id))
    && (Unclaimed(w, id) ==> Unclaimed(v, id))
    && (forall s: Transfer :: (id in w.mem ==> w.mem[id].s3 == Some(s)) ==> (id in v.mem ==> v.mem[id].s3 == Some(s)))
  }

  lemma CarriedKeepsUpload(w: World, v: World)
    requires UploadInv(w) && v.upload == w.upload && v.mode == w.mode && w.issued <= v.issued
    requires v.cfg == w.cfg && v.objects == w.objects && v.owner == w.owner
    requires w.upload != Idle ==> CarriesOver(w, v, w.upload.id)
    ensures UploadInv(v)
  {
    hide Underway, Carries, Quiet, Tried, Unclaimed;
  }

  // A write by anyone else to the task under transfer leaves its transfer part alone.
  lemma RecordedCarries(w: World, v: World, id: Id, t: Task, m: Task, o: Outcome)
    requires id in w.mem && m.s3 == w.mem[id].s3 == t.s3
    requires v == Recorded(w, id, t, m, o)
    ensures CarriesOver(w, v, id)
  {
    forall up | Carries(w, id, up) ensures Carries(v, id, up) {
      if id in v.disk { forall x | x in Versions(v.disk[id]) ensures UploadOf(x) == up {} }
    }
  }

  // What is untouched, or gone, carries over.
  lemma ElsewhereCarries(w: World, v: World, id: Id)
    requires v.cfg == w.cfg && v.live == w.live
    requires id in v.mem ==> id in w.mem && v.mem[id] == w.mem[id]
    requires id in v.disk ==> id in w.disk && v.disk[id] == w.disk[id]
    ensures CarriesOver(w, v, id)
  {}

  // Nobody but the worker writes a record that still waits for its result while it is under transfer.
  lemma WaitingNotUnderway(w: World, id: Id)
    requires UploadInv(w) && w.upload != Idle && Tracked(w, id) && w.mem[id].s3.value.state == WaitingResult
    ensures w.upload.id != id
  {}

  lemma RecordedKeepsUpload(w: World, v: World, id: Id, t: Task, m: Task, o: Outcome)
    requires UploadInv(w) && id in w.mem && v == Recorded(w, id, t, m, o)
    requires m.s3 == w.mem[id].s3 == t.s3 || (Tracked(w, id) && w.mem[id].s3.value.state == WaitingResult)
    ensures UploadInv(v)
  {
    if w.upload != Idle {
      if w.upload.id == id {
        if Tracked(w, id) && w.mem[id].s3.value.state == WaitingResult { WaitingNotUnderway(w, id); }
        hide UploadInv;
        RecordedCarries(w, v, id, t, m, o);
      } else {
        ElsewhereCarries(w, v, w.upload.id);
      }
    }
    hide UploadInv, CarriesOver;
    CarriedKeepsUpload(w, v);
  }

  lemma SelectedFacts(w: World, id: Id)
    requires TaskInv0(w, id) && AdmissionInv(w) && w.mode == Serving && Eligible(w, id)
    ensures Tracked(w, id)
    ensures var s := w.mem[id].s3.value;
      s.state != WaitingResult
      && if Terminal(s.state) then s.upload.Some? else s.key == Some(ObjectKey(s.target, w.cfg.agent, id, s.sha))
  {
    hide Linked, ValidId, IsDigest;
    assert w.mem[id].phase == Finished;
  }

  ghost predicate TaskInv0(w: World, id: Id) { id in w.mem && TaskInv(w, id) }

  lemma SelectedKeeps(w: World, id: Id)
    requires Tracked(w, id) && id in w.issued && w.mode == Serving
    requires var s := w.mem[id].s3.value;
      s.state != WaitingResult
      && if Terminal(s.state) then s.upload.Some? else s.key == Some(ObjectKey(s.target, w.cfg.agent, id, s.sha))
    ensures UploadInv(Served(w, Select(id)))
  {}

  lemma EligibleTracked(w: World, id: Id)
    requires Eligible(w, id)
    ensures Tracked(w, id)
  {}

  lemma SelectKeepsUpload(w: World, id: Id)
    requires MemInv(w) && AdmissionInv(w) && w.mode == Serving && MaySelect(w, id)
    ensures UploadInv(Served(w, Select(id)))
  {
    hide AdmissionInv, Eligible, UploadInv, Served;
    EligibleTracked(w, id);
    assert TaskInv(w, id);
    SelectedFacts(w, id);
    SelectedKeeps(w, id);
  }

  lemma FinishKeepsUpload(w: World, s: Service)
    requires UploadInv(w) && MemInv(w) && s.Finish? && MayServe(w, s)
    ensures UploadInv(Served(w, s))
  {
    assert TaskInv(w, s.t.id);
    var f := Finalize(s.t, s.built, w);
    assert s.t.s3.None? ==> f.s3 == None;
    hide UploadInv, MemInv, Finalize, Sound, Linked;
    RecordedKeepsUpload(w, Served(w, s), s.t.id, f, f, s.o);
  }

  predicate Aside(s: Service) { s.TakeJob? || s.Release? || s.Submit? || s.Cleanup? || s.DropDir? }

  lemma AsideCarries(w: World, s: Service, id: Id)
    requires MayServe(w, s) && Aside(s) && id in w.issued
    ensures CarriesOver(w, Served(w, s), id)
  {
    var v := Served(w, s);
    AsideSame(w, s);
    if s.Submit? {
      assert s.t.id != id;
      hide MayServe, Served;
      ElsewhereCarries(w, v, id);
    } else {
      assert v.live == w.live;
      assert v.mem.Keys <= w.mem.Keys && v.disk.Keys <= w.disk.Keys;
      ElsewhereCarries(w, v, id);
    }
  }

  ghost predicate SameAround(w: World, v: World) {
    v.upload == w.upload && v.mode == w.mode && w.issued <= v.issued && v.cfg == w.cfg && v.objects == w.objects &&
        v.owner == w.owner
  }

  lemma SubmitSame(w: World, t: Task, o: Outcome)
    ensures var v := Submitted(w, t, o);
      SameAround(w, v) && v.live == w.live && v.mem - {t.id} == w.mem - {t.id} && v.disk - {t.id} == w.disk - {t.id}
  {}

  lemma EvictedSame(w: World, id: Id, r: Removal)
    requires id in w.mem
    ensures var v := Evicted(w, id, r); SameAround(w, v) && v.live == w.live
  {
    hide OwnedBy, WithoutRequest;
  }

  lemma AsideSame(w: World, s: Service)
    requires Aside(s)
    ensures var v := Served(w, s); SameAround(w, v) && v.live == w.live
    ensures s.Submit? ==> var v := Served(w, s);
      && v.mem - {s.t.id} == w.mem - {s.t.id} && v.disk - {s.t.id} == w.disk - {s.t.id}
  {
    hide Submitted, Evicted, OwnedBy;
    match s
    case Submit(t, o) => SubmitSame(w, t, o);
    case TakeJob =>
    case Release =>
    case Cleanup(id, r) => if id in w.mem { EvictedSame(w, id, r); }
    case DropDir(id) =>
  }

  lemma AsideKeepsUpload(w: World, s: Service)
    requires UploadInv(w) && MayServe(w, s) && Aside(s)
    ensures UploadInv(Served(w, s))
  {
    AsideSame(w, s);
    if w.upload != Idle { AsideCarries(w, s, w.upload.id); }
    hide UploadInv, CarriesOver, MayServe;
    CarriedKeepsUpload(w, Served(w, s));
  }

  lemma ServeKeepsUpload(w: World, s: Service)
    requires UploadInv(w) && MemInv(w) && AdmissionInv(w) && MayServe(w, s)
    ensures UploadInv(Served(w, s))
  {
    if s.Expire? { assert UploadInv(Served(w, s)); }
    hide UploadInv, MemInv, AdmissionInv, MaySubmit, Eligible, Overdue;
    match s
    case Publish(t, o) => RecordedKeepsUpload(w, Served(w, s), t.id, t, t, o);
    case Finish(_, _, _) => FinishKeepsUpload(w, s);
    case Corrupt(id, o) => RecordedKeepsUpload(w, Served(w, s), id, Damaged(w.mem[id]), Damaged(w.mem[id]), o);
    case Select(id) => SelectKeepsUpload(w, id);
    case Expire(_, _) =>
    case TakeJob => AsideKeepsUpload(w, s);
    case Release => AsideKeepsUpload(w, s);
    case Submit(_, _) => AsideKeepsUpload(w, s);
    case Cleanup(_, _) => AsideKeepsUpload(w, s);
    case DropDir(_) => AsideKeepsUpload(w, s);
  }
}
