// Every action keeps account of the multipart uploads alive on the remote store:
// recorded, in flight, or given up as lost.
module LiveSteps {
  import opened Records
  import opened AgentWorld
  import opened AgentInvariant

  // The id is still held when its task's record is rewritten with the same id.
  lemma RecordedHolds(w: World, v: World, id: Id, t: Task, m: Task, o: Outcome, j: Id, u: string)
    requires Holds(w, j, u) && id in w.mem
    requires v.disk == Persist(w.disk, id, t, o) && v.mem == w.mem[id := m]
    requires j == id ==> UploadOf(t) == UploadOf(m) == UploadOf(w.mem[id])
    ensures Holds(v, j, u)
  {
    if j == id {
      forall x | x in Versions(v.disk[j]) ensures UploadOf(x) == Some(u) {}
    }
  }

  predicate KeepsUploadId(c: Change) { c.ToUploading? || c.ToUnavailable? || c.ToRetry? }

  lemma StoreHolds(w: World, id: Id, c: Change, o: Outcome, j: Id, u: string)
    requires Holds(w, j, u) && u in w.live && (KeepsUploadId(c) || Quiet(w, id))
    ensures Holds(Store(w, id, c, o), j, u)
  {
    if Tracked(w, id) {
      var m := if o == Saved then Changed(w, id, c) else NotStored(w, id);
      RecordedHolds(w, Store(w, id, c, o), id, Changed(w, id, c), m, o, j, u);
    }
  }

  // Whoever clears or replaces the id in the record has nothing alive there.
  lemma WritesQuiet(w: World, m: Move)
    requires UploadInv(w) && MayMove(w, m) && WriteOf(w, m).StateWrite?
    ensures KeepsUploadId(WriteOf(w, m).c) || Quiet(w, w.upload.id)
  {}

  lemma WrittenHolds(w: World, m: Move, j: Id, u: string)
    requires UploadInv(w) && MayMove(w, m) && Holds(w, j, u) && u in w.live
    ensures Holds(Written(w, m), j, u)
  {
    var wr := WriteOf(w, m);
    if wr.StateWrite? {
      WritesQuiet(w, m);
      hide UploadInv, MayMove, WriteOf, Holds, Store;
      StoreHolds(w, w.upload.id, wr.c, wr.o, j, u);
    }
  }

  // A saved checkpoint puts the new id into the record.
  lemma CheckpointHolds(w: World, o: Outcome)
    requires w.upload.Created? && StoreOk(w, w.upload.id, o)
    ensures Holds(Moved(w, Checkpoint(o)), w.upload.id, w.upload.up)
  {}

  lemma LiveAfterMove(w: World, m: Move, u: string)
    requires MayMove(w, m) && u in LiveAfter(w, m)
    ensures u in w.live || (m.Create? && u == m.up && (u in LostAfter(w, m) || u in CutOff(UploadAfter(w, m))))
    ensures InFlight(w, u) ==>
      || u in LostAfter(w, m) || u in CutOff(UploadAfter(w, m))
      || (m.Checkpoint? && StoreOk(w, w.upload.id, m.o) && u == w.upload.up)
    ensures w.lost <= LostAfter(w, m)
  {
    hide StoreOk;
  }

  lemma MoveKeepsLive(w: World, m: Move)
    requires LiveInv(w) && UploadInv(w) && MayMove(w, m)
    ensures LiveInv(Moved(w, m))
  {
    var v := Moved(w, m);
    assert v.issued == w.issued by { hide MayMove, WriteOf, UploadAfter, LiveAfter, LostAfter, ObjectsAfter, LiveInv,
      UploadInv; }
    forall u | u in v.live
      ensures u in v.owner && (u in v.lost || InFlight(v, u) || Holds(v, v.owner[u], u))
    {
      LiveAfterMove(w, m, u);
      if u in w.live {
        OneLiveMove(w, m, u);
      }
    }
  }

  lemma OneLiveMove(w: World, m: Move, u: string)
    requires LiveInv(w) && UploadInv(w) && MayMove(w, m) && u in w.live && u in LiveAfter(w, m)
    ensures var v := Moved(w, m); u in v.owner && (u in v.lost || InFlight(v, u) || Holds(v, v.owner[u], u))
  {
    var v := Moved(w, m);
    LiveAfterMove(w, m, u);
    assert u in w.owner && v.owner[u] == w.owner[u] by {
      hide WriteOf, UploadAfter, LiveAfter, LostAfter, ObjectsAfter, UploadInv;
    }
    if u !in w.lost {
      if InFlight(w, u) {
        if m.Checkpoint? && StoreOk(w, w.upload.id, m.o) { CheckpointHolds(w, m.o); }
      } else {
        WrittenHolds(w, m, w.owner[u], u);
        assert Holds(v, w.owner[u], u) by { hide LiveInv, UploadInv, MayMove, WriteOf, UploadAfter, LiveAfter,
          LostAfter, ObjectsAfter; }
      }
    }
  }

  lemma RecordedKeepsLive(w: World, v: World, id: Id, t: Task, m: Task, o: Outcome)
    requires LiveInv(w) && id in w.mem
    requires v.disk == Persist(w.disk, id, t, o) && v.mem == w.mem[id := m]
    requires v.live == w.live && v.owner == w.owner && v.lost == w.lost && v.upload == w.upload && v.issued == w.issued
    requires UploadOf(t) == UploadOf(m) == UploadOf(w.mem[id])
    ensures LiveInv(v)
  {
    forall u | u in v.live && !(u in v.lost || InFlight(v, u))
      ensures Holds(v, v.owner[u], u)
    {
      RecordedHolds(w, v, id, t, m, o, w.owner[u], u);
    }
  }

  lemma SameLive(w: World, v: World)
    requires LiveInv(w)
    requires v.disk == w.disk && v.mem == w.mem && v.issued == w.issued && v.upload == w.upload
    requires v.live == w.live && v.owner == w.owner && v.lost == w.lost
    ensures LiveInv(v)
  {
    forall u | u in v.live && !(u in v.lost || InFlight(v, u)) ensures Holds(v, v.owner[u], u) {
      assert Holds(w, w.owner[u], u);
    }
  }

  lemma FinalizeKeepsId(t: Task, built: Option<Archive>, w: World)
    ensures UploadOf(Finalize(t, built, w)) == UploadOf(t)
  {}

  lemma EvictedKeepsLive(w: World, id: Id, r: Removal)
    requires LiveInv(w) && id in w.mem
    ensures LiveInv(Evicted(w, id, r))
  {
    var v := Evicted(w, id, r);
    forall u | u in v.live && !(u in v.lost || InFlight(v, u))
      ensures Holds(v, v.owner[u], u)
    {
      assert Holds(w, w.owner[u], u) && w.owner[u] != id;
    }
  }

  lemma SubmitKeepsLive(w: World, t: Task, o: Outcome)
    requires LiveInv(w) && MaySubmit(w, t)
    ensures LiveInv(Submitted(w, t, o))
  {
    var v := Submitted(w, t, o);
    hide ValidTask, Vacant;
    forall u | u in v.live && !(u in v.lost || InFlight(v, u))
      ensures Holds(v, v.owner[u], u)
    {
      assert Holds(w, w.owner[u], u) && w.owner[u] != t.id;
    }
  }

  lemma DropKeepsLive(w: World, id: Id)
    requires LiveInv(w)
    ensures LiveInv(Served(w, DropDir(id)))
  {
    var v := Served(w, DropDir(id));
    forall u | u in v.live && !(u in v.lost || InFlight(v, u))
      ensures Holds(v, v.owner[u], u)
    {
      assert Holds(w, w.owner[u], u) && w.owner[u] != id;
    }
  }

  lemma ExpireKeepsLive(w: World, id: Id, o: Outcome)
    requires LiveInv(w) && Overdue(w, id)
    ensures LiveInv(Served(w, Service.Expire(id, o)))
  {
    var t := Lapsed(w.mem[id]);
    RecordedKeepsLive(w, Served(w, Service.Expire(id, o)), id, t, if o == Saved then t else w.mem[id], o);
  }

  lemma SelectKeepsLive(w: World, id: Id)
    requires LiveInv(w) && w.upload == Idle
    ensures LiveInv(Served(w, Select(id)))
  {
    var v := Served(w, Select(id));
    forall u | u in v.live && !(u in v.lost || InFlight(v, u))
      ensures Holds(v, v.owner[u], u)
    {
      assert Holds(w, w.owner[u], u);
    }
  }

  lemma ServeKeepsLive(w: World, s: Service)
    requires LiveInv(w) && MayServe(w, s)
    ensures LiveInv(Served(w, s))
  {
    if s.Finish? { FinalizeKeepsId(s.t, s.built, w); }
    hide LiveInv, MaySubmit, Finalize, Persist, Eligible, Overdue;
    match s
    case Submit(t, o) => SubmitKeepsLive(w, t, o);
    case TakeJob => SameLive(w, Served(w, s));
    case Publish(t, o) => RecordedKeepsLive(w, Served(w, s), t.id, t, t, o);
    case Finish(t, built, o) =>
      var f := Finalize(t, built, w);
      RecordedKeepsLive(w, Served(w, s), t.id, f, f, o);
    case Release => SameLive(w, Served(w, s));
    case Corrupt(id, o) => RecordedKeepsLive(w, Served(w, s), id, Damaged(w.mem[id]), Damaged(w.mem[id]), o);
    case Cleanup(id, r) => EvictedKeepsLive(w, id, r);
    case DropDir(id) => DropKeepsLive(w, id);
    case Expire(id, o) => ExpireKeepsLive(w, id, o);
    case Select(id) => SelectKeepsLive(w, id);
  }

  lemma ResetKeepsLive(w: World, r: Restart)
    requires LiveInv(w) && (w.upload != Idle ==> w.upload.id in w.issued) && (r.Exit? || r.Crash?) && MayRestart(w, r)
    ensures LiveInv(Restarted(w, r))
  {
    var v := Restarted(w, r);
    forall u | u in v.live && u !in v.lost
      ensures u in v.owner && Holds(v, v.owner[u], u)
    {
      var j := w.owner[u];
      assert Holds(w, j, u);
      assert j in v.disk && (r.Crash? ==> Versions(v.disk[j]) == {r.keep[j]});
    }
  }

  lemma LoadKeepsLive(w: World, unread: set<Id>, owners: map<string, Id>, damage: bool)
    requires LiveInv(w)
    ensures LiveInv(Restarted(w, Load(unread, owners, damage)))
  {
    var v := Restarted(w, Load(unread, owners, damage));
    forall u | u in v.live && !(u in v.lost || InFlight(v, u))
      ensures Holds(v, v.owner[u], u)
    {
      assert Holds(w, w.owner[u], u);
    }
  }

  lemma RestartKeepsLive(w: World, r: Restart)
    requires LiveInv(w) && UploadInv(w) && MayRestart(w, r)
    ensures LiveInv(Restarted(w, r))
  {
    if r.Rebuild? { FinalizeKeepsId(r.t.(errors := true), r.built, w); }
    assert w.upload != Idle ==> w.upload.id in w.issued;
    hide LiveInv, UploadInv, Finalize, Persist;
    match r
    case Exit(_, _, _) => ResetKeepsLive(w, r);
    case Crash(_, _, _, _) => ResetKeepsLive(w, r);
    case Load(unread, owners, damage) => LoadKeepsLive(w, unread, owners, damage);
    case Mark(id, o) => RecordedKeepsLive(w, Restarted(w, r), id, Stopped(w.mem[id], w), Stopped(w.mem[id], w), o);
    case Rebuild(id, t, built, _, o) =>
      var f := Finalize(t.(errors := true), built, w);
      RecordedKeepsLive(w, Restarted(w, r), id, f, f, o);
    case Recheck(id, intact, o) => RecheckKeepsLive(w, id, intact, o);
    case Open => SameLive(w, Restarted(w, r));
  }

  lemma RecheckKeepsLive(w: World, id: Id, intact: bool, o: Outcome)
    requires LiveInv(w) && id in w.mem
    ensures LiveInv(Rechecked(w, id, intact, o))
  {
    var t := w.mem[id];
    hide LiveInv, Persist;
    if intact || !t.available || ResultExpired(t, w.now) {
      SameLive(w, w.(mode := Done(w, id)));
    } else {
      RecordedKeepsLive(w, Rechecked(w, id, intact, o), id, Damaged(t), Damaged(t), o);
    }
  }
}
