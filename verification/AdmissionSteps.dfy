// Every action keeps the admission invariant: one active task, the request table,
// nothing left half-recovered.
module AdmissionSteps {
  import opened Records
  import opened AgentWorld
  import opened AgentInvariant

  // What admission needs to know about a record in memory.
  predicate Regular(t: Task, id: Id) {
    t.id == id && (t.state == Running <==> t.times.None?) && Staged(t)
  }

  ghost predicate Facts(mem: map<Id, Task>) { forall id :: id in mem ==> Regular(mem[id], id) }

  lemma MemFacts(w: World)
    requires MemInv(w)
    ensures Facts(w.mem)
  {
    forall id | id in w.mem ensures Regular(w.mem[id], id) { assert TaskInv(w, id); }
  }

  // A task's later contents: same request, end times once set stay, no way back.
  predicate Succeeds(m: Task, was: Task) {
    && m.request == was.request
    && (was.times.Some? ==> m.times == was.times)
    && (m.state == Running ==> was.state == Running)
    && (was.phase == Finished ==> m.phase == Finished)
  }

  lemma RecordedKeepsAdmission(w: World, v: World, id: Id, m: Task)
    requires AdmissionInv(w) && w.mode != Loading && id in w.mem && Succeeds(m, w.mem[id])
    requires v.mem == w.mem[id := m]
    requires v.requests == w.requests && v.active == w.active && v.jobs == w.jobs && v.sampler == w.sampler &&
      v.now == w.now
    requires w.degraded ==> v.degraded
    requires v.mode == w.mode || (w.mode.Recovering? && v.mode == Done(w, id) && m.state != Running)
    requires v.degraded || m.state == Running || m.phase == Finished || Waits(v, id)
    ensures AdmissionInv(v)
  {
    RecordedKeepsQueue(w, v, id, m);
    RecordedKeepsTable(w, v, id, m);
    hide QueueInv, TableInv, Succeeds, Waits;
  }

  lemma RecordedKeepsQueue(w: World, v: World, id: Id, m: Task)
    requires QueueInv(w) && w.mode != Loading && id in w.mem && Succeeds(m, w.mem[id]) && v.mem == w.mem[id := m]
    requires v.active == w.active && v.jobs == w.jobs && v.sampler == w.sampler && (w.degraded ==> v.degraded)
    requires v.mode == w.mode || (w.mode.Recovering? && v.mode == Done(w, id) && m.state != Running)
    requires v.degraded || m.state == Running || m.phase == Finished || Waits(v, id)
    ensures QueueInv(v)
  {}

  lemma RecordedKeepsTable(w: World, v: World, id: Id, m: Task)
    requires TableInv(w) && id in w.mem && Succeeds(m, w.mem[id]) && v.mem == w.mem[id := m]
    requires v.requests == w.requests && v.now == w.now && (w.degraded ==> v.degraded)
    ensures TableInv(v)
  {}

  // A move changes at most the transfer part of one task in memory.
  lemma MoveTouches(w: World, m: Move)
    requires MayMove(w, m)
    ensures var v := Moved(w, m);
      v == w.(mem := v.mem, disk := v.disk, objects := v.objects, live := v.live, owner := v.owner, lost := v.lost,
          upload := v.upload)
    ensures var v := Moved(w, m); var id := w.upload.id;
      v.mem == w.mem || (Tracked(w, id) && v.mem == w.mem[id := w.mem[id].(s3 := v.mem[id].s3)] && v.mem[id].s3.Some?)
  {
    hide MayMove, WriteOf, UploadAfter, ObjectsAfter, LiveAfter, LostAfter, Apply, Persist;
  }

  lemma MoveKeepsAdmission(w: World, m: Move)
    requires AdmissionInv(w) && w.mode == Serving && MayMove(w, m)
    ensures AdmissionInv(Moved(w, m))
  {
    MoveTouches(w, m);
    hide MayMove, Moved;
    var v := Moved(w, m);
    if v.mem != w.mem { RecordedKeepsAdmission(w, v, w.upload.id, v.mem[w.upload.id]); }
  }

  lemma SubmitKeepsAdmission(w: World, t: Task, o: Outcome)
    requires AdmissionInv(w) && w.mode == Serving && MaySubmit(w, t)
    ensures AdmissionInv(Submitted(w, t, o))
  {
    SubmitKeepsQueue(w, t, o);
    SubmitKeepsTable(w, t, o);
    hide QueueInv, TableInv, MaySubmit, Submitted;
  }

  lemma SubmitKeepsQueue(w: World, t: Task, o: Outcome)
    requires QueueInv(w) && w.mode == Serving && MaySubmit(w, t)
    ensures QueueInv(Submitted(w, t, o))
  {
    hide ValidTask, Persist, Vacant, TaskExpired;
  }

  lemma SubmitKeepsTable(w: World, t: Task, o: Outcome)
    requires TableInv(w) && MaySubmit(w, t)
    ensures TableInv(Submitted(w, t, o))
  {
    hide ValidTask, Persist;
  }

  lemma EvictedKeepsAdmission(w: World, id: Id, r: Removal)
    requires AdmissionInv(w) && w.mode == Serving && id in w.mem && w.mem[id].state != Running
    ensures AdmissionInv(Evicted(w, id, r))
  {
    EvictedKeepsQueue(w, id, r);
    EvictedKeepsTable(w, id, r);
    hide QueueInv, TableInv, Evicted;
  }

  lemma EvictedKeepsQueue(w: World, id: Id, r: Removal)
    requires QueueInv(w) && w.mode == Serving && id in w.mem && w.mem[id].state != Running
    ensures QueueInv(Evicted(w, id, r))
  {
    hide OwnedBy, WithoutRequest;
  }

  lemma EvictedKeepsTable(w: World, id: Id, r: Removal)
    requires TableInv(w) && id in w.mem
    ensures TableInv(Evicted(w, id, r))
  {
    hide OwnedBy;
  }

  lemma PublishKeepsAdmission(w: World, t: Task, o: Outcome)
    requires Facts(w.mem) && AdmissionInv(w) && w.mode == Serving && Sampled(w, t)
    ensures AdmissionInv(Served(w, Publish(t, o)))
  {
    assert Regular(w.mem[t.id], t.id);
    RecordedKeepsAdmission(w, Served(w, Publish(t, o)), t.id, t);
  }

  lemma FinishKeepsAdmission(w: World, s: Service)
    requires AdmissionInv(w) && s.Finish? && MayServe(w, s)
    ensures AdmissionInv(Served(w, s))
  {
    var f := Finalize(s.t, s.built, w);
    assert Succeeds(f, w.mem[s.t.id]) && f.phase == Finished;
    hide Finalize, AdmissionInv, Persist;
    RecordedKeepsAdmission(w, Served(w, s), s.t.id, f);
  }

  lemma ExpireKeepsAdmission(w: World, id: Id, o: Outcome)
    requires Facts(w.mem) && AdmissionInv(w) && w.mode == Serving && Overdue(w, id)
    ensures AdmissionInv(Served(w, Service.Expire(id, o)))
  {
    var v := Served(w, Service.Expire(id, o));
    assert v.mem == w.mem[id := v.mem[id]];
    RecordedKeepsAdmission(w, v, id, v.mem[id]);
  }

  lemma CorruptKeepsAdmission(w: World, id: Id, o: Outcome)
    requires Facts(w.mem) && AdmissionInv(w) && w.mode == Serving && id in w.mem && w.mem[id].state != Running
    ensures AdmissionInv(Served(w, Corrupt(id, o)))
  {
    RecordedKeepsAdmission(w, Served(w, Corrupt(id, o)), id, Damaged(w.mem[id]));
  }

  lemma QuietKeepsAdmission(w: World, s: Service)
    requires AdmissionInv(w) && MayServe(w, s) && (s.TakeJob? || s.Release? || s.DropDir? || s.Select?)
    ensures AdmissionInv(Served(w, s))
  {}

  lemma ServeKeepsAdmission(w: World, s: Service)
    requires Facts(w.mem) && AdmissionInv(w) && MayServe(w, s)
    ensures AdmissionInv(Served(w, s))
  {
    hide AdmissionInv, Facts;
    match s
    case Submit(t, o) => SubmitKeepsAdmission(w, t, o);
    case Publish(t, o) => PublishKeepsAdmission(w, t, o);
    case Finish(t, built, o) => FinishKeepsAdmission(w, s);
    case Corrupt(id, o) => CorruptKeepsAdmission(w, id, o);
    case Cleanup(id, r) => EvictedKeepsAdmission(w, id, r);
    case Expire(id, o) => ExpireKeepsAdmission(w, id, o);
    case _ => QuietKeepsAdmission(w, s);
  }

  // Without rivals the rebuilt table names every unexpired task.
  lemma OwnersComplete(owners: map<string, Id>, mem: map<Id, Task>, now: Time, id: Id)
    requires Owners(owners, mem, now) && !Ambiguous(mem, now) && id in mem && !TaskExpired(mem[id], now)
    ensures mem[id].request in owners && owners[mem[id].request] == id
  {
    assert forall j :: !Rivals(mem, now, id, j);
    var j := owners[mem[id].request];
    assert j != id ==> Rivals(mem, now, id, j);
  }

  // An unexpired task whose request is in the table is the one it names.
  lemma OwnersUnique(owners: map<string, Id>, mem: map<Id, Task>, now: Time, id: Id)
    requires Owners(owners, mem, now) && id in mem && !TaskExpired(mem[id], now) && mem[id].request in owners
    ensures owners[mem[id].request] == id
  {
    var j := owners[mem[id].request];
    assert j != id ==> Rivals(mem, now, id, j);
  }

  lemma OwnersTable(owners: map<string, Id>, mem: map<Id, Task>, now: Time, damage: bool)
    requires Owners(owners, mem, now) && (Ambiguous(mem, now) ==> damage)
    ensures forall r :: r in owners ==> owners[r] in mem && mem[owners[r]].request == r
    ensures forall id :: id in mem && !TaskExpired(mem[id], now) && mem[id].request in owners ==>
      owners[mem[id].request] == id
    ensures !damage ==> forall id :: id in mem && !TaskExpired(mem[id], now) ==>
              mem[id].request in owners && owners[mem[id].request] == id
  {
    forall id | id in mem && !TaskExpired(mem[id], now) &&
        mem[id].request in owners ensures owners[mem[id].request] == id {
      OwnersUnique(owners, mem, now, id);
    }
    if !damage {
      forall id | id in mem && !TaskExpired(mem[id], now)
        ensures mem[id].request in owners && owners[mem[id].request] == id
      {
        OwnersComplete(owners, mem, now, id);
      }
    }
  }

  lemma LoadKeepsAdmission(w: World, unread: set<Id>, owners: map<string, Id>, damage: bool)
    requires w.active == None && w.jobs == [] && w.sampler == None
    requires var mem := Readable(w, unread); Owners(owners, mem, w.now) && (Ambiguous(mem, w.now) ==> damage)
    ensures AdmissionInv(Restarted(w, Load(unread, owners, damage)))
  {
    hide Readable, Owners, Ambiguous, Rivals, TaskExpired;
    OwnersTable(owners, Readable(w, unread), w.now, damage);
  }

  lemma ResetKeepsAdmission(w: World, r: Restart)
    requires r.Exit? || r.Crash?
    ensures AdmissionInv(Restarted(w, r))
  {
    hide Write, Born, CutOff, Settle;
  }

  lemma MarkKeepsAdmission(w: World, id: Id, o: Outcome)
    requires AdmissionInv(w) && Facts(w.mem) && MayRestart(w, Mark(id, o))
    ensures AdmissionInv(Restarted(w, Mark(id, o)))
  {
    RecordedKeepsAdmission(w, Restarted(w, Mark(id, o)), id, Stopped(w.mem[id], w));
  }

  lemma RebuildKeepsAdmission(w: World, r: Restart)
    requires AdmissionInv(w) && r.Rebuild? && MayRestart(w, r)
    ensures AdmissionInv(Restarted(w, r))
  {
    var f := Finalize(r.t.(errors := true), r.built, w);
    assert Succeeds(f, w.mem[r.id]) && f.phase == Finished && f.state != Running;
    hide Finalize, AdmissionInv, Persist;
    RecordedKeepsAdmission(w, Restarted(w, r), r.id, f);
  }

  lemma RecheckKeepsAdmission(w: World, id: Id, intact: bool, o: Outcome)
    requires AdmissionInv(w) && w.mode.Recovering? && id in w.mem
    requires Regular(w.mem[id], id) && w.mem[id].state != Running && !Repackaged(w.mem[id])
    ensures AdmissionInv(Rechecked(w, id, intact, o))
  {
    var t := w.mem[id];
    assert Succeeds(t, t) && Succeeds(Damaged(t), t) && t.phase == Finished;
    hide AdmissionInv, Persist, Regular, Succeeds, Repackaged;
    if intact || !t.available || ResultExpired(t, w.now) {
      assert w.mem == w.mem[id := t];
      RecordedKeepsAdmission(w, w.(mode := Done(w, id)), id, t);
    } else {
      RecordedKeepsAdmission(w, Rechecked(w, id, intact, o), id, Damaged(t));
    }
  }

  lemma RestartKeepsAdmission(w: World, r: Restart)
    requires Facts(w.mem) && AdmissionInv(w) && MayRestart(w, r)
    ensures AdmissionInv(Restarted(w, r))
  {
    if r.Open? { assert AdmissionInv(Restarted(w, r)); }
    if r.Recheck? { assert Regular(w.mem[r.id], r.id); }
    if r.Load? { assert w.active == None && w.jobs == [] && w.sampler == None; }
    hide AdmissionInv, Facts;
    match r
    case Exit(_, _, _) => ResetKeepsAdmission(w, r);
    case Crash(_, _, _, _) => ResetKeepsAdmission(w, r);
    case Load(unread, owners, damage) => LoadKeepsAdmission(w, unread, owners, damage);
    case Mark(id, o) => MarkKeepsAdmission(w, id, o);
    case Rebuild(_, _, _, _, _) => RebuildKeepsAdmission(w, r);
    case Recheck(id, intact, o) => RecheckKeepsAdmission(w, id, intact, o);
    case Open =>
  }

  lemma TickKeepsAdmission(w: World, d: nat)
    requires AdmissionInv(w)
    ensures AdmissionInv(w.(now := w.now + d))
  {}
}
