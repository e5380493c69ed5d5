// What every reachable state of the agent satisfies, and the proof that every
// action keeps it.
module AgentInvariant {
  import opened Records
  import opened AgentWorld

  // A record's phase, task state and transfer state agree.
  predicate Staged(t: Task) {
    && (t.state == Running ==> t.phase != Finished)
    && (t.state != Running && t.phase != Finished ==> t.state == Interrupted && t.phase == Packaging)
    && (t.s3.Some? ==>
          var s := t.s3.value;
          if t.phase == Finished then s.state != WaitingResult
          else
            && (s.state == WaitingResult || (s.state == Expired && t.state != Running))
            && s.key.None? && s.upload.None?)
  }

  // An uploaded record has its object on the remote store, matching size and digest.
  predicate Backed(t: Task, objects: map<Key, Object>, agent: string) {
    IsUploaded(t) ==>
      && t.s3.value.key.Some? && t.s3.value.key.value in objects
      && Agrees(objects[t.s3.value.key.value], t.s3.value, agent, t.id)
  }

  predicate Sound(t: Task, id: Id, agent: string, objects: map<Key, Object>) {
    ValidRecord(t, id, agent) && Staged(t) && Backed(t, objects, agent)
  }

  // The end times are the same in everything a crash may leave.
  ghost predicate Fixed(f: File) {
    f.cur.times.Some? && forall v :: v in f.older ==> v.times == f.cur.times
  }

  predicate SameUploaded(v: Task, m: Task) {
    IsUploaded(v) && IsUploaded(m) && SameObject(v.s3.value, m.s3.value)
  }

  predicate Keyed(t: Task) { t.s3.Some? && t.s3.value.key.Some? }

  // c is a later state of the task than v: request, end times and object key, once there, stay.
  predicate Precedes(v: Task, c: Task) {
    && v.request == c.request
    && (v.times.Some? ==> c.times == v.times)
    && (Keyed(v) ==> c.s3.Some? && SameObject(v.s3.value, c.s3.value))
  }

  // Memory is later than every version of its record, and shows uploaded only if task.json does.
  ghost predicate Linked(w: World, id: Id)
    requires id in w.mem
  {
    var m := w.mem[id];
    && (id in w.removed || id in w.disk)
    && (id !in w.disk ==> TaskExpired(m, w.now))
    && (id in w.disk ==>
          && (IsUploaded(m) ==> IsUploaded(w.disk[id].cur))
          && (forall v :: v in Versions(w.disk[id]) ==> Precedes(v, m)))
  }

  ghost predicate FileInv(w: World, id: Id)
    requires id in w.disk
  {
    id in w.issued
    && forall v :: v in Versions(w.disk[id]) ==> Sound(v, id, w.cfg.agent, w.objects) && Precedes(v, w.disk[id].cur)
  }

  ghost predicate DiskInv(w: World) { forall id :: id in w.disk ==> FileInv(w, id) }

  ghost predicate TaskInv(w: World, id: Id)
    requires id in w.mem
  {
    id in w.issued && Sound(w.mem[id], id, w.cfg.agent, w.objects) && Linked(w, id)
  }

  ghost predicate MemInv(w: World) { forall id :: id in w.mem ==> TaskInv(w, id) }

  // The active task, the job channel and the sampler; what recovery has still to do.
  ghost predicate QueueInv(w: World) {
    && (w.active == None ==> w.jobs == [] && w.sampler == None)
    && (w.active.Some? ==> (w.jobs == [w.active.value] && w.sampler == None) || (w.jobs == [] && w.sampler == w.active))
    && (w.mode != Serving ==> w.active == None)
    && (w.mode == Loading ==> w.mem == map[])
    && (w.mode.Recovering? ==> w.mode.todo <= w.mem.Keys)
    && (forall id :: id in w.mem && w.mem[id].state == Running ==> Waits(w, id) || w.active == Some(id))
    && (!w.degraded ==> forall id :: id in w.mem && !Waits(w, id) && w.mem[id].state != Running ==>
        w.mem[id].phase == Finished)
  }

  // The request table: an unexpired task owns the entry of its request, and has one on an
  // agent that is not degraded.
  ghost predicate TableInv(w: World) {
    && (forall r :: r in w.requests ==> w.requests[r] in w.mem && w.mem[w.requests[r]].request == r)
    && (forall id :: id in w.mem && !TaskExpired(w.mem[id], w.now) && w.mem[id].request in w.requests ==>
          w.requests[w.mem[id].request] == id)
    && (!w.degraded ==> forall id :: id in w.mem && !TaskExpired(w.mem[id], w.now) ==>
          w.mem[id].request in w.requests && w.requests[w.mem[id].request] == id)
  }

  ghost predicate AdmissionInv(w: World) { QueueInv(w) && TableInv(w) }

  predicate Present(w: World, id: Id, s: Transfer) {
    s.key.Some? && s.key.value in w.objects && Agrees(w.objects[s.key.value], s, w.cfg.agent, id)
  }

  predicate Nothing(w: World, s: Transfer) { s.key.Some? && s.key.value !in w.objects }

  // The task under transfer still has the record that was selected, now in state uploading.
  predicate Underway(w: World, id: Id, s: Transfer) {
    && s.key == Some(ObjectKey(s.target, w.cfg.agent, id, s.sha))
    && (id in w.mem ==>
        w.mem[id].s3.Some? && SameObject(w.mem[id].s3.value, s) && w.mem[id].s3.value.state == Uploading)
  }

  // Memory and everything a crash may leave carry exactly this multipart id.
  ghost predicate Carries(w: World, id: Id, up: Option<string>) {
    && (id in w.mem ==> UploadOf(w.mem[id]) == up)
    && (id in w.disk ==> forall v :: v in Versions(w.disk[id]) ==> UploadOf(v) == up)
  }

  // The multipart id in memory, if any, is already dead.
  predicate Quiet(w: World, id: Id) {
    id in w.mem && UploadOf(w.mem[id]).Some? ==> UploadOf(w.mem[id]).value !in w.live
  }

  // Memory has no multipart id for the task.
  predicate Unclaimed(w: World, id: Id) { id in w.mem ==> UploadOf(w.mem[id]) == None }

  predicate Tried(w: World, id: Id) {
    Tracked(w, id) ==> w.mem[id].s3.value.state != WaitingResult
  }

  ghost predicate UploadInv(w: World) {
    && (w.upload != Idle ==> w.mode == Serving && w.upload.id in w.issued)
    && match w.upload
       case Idle => true
       case Cleaning(id, s) => s.upload.Some? && (id in w.mem ==> w.mem[id].s3 == Some(s)) && Terminal(s.state)
       case Cleaned(id) => Tried(w, id) && Quiet(w, id)
       case Failing(id) => Tried(w, id)
       case Chosen(id, s) =>
         && s.key == Some(ObjectKey(s.target, w.cfg.agent, id, s.sha)) && (id in w.mem ==> w.mem[id].s3 == Some(s))
         && s.state != WaitingResult && !Terminal(s.state)
       case Begun(id, s) => Underway(w, id, s) && Carries(w, id, s.upload)
       case Verified(id, s) => Underway(w, id, s) && Carries(w, id, s.upload)
       case Stale(id, s, missing) =>
         && Underway(w, id, s) && Carries(w, id, s.upload) && s.upload.Some?
         && (if missing then Nothing(w, s) else Present(w, id, s))
       case Purged(id, s, missing) =>
         && Underway(w, id, s) && Carries(w, id, s.upload) && s.upload.Some? && Quiet(w, id)
         && (if missing then Nothing(w, s) else Present(w, id, s))
       case Missing(id, s) => Underway(w, id, s) && Carries(w, id, None) && Nothing(w, s)
       case Created(id, s, up) =>
         && Underway(w, id, s) && Carries(w, id, None) && Nothing(w, s) && !s.target.yos
         && up in w.owner && w.owner[up] == id
       case Orphaned(id, s, up) => Tried(w, id) && Unclaimed(w, id) && up in w.owner && w.owner[up] == id
       case Sending(id, s, up) =>
         && Underway(w, id, s) && Carries(w, id, Some(up)) && Nothing(w, s)
         && up in w.owner && w.owner[up] == id
       case Undoing(id, s, up) => Tried(w, id) && Carries(w, id, Some(up))
       case Undone(id, s) => Tried(w, id) && Quiet(w, id)
       case Stored(id, s) => Underway(w, id, s) && Quiet(w, id)
       case Matched(id, s) => Underway(w, id, s) && Quiet(w, id) && Present(w, id, s)
  }

  // The record of the task holds the id, in memory and in everything a crash may leave.
  ghost predicate Holds(w: World, id: Id, up: string) {
    && id in w.disk && !w.disk[id].unsynced && (forall v :: v in Versions(w.disk[id]) ==> UploadOf(v) == Some(up))
    && (id in w.mem ==> UploadOf(w.mem[id]) == Some(up))
  }

  predicate InFlight(w: World, up: string) { up in CutOff(w.upload) }

  ghost predicate LiveInv(w: World) {
    && (forall u :: u in w.owner ==> w.owner[u] in w.issued)
    && forall u :: u in w.live ==>
         u in w.owner && (u in w.lost || InFlight(w, u) || Holds(w, w.owner[u], u))
  }

  ghost predicate Inv(w: World) {
    ValidConfig(w.cfg) && DiskInv(w) && MemInv(w) && AdmissionInv(w) && UploadInv(w) && LiveInv(w)
  }

  lemma InitInv(w: World)
    requires Init(w)
    ensures Inv(w)
  {}

  // No object is ever replaced or lost.
  ghost predicate Grows(o: map<Key, Object>, p: map<Key, Object>) {
    forall k :: k in o ==> k in p && p[k] == o[k]
  }

  // ---- one write: the record on disk with outcome o, then what memory shows ----

  ghost predicate MayWrite(w: World, id: Id, t: Task, m: Task, o: Outcome) {
    && Sound(t, id, w.cfg.agent, w.objects) && Sound(m, id, w.cfg.agent, w.objects)
    && Precedes(t, m) && (IsUploaded(m) ==> IsUploaded(t))
    && (o != Saved ==> id in w.removed || id in w.disk)
    && (id !in w.disk && o == Unchanged ==> TaskExpired(m, w.now))
    && (id in w.disk ==>
          && (forall v :: v in Versions(w.disk[id]) ==> Precedes(v, t))
          && (IsUploaded(m) && o == Unchanged ==> IsUploaded(w.disk[id].cur)))
  }

  lemma PrecedesThrough(x: Task, y: Task, z: Task)
    requires Precedes(x, y) && Precedes(y, z)
    ensures Precedes(x, z)
  {}

  lemma WriteKeeps(w: World, v: World, id: Id, t: Task, m: Task, o: Outcome)
    requires DiskInv(w) && MemInv(w) && MayWrite(w, id, t, m, o)
    requires v.cfg == w.cfg && v.objects == w.objects && v.removed == w.removed && w.issued + {id} <= v.issued &&
      w.now <= v.now
    requires v.disk == Persist(w.disk, id, t, o) && v.mem == w.mem[id := m]
    ensures DiskInv(v) && MemInv(v)
  {
    hide Sound, MayWrite, Precedes;
    forall j | j in v.disk ensures FileInv(v, j) {
      if j in w.disk { assert FileInv(w, j); }
      if j == id { WriteKeepsFile(w, v, id, t, m, o); }
    }
    forall j | j in v.mem ensures TaskInv(v, j) {
      if j == id {
        if id in w.disk { assert FileInv(w, id); }
        WriteKeepsTask(w, v, id, t, m, o);
      } else { assert TaskInv(w, j); }
    }
  }

  lemma WriteKeepsFile(w: World, v: World, id: Id, t: Task, m: Task, o: Outcome)
    requires MayWrite(w, id, t, m, o) && (id in w.disk ==> FileInv(w, id))
    requires v.cfg == w.cfg && v.objects == w.objects && id in v.issued && v.disk == Persist(w.disk, id, t, o) &&
      id in v.disk
    ensures FileInv(v, id)
  {
    hide Sound;
  }

  lemma WriteKeepsTask(w: World, v: World, id: Id, t: Task, m: Task, o: Outcome)
    requires MayWrite(w, id, t, m, o) && (id in w.disk ==> FileInv(w, id))
    requires v.cfg == w.cfg && v.objects == w.objects && v.removed == w.removed && id in v.issued && w.now <= v.now
    requires v.disk == Persist(w.disk, id, t, o) && v.mem == w.mem[id := m]
    ensures TaskInv(v, id)
  {
    if id in w.disk {
      forall x | x in Versions(w.disk[id]) ensures Precedes(x, m) { PrecedesThrough(x, t, m); }
    }
    hide Sound, Precedes, IsUploaded;
  }

  // A task in memory may be written back with later contents.
  lemma MayRewrite(w: World, id: Id, t: Task, m: Task, o: Outcome)
    requires DiskInv(w) && MemInv(w) && id in w.mem
    requires Sound(t, id, w.cfg.agent, w.objects) && Sound(m, id, w.cfg.agent, w.objects)
    requires Precedes(w.mem[id], t) && Precedes(t, m)
    requires IsUploaded(m) ==> IsUploaded(t) && (o == Saved || IsUploaded(w.mem[id]))
    ensures MayWrite(w, id, t, m, o)
  {
    assert TaskInv(w, id);
    PrecedesThrough(w.mem[id], t, m);
    assert TaskExpired(w.mem[id], w.now) ==> TaskExpired(m, w.now);
    if id in w.disk {
      forall x | x in Versions(w.disk[id]) ensures Precedes(x, t) { PrecedesThrough(x, w.mem[id], t); }
    }
    hide Sound, Precedes, IsUploaded;
  }
}
