// The agent itself (internal/agent/agent.go, s3_worker.go, and recover in archive.go):
// fields updated in place, every critical section proved to be a step of the state
// machine, and the history of steps kept as a ghost run. What failed, what the remote
// store answered and what else ran meanwhile are inputs.
module AgentService {
  import opened Records
  import opened AgentWorld
  import opened AgentInvariant
  import opened AgentSections
  import Planning

  class Agent {
    const sampling: Plan
    var cfg: Config
    var now: Time
    var mode: Mode
    var degraded: bool
    var tasks: map<Id, Task>
    var requests: map<string, Id>
    var active: Option<Id>
    var jobs: seq<Id>
    var sampler: Option<Id>
    var disk: map<Id, File>
    var issued: set<Id>
    var removed: set<Id>
    var objects: map<Key, Object>
    var live: set<string>
    var owner: map<string, Id>
    var lost: set<string>
    var upload: Position
    ghost var run: seq<World>

    function State(): World
      reads this
    {
      World(cfg, now, mode, degraded, tasks, requests, active, jobs, sampler, disk, issued, removed, objects, live,
          owner, lost, upload)
    }

    ghost predicate Valid()
      reads this
    {
      Traced(run, State())
    }

    lemma Fields()
      ensures var w := State();
        && w.now == now && w.cfg == cfg && w.mode == mode && w.mem == tasks && w.disk == disk && w.issued == issued
        && w.objects == objects && w.owner == owner && w.upload == upload && w.live == live
        && w.requests == requests && w.active == active && w.jobs == jobs && w.degraded == degraded
    {}

    // One more step of the machine.
    twostate predicate Took(a: Action)
      reads this
    {
      Enabled(old(State()), a) && State() == Next(old(State()), a) && run == old(run) + [State()] && Valid()
    }

    // The step just made enters the history.
    ghost method Log(w: World, a: Action)
      requires Traced(run, w) && Enabled(w, a) && State() == Next(w, a)
      modifies this`run
      ensures State() == Next(w, a) && run == old(run) + [State()] && Traced(run, State())
    {
      hide IsRun, Init, Step, Traced, Enabled, Next;
      run := Extend(run, w, a);
    }

    constructor (cfg: Config, now: Time, objects: map<Key, Object>, sampling: Plan)
      requires ValidConfig(cfg)
      ensures Valid() && run == [State()] && mode == Loading
    {
      this.cfg, this.now, this.objects, this.sampling := cfg, now, objects, sampling;
      mode, degraded, tasks, requests, active, jobs, sampler := Loading, false, map[], map[], None, [], None;
      disk, issued, removed, live, owner, lost, upload := map[], {}, {}, {}, map[], {}, Idle;
      run := [World(cfg, now, Loading, false, map[], map[], None, [], None, map[], {}, {}, objects, {}, map[],
          {}, Idle)];
    }

    // ---- task.json ----

    // persist, as the store's Atomic leaves the file.
    method Persist(t: Task, o: Outcome)
      modifies this`disk
      ensures State() == old(State()).(disk := AgentWorld.Persist(old(State().disk), t.id, t, o))
    {
      if o == Saved {
        disk := disk[t.id := File(t, {}, false)];
      } else if o == Renamed {
        if t.id in disk { disk := disk[t.id := File(t, disk[t.id].older + {disk[t.id].cur}, disk[t.id].unsynced)]; }
        else { disk := disk[t.id := File(t, {}, true)]; }
      }
    }

    // persist, and memory shows the task whether or not it was saved.
    method Show(t: Task, o: Outcome)
      modifies this`disk, this`tasks
      ensures State() == Recorded(old(State()), t.id, t, t, o)
      ensures tasks == old(tasks)[t.id := t] && OnDisk(old(disk), disk, t, o)
    {
      PersistOnDisk(disk, t, o);
      hide AgentWorld.Persist, OnDisk;
      Persist(t, o);
      tasks := tasks[t.id := t];
    }

    method Degrade()
      modifies this`degraded
      ensures State() == old(State()).(degraded := true)
    {
      degraded := true;
    }

    // ---- admission ----

    // The request is known and its task has not expired.
    predicate Known(r: Request)
      reads this
    {
      r.id in requests && requests[r.id] in tasks && !TaskExpired(tasks[requests[r.id]], now)
    }

    predicate Admits(r: Request, ready: bool, room: bool, dir: bool)
      reads this
    {
      && ValidRequest(r) && !Known(r)
      && Planning.Sampleable(sampling.limits, Span(r.window, sampling.window), Span(r.step, sampling.step))
      && ready && !degraded && active == None && room && dir
    }

    method Submit(r: Request, id: Id, ready: bool, room: bool, dir: bool, o: Outcome) returns (reply: Reply)
      requires Valid() && mode == Serving && now != 0
      requires ValidId(id) && id !in issued && id !in tasks && id !in disk
      modifies this
      // Admitted exactly when nothing stands against it and the record was saved; then the one
      // task of its request, active and queued.
      ensures reply.Admitted? <==> old(Admits(r, ready, room, dir)) && o == Saved
      ensures reply.Admitted? ==>
        Took(Serve(AgentWorld.Submit(reply.t, Saved))) && reply.t.id == id && reply.t.request == r.id
      ensures reply.Admitted? ==> tasks[requests[r.id]] == reply.t && active == Some(id) && jobs == [id]
      // What the request leaves open is the configured default; the task starts from nothing.
      ensures reply.Admitted? ==>
        var t := reply.t;
        && t.window == InSeconds(r.window, sampling.window) && t.step == InSeconds(r.step, sampling.step)
        && Begins(t, cfg, old(now))
      // A request whose task has time left is answered from it, never admitted again.
      ensures ValidRequest(r) && old(Known(r)) ==> Answers(reply, r, old(tasks[requests[r.id]]), old(now))
      ensures reply.Replayed? || reply.Mismatch? <==>
        ValidRequest(r) && old(r.id in requests && requests[r.id] in tasks) &&
        var t := old(tasks[requests[r.id]]); t.times.None? || old(now) < t.times.value.taskUntil
      // Everything else is refused for the first thing that stands against it.
      ensures !ValidRequest(r) ==> reply == BadRequest
      ensures ValidRequest(r) && !old(Known(r)) ==>
        reply == if !Planning.Sampleable(sampling.limits, Span(r.window, sampling.window), Span(r.step, sampling.step))
            then BadRequest
            else if !ready || old(degraded) then NotReady
            else if old(active).Some? then Busy
            else if !room || !dir || o != Saved then NoStorage
            else reply
      // Nothing else changes anything, except a record that could not be saved: that ends admission.
      ensures old(Admits(r, ready, room, dir)) && o != Saved ==>
        degraded && exists t :: Took(Serve(AgentWorld.Submit(t, o))) && t.id == id && t.request == r.id
      ensures !old(Admits(r, ready, room, dir)) ==> State() == old(State()) && run == old(run)
    {
      hide IsRun, Init, Step, Traced, Enabled, Next, NewTask, ValidId, Planning.Sampleable, Answers,
        Begins, InSeconds, Span;
      ghost var w := State();
      if |r.id| < 1 || |r.id| > 128 || !ValidSeconds(r.window) || !ValidSeconds(r.step) { return BadRequest; }
      RequestsKnown(run, w);
      var known := Answer(r);
      if known.Some? { return known.value; }
      var window, step := Span(r.window, sampling.window), Span(r.step, sampling.step);
      var ok := Planning.ValidateSampling(sampling.limits, window, step);
      if !ok { return BadRequest; }
      if degraded || !ready { return NotReady; }
      if active != None { return Busy; }
      if !room || !dir { return NoStorage; }
      reply := Accept(r, id, window, step, o);
    }

    method Accept(r: Request, id: Id, window: Planning.int64, step: Planning.int64, o: Outcome) returns (reply: Reply)
      requires Valid() && mode == Serving && now != 0 && ValidRequest(r) && !degraded && active == None &&
        Vacant(State(), r.id)
      requires ValidId(id) && id !in issued && id !in tasks && id !in disk
      requires window == Span(r.window, sampling.window) && step == Span(r.step, sampling.step)
      requires Planning.Sampleable(sampling.limits, window, step)
      modifies this
      ensures reply.Admitted? <==> o == Saved
      ensures reply.Admitted? ==>
        Took(Serve(AgentWorld.Submit(reply.t, Saved))) && reply.t.id == id && reply.t.request == r.id
      ensures reply.Admitted? ==>
        SameParameters(r, reply.t) && tasks == old(tasks)[id := reply.t] && requests == old(requests)[r.id := id]
        && active == Some(id) && jobs == [id] && disk == old(disk)[id := File(reply.t, {}, false)]
      ensures reply.Admitted? ==>
        var t := reply.t;
        && t.window == InSeconds(r.window, sampling.window) && t.step == InSeconds(r.step, sampling.step)
        && Begins(t, cfg, old(now))
      ensures o != Saved ==>
        && reply == NoStorage && degraded
        && exists t :: Took(Serve(AgentWorld.Submit(t, o))) && t.id == id && t.request == r.id
    {
      hide IsRun, Init, Step, Traced, Enabled, Next, NewTask, ValidId, Planning.Sampleable, SameParameters, Vacant,
        AgentWorld.Persist;
      var t := NewRecord(r, id, window, step);
      var saved := Enter(t, o);
      return if saved then Admitted(t) else NoStorage;
    }

    // A known request is answered from its task.
    method Answer(r: Request) returns (a: Option<Reply>)
      requires r.id in requests ==> requests[r.id] in tasks
      ensures a.Some? <==> Known(r)
      ensures a.Some? ==> Answers(a.value, r, tasks[requests[r.id]], now)
    {
      if r.id in requests {
        var t := tasks[requests[r.id]];
        if !TaskExpired(t, now) {
          if !SameParameters(r, t) { return Some(Mismatch); }
          return Some(Replayed(Logical(t, now)));
        }
      }
      return None;
    }

    method NewRecord(r: Request, id: Id, window: Planning.int64, step: Planning.int64) returns (t: Task)
      requires ValidRequest(r) && now != 0 && ValidId(id) && id !in issued && id !in tasks && id !in disk
      requires window == Span(r.window, sampling.window) && step == Span(r.step, sampling.step)
      requires Planning.Sampleable(sampling.limits, window, step)
      ensures NewTask(State(), t) && t.id == id && t.request == r.id && SameParameters(r, t)
      ensures t.window == InSeconds(r.window, sampling.window) && t.step == InSeconds(r.step, sampling.step)
      ensures Begins(t, cfg, now)
    {
      SecondsFit(window, step);
      SpanSeconds(r.window, sampling.window);
      SpanSeconds(r.step, sampling.step);
      t := Task(id, r.id, (window / Planning.SECOND) as int, (step / Planning.SECOND) as int, now,
                Running, Phase.Sampling, 0, 0, false, None, false, 0, "", None);
      if cfg.enabled {
        var s3 := Records.Transfer.Transfer(cfg.target, WaitingResult, None, "", 0, 0, None, None, None, "");
        t := t.(s3 := Some(s3));
      }
    }

    // The new record is saved before memory knows the task; the send to the empty queue cannot block.
    method Enter(t: Task, o: Outcome) returns (saved: bool)
      requires Valid() && mode == Serving && MaySubmit(State(), t)
      modifies this
      ensures Took(Serve(AgentWorld.Submit(t, o))) && saved == (o == Saved)
      ensures var w := old(State()).(disk := AgentWorld.Persist(old(disk), t.id, t, o), issued := old(issued) + {t.id});
        State() == if saved then w.(mem := w.mem[t.id := t], requests := w.requests[t.request := t.id],
            active := Some(t.id), jobs := [t.id])
                   else w.(degraded := true)
      ensures OnDisk(old(disk), disk, t, o)
    {
      hide State, NewTask, Vacant, MaySubmit, Enabled, Next, Traced, AgentWorld.Persist, OnDisk;
      ghost var w := State();
      Fields();
      PersistOnDisk(disk, t, o);
      SubmitStep(w, t, o);
      QueueEmpty(run, w);
      Issue(t.id);
      Persist(t, o);
      if o == Saved { Register(t); } else { Degrade(); }
      Log(w, Serve(AgentWorld.Submit(t, o)));
      Fields();
      return o == Saved;
    }

    method Issue(id: Id)
      modifies this`issued
      ensures State() == old(State()).(issued := old(State().issued) + {id})
    {
      issued := issued + {id};
    }

    // The task is known under its request, active and queued.
    method Register(t: Task)
      modifies this`tasks, this`requests, this`active, this`jobs
      ensures var w := old(State());
        State() == w.(mem := w.mem[t.id := t], requests := w.requests[t.request := t.id], active := Some(t.id),
            jobs := w.jobs + [t.id])
    {
      tasks := tasks[t.id := t];
      requests := requests[t.request := t.id];
      active := Some(t.id);
      jobs := jobs + [t.id];
    }

    // publish: memory shows the task whether or not it was saved.
    method Publish(t: Task, o: Outcome)
      requires Valid() && mode == Serving && Sampled(State(), t)
      modifies this
      ensures Took(Serve(AgentWorld.Publish(t, o)))
      ensures tasks == old(tasks)[t.id := t] && OnDisk(old(disk), disk, t, o)
    {
      hide State, Traced, Enabled, Next, OnDisk;
      ghost var w := State();
      Fields();
      CanServeStep(w, AgentWorld.Publish(t, o));
      Show(t, o);
      Log(w, Serve(AgentWorld.Publish(t, o)));
    }

    // endTimes and the state a finished task takes.
    method Conclude(t: Task, built: Option<Archive>) returns (f: Task)
      ensures f == Finalized(t, built, now, cfg.agent, cfg.resultKeep, cfg.taskKeep)
      ensures Ends(t, built, now, cfg, f)
    {
      hide Ends;
      FinalizedEnds(t, built, now, cfg);
      f := t;
      if f.times.None? { f := f.(times := Some(Times(now, now + cfg.resultKeep, now + cfg.taskKeep))); }
      f := f.(phase := Finished);
      if f.state != Interrupted {
        f := f.(state := Completed);
        if f.errors { f := f.(state := Partial); }
        if f.sources == 0 { f := f.(state := Failed); }
      }
      if built.Some? {
        f := f.(available := true, size := built.value.size, sha := built.value.sha);
      } else {
        f := f.(available := false, errors := true);
        if f.state != Interrupted { f := f.(state := Failed); }
      }
      var s3 := PrepareTransfer(f);
      f := f.(s3 := s3);
    }

    // prepareTransfer.
    method PrepareTransfer(t: Task) returns (s3: Option<Transfer>)
      ensures s3 == Prepare(t, cfg.agent) && (s3.Some? <==> t.s3.Some?)
      // Uploaded stays as it is; else the transfer waits for its upload exactly when there is an
      // archive that the target takes, and is unavailable otherwise.
      ensures t.s3.Some? && t.s3.value.state == Uploaded ==> s3 == t.s3
      ensures t.s3.Some? && t.s3.value.state != Uploaded ==>
        s3.value.state == if t.available && !(t.s3.value.target.yos && t.size > 1_000_000_000) then Pending
            else Unavailable
      ensures t.s3.Some? && t.s3.value.state != Uploaded ==>
        s3.value.code == if !t.available then "local_result_unavailable"
                         else if s3.value.state == Pending then "" else "yos_object_too_large"
      // With an archive the key, digest and size are the archive's and no retry is waited for;
      // without one they stay. Target, attempts and an upload id left behind always stay.
      ensures t.s3.Some? && t.s3.value.state != Uploaded && t.available ==>
        var v := s3.value;
            && v.key == Some(ObjectKey(v.target, cfg.agent, t.id, t.sha))
            && v.sha == t.sha && v.size == t.size && v.next.None?
      ensures t.s3.Some? && !t.available ==>
        var s, v := t.s3.value, s3.value; v.key == s.key && v.sha == s.sha && v.size == s.size && v.next == s.next
      ensures t.s3.Some? ==>
        var s, v := t.s3.value, s3.value;
        v.target == s.target && v.attempts == s.attempts && v.upload == s.upload && v.uploadedAt == s.uploadedAt
    {
      if t.s3.None? { return None; }
      var s := t.s3.value;
      if s.state == Uploaded { return Some(s); }
      if !t.available { return Some(s.(state := Unavailable, code := "local_result_unavailable")); }
      s := s.(key := Some(ObjectKey(s.target, cfg.agent, t.id, t.sha)), sha := t.sha, size := t.size,
              state := Pending, code := "", next := None);
      if s.target.yos && s.size > YOS_MAX_OBJECT { s := s.(state := Unavailable, code := "yos_object_too_large"); }
      return Some(s);
    }

    // The first section of finish: the final record is published like any other.
    method PublishFinal(t: Task, built: Option<Archive>, o: Outcome)
      requires Valid() && mode == Serving && Sampled(State(), t) && GoodArchive(built)
      modifies this
      ensures Took(Serve(AgentWorld.Finish(t, built, o)))
      // Memory shows the final record whatever the write came to.
      ensures t.id in tasks && tasks == old(tasks)[t.id := tasks[t.id]] && OnDisk(old(disk), disk, tasks[t.id], o)
      ensures Ends(t, built, old(now), old(cfg), tasks[t.id])
    {
      hide State, Finalized, Traced, Enabled, Next, OnDisk;
      ghost var w := State();
      Fields();
      CanServeStep(w, AgentWorld.Finish(t, built, o));
      var f := Conclude(t, built);
      FinalizedId(t, built, w);
      Show(f, o);
      Log(w, Serve(AgentWorld.Finish(t, built, o)));
    }

    // A download found the archive damaged.
    method Corrupt(id: Id, o: Outcome)
      requires Valid() && mode == Serving && id in tasks && tasks[id].state != Running
      modifies this
      ensures Took(Serve(AgentWorld.Corrupt(id, o)))
      ensures var t := old(tasks[id]).(available := false, errors := true);
        tasks == old(tasks)[id := t] && OnDisk(old(disk), disk, t, o)
    {
      hide State, Traced, Enabled, Next, OnDisk;
      ghost var w := State();
      Fields();
      CanServeStep(w, AgentWorld.Corrupt(id, o));
      IdOf(run, w, id);
      Show(tasks[id].(available := false, errors := true), o);
      Log(w, Serve(AgentWorld.Corrupt(id, o)));
    }

    method TakeJob()
      requires Valid() && mode == Serving && |jobs| > 0 && sampler == None
      modifies this
      ensures Took(Serve(AgentWorld.TakeJob)) && sampler == Some(old(jobs[0])) && jobs == old(jobs[1..])
    {
      hide IsRun, Init, Step, Traced, Enabled, Next;
      ghost var w := State();
      CanServeStep(w, AgentWorld.TakeJob);
      sampler := Some(jobs[0]);
      jobs := jobs[1..];
      Log(w, Serve(AgentWorld.TakeJob));
    }

    // The sampler is done with its task, or has lost it.
    method Release()
      requires Valid() && MayServe(State(), AgentWorld.Release)
      modifies this
      ensures Took(Serve(AgentWorld.Release)) && active == None && sampler == None
    {
      hide IsRun, Init, Step, Traced, Enabled, Next;
      ghost var w := State();
      CanServeStep(w, AgentWorld.Release);
      active, sampler := None, None;
      Log(w, Serve(AgentWorld.Release));
    }

    // One expired task of cleanup: its directory goes, is put off for a lease, or goes in part.
    method Evict(id: Id, r: Removal)
      requires Valid() && MayServe(State(), AgentWorld.Cleanup(id, r))
      modifies this
      ensures Took(Serve(AgentWorld.Cleanup(id, r)))
      ensures id in old(tasks) && tasks == if r == Half then old(tasks) else old(tasks) - {id}
      ensures disk == if r == Deferred then old(disk) else old(disk) - {id}
      ensures mode == old(mode) && upload == old(upload) && now == old(now) && active == old(active) && cfg == old(cfg)
      ensures r != Half ==>
        var q := old(tasks)[id].request;
        requests == if q in old(requests) && old(requests)[q] == id then old(requests) - {q} else old(requests)
    {
      hide State, Traced, Enabled, Next, OwnedBy, MayServe;
      ghost var w := State();
      Fields();
      CleanupIs(w, id, r);
      Mourn(id);
      if r != Half { Delete(id); }
      if r != Deferred { Unlink(id); }
      Log(w, Serve(AgentWorld.Cleanup(id, r)));
      Fields();
    }

    // The record of a task is about to go, and with it the upload ids only it knew.
    method Mourn(id: Id)
      modifies this`lost, this`removed
      ensures State() == old(State()).(lost := old(State().lost + OwnedBy(State(), id)),
        removed := old(State().removed) + {id})
    {
      hide OwnedBy;
      lost := lost + OwnedBy(State(), id);
      removed := removed + {id};
    }

    // Memory lets a task go, and its request if that is bound to it.
    method Delete(id: Id)
      requires id in State().mem
      modifies this`tasks, this`requests
      ensures State() == old(State()).(mem := old(State().mem) - {id}, requests := old(WithoutRequest(State(), id)))
    {
      var request := tasks[id].request;
      tasks := tasks - {id};
      if request in requests && requests[request] == id { requests := requests - {request}; }
    }

    method Unlink(id: Id)
      modifies this`disk
      ensures State() == old(State()).(disk := old(State().disk) - {id})
    {
      disk := disk - {id};
    }

    method DropDir(id: Id)
      requires Valid() && MayServe(State(), AgentWorld.DropDir(id))
      modifies this
      ensures Took(Serve(AgentWorld.DropDir(id))) && disk == old(disk) - {id} && tasks == old(tasks)
    {
      hide IsRun, Init, Step, Traced, Enabled, Next;
      ghost var w := State();
      CanServeStep(w, AgentWorld.DropDir(id));
      lost := lost + OwnedBy(State(), id);
      disk := disk - {id};
      Log(w, Serve(AgentWorld.DropDir(id)));
    }

    method Wait(d: nat)
      requires Valid()
      modifies this
      ensures Took(Tick(d))
    {
      hide IsRun, Init, Step;
      ghost var w := State();
      now := now + d;
      Log(w, Tick(d));
    }

    // cleanup: every finished task whose time is over.
    method Cleanup(how: Id -> Removal)
      requires Valid() && mode == Serving
      modifies this
      ensures Valid() && mode == Serving && old(run) <= run && upload == old(upload)
      ensures forall id :: id in tasks ==> id in old(tasks) && tasks[id] == old(tasks)[id]
      // Exactly the finished tasks whose time is over go, but for those removed only in part.
      ensures forall id :: id in old(tasks) ==>
        var t := old(tasks)[id];
        id !in tasks <==> t.state != Running && t.times.Some? && t.times.value.taskUntil <= now && how(id) != Half
      ensures now == old(now) && active == old(active) && cfg == old(cfg)
    {
      hide Traced, Enabled, Next, OwnedBy, WithoutRequest;
      var rest := tasks.Keys;
      while rest != {}
        invariant Valid() && mode == Serving && old(run) <= run && upload == old(upload) && now == old(now) &&
          active == old(active) && cfg == old(cfg)
        invariant rest <= old(tasks).Keys && forall id :: id in rest ==> id in tasks
        invariant forall id :: id in tasks ==> id in old(tasks) && tasks[id] == old(tasks)[id]
        invariant forall id :: id in old(tasks) && id !in tasks ==>
          old(tasks)[id].state != Running && TaskExpired(old(tasks)[id], now)
        invariant forall id :: id in tasks && id !in rest ==>
          tasks[id].state != Running && TaskExpired(tasks[id], now) ==> how(id) == Half
        invariant forall id :: id in old(tasks) && id !in tasks ==> how(id) != Half
        decreases |rest|
      {
        var id :| id in rest;
        rest := rest - {id};
        if tasks[id].state != Running && TaskExpired(tasks[id], now) {
          Evict(id, how(id));
        }
      }
    }

    // What else runs while an upload is under way; a service that cannot run now is not run.
    predicate CanServe(s: Service)
      reads this
    {
      mode == Serving &&
      match s
      case Submit(t, _) => MaySubmit(State(), t)
      case TakeJob => |jobs| > 0 && sampler == None
      case Publish(t, _) => Sampled(State(), t)
      case Finish(t, built, _) => Sampled(State(), t) && GoodArchive(built)
      case Release => sampler.Some? && !(sampler.value in tasks && tasks[sampler.value].state == Running)
      case Corrupt(id, _) => id in tasks && tasks[id].state != Running
      case Cleanup(id, _) => id in tasks && tasks[id].state != Running && TaskExpired(tasks[id], now)
      case DropDir(id) => id in disk && id !in tasks && id in removed
      case Expire(_, _) => false
      case Select(_) => false
    }

    method Others(script: seq<Event>)
      requires Valid() && mode == Serving
      modifies this
      ensures Valid() && mode == Serving && old(run) <= run && upload == old(upload) && cfg == old(cfg)
      ensures script == [] ==> unchanged(this)
    {
      hide IsRun, Init, Step, Traced, Next, OwnedBy, WithoutRequest, NewTask, Vacant, MaySubmit, Sampled;
      for i := 0 to |script|
        invariant Valid() && mode == Serving && old(run) <= run && upload == old(upload) && cfg == old(cfg)
        invariant script == [] ==> unchanged(this)
      {
        ghost var w := State();
        match script[i]
        case Pass(d) => Wait(d); TickFields(w, d);
        case Do(s) =>
          if CanServe(s) { Perform(s); ServedFields(w, s); }
      }
    }

    method Perform(s: Service)
      requires Valid() && CanServe(s)
      modifies this
      ensures Took(Serve(s))
    {
      hide IsRun, Init, Step, Traced, Enabled, Next, OwnedBy, WithoutRequest, NewTask, Vacant, Sampled, MaySubmit;
      match s
      case Submit(t, o) => var _ := Enter(t, o);
      case TakeJob => TakeJob();
      case Publish(t, o) => Publish(t, o);
      case Finish(t, built, o) => PublishFinal(t, built, o);
      case Release => Release();
      case Corrupt(id, o) => Corrupt(id, o);
      case Cleanup(id, r) => Evict(id, r);
      case DropDir(id) => DropDir(id);
    }

    // finish: the final record; when it cannot be saved, a second section takes the result back
    // in memory. In between others may take the mutex, but not cleanup: the worker that finishes
    // a task is the one that cleans up.
    method Finish(t: Task, built: Option<Archive>, o: Outcome, between: seq<Event>)
      requires Valid() && mode == Serving && Sampled(State(), t) && GoodArchive(built)
      requires forall e :: e in between ==> Elsewhere(e)
      modifies this
      ensures Valid() && mode == Serving && old(run) <= run
      ensures o == Saved ==> Took(Serve(AgentWorld.Finish(t, built, o)))
      // The task stays and is over; without a saved record its result is not offered.
      ensures t.id in tasks && tasks[t.id].state != Running && tasks[t.id].times.Some?
      ensures o != Saved ==> !tasks[t.id].available && tasks[t.id].errors
      // Left alone, the record on disk and the one in memory differ at most in that.
      ensures between == [] ==>
        exists f :: Ends(t, built, old(now), old(cfg), f) && OnDisk(old(disk), disk, f, o) &&
            tasks == old(tasks)[t.id := if o == Saved then f else f.(available := false, errors := true)]
    {
      hide IsRun, Init, Step, Finalized, Traced, Enabled, Next, Sampled, AgentWorld.Persist, OnDisk, Ends;
      ghost var w := State();
      PublishFinal(t, built, o);
      FinalFields(w, t, built, o);
      ghost var f := tasks[t.id];
      if o == Saved { return; }
      Meanwhile(between, t.id);
      Corrupted(State(), t.id, Unchanged);
      Corrupt(t.id, Unchanged);
    }

    // What other goroutines do between the two sections of finish.
    method Meanwhile(between: seq<Event>, id: Id)
      requires Valid() && mode == Serving && Over(State(), id) && forall e :: e in between ==> Elsewhere(e)
      modifies this
      ensures Valid() && mode == Serving && old(run) <= run && Over(State(), id)
      ensures between == [] ==> unchanged(this)
    {
      hide IsRun, Init, Step, Traced, Next, Enabled, MaySubmit, NewTask, Sampled;
      for i := 0 to |between|
        invariant Valid() && mode == Serving && old(run) <= run && Over(State(), id)
        invariant between == [] ==> unchanged(this)
      {
        ghost var w := State();
        assert Elsewhere(between[i]);
        match between[i]
        case Pass(d) => Wait(d); TickFields(w, d);
        case Do(s) =>
          if CanServe(s) { Perform(s); ElsewhereKeeps(w, s, id); ServedFields(w, s); }
      }
    }

    // ---- the upload worker ----

    // storeTransfer: the record on disk first; memory shows the change only after that.
    method StoreTransfer(id: Id, c: Change, o: Outcome) returns (ok: bool)
      requires Valid()
      modifies this`disk, this`tasks
      ensures State() == Store(old(State()), id, c, o) && Spelled(old(State()), State(), id, c, o)
      ensures ok <==> old(HasTransfer(id)) && o == Saved
    {
      hide IsRun, Init, Step;
      hide State, Spelled, Store;
      Fields();
      if id in tasks { IdOf(run, State(), id); }
      StoreSpelled(State(), id, c, o);
      ok := StoreRecord(id, c, o);
    }

    method StoreRecord(id: Id, c: Change, o: Outcome) returns (ok: bool)
      requires Valid()
      modifies this`disk, this`tasks
      ensures State() == Store(old(State()), id, c, o)
      ensures ok <==> old(HasTransfer(id)) && o == Saved
    {
      hide IsRun, Init, Step;
      if id !in tasks || tasks[id].s3.None? { return false; }
      IdOf(run, State(), id);
      var t := tasks[id];
      t := t.(s3 := Some(Apply(c, t.s3.value)));
      Persist(t, o);
      if o != Saved {
        var was := tasks[id];
        var s3 := was.s3.value.(code := "state_write_failed", next := Some(now + cfg.retryInitial));
        tasks := tasks[id := was.(s3 := Some(s3))];
        return false;
      }
      tasks := tasks[id := t];
      return true;
    }

    // nextUpload: archives whose time is over are marked; of the eligible transfers the one
    // due first is taken.
    method NextUpload(saves: Id -> Outcome) returns (found: Option<Task>, ghost before: World)
      requires Valid() && mode == Serving && upload == Idle
      modifies this
      ensures Valid() && mode == Serving && old(run) <= run && now == old(now) && tasks.Keys == old(tasks).Keys
      // A finished, unexpired task whose archive's time is over is marked so, in memory once saved.
      ensures forall j :: j in tasks ==>
        var t := old(tasks)[j];
        tasks[j] == if OutOfTime(t, now) && saves(j) == Saved
          then t.(s3 := Some(t.s3.value.(state := Expired, code := "local_result_expired", next := None)))
          else t
      ensures found.None? ==> upload == Idle && forall j :: j in tasks ==> !Eligible(State(), j)
      // What is taken may be transferred, or cleaned up after, and its time has come.
      ensures found.Some? ==>
        var t := found.value;
        && t.s3.Some? && t.state != Running && (t.times.None? || now < t.times.value.taskUntil)
        && var s := t.s3.value;
        && (s.state == Uploaded || s.state == Expired || t.times.None? || now < t.times.value.resultUntil)
        && cfg.enabled && cfg.remote && !degraded && s.target == cfg.target
        && (s.state == Uploaded || s.state == Expired || s.state == Unavailable ==> s.upload.Some?)
        && (s.next.Some? ==> s.next.value <= now)
      ensures found.Some? ==>
        var id := found.value.id;
        && id in tasks && tasks[id] == found.value && found.value.s3.Some?
        && upload == (if Terminal(found.value.s3.value.state) then Cleaning(id, found.value.s3.value)
            else Chosen(id, found.value.s3.value))
        && MaySelect(before, id) && before in run && State() == Served(before, Select(id))
    {
      hide Traced, Enabled, Next, Served, MaySelect, Lapses, Foremost, AfterExpiry, OutOfTime, Eligible;
      ghost var start := State();
      var rest := tasks.Keys;
      var selected: Option<Id>, selectedAt := None, 0;
      NothingSeen(start, saves);
      while rest != {}
        invariant Valid() && mode == Serving && upload == Idle && old(run) <= run && now == old(now) &&
          start == old(State())
        invariant rest <= tasks.Keys == old(tasks).Keys
        invariant Lapses(start, State(), rest, saves) && Foremost(State(), rest, selected, selectedAt)
        decreases |rest|
      {
        var id :| id in rest;
        assert rest - {id} + {id} == rest;
        rest := rest - {id};
        selected, selectedAt := Consider(id, saves, rest, selected, selectedAt, start);
      }
      before := State();
      AllSeen(start, before, saves, selected, selectedAt);
      SeenSpelled(start, before, saves);
      if selected.None? { return None, before; }
      SelectSays(before, selected.value);
      BeforeInRun(run, before);
      Take(selected.value);
      return Some(tasks[selected.value]), before;
    }

    // One task of the loop: it expires when its time is over, and leads when it is due before
    // all that were seen.
    method Consider(id: Id, saves: Id -> Outcome, ghost rest: set<Id>, selected: Option<Id>, selectedAt: Time,
      ghost start: World)
      returns (leader: Option<Id>, leaderAt: Time)
      requires Valid() && mode == Serving && upload == Idle && id in tasks && id !in rest
      requires Lapses(start, State(), rest + {id}, saves) && Foremost(State(), rest + {id}, selected, selectedAt)
      modifies this
      ensures Valid() && mode == Serving && upload == Idle && old(run) <= run && now == old(now) &&
        tasks.Keys == old(tasks).Keys
      ensures Lapses(start, State(), rest, saves) && Foremost(State(), rest, leader, leaderAt)
    {
      hide Traced, Enabled, Next, Lapses, Foremost, Eligible, Overdue;
      ghost var w := State();
      if IsOverdue(id) {
        Lapse(id, saves(id));
        LapsedFields(w, id, saves(id));
      }
      LapsesStep(start, w, State(), rest, saves, id);
      ForemostStep(w, State(), rest, selected, selectedAt, id, saves(id));
      if IsEligible(id) && (selected.None? || DueAt(id) < selectedAt) { return Some(id), DueAt(id); }
      return selected, selectedAt;
    }

    function DueAt(id: Id): Time
      requires id in tasks
      reads this
      ensures DueAt(id) == Due(tasks[id])
    {
      var t := tasks[id];
      if t.s3.Some? && t.s3.value.next.Some? then t.s3.value.next.value else t.received
    }

    predicate IsOverdue(id: Id)
      requires id in tasks
      reads this
      ensures IsOverdue(id) == Overdue(State(), id)
    {
      var t := tasks[id];
      && t.s3.Some? && t.state != Running && !TaskExpired(t, now)
      && t.s3.value.state != Uploaded && ResultExpired(t, now) && t.s3.value.state != Expired
    }

    // The tests of the loop after the one for expiry.
    predicate IsEligible(id: Id)
      requires id in tasks
      reads this
      ensures IsEligible(id) == Eligible(State(), id)
    {
      var t := tasks[id];
      if t.s3.None? || t.state == Running || TaskExpired(t, now) then false
      else
        var s := t.s3.value;
        if s.state != Uploaded && s.state != Expired && ResultExpired(t, now) then false
        else if !cfg.enabled || !cfg.remote || degraded || s.target != cfg.target then false
        else if (s.state == Uploaded || s.state == Unavailable || s.state == Expired) && s.upload.None? then false
        else s.next.None? || now >= s.next.value
    }

    method Lapse(id: Id, o: Outcome)
      requires Valid() && mode == Serving && upload == Idle && Overdue(State(), id)
      modifies this
      ensures Took(Serve(Expire(id, o)))
    {
      hide IsRun, Init, Step, Traced, Enabled, Next;
      ghost var w := State();
      CanServeStep(w, Expire(id, o));
      IdOf(run, w, id);
      var t := tasks[id];
      t := t.(s3 := Some(t.s3.value.(state := Expired, code := "local_result_expired", next := None)));
      Persist(t, o);
      if o == Saved { tasks := tasks[id := t]; } else { assert tasks[id := tasks[id]] == tasks; }
      Log(w, Serve(Expire(id, o)));
    }

    method Take(id: Id)
      requires Valid() && mode == Serving && MaySelect(State(), id)
      modifies this
      ensures Took(Serve(Select(id))) && State() == Served(old(State()), Select(id))
      ensures tasks == old(tasks) && mode == Serving && now == old(now) && tasks[id].id == id && tasks[id].s3.Some?
      ensures cfg == old(cfg) && degraded == old(degraded)
      ensures upload == if Terminal(tasks[id].s3.value.state) then Cleaning(id, tasks[id].s3.value)
        else Chosen(id, tasks[id].s3.value)
    {
      hide IsRun, Init, Step, Traced, Enabled, Next;
      ghost var w := State();
      CanServeStep(w, Select(id));
      IdOf(run, w, id);
      var s := tasks[id].s3.value;
      upload := if Terminal(s.state) then Cleaning(id, s) else Chosen(id, s);
      Log(w, Serve(Select(id)));
    }

    // ---- the sections of transfer: one state write or one remote call each ----

    // The task is there and has a transfer part.
    predicate HasTransfer(id: Id)
      reads this`tasks
    {
      id in tasks && tasks[id].s3.Some?
    }

    // The task is there and not uploaded.
    predicate Short(id: Id)
      reads this`tasks
    {
      id in tasks && tasks[id].s3.Some? && tasks[id].s3.value.state != Uploaded
    }

    // A section leaves clock and settings alone, and makes no task uploaded.
    twostate predicate Steady()
      reads this
    {
      now == old(now) && cfg == old(cfg) && mode == old(mode) &&
          (old(upload != Idle && Short(upload.id)) ==> Short(old(upload.id)))
    }

    twostate predicate SameRecords()
      reads this
    {
      tasks == old(tasks) && disk == old(disk) && objects == old(objects) && live == old(live)
    }

    twostate predicate SameRemote()
      reads this
    {
      objects == old(objects) && owner == old(owner)
    }

    // A section that writes the record, and where the worker stands afterwards.
    method WriteThen(ghost m: Move, c: Change, o: Outcome, good: Position, bad: Position) returns (ok: bool)
      requires Valid() && upload != Idle && MayMove(State(), m) && WriteOf(State(), m) == StateWrite(c, o)
      requires UploadAfter(State(), m) == if StoreOk(State(), upload.id, o) then good else bad
      modifies this
      ensures Took(Upload(m)) && SameRemote() && now == old(now) && cfg == old(cfg) && mode == old(mode)
      ensures c.ToUploaded? || Steady()
      ensures tasks == Store(old(State()), old(upload.id), c, o).mem
      ensures Spelled(old(State()), State(), old(upload.id), c, o)
      ensures ok <==> old(HasTransfer(upload.id)) && o == Saved
      ensures upload == if ok then good else bad
    {
      hide State, Traced, Enabled, Next, Store, MayMove, WriteOf, UploadAfter, Spelled;
      ghost var w := State();
      Fields();
      WriteSection(w, m, c, o);
      StoreKeeps(w, upload.id, c, o);
      StoreShort(w, upload.id, c, o);
      ok := StoreTransfer(upload.id, c, o);
      ghost var v := State();
      MoveTo(if ok then good else bad);
      SameSpelled(w, v, State(), old(upload.id), c, o);
      Log(w, Upload(m));
      Fields();
    }

    method MoveTo(p: Position)
      modifies this`upload
      ensures State() == old(State()).(upload := p)
    {
      upload := p;
    }

    // What a call does at the remote store: an object lands, an upload starts, ends or is lost.
    method Land(s: Transfer, effect: Option<Object>)
      modifies this`objects
      ensures State() == old(State()).(objects := Write(old(State().objects), s, effect))
    {
      if effect.Some? && s.key.Some? { objects := objects[s.key.value := effect.value]; }
    }

    method Start(up: string, id: Id)
      modifies this`live, this`owner
      ensures State() == old(State()).(live := old(State().live) + {up}, owner := old(State().owner)[up := id])
    {
      live := live + {up};
      owner := owner[up := id];
    }

    method End(up: string)
      modifies this`live
      ensures State() == old(State()).(live := old(State().live) - {up})
    {
      live := live - {up};
    }

    method Lose(up: string)
      modifies this`lost
      ensures State() == old(State()).(lost := old(State().lost) + {up})
    {
      lost := lost + {up};
    }

    method Drop()
      requires Valid() && upload.Chosen?
      modifies this
      ensures Took(Upload(AgentWorld.Drop)) && Steady() && SameRemote() && upload == Idle && SameRecords()
    {
      hide IsRun, Init, Step, Traced, Enabled, Next;
      ghost var w := State();
      CallSection(w, AgentWorld.Drop);
      upload := Idle;
      Log(w, Upload(AgentWorld.Drop));
    }

    method Begin(o: Outcome) returns (ok: bool)
      requires Valid() && upload.Chosen?
      modifies this
      ensures Took(Upload(AgentWorld.Begin(o))) && Steady() && SameRemote()
      ensures upload == if ok then Begun(old(upload.id), old(upload.s)) else Idle
      // One attempt more, and no error or waiting time of an earlier one.
      ensures old(HasTransfer(upload.id)) ==>
        var s := old(tasks[upload.id].s3.value);
        Wrote(old(State()), State(), old(upload.id),
              s.(state := Uploading, attempts := s.attempts + 1, code := "", next := None), o)
      ensures ok <==> old(HasTransfer(upload.id)) && o == Saved
    {
      hide IsRun, Init, Step, Traced, Enabled, Next, Store, Wrote;
      ok := WriteThen(AgentWorld.Begin(o), ToUploading, o, Begun(upload.id, upload.s), Idle);
    }

    method Inspect(v: Verdict, o: Outcome)
      requires Valid() && upload.Begun?
      modifies this
      ensures Took(Upload(AgentWorld.Inspect(v, o))) && Steady() && SameRemote()
      ensures upload == var u := old(upload);
        if v == Intact then Verified(u.id, u.s) else if v == Unreadable then AgentWorld.Failing(u.id) else Idle
      ensures (v == NoArchive || v == Differs) && old(HasTransfer(upload.id)) ==>
        var code := if v == NoArchive then "local_result_unavailable" else "local_integrity_mismatch";
        Wrote(old(State()), State(), old(upload.id),
              old(tasks[upload.id].s3.value).(state := Unavailable, code := code), o)
      ensures v == Intact || v == Unreadable ==> tasks == old(tasks) && disk == old(disk)
    {
      hide IsRun, Init, Step, Traced, Enabled, Next, Store, Wrote;
      var u := upload;
      if v == NoArchive {
        var _ := WriteThen(AgentWorld.Inspect(v, o), ToUnavailable("local_result_unavailable"), o, Idle, Idle);
      } else if v == Differs {
        var _ := WriteThen(AgentWorld.Inspect(v, o), ToUnavailable("local_integrity_mismatch"), o, Idle, Idle);
      } else {
        ghost var w := State();
        CallSection(w, AgentWorld.Inspect(v, o));
        upload := if v == Intact then Verified(u.id, u.s) else AgentWorld.Failing(u.id);
        Log(w, Upload(AgentWorld.Inspect(v, o)));
      }
    }

    // What the remote store holds under the key, if it answers.
    method Look(id: Id, s: Transfer, reply: bool) returns (a: AgentWorld.Answer)
      requires s.key.Some?
      ensures Honest(State(), a, id, s) && (a == NoAnswer <==> !reply)
      // A match has size and digest, and on S3 also the agent and the task, of the record.
      ensures reply ==> (a == Absent <==> s.key.value !in objects)
      ensures reply && a != Absent ==>
        var o := objects[s.key.value];
        (a == Matches <==>
           o.size == s.size && o.sha == s.sha && (s.target.yos || (o.agent == cfg.agent && o.task == id)))
    {
      if !reply { return NoAnswer; }
      if s.key.value !in objects { return Absent; }
      return if Agrees(objects[s.key.value], s, cfg.agent, id) then Matches else Conflict;
    }

    method Check(reply: bool) returns (a: AgentWorld.Answer)
      requires Valid() && upload.Verified?
      modifies this
      ensures Took(Upload(AgentWorld.Check(a))) && Steady() && SameRemote()
      ensures upload == AfterCheck(a, old(upload.id), old(upload.s))
      ensures Honest(old(State()), a, old(upload.id), old(upload.s)) && (a == NoAnswer <==> !reply)
    {
      hide IsRun, Init, Step, Traced, Enabled, Next;
      ghost var w := State();
      var id, s := upload.id, upload.s;
      KeyKnown(run, w);
      a := Look(id, s, reply);
      CallSection(w, AgentWorld.Check(a));
      upload := AfterCheck(a, id, s);
      Log(w, Upload(AgentWorld.Check(a)));
    }

    method AbortStale(ok: bool)
      requires Valid() && upload.Stale? && upload.s.upload.Some?
      modifies this
      ensures Took(Upload(AgentWorld.AbortStale(ok))) && Steady() && SameRemote()
      ensures upload == var u := old(upload); if ok then Purged(u.id, u.s, u.missing) else AgentWorld.Failing(u.id)
      ensures live == if ok then old(live) - {old(upload.s.upload.value)} else old(live)
    {
      hide IsRun, Init, Step, Traced, Enabled, Next;
      ghost var w := State();
      CallSection(w, AgentWorld.AbortStale(ok));
      var u := upload;
      if ok { live := live - {u.s.upload.value}; }
      upload := if ok then Purged(u.id, u.s, u.missing) else AgentWorld.Failing(u.id);
      Log(w, Upload(AgentWorld.AbortStale(ok)));
    }

    method ClearStale(o: Outcome) returns (ok: bool)
      requires Valid() && upload.Purged?
      modifies this
      ensures Took(Upload(AgentWorld.ClearStale(o))) && Steady() && SameRemote()
      ensures upload == var u := old(upload);
        if !ok then Idle else if u.missing then Missing(u.id, u.s) else Matched(u.id, u.s)
      ensures old(HasTransfer(upload.id)) ==>
        Wrote(old(State()), State(), old(upload.id), old(tasks[upload.id].s3.value).(upload := None), o)
      ensures ok <==> old(HasTransfer(upload.id)) && o == Saved
    {
      hide IsRun, Init, Step, Traced, Enabled, Next, Store, Wrote;
      var u := upload;
      var cleared := if u.missing then Missing(u.id, u.s) else Matched(u.id, u.s);
      ok := WriteThen(AgentWorld.ClearStale(o), SetUpload(None), o, cleared, Idle);
    }

    method PutWhole(effect: Option<Object>, ack: bool)
      requires Valid() && upload.Missing?
      modifies this
      ensures Took(Upload(AgentWorld.PutWhole(effect, ack))) && Steady() && owner == old(owner) &&
        objects == Write(old(objects), old(upload.s), effect)
      ensures upload == var u := old(upload); if ack then Stored(u.id, u.s) else AgentWorld.Failing(u.id)
      ensures live == old(live)
    {
      hide State, Traced, Enabled, Next;
      ghost var w := State();
      Fields();
      CallSection(w, AgentWorld.PutWhole(effect, ack));
      var u := upload;
      Land(u.s, effect);
      MoveTo(if ack then Stored(u.id, u.s) else AgentWorld.Failing(u.id));
      Log(w, Upload(AgentWorld.PutWhole(effect, ack)));
      Fields();
    }

    method Create(up: string, ack: bool)
      requires Valid() && upload.Missing? && !upload.s.target.yos && up !in owner
      modifies this
      ensures Took(Upload(AgentWorld.Create(up, ack))) && Steady() && objects == old(objects)
      ensures upload == var u := old(upload); if ack then Created(u.id, u.s, up) else AgentWorld.Failing(u.id)
      ensures live == old(live) + {up} && owner == old(owner)[up := old(upload.id)]
    {
      hide State, Traced, Enabled, Next;
      ghost var w := State();
      Fields();
      CallSection(w, AgentWorld.Create(up, ack));
      var u := upload;
      Start(up, u.id);
      if !ack { Lose(up); }
      MoveTo(if ack then Created(u.id, u.s, up) else AgentWorld.Failing(u.id));
      Log(w, Upload(AgentWorld.Create(up, ack)));
      Fields();
    }

    method Checkpoint(o: Outcome) returns (ok: bool)
      requires Valid() && upload.Created?
      modifies this
      ensures Took(Upload(AgentWorld.Checkpoint(o))) && Steady() && SameRemote()
      ensures upload == var u := old(upload); if ok then Sending(u.id, u.s, u.up) else Orphaned(u.id, u.s, u.up)
      ensures old(HasTransfer(upload.id)) ==>
        Wrote(old(State()), State(), old(upload.id),
              old(tasks[upload.id].s3.value).(upload := Some(old(upload.up))), o)
      ensures ok <==> old(HasTransfer(upload.id)) && o == Saved
    {
      hide IsRun, Init, Step, Traced, Enabled, Next, Store, Wrote;
      var u := upload;
      ok := WriteThen(AgentWorld.Checkpoint(o), SetUpload(Some(u.up)), o, Sending(u.id, u.s, u.up),
          Orphaned(u.id, u.s, u.up));
    }

    method AbortOrphan(ok: bool)
      requires Valid() && upload.Orphaned?
      modifies this
      ensures Took(Upload(AgentWorld.AbortOrphan(ok))) && Steady() && SameRemote()
      ensures upload == AgentWorld.Failing(old(upload.id))
      ensures live == if ok then old(live) - {old(upload.up)} else old(live)
    {
      hide IsRun, Init, Step, Traced, Enabled, Next;
      ghost var w := State();
      CallSection(w, AgentWorld.AbortOrphan(ok));
      var u := upload;
      if ok { live := live - {u.up}; } else { lost := lost + {u.up}; }
      upload := AgentWorld.Failing(u.id);
      Log(w, Upload(AgentWorld.AbortOrphan(ok)));
    }

    method SendPart(ok: bool)
      requires Valid() && upload.Sending?
      modifies this
      ensures Took(Upload(AgentWorld.SendPart(ok))) && Steady() && SameRemote()
      ensures upload == var u := old(upload); if ok then u else Undoing(u.id, u.s, u.up)
    {
      hide IsRun, Init, Step, Traced, Enabled, Next;
      ghost var w := State();
      CallSection(w, AgentWorld.SendPart(ok));
      var u := upload;
      if !ok { upload := Undoing(u.id, u.s, u.up); }
      Log(w, Upload(AgentWorld.SendPart(ok)));
    }

    method Complete(effect: Option<Object>, ack: bool)
      requires Valid() && upload.Sending?
      modifies this
      ensures Took(Upload(AgentWorld.Complete(effect, ack))) && Steady() && owner == old(owner) &&
        objects == Write(old(objects), old(upload.s), effect)
      ensures upload == var u := old(upload); if ack then Stored(u.id, u.s) else Undoing(u.id, u.s, u.up)
      ensures live == if effect.Some? || ack then old(live) - {old(upload.up)} else old(live)
    {
      hide State, Traced, Enabled, Next;
      ghost var w := State();
      Fields();
      CallSection(w, AgentWorld.Complete(effect, ack));
      var u := upload;
      Land(u.s, effect);
      if effect.Some? || ack { End(u.up); }
      MoveTo(if ack then Stored(u.id, u.s) else Undoing(u.id, u.s, u.up));
      Log(w, Upload(AgentWorld.Complete(effect, ack)));
      Fields();
    }

    method AbortUndo(ok: bool)
      requires Valid() && upload.Undoing?
      modifies this
      ensures Took(Upload(AgentWorld.AbortUndo(ok))) && Steady() && SameRemote()
      ensures upload == var u := old(upload); if ok then Undone(u.id, u.s) else AgentWorld.Failing(u.id)
      ensures live == if ok then old(live) - {old(upload.up)} else old(live)
    {
      hide IsRun, Init, Step, Traced, Enabled, Next;
      ghost var w := State();
      CallSection(w, AgentWorld.AbortUndo(ok));
      var u := upload;
      if ok { live := live - {u.up}; }
      upload := if ok then Undone(u.id, u.s) else AgentWorld.Failing(u.id);
      Log(w, Upload(AgentWorld.AbortUndo(ok)));
    }

    method Forget(o: Outcome)
      requires Valid() && upload.Undone?
      modifies this
      ensures Took(Upload(AgentWorld.Forget(o))) && Steady() && SameRemote()
      ensures old(HasTransfer(upload.id)) ==>
        Wrote(old(State()), State(), old(upload.id), old(tasks[upload.id].s3.value).(upload := None), o)
      ensures upload == AgentWorld.Failing(old(upload.id))
    {
      hide IsRun, Init, Step, Traced, Enabled, Next, Store, Wrote;
      var next := AgentWorld.Failing(upload.id);
      var _ := WriteThen(AgentWorld.Forget(o), SetUpload(None), o, next, next);
    }

    method CheckAgain(reply: bool) returns (a: AgentWorld.Answer)
      requires Valid() && upload.Stored?
      modifies this
      ensures Took(Upload(AgentWorld.CheckAgain(a))) && Steady() && SameRemote()
      ensures upload == var u := old(upload); if a == Matches then Matched(u.id, u.s) else AgentWorld.Failing(u.id)
      ensures Honest(old(State()), a, old(upload.id), old(upload.s)) && (a == NoAnswer <==> !reply)
    {
      hide IsRun, Init, Step, Traced, Enabled, Next;
      ghost var w := State();
      var id, s := upload.id, upload.s;
      KeyKnown(run, w);
      a := Look(id, s, reply);
      CallSection(w, AgentWorld.CheckAgain(a));
      upload := if a == Matches then Matched(id, s) else AgentWorld.Failing(id);
      Log(w, Upload(AgentWorld.CheckAgain(a)));
    }

    method GiveUp()
      requires Valid() && upload.Matched?
      modifies this
      ensures Took(Upload(AgentWorld.GiveUp)) && Steady() && SameRemote()
      ensures upload == AgentWorld.Failing(old(upload.id))
    {
      hide IsRun, Init, Step, Traced, Enabled, Next;
      ghost var w := State();
      CallSection(w, AgentWorld.GiveUp);
      upload := AgentWorld.Failing(upload.id);
      Log(w, Upload(AgentWorld.GiveUp));
    }

    method Commit(o: Outcome)
      requires Valid() && upload.Matched?
      modifies this
      ensures Took(Upload(AgentWorld.Commit(o))) && SameRemote() && mode == old(mode) && cfg == old(cfg)
      ensures old(Short(upload.id)) ==> var id := old(upload.id); id in tasks && (IsUploaded(tasks[id]) <==> o == Saved)
      ensures old(HasTransfer(upload.id)) ==>
        Wrote(old(State()), State(), old(upload.id),
              old(tasks[upload.id].s3.value).(state := Uploaded, uploadedAt := Some(old(now)), upload := None,
                                              next := None, code := ""), o)
      ensures upload == Idle
    {
      hide IsRun, Init, Step, Traced, Enabled, Next, Store, Wrote;
      CommitShows(State(), upload.id, now, o);
      var _ := WriteThen(AgentWorld.Commit(o), ToUploaded(now), o, Idle, Idle);
    }

    method CleanAbort(ok: bool)
      requires Valid() && upload.Cleaning? && upload.s.upload.Some?
      modifies this
      ensures Took(Upload(AgentWorld.CleanAbort(ok))) && Steady() && SameRemote()
      ensures upload == var u := old(upload); if ok then Cleaned(u.id) else AgentWorld.Failing(u.id)
      ensures live == if ok then old(live) - {old(upload.s.upload.value)} else old(live)
    {
      hide IsRun, Init, Step, Traced, Enabled, Next;
      ghost var w := State();
      CallSection(w, AgentWorld.CleanAbort(ok));
      var u := upload;
      if ok { live := live - {u.s.upload.value}; }
      upload := if ok then Cleaned(u.id) else AgentWorld.Failing(u.id);
      Log(w, Upload(AgentWorld.CleanAbort(ok)));
    }

    method CleanForget(o: Outcome)
      requires Valid() && upload.Cleaned?
      modifies this
      ensures Took(Upload(AgentWorld.CleanForget(o))) && Steady() && SameRemote()
      ensures upload == Idle
      ensures old(HasTransfer(upload.id)) ==>
        Wrote(old(State()), State(), old(upload.id), old(tasks[upload.id].s3.value).(upload := None, next := None), o)
      ensures o == Saved && Tracked(old(State()), old(upload.id)) ==> UploadOf(tasks[old(upload.id)]) == None
    {
      hide IsRun, Init, Step, Traced, Enabled, Next, Store, Wrote;
      ForgetShows(State(), upload.id, o);
      var _ := WriteThen(AgentWorld.CleanForget(o), ClearUpload, o, Idle, Idle);
    }

    // The delay of retryTransfer: doubled per attempt, capped and jittered.
    method Backoff(attempts: int, random: nat) returns (wait: int)
      requires 0 < cfg.retryInitial <= cfg.retryMax <= Planning.MAX
      ensures var d := Planning.Delay(cfg.retryInitial, cfg.retryMax, attempts); d / 2 <= wait < d
    {
      var delay := Planning.RetryDelay(cfg.retryInitial as Planning.int64, cfg.retryMax as Planning.int64, attempts);
      var d := delay as int;
      Planning.DelayMonotone(cfg.retryInitial, cfg.retryMax, attempts, attempts);
      var jitter := random % Planning.Max(1, d - d / 2);
      Planning.JitterBounds(d, jitter);
      wait := Planning.Jittered(d, jitter);
    }

    // retryTransfer.
    method RetryTransfer(code: string, random: nat, o: Outcome) returns (at: Time)
      requires Valid() && upload.Failing? && 0 < cfg.retryInitial <= cfg.retryMax <= Planning.MAX
      modifies this
      ensures Took(Upload(AgentWorld.Retry(code, at, o))) && upload == Idle && Steady() && SameRemote()
      ensures Tracked(old(State()), old(upload.id)) ==>
        var d := Planning.Delay(cfg.retryInitial, cfg.retryMax, old(tasks[upload.id].s3.value.attempts));
        now + d / 2 <= at < now + d
      // Unless the transfer is over it waits for its next attempt, which is due at `at`; a retry
      // that could not be written is due after the initial delay. Attempts, object and upload id stay.
      ensures old(HasTransfer(upload.id)) ==>
        var s := old(tasks[upload.id].s3.value);
        var over := s.state == Expired || s.state == Unavailable || s.state == Uploaded;
        Wrote(old(State()), State(), old(upload.id),
              s.(state := if over then s.state else RetryWait, code := code, next := Some(at)), o)
    {
      hide IsRun, Init, Step, Traced, Enabled, Next, Planning.Delay, Wrote;
      var id := upload.id;
      var wait := Backoff(if id in tasks && tasks[id].s3.Some? then tasks[id].s3.value.attempts else 0, random);
      at := now + wait;
      Reschedule(code, at, o);
    }

    method Reschedule(code: string, at: Time, o: Outcome)
      requires Valid() && upload.Failing?
      modifies this
      ensures Took(Upload(AgentWorld.Retry(code, at, o))) && upload == Idle && Steady() && SameRemote()
      ensures old(HasTransfer(upload.id)) ==>
        var s := old(tasks[upload.id].s3.value);
        var over := s.state == Expired || s.state == Unavailable || s.state == Uploaded;
        Wrote(old(State()), State(), old(upload.id),
              s.(state := if over then s.state else RetryWait, code := code, next := Some(at)), o)
    {
      hide IsRun, Init, Step, Traced, Enabled, Next, Store, Wrote;
      var _ := WriteThen(AgentWorld.Retry(code, at, o), ToRetry(code, at), o, Idle, Idle);
    }

    // Put: whole, or in parts under an upload id that is saved before any part is sent.
    method Put(luck: Luck, during: nat -> seq<Event>) returns (stored: bool)
      requires Valid() && mode == Serving && upload.Missing?
      modifies this
      ensures Valid() && mode == Serving && old(run) <= run && cfg == old(cfg)
      ensures upload == if stored then Stored(old(upload.id), old(upload.s)) else AgentWorld.Failing(old(upload.id))
      ensures Alone(during) && old(Short(upload.id)) ==> Steady() && (stored <==> Puts(old(upload.s), luck, old(owner)))
      ensures Alone(during) && stored ==> objects == Write(old(objects), old(upload.s), luck.effect)
      // Up to 64 MiB, and on YOS always, it is one call and starts no multipart upload.
      ensures old(upload.s.target.yos || upload.s.size <= 67108864) ==> live == old(live) && owner == old(owner)
    {
      hide IsRun, Init, Step, Traced, Enabled, Next, Planning.PartSize;
      var id, s := upload.id, upload.s;
      if s.target.yos || s.size <= MULTIPART_THRESHOLD {
        PutWhole(luck.effect, luck.ack);
        return luck.ack;
      }
      stored := PutParts(luck, during);
    }

    method PutParts(luck: Luck, during: nat -> seq<Event>) returns (stored: bool)
      requires Valid() && mode == Serving && upload.Missing? && !upload.s.target.yos &&
        upload.s.size > MULTIPART_THRESHOLD
      modifies this
      ensures Valid() && mode == Serving && old(run) <= run && cfg == old(cfg)
      ensures upload == if stored then Stored(old(upload.id), old(upload.s)) else AgentWorld.Failing(old(upload.id))
      ensures Alone(during) && old(Short(upload.id)) ==> Steady() && (stored <==> Puts(old(upload.s), luck, old(owner)))
      ensures Alone(during) && stored ==> objects == Write(old(objects), old(upload.s), luck.effect)
    {
      hide IsRun, Init, Step, Traced, Enabled, Next, Planning.PartSize, SectionCount;
      if luck.create.Refused? || luck.create.up in owner || !Sectioned(upload.s.size) {
        PutWhole(None, false);
        return false;
      }
      Create(luck.create.up, luck.create.Made?);
      if !luck.create.Made? { return false; }
      Others(during(4));
      var saved := Checkpoint(luck.checkpoint);
      if !saved {
        AbortOrphan(luck.undo);
        return false;
      }
      stored := SendParts(luck, during);
    }

    // The parts, the completion, and the clean-up when one of them fails.
    method SendParts(luck: Luck, during: nat -> seq<Event>) returns (stored: bool)
      requires Valid() && mode == Serving && upload.Sending?
      requires MULTIPART_THRESHOLD < upload.s.size && Sectioned(upload.s.size)
      modifies this
      ensures Valid() && mode == Serving && old(run) <= run && cfg == old(cfg)
      ensures upload == if stored then Stored(old(upload.id), old(upload.s)) else AgentWorld.Failing(old(upload.id))
      ensures Alone(during) ==>
        Steady() && (stored <==> (forall i :: 0 <= i < SectionCount(old(upload.s.size)) ==> luck.parts(i)) && luck.ack)
      ensures Alone(during) && stored ==> objects == Write(old(objects), old(upload.s), luck.effect)
    {
      hide State, Traced, Enabled, Next, Planning.PartSize, SectionCount, Sectioned;
      var n := CountSections(upload.s.size);
      var sent := SendAll(n, luck, during);
      if !sent {
        Undo(luck);
        return false;
      }
      Complete(luck.effect, luck.ack);
      if !luck.ack { Undo(luck); }
      return luck.ack;
    }

    method SendAll(n: nat, luck: Luck, during: nat -> seq<Event>) returns (sent: bool)
      requires Valid() && mode == Serving && upload.Sending?
      modifies this
      ensures Valid() && mode == Serving && old(run) <= run && cfg == old(cfg)
      ensures upload == var u := old(upload); if sent then u else Undoing(u.id, u.s, u.up)
      ensures Alone(during) ==> Steady() && SameRemote() && (sent <==> forall i :: 0 <= i < n ==> luck.parts(i))
    {
      hide IsRun, Init, Step, Traced, Enabled, Next;
      for i := 0 to n
        invariant Valid() && mode == Serving && old(run) <= run && cfg == old(cfg) && upload == old(upload)
        invariant Alone(during) ==> Steady() && SameRemote() && forall j :: 0 <= j < i ==> luck.parts(j)
      {
        Others(during(i + 8));
        SendPart(luck.parts(i));
        if !luck.parts(i) { return false; }
      }
      return true;
    }

    method CountSections(size: int) returns (n: nat)
      requires MULTIPART_THRESHOLD < size && Sectioned(size)
      ensures n == SectionCount(size)
    {
      var sections := Planning.Sections(size as Planning.int64);
      n := |sections|;
    }

    // The deferred clean-up of Put: abort, and forget the id only after that.
    method Undo(luck: Luck)
      requires Valid() && mode == Serving && upload.Undoing?
      modifies this
      ensures Valid() && mode == Serving && old(run) <= run && upload == AgentWorld.Failing(old(upload.id)) &&
        Steady() && SameRemote()
    {
      hide IsRun, Init, Step, Traced, Enabled, Next;
      AbortUndo(luck.undo);
      if luck.undo { Forget(luck.forget); }
    }

    // transfer: one attempt for the selected task. It always ends, leaving the worker free;
    // left alone, it ends uploaded exactly when its calls come out as they must.
    method Transfer(t: Task, luck: Luck, during: nat -> seq<Event>)
      requires Valid() && mode == Serving && t.s3.Some? && 0 < cfg.retryInitial <= cfg.retryMax <= Planning.MAX
      requires upload == if Terminal(t.s3.value.state) then Cleaning(t.id, t.s3.value) else Chosen(t.id, t.s3.value)
      modifies this
      ensures Valid() && mode == Serving && old(run) <= run && upload == Idle && cfg == old(cfg)
      ensures Alone(during) && old(t.id in tasks && tasks[t.id] == t) && !Terminal(t.s3.value.state) ==>
        t.id in tasks &&
        (IsUploaded(tasks[t.id]) <==>
           && Passes(t, luck, old(objects), cfg.agent, old(now))
           && Lands(t.s3.value.upload.Some?, if t.s3.value.key.value in old(objects) then Matches else Absent,
                    t.id, t.s3.value, luck, old(owner), cfg.agent))
      // Nothing is done for an archive whose time is over.
      ensures !Terminal(t.s3.value.state) && (t.times.None? || t.times.value.resultUntil <= old(now)) ==> SameRecords()
      // A finished transfer only gives up the upload id it left behind.
      ensures Alone(during) && old(t.id in tasks && tasks[t.id] == t) && Terminal(t.s3.value.state) ==>
        luck.abort && luck.clear == Saved ==>
        t.id in tasks && UploadOf(tasks[t.id]) == None
    {
      hide IsRun, Init, Step, Traced, Enabled, Next, Passes, Lands;
      if upload.Cleaning? {
        ClearLeftover(luck, during);
      } else {
        var seen := Examine(t, luck, during);
        if seen.Some? { Settle(seen.value, luck, during); }
      }
    }

    // A finished transfer left an upload id behind: abort it, then forget it.
    method ClearLeftover(luck: Luck, during: nat -> seq<Event>)
      requires Valid() && mode == Serving && upload.Cleaning? && 0 < cfg.retryInitial <= cfg.retryMax <= Planning.MAX
      modifies this
      ensures Valid() && mode == Serving && old(run) <= run && upload == Idle && cfg == old(cfg)
      ensures Alone(during) && old(Tracked(State(), upload.id)) && luck.abort && luck.clear == Saved ==>
        old(upload.id) in tasks && UploadOf(tasks[old(upload.id)]) == None
    {
      LeftoverKnown(run, State());
      hide IsRun, Init, Step, Traced, Enabled, Next;
      CleanAbort(luck.abort);
      if !luck.abort { Retry(luck); return; }
      Others(during(0));
      CleanForget(luck.clear);
    }

    // The archive is in time, and it is what the record says.
    method Prove(t: Task, luck: Luck, during: nat -> seq<Event>) returns (ok: bool)
      requires Valid() && mode == Serving && t.s3.Some? && 0 < cfg.retryInitial <= cfg.retryMax <= Planning.MAX
      requires upload == Chosen(t.id, t.s3.value)
      modifies this
      ensures Valid() && mode == Serving && old(run) <= run && cfg == old(cfg)
      ensures upload == if ok then Verified(t.id, t.s3.value) else Idle
      ensures Alone(during) && old(Short(t.id)) ==>
        Short(t.id) && (ok <==>
            t.times.Some? && !ResultExpired(t, old(now)) && luck.begin == Saved && luck.verdict == Intact)
      ensures Alone(during) ==> SameRemote()
      ensures t.times.None? || t.times.value.resultUntil <= old(now) ==> !ok && SameRecords()
    {
      hide IsRun, Init, Step, Traced, Enabled, Next;
      if t.times.None? || ResultExpired(t, now) {
        Drop();
        return false;
      }
      var begun := Begin(luck.begin);
      if !begun { return false; }
      Others(during(0));
      Inspect(luck.verdict, luck.inspect);
      if luck.verdict == Unreadable { Retry(luck); }
      return luck.verdict == Intact;
    }

    // Up to the first check of the remote object.
    method Examine(t: Task, luck: Luck, during: nat -> seq<Event>) returns (seen: Option<AgentWorld.Answer>)
      requires Valid() && mode == Serving && t.s3.Some? && 0 < cfg.retryInitial <= cfg.retryMax <= Planning.MAX
      requires upload == Chosen(t.id, t.s3.value)
      modifies this
      ensures Valid() && mode == Serving && old(run) <= run && cfg == old(cfg) && t.s3.value.key.Some?
      ensures if seen.Some? then seen.value == Absent || seen.value == Matches else upload == Idle
      ensures seen.Some? ==> upload == AfterCheck(seen.value, t.id, t.s3.value)
      ensures Alone(during) && old(Short(t.id)) ==>
        Short(t.id) && owner == old(owner) && (seen.Some? <==> Passes(t, luck, old(objects), cfg.agent, old(now)))
      ensures Alone(during) && seen.Some? ==>
        seen.value == if t.s3.value.key.value in old(objects) then Matches else Absent
      ensures t.times.None? || t.times.value.resultUntil <= old(now) ==> seen.None? && SameRecords()
    {
      KeyKnown(run, State());
      hide IsRun, Init, Step, Traced, Enabled, Next;
      var ok := Prove(t, luck, during);
      if !ok { return None; }
      Others(during(1));
      seen := FirstCheck(luck);
    }

    method FirstCheck(luck: Luck) returns (seen: Option<AgentWorld.Answer>)
      requires Valid() && mode == Serving && upload.Verified? && upload.s.key.Some? &&
        0 < cfg.retryInitial <= cfg.retryMax <= Planning.MAX
      modifies this
      ensures Valid() && mode == Serving && old(run) <= run && Steady() && SameRemote()
      ensures var u, at := old(upload), old(objects);
        seen.Some? <==> luck.reply && (u.s.key.value in at ==> Agrees(at[u.s.key.value], u.s, cfg.agent, u.id))
      ensures seen.Some? ==> seen.value == if old(upload.s.key.value in objects) then Matches else Absent
      ensures upload == if seen.Some? then AfterCheck(seen.value, old(upload.id), old(upload.s)) else Idle
    {
      hide IsRun, Init, Step, Traced, Enabled, Next, Agrees;
      var a := Check(luck.reply);
      if a == Conflict || a == NoAnswer { Retry(luck); return None; }
      return Some(a);
    }

    // From the first check on: an earlier multipart upload goes, a missing object is put and
    // checked again, and only a match is recorded.
    method Settle(seen: AgentWorld.Answer, luck: Luck, during: nat -> seq<Event>)
      requires Valid() && mode == Serving && 0 < cfg.retryInitial <= cfg.retryMax <= Planning.MAX
      requires seen == Absent || seen == Matches
      requires (upload.Missing? || upload.Matched? || upload.Stale?) && upload == AfterCheck(seen, upload.id, upload.s)
      modifies this
      ensures Valid() && mode == Serving && old(run) <= run && upload == Idle && cfg == old(cfg)
      ensures Alone(during) && old(Short(upload.id)) ==>
        var u := old(upload);
        u.id in tasks && (IsUploaded(tasks[u.id]) <==> Lands(u.Stale?, seen, u.id, u.s, luck, old(owner), cfg.agent))
    {
      hide IsRun, Init, Step, Traced, Enabled, Next, Puts;
      var id, s := upload.id, upload.s;
      if upload.Stale? {
        var ok := ClearOld(luck, during);
        if !ok { return; }
      }
      Others(during(3));
      if seen == Absent {
        var matched := Supply(luck, during);
        if !matched { return; }
      }
      Record(luck, during);
    }

    // An earlier multipart upload is aborted, then forgotten.
    method ClearOld(luck: Luck, during: nat -> seq<Event>) returns (ok: bool)
      requires Valid() && mode == Serving && upload.Stale? && upload.s.upload.Some? &&
        0 < cfg.retryInitial <= cfg.retryMax <= Planning.MAX
      modifies this
      ensures Valid() && mode == Serving && old(run) <= run && cfg == old(cfg)
      ensures upload == var u := old(upload);
        if !ok then Idle else if u.missing then Missing(u.id, u.s) else Matched(u.id, u.s)
      ensures Alone(during) && old(Short(upload.id)) ==>
        Short(old(upload.id)) && SameRemote() && (ok <==> luck.abort && luck.clear == Saved)
    {
      hide IsRun, Init, Step, Traced, Enabled, Next;
      AbortStale(luck.abort);
      if !luck.abort { Retry(luck); return false; }
      Others(during(2));
      ok := ClearStale(luck.clear);
    }

    // Put, and the check that the put did what it should.
    method Supply(luck: Luck, during: nat -> seq<Event>) returns (matched: bool)
      requires Valid() && mode == Serving && upload.Missing? && 0 < cfg.retryInitial <= cfg.retryMax <= Planning.MAX
      modifies this
      ensures Valid() && mode == Serving && old(run) <= run && cfg == old(cfg)
      ensures upload == if matched then Matched(old(upload.id), old(upload.s)) else Idle
      ensures Alone(during) && old(Short(upload.id)) ==>
        var u := old(upload);
        && Short(u.id)
        && (matched <==>
            && Puts(u.s, luck, old(owner))
            && luck.effect.Some? && Agrees(luck.effect.value, u.s, cfg.agent, u.id) && luck.replyAgain)
    {
      KeyVacant(run, State());
      hide IsRun, Init, Step, Traced, Enabled, Next, Puts, Agrees;
      var stored := Put(luck, during);
      if !stored { Retry(luck); return false; }
      Others(during(5));
      matched := Confirm(luck);
    }

    method Confirm(luck: Luck) returns (matched: bool)
      requires Valid() && mode == Serving && upload.Stored? && 0 < cfg.retryInitial <= cfg.retryMax <= Planning.MAX
      modifies this
      ensures Valid() && mode == Serving && old(run) <= run && Steady() && SameRemote()
      ensures upload == if matched then Matched(old(upload.id), old(upload.s)) else Idle
      ensures var u := old(upload);
        && u.s.key.Some?
        && (matched <==> luck.replyAgain && Present(old(State()), u.id, u.s))
    {
      KeyKnown(run, State());
      hide IsRun, Init, Step, Traced, Enabled, Next, Agrees;
      var again := CheckAgain(luck.replyAgain);
      if again != Matches { Retry(luck); return false; }
      return true;
    }

    method Record(luck: Luck, during: nat -> seq<Event>)
      requires Valid() && mode == Serving && upload.Matched? && 0 < cfg.retryInitial <= cfg.retryMax <= Planning.MAX
      modifies this
      ensures Valid() && mode == Serving && old(run) <= run && upload == Idle && cfg == old(cfg)
      ensures Alone(during) && old(Short(upload.id)) ==>
        var id := old(upload.id); id in tasks && (IsUploaded(tasks[id]) <==> !luck.cancelled && luck.commit == Saved)
    {
      hide IsRun, Init, Step, Traced, Enabled, Next;
      if luck.cancelled {
        GiveUp();
        Retry(luck);
        return;
      }
      Others(during(6));
      Commit(luck.commit);
    }

    method Retry(luck: Luck)
      requires Valid() && mode == Serving && upload.Failing? && 0 < cfg.retryInitial <= cfg.retryMax <= Planning.MAX
      modifies this
      ensures Valid() && mode == Serving && old(run) <= run && upload == Idle && Steady() && SameRemote()
    {
      hide IsRun, Init, Step, Traced, Enabled, Next;
      var _ := RetryTransfer(luck.code, luck.random, luck.retry);
    }

    // ---- recover ----

    // The first loop of recover: every valid record that can be read is taken in; a request with
    // two unexpired tasks is left out of the table and degrades the agent, as does everything
    // that is not taken in. `damage`: an entry that is no task. Without a list of the tasks
    // nothing is read.
    method Load(listed: bool, unread: set<Id>, damage: bool)
      requires Valid() && mode == Loading
      modifies this
      ensures Took(Again(AgentWorld.Load(if listed then unread else old(disk).Keys, requests, degraded)))
      ensures tasks == Readable(old(State()), if listed then unread else old(disk).Keys) && Owners(requests, tasks, now)
      ensures degraded <==> !listed || damage || Ambiguous(tasks, now) || tasks.Keys != disk.Keys
      ensures mode == Recovering(tasks.Keys) && (!listed ==> tasks == map[])
      ensures forall id :: id in tasks <==>
        listed && id in old(disk) && id !in unread && ValidRecord(old(disk)[id].cur, id, cfg.agent)
      ensures forall id :: id in tasks ==> tasks[id] == old(disk)[id].cur
      ensures disk == old(disk) && now == old(now) && cfg == old(cfg)
    {
      hide State, Traced, Enabled, Next, Owners, Ambiguous, Readable, ValidRecord;
      Fields();
      ReadableSays(State(), if listed then unread else disk.Keys);
      TakeAll(listed, unread, damage);
    }

    method TakeAll(listed: bool, unread: set<Id>, damage: bool)
      requires Valid() && mode == Loading
      modifies this
      ensures Took(Again(AgentWorld.Load(if listed then unread else old(disk).Keys, requests, degraded)))
      ensures tasks == Readable(old(State()), if listed then unread else old(disk).Keys) && Owners(requests, tasks, now)
      ensures degraded <==> !listed || damage || Ambiguous(tasks, now) || tasks.Keys != disk.Keys
      ensures mode == Recovering(tasks.Keys) && (!listed ==> tasks == map[])
      ensures disk == old(disk) && now == old(now) && cfg == old(cfg)
    {
      hide Traced, Enabled, Next, Owners, Ambiguous, Readable;
      ghost var w := State();
      LoadingIsEmpty(run, w);
      ReadAll(listed, unread, damage);
      mode := Recovering(tasks.Keys);
      ghost var load := AgentWorld.Load(if listed then unread else w.disk.Keys, requests, degraded);
      CanRestart(w, load);
      Log(w, Again(load));
    }

    method ReadAll(listed: bool, unread: set<Id>, damage: bool)
      requires tasks == map[] && requests == map[]
      modifies this`tasks, this`requests, this`degraded
      ensures tasks == Readable(old(State()), if listed then unread else old(disk).Keys) && Owners(requests, tasks, now)
      ensures degraded <==> !listed || damage || Ambiguous(tasks, now) || tasks.Keys != disk.Keys
      ensures !listed ==> tasks == map[]
    {
      hide Owners, Ambiguous, Readable;
      if listed {
        Scan(unread, damage);
      } else {
        NoneRead(State());
        degraded := true;
      }
    }

    method Scan(unread: set<Id>, damage: bool)
      requires tasks == map[] && requests == map[]
      modifies this`tasks, this`requests, this`degraded
      ensures tasks == Readable(old(State()), unread) && Owners(requests, tasks, now)
      ensures degraded <==> damage || Ambiguous(tasks, now) || tasks.Keys != disk.Keys
    {
      hide ValidRecord, Owners, Ambiguous, Scanned, Readable, ReadUpTo;
      degraded := damage;
      var ambiguous: set<string> := {};
      var rest := disk.Keys;
      NothingScanned(now);
      NothingRead(disk, unread, cfg.agent);
      while rest != {}
        invariant rest <= disk.Keys && Scanned(tasks, requests, now, ambiguous) &&
          ReadUpTo(tasks, disk, unread, cfg.agent, rest)
        invariant degraded <==> damage || ambiguous != {} || tasks.Keys != disk.Keys - rest
        decreases |rest|
      {
        var id :| id in rest;
        ReadNext(tasks, disk, unread, cfg.agent, rest, id);
        rest := rest - {id};
        if id in unread || !ValidRecord(disk[id].cur, id, cfg.agent) {
          degraded := true;
        } else {
          ambiguous := TakeIn(id, disk[id].cur, ambiguous);
        }
      }
      ScannedOwners(tasks, requests, now, ambiguous);
      AllRead(old(State()), unread, tasks);
    }

    method TakeIn(id: Id, t: Task, ambiguous: set<string>) returns (twice: set<string>)
      requires id !in tasks && Scanned(tasks, requests, now, ambiguous)
      modifies this`tasks, this`requests, this`degraded
      ensures tasks == old(tasks)[id := t] && Scanned(tasks, requests, now, twice) && ambiguous <= twice
      ensures degraded <==> old(degraded) || twice != ambiguous || (!TaskExpired(t, now) && t.request in old(requests))
      ensures !TaskExpired(t, now) && t.request in old(requests) ==> twice != {}
    {
      hide Scanned, TaskExpired;
      twice := ambiguous;
      if TaskExpired(t, now) {
        TakeExpired(tasks, requests, now, ambiguous, id, t);
      } else {
        TakeOwner(tasks, requests, now, ambiguous, id, t);
        if t.request in requests {
          degraded := true;
          twice := twice + {t.request};
          requests := requests - {t.request};
        } else if t.request !in twice {
          requests := requests[t.request := id];
        }
      }
      tasks := tasks[id := t];
    }

    // The loop is through with this task.
    method Through(id: Id)
      requires State().mode.Recovering?
      modifies this`mode
      ensures State() == old(State()).(mode := Done(old(State()), id))
    {
      mode := Recovering(mode.todo - {id});
    }

    // The second loop of recover, task by task: a running task is marked interrupted before
    // anything is rebuilt.
    method Mark(id: Id, o: Outcome)
      requires Valid() && Waits(State(), id) && tasks[id].state == Running
      modifies this
      ensures Took(Again(AgentWorld.Mark(id, o)))
      // It is interrupted now, and stays so; only a saved mark lets recovery go on with it.
      ensures id in old(tasks) && tasks == old(tasks)[id := tasks[id]] && OnDisk(old(disk), disk, tasks[id], o)
      ensures Interrupts(old(tasks)[id], old(now), old(cfg), tasks[id])
      ensures old(mode.Recovering?) && degraded == (old(degraded) || o != Saved) && now == old(now) && cfg == old(cfg)
      ensures mode == if o == Saved then old(mode) else Recovering(old(mode.todo) - {id})
    {
      hide State, Traced, Enabled, Next, Stopped, OnDisk;
      ghost var w := State();
      Fields();
      IdOf(run, w, id);
      MarkIs(w, id, o);
      var t := Interrupt(tasks[id]);
      Show(t, o);
      if o != Saved {
        Degrade();
        Through(id);
      }
      Log(w, Again(AgentWorld.Mark(id, o)));
      Fields();
    }

    method Interrupt(t: Task) returns (stopped: Task)
      ensures stopped == Stopped(t, State()) && stopped.id == t.id && Interrupts(t, now, cfg, stopped)
    {
      stopped := t.(state := Interrupted);
      if stopped.times.None? {
        stopped := stopped.(times := Some(Times(now, now + cfg.resultKeep, now + cfg.taskKeep)));
      }
      stopped := stopped.(errors := true, phase := Packaging);
    }

    // repairAndFinish: `t` has the counts of the repaired log; the entry of memory shows the
    // finished task even when it could not be saved.
    method Rebuild(id: Id, t: Task, built: Option<Archive>, damage: bool, o: Outcome)
      requires Valid() && MayRestart(State(), AgentWorld.Rebuild(id, t, built, damage, o))
      modifies this
      ensures Took(Again(AgentWorld.Rebuild(id, t, built, damage, o)))
      ensures id in old(tasks) && tasks == old(tasks)[id := tasks[id]] && OnDisk(old(disk), disk, tasks[id], o)
      ensures Ends(t.(errors := true), built, old(now), old(cfg), tasks[id]) && degraded == (old(degraded) || damage)
      ensures old(mode.Recovering?) && mode == Recovering(old(mode.todo) - {id}) && now == old(now) && cfg == old(cfg)
    {
      hide State, Traced, Enabled, Next, Finalized, OnDisk, Ends;
      ghost var w := State();
      Fields();
      IdOf(run, w, id);
      CanRestart(w, AgentWorld.Rebuild(id, t, built, damage, o));
      if damage { Degrade(); }
      var f := Conclude(t.(errors := true), built);
      FinalizedId(t.(errors := true), built, w);
      Show(f, o);
      Through(id);
      Log(w, Again(AgentWorld.Rebuild(id, t, built, damage, o)));
      Fields();
    }

    // A finished task whose archive should be there.
    method Recheck(id: Id, intact: bool, o: Outcome)
      requires Valid() && MayRestart(State(), AgentWorld.Recheck(id, intact, o))
      modifies this
      ensures Took(Again(AgentWorld.Recheck(id, intact, o)))
      // An archive that is offered, in time, and not what the record says is taken back.
      ensures id in old(tasks) && old(mode.Recovering?) && mode == Recovering(old(mode.todo) - {id})
      ensures now == old(now) && cfg == old(cfg)
      ensures var t := old(tasks)[id];
        if t.available && (t.times.None? || old(now) < t.times.value.resultUntil) && !intact then
          && tasks == old(tasks)[id := t.(available := false, errors := true)]
          && OnDisk(old(disk), disk, tasks[id], o) && degraded == (old(degraded) || o != Saved)
        else tasks == old(tasks) && disk == old(disk) && degraded == old(degraded)
    {
      hide State, Traced, Enabled, Next, MayRestart, OnDisk;
      ghost var w := State();
      Fields();
      RecheckIs(w, id, intact, o);
      IdOf(run, w, id);
      if tasks[id].available && !ResultExpired(tasks[id], now) && !intact {
        Show(tasks[id].(available := false, errors := true), o);
        if o != Saved { Degrade(); }
      }
      Through(id);
      Log(w, Again(AgentWorld.Recheck(id, intact, o)));
      Fields();
    }

    // recover as a whole: load, then every task by its state, then cleanup; without a list of the
    // tasks it ends after the load.
    method Recover(listed: bool, unread: set<Id>, damage: bool, found: Id -> Found, how: Id -> Removal)
      requires Valid() && mode == Loading && forall id :: GoodArchive(found(id).built)
      modifies this
      ensures Valid() && mode == Serving && old(run) <= run && upload == Idle && active == None
      // No task is left running, and on an agent that is not degraded none is left unpackaged.
      ensures forall id :: id in tasks ==> tasks[id].state != Running && (!degraded ==> tasks[id].phase == Finished)
      ensures forall id :: id in tasks && TaskExpired(tasks[id], now) ==> how(id) == Half
      ensures tasks.Keys <= Readable(old(State()), if listed then unread else old(disk).Keys).Keys &&
        (!listed ==> tasks == map[])
      // Every task that stays is what its record, its log and its archive make of it.
      ensures forall id :: id in tasks ==>
        id in old(disk) && Restored(old(disk)[id].cur, found(id), now, cfg, tasks[id])
      // Every record that can be read has its task, unless that is over.
      ensures forall id ::
        listed && id in old(disk) && id !in unread && ValidRecord(old(disk)[id].cur, id, cfg.agent) ==>
        id in tasks || exists t :: Restored(old(disk)[id].cur, found(id), now, cfg, t) && TaskExpired(t, now)
    {
      hide IsRun, Init, Step, Traced, Enabled, Next, Readable, Owners, Ambiguous, Repackaged, SameCourse, GoodArchive,
        Restored, ValidRecord;
      Load(listed, unread, damage);
      RestoreAll(found);
      ghost var w := State();
      NotServing(run, w);
      Open();
      OpenFields(w);
      if listed { Cleanup(how); }
      Recovered(run, State());
    }

    method RestoreAll(found: Id -> Found)
      requires Valid() && mode == Recovering(tasks.Keys) && forall id :: GoodArchive(found(id).built)
      modifies this
      ensures Valid() && mode == Recovering({}) && old(run) <= run && now == old(now) && cfg == old(cfg)
      ensures tasks.Keys == old(tasks).Keys
      ensures forall id :: id in tasks ==> Restored(old(tasks)[id], found(id), now, cfg, tasks[id])
    {
      hide Traced, Enabled, Next, Repackaged, GoodArchive, Restored;
      while mode.Recovering? && mode.todo != {}
        invariant Valid() && mode.Recovering? && old(run) <= run && now == old(now) && cfg == old(cfg)
        invariant mode.todo <= tasks.Keys == old(tasks).Keys
        invariant forall id :: id in mode.todo ==> tasks[id] == old(tasks)[id]
        invariant forall id :: id in tasks && id !in mode.todo ==>
          Restored(old(tasks)[id], found(id), now, cfg, tasks[id])
        decreases if mode.Recovering? then |mode.todo| else 0
      {
        var id :| id in mode.todo;
        Restore(id, found(id));
      }
    }

    // One task of the second loop.
    method Restore(id: Id, f: Found)
      requires Valid() && mode.Recovering? && id in mode.todo && id in tasks && GoodArchive(f.built)
      modifies this
      ensures Valid() && old(run) <= run && mode == Recovering(old(mode.todo) - {id})
      ensures now == old(now) && cfg == old(cfg) && id in tasks && tasks == old(tasks)[id := tasks[id]]
      ensures Restored(old(tasks)[id], f, now, cfg, tasks[id])
    {
      hide IsRun, Init, Step, Traced, Enabled, Next, GoodArchive, Ends, OnDisk;
      ghost var w := State();
      if tasks[id].state == Running {
        Mark(id, f.mark);
        RestartFields(w, AgentWorld.Mark(id, f.mark), id);
        if f.mark == Saved { Repackage(id, f); }
      } else if Repackaged(tasks[id]) {
        Repackage(id, f);
      } else {
        Recheck(id, f.intact, f.recheck);
        RestartFields(w, AgentWorld.Recheck(id, f.intact, f.recheck), id);
      }
    }

    method Repackage(id: Id, f: Found)
      requires Valid() && mode.Recovering? && id in mode.todo && id in tasks && Repackaged(tasks[id]) &&
        GoodArchive(f.built)
      modifies this
      ensures Valid() && old(run) <= run && mode == Recovering(old(mode.todo) - {id})
      ensures now == old(now) && cfg == old(cfg) && id in tasks && tasks == old(tasks)[id := tasks[id]]
      ensures var t := old(tasks)[id].(sources := f.sources, points := f.points, errors := true);
        Ends(t, f.built, now, cfg, tasks[id])
    {
      hide IsRun, Init, Step, Traced, Enabled, Next, GoodArchive, Ends, OnDisk;
      var t := tasks[id].(sources := f.sources, points := f.points, errors := tasks[id].errors || f.damaged);
      ghost var w := State();
      Rebuild(id, t, f.built, f.damage, f.finish);
      RestartFields(w, AgentWorld.Rebuild(id, t, f.built, f.damage, f.finish), id);
    }

    method Open()
      requires Valid() && mode == Recovering({})
      modifies this
      ensures Took(Again(AgentWorld.Open)) && State() == old(State()).(mode := Serving)
    {
      hide IsRun, Init, Step, Traced, Enabled, Next;
      ghost var w := State();
      CanRestart(w, AgentWorld.Open);
      mode := Serving;
      Log(w, Again(AgentWorld.Open));
    }

    // The process ends, or the machine fails, and a new process starts on what is left: memory
    // is empty, and a put or a create that was under way may have taken effect.
    method Restart(settings: Config, crash: bool, keep: map<Id, Task>, effect: Option<Object>, born: Option<string>)
      requires Valid() && MayReset(State(), settings, born) && (crash ==> Survives(State(), keep))
      modifies this
      ensures Took(Again(if crash then Crash(settings, keep, effect, born) else Exit(settings, effect, born)))
      ensures mode == Loading && tasks == map[] && disk == if crash then AgentWorld.Settle(keep) else old(disk)
      ensures requests == map[] && active == None && jobs == [] && upload == Idle && !degraded && cfg == settings
      // A put that was under way may have landed, a create may have started an upload.
      ensures objects ==
        if old(upload.Missing? || upload.Sending?) && effect.Some? && old(upload.s.key.Some?)
        then old(objects)[old(upload.s.key.value) := effect.value] else old(objects)
      ensures live == if old(upload.Missing?) && born.Some? then old(live) + {born.value} else old(live)
    {
      hide Traced, Enabled, Next, Survives, State, MayReset;
      ghost var w := State();
      ghost var r := if crash then Crash(settings, keep, effect, born) else Exit(settings, effect, born);
      CanRestart(w, r);
      Fields();
      Remains(effect, born);
      Forgets(settings);
      Rests();
      if crash { Settles(keep); }
      Log(w, Again(r));
      Fields();
    }

    // What the remote store has of the attempt that was cut off, and nobody knows of.
    method Remains(effect: Option<Object>, born: Option<string>)
      modifies this`objects, this`live, this`owner, this`lost
      ensures var w := old(State());
        State() == w.(objects := if w.upload.Missing? || w.upload.Sending? then Write(w.objects, w.upload.s, effect)
            else w.objects,
                      live := w.live + Born(w, born),
                      owner := if Born(w, born) == {} then w.owner else w.owner[born.value := w.upload.id],
                      lost := w.lost + CutOff(w.upload) + Born(w, born))
    {
      hide State, Write, CutOff;
      ghost var w := State();
      Fields();
      var u := upload;
      var unknown: set<string> := if u.Missing? && born.Some? then {born.value} else {};
      if u.Missing? || u.Sending? { Land(u.s, effect); }
      LoseAll(CutOff(u));
      LoseAll(unknown);
      if unknown != {} { Start(born.value, u.id); }
      assert unknown == Born(w, born) && w.live + {} == w.live;
    }

    method LoseAll(ups: set<string>)
      modifies this`lost
      ensures State() == old(State()).(lost := old(State().lost) + ups)
    {
      lost := lost + ups;
    }

    method Forgets(settings: Config)
      modifies this`cfg, this`mode, this`degraded, this`tasks, this`requests
      ensures State() == old(State()).(cfg := settings, mode := Loading, degraded := false, mem := map[],
        requests := map[])
    {
      cfg, mode, degraded, tasks, requests := settings, Loading, false, map[], map[];
    }

    // Neither worker has a task.
    method Rests()
      modifies this`active, this`jobs, this`sampler, this`upload
      ensures State() == old(State()).(active := None, jobs := [], sampler := None, upload := Idle)
    {
      active, jobs, sampler, upload := None, [], None, Idle;
    }

    method Settles(keep: map<Id, Task>)
      modifies this`disk
      ensures State() == old(State()).(disk := AgentWorld.Settle(keep))
    {
      disk := AgentWorld.Settle(keep);
    }
  }
}
