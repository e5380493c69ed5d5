// What the methods of the agent rely on: runs of the state machine, the inputs an attempt or
// a recovery meets, and one lemma for what each section changes and what it leaves alone.
module AgentSections {
  import opened Records
  import opened AgentWorld
  import opened AgentRuns
  import opened AgentInvariant
  import Planning

  // A run from an initial state to w.
  ghost predicate Traced(run: seq<World>, w: World) {
    IsRun(run) && Init(run[0]) && run[|run| - 1] == w
  }

  lemma Extend(run: seq<World>, w: World, a: Action) returns (more: seq<World>)
    requires Traced(run, w) && Enabled(w, a)
    ensures more == run + [Next(w, a)] && Traced(more, Next(w, a))
  {
    more := run + [Next(w, a)];
    assert Step(w, Next(w, a));
    hide Step, Enabled, Next, Init;
    forall i | 0 <= i < |more| - 1 ensures Step(more[i], more[i + 1]) {
      if i < |run| - 1 { assert Step(run[i], run[i + 1]); }
    }
  }

  // A request as far as admission looks at it; durations in seconds.
  datatype Request = Request(id: string, window: Option<int>, step: Option<int>)

  datatype Reply = BadRequest | Mismatch | Replayed(t: Task) | NotReady | Busy | NoStorage | Admitted(t: Task)

  predicate ValidSeconds(x: Option<int>) { x.Some? ==> 0 < x.value <= 9223372036 }

  predicate ValidRequest(r: Request) { 1 <= |r.id| <= 128 && ValidSeconds(r.window) && ValidSeconds(r.step) }

  predicate SameParameters(r: Request, t: Task) {
    (r.window.Some? ==> r.window.value == t.window) && (r.step.Some? ==> r.step.value == t.step)
  }

  function Logical(t: Task, now: Time): Task { if ResultExpired(t, now) then t.(available := false) else t }

  // The answer to a request whose task is t: a conflict when it asks for another window or step,
  // else the task, whose result is offered until its time is over.
  predicate Answers(reply: Reply, r: Request, t: Task, now: Time) {
    if (r.window.Some? && r.window.value != t.window) || (r.step.Some? && r.step.value != t.step)
    then reply == Mismatch
    else reply == Replayed(t.(available := t.available && (t.times.None? || now < t.times.value.resultUntil)))
  }

  // A request that is no request at all.
  lemma RequestTerms(r: Request)
    ensures ValidRequest(r) <==>
      && 1 <= |r.id| <= 128 && (r.window.Some? ==> 0 < r.window.value <= 9223372036)
      && (r.step.Some? ==> 0 < r.step.value <= 9223372036)
  {}

  // The sampling limits and defaults of the configuration.
  datatype Plan = Plan(limits: Planning.Limits, window: Planning.int64, step: Planning.int64)

  function Span(x: Option<int>, otherwise: Planning.int64): Planning.int64
    requires ValidSeconds(x)
  {
    if x.Some? then (x.value * 1_000_000_000) as Planning.int64 else otherwise
  }

  // What a request leaves open is taken from the configuration, in whole seconds.
  function InSeconds(x: Option<int>, otherwise: Planning.int64): int {
    if x.Some? then x.value else otherwise as int / 1_000_000_000
  }

  lemma SpanSeconds(x: Option<int>, otherwise: Planning.int64)
    requires ValidSeconds(x)
    ensures (Span(x, otherwise) / Planning.SECOND) as int == InSeconds(x, otherwise)
  {}

  // A task just admitted.
  predicate Begins(t: Task, cfg: Config, now: Time) {
    && t.received == now && t.state == Running && t.phase == Sampling && t.times.None?
    && t.sources == 0 && t.points == 0 && !t.errors && !t.available && t.size == 0 && t.sha == ""
    && (t.s3.Some? <==> cfg.enabled)
    && (t.s3.Some? ==>
          var s := t.s3.value;
          && s.target == cfg.target && s.state == WaitingResult && s.attempts == 0 && s.key.None? && s.upload.None?
          && s.next.None? && s.uploadedAt.None? && s.code == "")
  }

  // What passes while the upload worker is busy elsewhere.
  datatype Event = Pass(d: nat) | Do(s: Service)

  // What the calls of one upload attempt come to. The remote store answers a check
  // truthfully or not at all; a put may take effect without being acknowledged and may
  // store something else; a multipart create may be refused, unanswered or answered.
  datatype Creation = Refused | Silent(up: string) | Made(up: string)

  datatype Luck = Luck(
    begin: Outcome, verdict: Verdict, inspect: Outcome, reply: bool, abort: bool, clear: Outcome,
    effect: Option<Object>, ack: bool, create: Creation, checkpoint: Outcome, parts: nat -> bool, undo: bool,
        forget: Outcome,
    replyAgain: bool, cancelled: bool, commit: Outcome, code: string, random: nat, retry: Outcome)

  const MULTIPART_THRESHOLD := 67108864

  // What recovery meets for one task: the counts of its repaired log, its archive, the writes.
  datatype Found = Found(mark: Outcome, sources: nat, points: nat, damaged: bool, built: Option<Archive>, damage: bool,
                         finish: Outcome, intact: bool, recheck: Outcome)

  // A task after the look nextUpload takes at it.
  function AfterExpiry(w: World, id: Id, o: Outcome): Task
    requires id in w.mem
  {
    if Overdue(w, id) && o == Saved then Lapsed(w.mem[id]) else w.mem[id]
  }

  // Nothing else runs.
  ghost predicate Alone(during: nat -> seq<Event>) { forall n :: during(n) == [] }

  function SectionCount(size: int): int {
    if Planning.PartSize(size) <= 0 then 0 else (size + Planning.PartSize(size) - 1) / Planning.PartSize(size)
  }

  predicate Sectioned(size: int) { size <= Planning.MAX - 9999 && Planning.PartSize(size) <= Planning.MAX_PART }

  // The first half of an attempt goes through to the check.
  predicate Passes(t: Task, luck: Luck, objects: map<Key, Object>, agent: string, now: Time) {
    && t.s3.Some? && t.s3.value.key.Some? && t.times.Some? && !ResultExpired(t, now)
    && luck.begin == Saved && luck.verdict == Intact && luck.reply
    && var k := t.s3.value.key.value; (k in objects ==> Agrees(objects[k], t.s3.value, agent, t.id))
  }

  // The put is acknowledged, in one piece or in every part.
  predicate Puts(s: Transfer, luck: Luck, owner: map<string, Id>) {
    if s.target.yos || s.size <= MULTIPART_THRESHOLD then luck.ack
    else
      && Sectioned(s.size) && luck.create.Made? && luck.create.up !in owner && luck.checkpoint == Saved
      && (forall i :: 0 <= i < SectionCount(s.size) ==> luck.parts(i)) && luck.ack
  }

  // The second half ends with the record saved as uploaded: an earlier upload is gone, a
  // missing object was put and really is what it should be, and the last write succeeds.
  predicate Lands(stale: bool, seen: AgentWorld.Answer, id: Id, s: Transfer, luck: Luck, owner: map<string, Id>,
    agent: string) {
    && (stale ==> luck.abort && luck.clear == Saved)
    && (seen == Absent ==>
          Puts(s, luck, owner) && luck.effect.Some? && Agrees(luck.effect.value, s, agent, id) && luck.replyAgain)
    && !luck.cancelled && luck.commit == Saved
  }

  // ---- writing a record ----

  // What a write makes of the files: the record alone, nothing new, or the record with all that
  // was there before it as what a crash may bring back.
  predicate OnDisk(was: map<Id, File>, disk: map<Id, File>, t: Task, o: Outcome) {
    if o == Saved then disk == was[t.id := File(t, {}, false)]
    else if o == Unchanged then disk == was
    else
      && disk == was[t.id := if t.id in disk then disk[t.id] else File(t, {}, true)]
      && t.id in disk && disk[t.id].cur == t
      && (if t.id in was then disk[t.id].older == was[t.id].older + {was[t.id].cur} &&
              disk[t.id].unsynced == was[t.id].unsynced
          else disk[t.id].older == {} && disk[t.id].unsynced)
  }

  lemma PersistOnDisk(disk: map<Id, File>, t: Task, o: Outcome)
    ensures OnDisk(disk, AgentWorld.Persist(disk, t.id, t, o), t, o)
  {}

  // The transfer part of a task is written as `s3`: memory shows it once it is saved, and a
  // failed write makes the task wait for the initial retry delay. Nothing else changes.
  predicate Wrote(w: World, v: World, id: Id, s3: Transfer, o: Outcome) {
    && id in w.mem && w.mem[id].s3.Some?
    && var t := w.mem[id];
    var failed := t.s3.value.(code := "state_write_failed", next := Some(w.now + w.cfg.retryInitial));
    && v.mem == w.mem[id := t.(s3 := Some(if o == Saved then s3 else failed))]
    && OnDisk(w.disk, v.disk, t.(s3 := Some(s3)), o)
  }

  // What each change writes; without the task, or its transfer part, nothing is written.
  predicate Spelled(w: World, v: World, id: Id, c: Change, o: Outcome) {
    if !(id in w.mem && w.mem[id].s3.Some?) then v.mem == w.mem && v.disk == w.disk
    else
      var s := w.mem[id].s3.value;
      match c
      case ToUploading =>
        Wrote(w, v, id, s.(state := Uploading, attempts := s.attempts + 1, code := "", next := None), o)
      case ToUnavailable(code) => Wrote(w, v, id, s.(state := Unavailable, code := code), o)
      case SetUpload(up) => Wrote(w, v, id, s.(upload := up), o)
      case ClearUpload => Wrote(w, v, id, s.(upload := None, next := None), o)
      case ToUploaded(at) =>
        Wrote(w, v, id, s.(state := Uploaded, uploadedAt := Some(at), upload := None, next := None, code := ""), o)
      case ToRetry(code, at) =>
        var over := s.state == Expired || s.state == Unavailable || s.state == Uploaded;
        Wrote(w, v, id, s.(state := if over then s.state else RetryWait, code := code, next := Some(at)), o)
  }

  lemma SameSpelled(w: World, v: World, x: World, id: Id, c: Change, o: Outcome)
    requires Spelled(w, v, id, c, o) && x.mem == v.mem && x.disk == v.disk
    ensures Spelled(w, x, id, c, o)
  {
    hide OnDisk;
  }

  lemma StoreSpelled(w: World, id: Id, c: Change, o: Outcome)
    requires id in w.mem ==> w.mem[id].id == id
    ensures Spelled(w, Store(w, id, c, o), id, c, o)
  {
    if Tracked(w, id) { PersistOnDisk(w.disk, Changed(w, id, c), o); }
    hide AgentWorld.Persist, OnDisk;
  }

  // What a crash may leave of a record: one of its versions, or none.
  predicate Leaves(disk: map<Id, File>, id: Id, left: Option<Task>) {
    if id !in disk then left.None?
    else if left.None? then disk[id].unsynced
    else left.value in Versions(disk[id])
  }

  function Left(keep: map<Id, Task>, id: Id): Option<Task> { if id in keep then Some(keep[id]) else None }

  // The crash of the machine leaves exactly that, record by record.
  lemma CrashLeaves(w: World, keep: map<Id, Task>)
    ensures Survives(w, keep) <==> forall id :: Leaves(w.disk, id, Left(keep, id))
  {
    hide Versions;
    if Survives(w, keep) {
      forall id ensures Leaves(w.disk, id, Left(keep, id)) {}
    }
    if forall id :: Leaves(w.disk, id, Left(keep, id)) {
      forall id | id in keep ensures id in w.disk && keep[id] in Versions(w.disk[id]) {
        assert Leaves(w.disk, id, Left(keep, id));
      }
      forall id | id in w.disk && id !in keep ensures w.disk[id].unsynced { assert Leaves(w.disk, id, Left(keep, id)); }
    }
  }

  // A saved write leaves its record and nothing else; one that failed before the rename
  // changes nothing; one that failed after it leaves its record or what was left before.
  // No other record is affected.
  lemma WriteLeaves(disk: map<Id, File>, t: Task, o: Outcome, id: Id, left: Option<Task>)
    ensures Leaves(AgentWorld.Persist(disk, t.id, t, o), id, left) <==>
      if id != t.id || o == Unchanged then Leaves(disk, id, left)
      else left == Some(t) || (o == Renamed && Leaves(disk, id, left))
    ensures o != Unchanged ==> var after := AgentWorld.Persist(disk, t.id, t, o); t.id in after && after[t.id].cur == t
  {}

  // What a crash may make of the record that was just written.
  predicate LeavesWritten(disk: map<Id, File>, t: Task, o: Outcome, left: Option<Task>) {
    (o != Unchanged && left == Some(t)) || (o != Saved && Leaves(disk, t.id, left))
  }

  // A crash right after a write leaves exactly: of the written record what its outcome allows,
  // of every other record what it might have left before.
  lemma CrashAfterWrite(w: World, v: World, t: Task, o: Outcome, keep: map<Id, Task>)
    requires v.disk == AgentWorld.Persist(w.disk, t.id, t, o)
    ensures Survives(v, keep) <==>
      LeavesWritten(w.disk, t, o, Left(keep, t.id)) && forall id :: id != t.id ==> Leaves(w.disk, id, Left(keep, id))
  {
    CrashLeaves(v, keep);
    forall id ensures Leaves(v.disk, id, Left(keep, id)) <==>
      if id == t.id then LeavesWritten(w.disk, t, o, Left(keep, id)) else Leaves(w.disk, id, Left(keep, id))
    {
      WriteLeaves(w.disk, t, o, id, Left(keep, id));
    }
    hide Survives, Leaves, LeavesWritten, Left, AgentWorld.Persist;
  }

  // Preparing a task again, as recovery does, gives the same transfer, and never one that
  // waits for a result.
  lemma PreparedOnce(t: Task, agent: string)
    requires t.s3.Some?
    ensures var s3 := Prepare(t, agent);
      && s3.Some? && s3.value.state != WaitingResult
      && Prepare(t.(s3 := s3), agent) == s3
  {}

  lemma RequestsKnown(run: seq<World>, w: World)
    requires Traced(run, w)
    ensures forall r :: r in w.requests ==> w.requests[r] in w.mem && w.mem[w.requests[r]].request == r
  {
    RunInv(run, |run| - 1);
  }

  lemma QueueEmpty(run: seq<World>, w: World)
    requires Traced(run, w) && w.active == None
    ensures w.jobs == []
  {
    RunInv(run, |run| - 1);
  }

  lemma CanServeStep(w: World, s: Service)
    requires MayServe(w, s)
    ensures Enabled(w, Serve(s)) && Next(w, Serve(s)) == Served(w, s)
  {
    hide MayServe, Served;
  }

  // A section that makes no state write: a remote call, or none.
  lemma CallSection(w: World, m: Move)
    requires MayMove(w, m) && WriteOf(w, m) == NoWrite
    ensures Enabled(w, Upload(m))
    ensures Next(w, Upload(m)) ==
      w.(objects := ObjectsAfter(w, m), live := LiveAfter(w, m), lost := LostAfter(w, m),
         owner := if m.Create? then w.owner[m.up := w.upload.id] else w.owner, upload := UploadAfter(w, m))
  {
    hide MayMove, WriteOf, ObjectsAfter, LiveAfter, LostAfter, UploadAfter;
  }

  // A section that writes the record: the write, and where the worker stands next.
  lemma WriteSection(w: World, m: Move, c: Change, o: Outcome)
    requires MayMove(w, m) && WriteOf(w, m) == StateWrite(c, o)
    ensures Enabled(w, Upload(m))
    ensures Next(w, Upload(m)) == Store(w, w.upload.id, c, o).(upload := UploadAfter(w, m))
  {
    StoreFields(w, w.upload.id, c, o);
    NoRemoteEffect(w, m);
    hide MayMove, Store, WriteOf, ObjectsAfter, LiveAfter, LostAfter, UploadAfter;
  }

  lemma NoRemoteEffect(w: World, m: Move)
    requires MayMove(w, m) && WriteOf(w, m).StateWrite?
    ensures ObjectsAfter(w, m) == w.objects && LiveAfter(w, m) == w.live && LostAfter(w, m) == w.lost && !m.Create?
  {}

  lemma StoreFields(w: World, id: Id, c: Change, o: Outcome)
    ensures var v := Store(w, id, c, o); v == w.(disk := v.disk, mem := v.mem)
  {
    hide AgentWorld.Persist, Changed, NotStored;
  }

  lemma StoreKeeps(w: World, id: Id, c: Change, o: Outcome)
    ensures var v := Store(w, id, c, o);
      v.now == w.now && v.cfg == w.cfg && v.mode == w.mode && v.objects == w.objects && v.owner == w.owner &&
          v.upload == w.upload
  {
    hide AgentWorld.Persist, Changed, NotStored;
  }

  // No change but the last makes a task uploaded.
  lemma StoreShort(w: World, id: Id, c: Change, o: Outcome)
    ensures id in w.mem && w.mem[id].s3.Some? && w.mem[id].s3.value.state != Uploaded && !c.ToUploaded? ==>
      var v := Store(w, id, c, o); id in v.mem && v.mem[id].s3.Some? && v.mem[id].s3.value.state != Uploaded
  {
    hide AgentWorld.Persist;
  }

  lemma CommitShows(w: World, id: Id, at: Time, o: Outcome)
    ensures id in w.mem && w.mem[id].s3.Some? && w.mem[id].s3.value.state != Uploaded ==>
      var v := Store(w, id, ToUploaded(at), o); id in v.mem && (IsUploaded(v.mem[id]) <==> o == Saved)
  {
    hide AgentWorld.Persist;
  }

  lemma ForgetShows(w: World, id: Id, o: Outcome)
    ensures o == Saved && Tracked(w, id) ==>
      var v := Store(w, id, ClearUpload, o); id in v.mem && UploadOf(v.mem[id]) == None
  {
    hide AgentWorld.Persist;
  }

  lemma CanRestart(w: World, r: Restart)
    requires MayRestart(w, r)
    ensures Enabled(w, Again(r)) && Next(w, Again(r)) == Restarted(w, r)
  {
    hide MayRestart, Restarted;
  }

  lemma CleanupIs(w: World, id: Id, r: Removal)
    requires MayServe(w, AgentWorld.Cleanup(id, r))
    ensures id in w.mem && Enabled(w, Serve(AgentWorld.Cleanup(id, r)))
    ensures Next(w, Serve(AgentWorld.Cleanup(id, r))) ==
      w.(removed := w.removed + {id}, lost := w.lost + OwnedBy(w, id),
         disk := if r == Deferred then w.disk else w.disk - {id},
         mem := if r == Half then w.mem else w.mem - {id},
         requests := if r == Half then w.requests else WithoutRequest(w, id))
  {
    hide OwnedBy, WithoutRequest;
  }

  // The transfer under way has its key.
  lemma KeyKnown(run: seq<World>, w: World)
    requires Traced(run, w) && (w.upload.Chosen? || w.upload.Verified? || w.upload.Stored?)
    ensures w.upload.s.key.Some?
  {
    RunInv(run, |run| - 1);
  }

  lemma KeyVacant(run: seq<World>, w: World)
    requires Traced(run, w) && w.upload.Missing?
    ensures w.upload.s.key.Some? && w.upload.s.key.value !in w.objects
  {
    RunInv(run, |run| - 1);
  }

  lemma LeftoverKnown(run: seq<World>, w: World)
    requires Traced(run, w) && w.upload.Cleaning?
    ensures w.upload.s.upload.Some?
  {
    RunInv(run, |run| - 1);
  }

  lemma MarkIs(w: World, id: Id, o: Outcome)
    requires Waits(w, id) && w.mem[id].state == Running
    ensures var a := Again(AgentWorld.Mark(id, o));
      Enabled(w, a)
      && var t := Stopped(w.mem[id], w);
      Next(w, a) == w.(disk := AgentWorld.Persist(w.disk, id, t, o), mem := w.mem[id := t],
                       degraded := w.degraded || o != Saved,
                       mode := if o == Saved then w.mode else Recovering(w.mode.todo - {id}))
  {
    hide Stopped, AgentWorld.Persist;
  }

  lemma RecheckIs(w: World, id: Id, intact: bool, o: Outcome)
    requires MayRestart(w, AgentWorld.Recheck(id, intact, o))
    ensures var a := Again(AgentWorld.Recheck(id, intact, o));
      Waits(w, id) && Enabled(w, a)
      && var t, todo := w.mem[id].(available := false, errors := true), w.mode.todo - {id};
      Next(w, a) ==
        if w.mem[id].available && !ResultExpired(w.mem[id], w.now) && !intact then
          w.(disk := AgentWorld.Persist(w.disk, id, t, o), mem := w.mem[id := t], degraded := w.degraded || o != Saved,
             mode := Recovering(todo))
        else w.(mode := Recovering(todo))
  {
    hide AgentWorld.Persist;
  }

  predicate Taken(disk: map<Id, File>, unread: set<Id>, agent: string, id: Id)
    requires id in disk
  {
    id !in unread && ValidRecord(disk[id].cur, id, agent)
  }

  // The valid records outside `rest` that could be read are in memory, and nothing else.
  ghost predicate ReadUpTo(tasks: map<Id, Task>, disk: map<Id, File>, unread: set<Id>, agent: string, rest: set<Id>) {
    && (forall id :: id in tasks <==> id in disk && id !in rest && Taken(disk, unread, agent, id))
    && (forall id :: id in tasks ==> tasks[id] == disk[id].cur)
  }

  lemma NothingRead(disk: map<Id, File>, unread: set<Id>, agent: string)
    ensures ReadUpTo(map[], disk, unread, agent, disk.Keys) && disk.Keys - disk.Keys == {}
  {}

  lemma ReadNext(tasks: map<Id, Task>, disk: map<Id, File>, unread: set<Id>, agent: string, rest: set<Id>, id: Id)
    requires ReadUpTo(tasks, disk, unread, agent, rest) && rest <= disk.Keys && id in rest
    ensures id !in tasks && tasks.Keys <= disk.Keys - rest
    ensures var left := rest - {id};
      if Taken(disk, unread, agent, id) then
        ReadUpTo(tasks[id := disk[id].cur], disk, unread, agent, left)
        && (tasks[id := disk[id].cur].Keys == disk.Keys - left <==> tasks.Keys == disk.Keys - rest)
      else ReadUpTo(tasks, disk, unread, agent, left) && tasks.Keys != disk.Keys - left
  {
    hide Taken;
    assert disk.Keys - (rest - {id}) == (disk.Keys - rest) + {id};
    assert id !in disk.Keys - rest && id in disk.Keys - (rest - {id});
    var more := tasks[id := disk[id].cur];
    assert more.Keys == tasks.Keys + {id};
    if more.Keys == disk.Keys - (rest - {id}) { assert tasks.Keys == more.Keys - {id}; }
  }

  lemma AllRead(w: World, unread: set<Id>, tasks: map<Id, Task>)
    requires ReadUpTo(tasks, w.disk, unread, w.cfg.agent, {})
    ensures tasks == Readable(w, unread) && w.disk.Keys - {} == w.disk.Keys
  {
    hide ValidRecord;
  }

  // Recovery that cannot list the tasks reads nothing.
  lemma NoneRead(w: World)
    ensures Readable(w, w.disk.Keys) == map[] && Owners(map[], map[], w.now) && !Ambiguous(map[], w.now)
  {
    hide ValidRecord, TaskExpired;
    assert forall i, j :: !Rivals(map[], w.now, i, j);
  }

  lemma RestartFields(w: World, r: Restart, id: Id)
    requires (r.Mark? || r.Rebuild? || r.Recheck?) && r.id == id && Enabled(w, Again(r))
    ensures var v := Next(w, Again(r));
      && id in w.mem && v.mem.Keys == w.mem.Keys && w.mode.Recovering?
      && v.mode == (if r.Mark? && r.o == Saved then w.mode else Recovering(w.mode.todo - {id}))
      && (r.Mark? ==> Repackaged(v.mem[id]))
  {
    hide Owners, Ambiguous, Survives, AgentWorld.Persist, Finalize;
  }

  lemma OpenFields(w: World)
    requires Enabled(w, Again(AgentWorld.Open))
    ensures var v := Next(w, Again(AgentWorld.Open));
      v.mode == Serving && v.mem == w.mem && v.now == w.now && v.upload == w.upload && v.active == w.active
  {}

  lemma NotServing(run: seq<World>, w: World)
    requires Traced(run, w) && w.mode != Serving
    ensures w.upload == Idle && w.active == None
  {
    RunInv(run, |run| - 1);
  }

  lemma Recovered(run: seq<World>, w: World)
    requires Traced(run, w) && w.mode == Serving && w.active == None
    ensures forall id :: id in w.mem ==> w.mem[id].state != Running && (!w.degraded ==> w.mem[id].phase == Finished)
  {
    RunInv(run, |run| - 1);
  }

  lemma LoadingIsEmpty(run: seq<World>, w: World)
    requires Traced(run, w) && w.mode == Loading
    ensures w.mem == map[] && w.requests == map[]
  {
    RunInv(run, |run| - 1);
    assert w.requests.Keys == {};
  }

  // Of the tasks read so far: the request table, and the requests found twice.
  ghost predicate Scanned(tasks: map<Id, Task>, requests: map<string, Id>, now: Time, ambiguous: set<string>) {
    && (forall r :: r in requests ==>
          requests[r] in tasks && tasks[requests[r]].request == r && !TaskExpired(tasks[requests[r]], now) &&
              r !in ambiguous)
    && (forall i :: i in tasks && !TaskExpired(tasks[i], now) && tasks[i].request !in ambiguous ==>
          tasks[i].request in requests && requests[tasks[i].request] == i)
    && (forall r :: r in ambiguous ==> exists i, j :: Rivals(tasks, now, i, j) && tasks[i].request == r)
  }

  lemma NothingScanned(now: Time)
    ensures Scanned(map[], map[], now, {})
  {}

  lemma RivalsStay(tasks: map<Id, Task>, more: map<Id, Task>, now: Time, id: Id, t: Task, ambiguous: set<string>)
    requires id !in tasks && more == tasks[id := t]
    requires forall r :: r in ambiguous ==> exists i, j :: Rivals(tasks, now, i, j) && tasks[i].request == r
    ensures forall r :: r in ambiguous ==> exists i, j :: Rivals(more, now, i, j) && more[i].request == r
  {
    hide TaskExpired;
    forall r | r in ambiguous ensures exists i, j :: Rivals(more, now, i, j) && more[i].request == r {
      var i, j :| Rivals(tasks, now, i, j) && tasks[i].request == r;
      assert Rivals(more, now, i, j);
    }
  }

  lemma TakeExpired(tasks: map<Id, Task>, requests: map<string, Id>, now: Time, ambiguous: set<string>, id: Id, t: Task)
    requires Scanned(tasks, requests, now, ambiguous) && id !in tasks && TaskExpired(t, now)
    ensures Scanned(tasks[id := t], requests, now, ambiguous)
  {
    RivalsStay(tasks, tasks[id := t], now, id, t, ambiguous);
    hide TaskExpired, Rivals;
  }

  // One more unexpired task: its request has one owner, or is ambiguous from now on.
  lemma TakeOwner(tasks: map<Id, Task>, requests: map<string, Id>, now: Time, ambiguous: set<string>, id: Id, t: Task)
    requires Scanned(tasks, requests, now, ambiguous) && id !in tasks && !TaskExpired(t, now)
    ensures var more := tasks[id := t];
      if t.request in requests then
        t.request !in ambiguous && Scanned(more, requests - {t.request}, now, ambiguous + {t.request})
      else if t.request in ambiguous then Scanned(more, requests, now, ambiguous)
      else Scanned(more, requests[t.request := id], now, ambiguous)
  {
    if t.request in requests { TakeRival(tasks, requests, now, ambiguous, id, t); }
        else { TakeNew(tasks, requests, now, ambiguous, id, t); }
    hide Scanned;
  }

  lemma TakeRival(tasks: map<Id, Task>, requests: map<string, Id>, now: Time, ambiguous: set<string>, id: Id, t: Task)
    requires Scanned(tasks, requests, now, ambiguous) && id !in tasks && !TaskExpired(t, now) && t.request in requests
    ensures t.request !in ambiguous && Scanned(tasks[id := t], requests - {t.request}, now, ambiguous + {t.request})
  {
    RivalsStay(tasks, tasks[id := t], now, id, t, ambiguous);
    hide TaskExpired;
    assert Rivals(tasks[id := t], now, requests[t.request], id);
    hide Rivals;
  }

  lemma TakeNew(tasks: map<Id, Task>, requests: map<string, Id>, now: Time, ambiguous: set<string>, id: Id, t: Task)
    requires Scanned(tasks, requests, now, ambiguous) && id !in tasks && t.request !in requests
    ensures Scanned(tasks[id := t], if t.request in ambiguous then requests
      else requests[t.request := id], now, ambiguous) ||
            TaskExpired(t, now)
  {
    RivalsStay(tasks, tasks[id := t], now, id, t, ambiguous);
    hide TaskExpired, Rivals;
  }

  lemma ScannedOwners(tasks: map<Id, Task>, requests: map<string, Id>, now: Time, ambiguous: set<string>)
    requires Scanned(tasks, requests, now, ambiguous)
    ensures Owners(requests, tasks, now) && (Ambiguous(tasks, now) <==> ambiguous != {})
  {
    forall i, j | Rivals(tasks, now, i, j) ensures tasks[i].request in ambiguous && tasks[i].request !in requests {}
    forall i | i in tasks && !TaskExpired(tasks[i], now) && (forall j :: !Rivals(tasks, now, i, j))
      ensures tasks[i].request in requests
    {
      if tasks[i].request in ambiguous { NotAlone(tasks, requests, now, ambiguous, i); }
    }
    ScannedAmbiguous(tasks, requests, now, ambiguous);
    hide Rivals, TaskExpired, Ambiguous;
  }

  lemma ScannedAmbiguous(tasks: map<Id, Task>, requests: map<string, Id>, now: Time, ambiguous: set<string>)
    requires Scanned(tasks, requests, now, ambiguous)
    ensures Ambiguous(tasks, now) <==> ambiguous != {}
  {
    forall i, j | Rivals(tasks, now, i, j) ensures tasks[i].request in ambiguous {}
    if ambiguous != {} { var r :| r in ambiguous; var i, j :| Rivals(tasks, now, i, j) && tasks[i].request == r; }
    hide Rivals, TaskExpired;
  }

  lemma NotAlone(tasks: map<Id, Task>, requests: map<string, Id>, now: Time, ambiguous: set<string>, i: Id)
    requires Scanned(tasks, requests, now, ambiguous) && i in tasks && !TaskExpired(tasks[i], now) &&
      tasks[i].request in ambiguous
    ensures exists j :: Rivals(tasks, now, i, j)
  {
    hide TaskExpired;
    var k, l :| Rivals(tasks, now, k, l) && tasks[k].request == tasks[i].request;
    assert Rivals(tasks, now, i, if k == i then l else k);
  }

  lemma BeforeInRun(run: seq<World>, w: World)
    requires Traced(run, w)
    ensures w in run
  {
    hide Init, Step;
    assert run[|run| - 1] == w;
  }

  lemma LapsedFields(w: World, id: Id, o: Outcome)
    requires Enabled(w, Serve(Expire(id, o)))
    ensures var v := Next(w, Serve(Expire(id, o)));
      && v.cfg == w.cfg && v.now == w.now && v.mode == w.mode && v.degraded == w.degraded && v.upload == w.upload
      && id in w.mem && w.mem[id].s3.Some? && v.mem[id] == (if o == Saved then Lapsed(w.mem[id]) else w.mem[id])
      && v.mem.Keys == w.mem.Keys && forall j :: j in w.mem && j != id ==> v.mem[j] == w.mem[j]
  {
    hide AgentWorld.Persist;
  }

  // How recovery interrupts a running task.
  predicate Interrupts(t: Task, now: Time, cfg: Config, m: Task) {
    && m == t.(state := Interrupted, phase := Packaging, errors := true, times := m.times)
    && m.times == Some(if t.times.Some? then t.times.value else Times(now, now + cfg.resultKeep, now + cfg.taskKeep))
  }

  lemma InterruptsSays(t: Task, now: Time, cfg: Config, m: Task)
    requires Interrupts(t, now, cfg, m)
    ensures Repackaged(m)
  {}

  // What recovery makes of a record: a running task is interrupted, and with its log and archive
  // rebuilt it ends, as does one interrupted before; of any other task only a damaged archive is
  // taken back.
  ghost predicate Restored(t: Task, f: Found, now: Time, cfg: Config, v: Task) {
    if t.state == Running || (t.state == Interrupted && t.phase == Packaging) then
      exists m ::
        && (if t.state == Running then Interrupts(t, now, cfg, m) else m == t)
        && (if t.state == Running && f.mark != Saved then v == m
            else Ends(m.(sources := f.sources, points := f.points, errors := true), f.built, now, cfg, v))
    else if t.available && (t.times.None? || now < t.times.value.resultUntil) && !f.intact then
      v == t.(available := false, errors := true)
    else v == t
  }

  // What recovery demands of a record.
  lemma RecordTerms(t: Task, id: Id, agent: string)
    ensures ValidRecord(t, id, agent) <==>
      && t.id == id && ValidId(id) && 1 <= |t.request| <= 128 && t.received != 0
      && 0 < t.window <= 9223372036 && 0 < t.step <= t.window
      && (if t.state == Running then t.times.None? else t.times.Some?)
      && (t.s3.Some? ==>
            var s := t.s3.value;
            && s.target.wellFormed && s.attempts >= 0 && s.size >= 0 && (s.target.yos ==> s.upload.None?)
            && (s.key.None? ==> s.state == WaitingResult || s.state == Expired || s.state == Unavailable)
            && (s.key.Some? ==>
                  && s.key.value == Key(s.target, agent, id, s.sha) && s.sha == t.sha && s.size == t.size
                  && |s.sha| == 64 && forall i :: 0 <= i < 64 ==> '0' <= s.sha[i] <= '9' || 'a' <= s.sha[i] <= 'f')
            && (s.state == Uploaded ==> s.uploadedAt.Some?))
  {
    hide ValidId;
    if t.s3.Some? { DigestTerms(t.s3.value.sha); }
  }

  lemma DigestTerms(s: string)
    ensures IsDigest(s) <==> |s| == 64 && forall i :: 0 <= i < 64 ==> '0' <= s[i] <= '9' || 'a' <= s[i] <= 'f'
  {
    if |s| == 64 && forall i :: 0 <= i < 64 ==> '0' <= s[i] <= '9' || 'a' <= s[i] <= 'f' {
      forall c | c in s ensures IsHex(c) { var i :| 0 <= i < |s| && s[i] == c; }
    }
    if IsDigest(s) { forall i | 0 <= i < 64 ensures IsHex(s[i]) { assert s[i] in s; } }
  }

  lemma ReadableSays(w: World, unread: set<Id>)
    ensures forall id :: id in Readable(w, unread) <==>
      id in w.disk && id !in unread && ValidRecord(w.disk[id].cur, id, w.cfg.agent)
    ensures forall id :: id in Readable(w, unread) ==> Readable(w, unread)[id] == w.disk[id].cur
  {
    hide ValidRecord;
  }

  // ---- the loop of nextUpload ----

  // The task is there still, its archive's time is over, and its transfer is neither done nor
  // given up for that.
  predicate OutOfTime(t: Task, now: Time) {
    && t.s3.Some? && t.state != Running && t.s3.value.state != Uploaded && t.s3.value.state != Expired
    && t.times.Some? && t.times.value.resultUntil <= now < t.times.value.taskUntil
  }

  lemma SeenSpelled(start: World, w: World, saves: Id -> Outcome)
    requires forall j :: j in w.mem ==> j in start.mem && w.mem[j] == AfterExpiry(start, j, saves(j))
    ensures forall j :: j in w.mem ==>
      var t := start.mem[j];
      w.mem[j] == if OutOfTime(t, start.now) && saves(j) == Saved
        then t.(s3 := Some(t.s3.value.(state := Expired, code := "local_result_expired", next := None)))
        else t
  {}

  // Which transfers may be taken up, and when each is due.
  lemma EligibleSays(w: World, id: Id)
    ensures Eligible(w, id) <==>
      && id in w.mem && w.mem[id].s3.Some? && w.mem[id].state != Running
      && var t := w.mem[id]; var s := t.s3.value;
      && (t.times.None? || w.now < t.times.value.taskUntil)
      && (s.state == Uploaded || s.state == Expired || t.times.None? || w.now < t.times.value.resultUntil)
      && w.cfg.enabled && w.cfg.remote && !w.degraded && s.target == w.cfg.target
      && (s.state == Uploaded || s.state == Expired || s.state == Unavailable ==> s.upload.Some?)
      && (s.next.Some? ==> s.next.value <= w.now)
    ensures id in w.mem && w.mem[id].s3.Some? ==>
      Due(w.mem[id]) == if w.mem[id].s3.value.next.Some? then w.mem[id].s3.value.next.value else w.mem[id].received
  {}

  // Of all that may be taken up the one that is due first is.
  lemma SelectSays(w: World, id: Id)
    requires MaySelect(w, id)
    ensures var t := w.mem[id]; var s := t.s3.value;
      && id in w.mem && t.s3.Some? && t.state != Running && (t.times.None? || w.now < t.times.value.taskUntil)
      && (s.state == Uploaded || s.state == Expired || t.times.None? || w.now < t.times.value.resultUntil)
      && w.cfg.enabled && w.cfg.remote && !w.degraded && s.target == w.cfg.target
      && (s.state == Uploaded || s.state == Expired || s.state == Unavailable ==> s.upload.Some?)
      && (s.next.Some? ==> s.next.value <= w.now)
    ensures forall j :: j in w.mem && Eligible(w, j) ==> Due(w.mem[id]) <= Due(w.mem[j])
  {}

  // Outside `rest` every task is as the look at it left it.
  ghost predicate Lapses(start: World, w: World, rest: set<Id>, saves: Id -> Outcome) {
    && w.now == start.now && w.cfg == start.cfg && w.degraded == start.degraded && w.mem.Keys == start.mem.Keys
    && forall j :: j in w.mem ==> w.mem[j] == if j in rest then start.mem[j] else AfterExpiry(start, j, saves(j))
  }

  // Of the eligible transfers outside `rest` the selected one is due first.
  ghost predicate Foremost(w: World, rest: set<Id>, selected: Option<Id>, at: Time) {
    && (selected.Some? ==>
        && selected.value in w.mem && selected.value !in rest
        && Eligible(w, selected.value) && at == Due(w.mem[selected.value]))
    && forall j :: j in w.mem && j !in rest && Eligible(w, j) ==> selected.Some? && at <= Due(w.mem[j])
  }

  lemma NothingSeen(w: World, saves: Id -> Outcome)
    ensures Lapses(w, w, w.mem.Keys, saves) && Foremost(w, w.mem.Keys, None, 0)
  {
    hide AfterExpiry, Eligible, Due;
  }

  lemma AllSeen(start: World, w: World, saves: Id -> Outcome, selected: Option<Id>, at: Time)
    requires Lapses(start, w, {}, saves) && Foremost(w, {}, selected, at)
    ensures forall j :: j in w.mem ==> j in start.mem && w.mem[j] == AfterExpiry(start, j, saves(j))
    ensures selected.None? ==> forall j :: j in w.mem ==> !Eligible(w, j)
    ensures selected.Some? ==> selected.value in w.mem && (w.upload == Idle ==> MaySelect(w, selected.value))
  {
    hide AfterExpiry, Eligible, Due;
  }

  // Only this task changed, and only by expiring.
  ghost predicate Looked(w: World, v: World, id: Id, o: Outcome) {
    && v.now == w.now && v.cfg == w.cfg && v.degraded == w.degraded && v.mem.Keys == w.mem.Keys && id in w.mem
    && v.mem[id] == AfterExpiry(w, id, o)
    && forall j :: j in w.mem && j != id ==> v.mem[j] == w.mem[j]
  }

  lemma LapsesStep(start: World, w: World, v: World, rest: set<Id>, saves: Id -> Outcome, id: Id)
    requires Lapses(start, w, rest + {id}, saves) && id !in rest && Looked(w, v, id, saves(id))
    ensures Lapses(start, v, rest, saves)
  {
    SameLook(start, w, id, saves(id));
    hide AfterExpiry;
  }

  lemma SameLook(w: World, v: World, id: Id, o: Outcome)
    requires id in w.mem && id in v.mem && v.mem[id] == w.mem[id] && v.now == w.now
    ensures AfterExpiry(v, id, o) == AfterExpiry(w, id, o)
  {}

  lemma ForemostStep(w: World, v: World, rest: set<Id>, selected: Option<Id>, at: Time, id: Id, o: Outcome)
    requires Foremost(w, rest + {id}, selected, at) && id !in rest && Looked(w, v, id, o)
    ensures if Eligible(v, id) && (selected.None? || Due(v.mem[id]) < at)
      then Foremost(v, rest, Some(id), Due(v.mem[id]))
            else Foremost(v, rest, selected, at)
  {
    forall j | j in w.mem && j != id ensures Eligible(v, j) == Eligible(w, j) { EligibleSame(w, v, j); }
    hide Eligible, Due, AfterExpiry;
  }

  lemma EligibleSame(w: World, v: World, j: Id)
    requires j in w.mem && j in v.mem && v.mem[j] == w.mem[j] && v.now == w.now && v.cfg == w.cfg &&
      v.degraded == w.degraded
    ensures Eligible(v, j) == Eligible(w, j)
  {}

  lemma TickFields(w: World, d: nat)
    ensures var v := Next(w, Tick(d)); v.mode == w.mode && v.cfg == w.cfg && v.upload == w.upload && v.mem == w.mem
  {}

  // Only a selection moves the upload worker; no service restarts the agent.
  lemma ServedFields(w: World, s: Service)
    requires Enabled(w, Serve(s))
    ensures var v := Next(w, Serve(s)); v.mode == w.mode && v.cfg == w.cfg && (!s.Select? ==> v.upload == w.upload)
  {
    hide MayServe, OwnedBy, WithoutRequest, AgentWorld.Persist, Finalize, Lapsed, Tracked, Damaged;
    match s
    case Submit(_, _) =>
    case Finish(_, _, _) =>
    case Cleanup(_, _) =>
    case Expire(_, _) =>
    case _ =>
  }

  lemma SubmitStep(w: World, t: Task, o: Outcome)
    requires w.mode == Serving && MaySubmit(w, t)
    ensures w.active == None && Enabled(w, Serve(AgentWorld.Submit(t, o)))
    ensures Next(w, Serve(AgentWorld.Submit(t, o))) ==
      w.(disk := AgentWorld.Persist(w.disk, t.id, t, o), issued := w.issued + {t.id}, degraded := w.degraded ||
          o != Saved,
         mem := if o == Saved then w.mem[t.id := t] else w.mem,
         requests := if o == Saved then w.requests[t.request := t.id] else w.requests,
         active := if o == Saved then Some(t.id) else w.active,
         jobs := if o == Saved then w.jobs + [t.id] else w.jobs)
  {
    hide NewTask, Vacant, AgentWorld.Persist;
  }

  lemma SecondsFit(window: Planning.int64, step: Planning.int64)
    requires 0 < step <= window && step % Planning.SECOND == 0
    ensures 0 < (step / Planning.SECOND) as int <= (window / Planning.SECOND) as int <= 9223372036
  {}

  // How a task ends: its end times once, its state by archive, sources and errors, its result by
  // the archive.
  predicate Ends(t: Task, built: Option<Archive>, now: Time, cfg: Config, f: Task) {
    && f == t.(phase := Finished, state := f.state, times := f.times, available := f.available, size := f.size,
        sha := f.sha, errors := f.errors, s3 := f.s3)
    && (t.times.Some? ==> f.times == t.times)
    && (t.times.None? ==> f.times == Some(Times(now, now + cfg.resultKeep, now + cfg.taskKeep)))
    && (t.state == Interrupted ==> f.state == Interrupted)
    && (t.state != Interrupted ==>
          && (f.state == Failed <==> built.None? || t.sources == 0)
          && (f.state == Partial <==> built.Some? && t.sources > 0 && t.errors)
          && (f.state == Completed <==> built.Some? && t.sources > 0 && !t.errors))
    && (built.Some? ==> f.available && f.size == built.value.size && f.sha == built.value.sha && f.errors == t.errors)
    && (built.None? ==> !f.available && f.size == t.size && f.sha == t.sha && f.errors)
  }

  lemma FinalizedEnds(t: Task, built: Option<Archive>, now: Time, cfg: Config)
    ensures Ends(t, built, now, cfg, Finalized(t, built, now, cfg.agent, cfg.resultKeep, cfg.taskKeep))
  {}

  lemma FinalizedId(t: Task, built: Option<Archive>, w: World)
    ensures Finalize(t, built, w).id == t.id
  {}

  // A record lies under its own id.
  lemma IdOf(run: seq<World>, w: World, id: Id)
    requires Traced(run, w) && id in w.mem
    ensures w.mem[id].id == id
  {
    RunInv(run, |run| - 1);
    assert TaskInv(w, id);
  }

  // ---- finish ----

  // Requests of other goroutines while the sampler finishes a task: admissions and downloads.
  predicate Elsewhere(e: Event) { e.Pass? || e.s.Submit? || e.s.Corrupt? }

  // The task has been finished.
  predicate Over(w: World, id: Id) { id in w.mem && w.mem[id].state != Running && w.mem[id].times.Some? }

  lemma FinalFields(w: World, t: Task, built: Option<Archive>, o: Outcome)
    requires Enabled(w, Serve(AgentWorld.Finish(t, built, o)))
    ensures var v, f := Next(w, Serve(AgentWorld.Finish(t, built, o))), Finalize(t, built, w);
      && v.mode == w.mode && v.disk == AgentWorld.Persist(w.disk, t.id, f, o) && v.mem == w.mem[t.id := f] &&
          Over(v, t.id)
  {
    hide AgentWorld.Persist, Prepare, Sampled;
  }

  lemma Corrupted(w: World, id: Id, o: Outcome)
    requires w.mode == Serving && Over(w, id)
    ensures var a := Serve(AgentWorld.Corrupt(id, o));
      && Enabled(w, a)
      && var v := Next(w, a);
      && v.mode == w.mode && v.mem == w.mem[id := Damaged(w.mem[id])] && (o == Unchanged ==> v.disk == w.disk) &&
          Over(v, id)
  {}

  lemma ElsewhereKeeps(w: World, s: Service, id: Id)
    requires Enabled(w, Serve(s)) && (s.Submit? || s.Corrupt?) && Over(w, id)
    ensures Over(Next(w, Serve(s)), id)
  {
    hide AgentWorld.Persist, ValidTask;
  }
}
