// The agent as a state machine over memory, task.json files, the remote store and
// the clock. One action is one section under the agent's mutex, one remote call,
// one step of recovery, or a crash. Nondeterminism (failed writes, lost
// acknowledgements, corrupt puts, what a crash leaves) is carried by the action.
module AgentWorld {
  import opened Records

  // persist: saved; failed with the file untouched; renamed into place but the
  // directory sync failed, so a crash may still undo it.
  datatype Outcome = Saved | Unchanged | Renamed

  // task.json: its contents, the earlier contents a crash may bring back, and
  // whether a crash may take the file away altogether.
  datatype File = File(cur: Task, older: set<Task>, unsynced: bool)

  function Versions(f: File): set<Task> { f.older + {f.cur} }

  function Persist(disk: map<Id, File>, id: Id, t: Task, o: Outcome): map<Id, File> {
    match o
    case Saved => disk[id := File(t, {}, false)]
    case Unchanged => disk
    case Renamed =>
      if id in disk then disk[id := File(t, Versions(disk[id]), disk[id].unsynced)]
      else disk[id := File(t, {}, true)]
  }

  datatype Config = Config(agent: string, enabled: bool, remote: bool, target: Target,
                           resultKeep: int, taskKeep: int, retryInitial: int, retryMax: int)

  predicate ValidConfig(c: Config) {
    && (c.enabled ==> c.target.wellFormed)
    && 0 < c.resultKeep <= c.taskKeep
    && (c.enabled ==> 0 < c.retryInitial <= c.retryMax)
  }

  datatype Object = Object(size: int, sha: string, agent: string, task: Id)

  // What Check compares: S3 returns the metadata, YOS only the bytes.
  predicate Agrees(o: Object, s: Transfer, agent: string, id: Id) {
    && o.size == s.size && o.sha == s.sha
    && (!s.target.yos ==> o.agent == agent && o.task == id)
  }

  // Where the single upload worker stands. `s` is the transfer record it selected.
  datatype Position =
    | Idle
    | Cleaning(id: Id, s: Transfer)
    | Cleaned(id: Id)
    | Chosen(id: Id, s: Transfer)
    | Begun(id: Id, s: Transfer)
    | Verified(id: Id, s: Transfer)
    | Stale(id: Id, s: Transfer, missing: bool)
    | Purged(id: Id, s: Transfer, missing: bool)
    | Missing(id: Id, s: Transfer)
    | Created(id: Id, s: Transfer, up: string)
    | Orphaned(id: Id, s: Transfer, up: string)
    | Sending(id: Id, s: Transfer, up: string)
    | Undoing(id: Id, s: Transfer, up: string)
    | Undone(id: Id, s: Transfer)
    | Stored(id: Id, s: Transfer)
    | Matched(id: Id, s: Transfer)
    | Failing(id: Id)

  datatype Mode = Loading | Recovering(todo: set<Id>) | Serving

  datatype World = World(
    cfg: Config, now: Time, mode: Mode, degraded: bool,
    mem: map<Id, Task>, requests: map<string, Id>, active: Option<Id>, jobs: seq<Id>, sampler: Option<Id>,
    disk: map<Id, File>, issued: set<Id>, removed: set<Id>,
    objects: map<Key, Object>, live: set<string>, owner: map<string, Id>, lost: set<string>,
    upload: Position)

  // The changes a transfer makes to its record (the closures given to storeTransfer).
  datatype Change =
    | ToUploading
    | ToUnavailable(code: string)
    | SetUpload(up: Option<string>)
    | ClearUpload
    | ToUploaded(at: Time)
    | ToRetry(code: string, at: Time)

  function Apply(c: Change, s: Transfer): Transfer {
    match c
    case ToUploading => s.(state := Uploading, attempts := s.attempts + 1, code := "", next := None)
    case ToUnavailable(code) => s.(state := Unavailable, code := code)
    case SetUpload(up) => s.(upload := up)
    case ClearUpload => s.(upload := None, next := None)
    case ToUploaded(at) =>
      s.(state := Uploaded, uploadedAt := Some(at), upload := None, next := None, code := "")
    case ToRetry(code, at) =>
      s.(state := if Terminal(s.state) then s.state else RetryWait, code := code, next := Some(at))
  }

  predicate Tracked(w: World, id: Id) { id in w.mem && w.mem[id].s3.Some? }

  predicate StoreOk(w: World, id: Id, o: Outcome) { Tracked(w, id) && o == Saved }

  function Changed(w: World, id: Id, c: Change): Task
    requires Tracked(w, id)
  {
    w.mem[id].(s3 := Some(Apply(c, w.mem[id].s3.value)))
  }

  function NotStored(w: World, id: Id): Task
    requires Tracked(w, id)
  {
    w.mem[id].(s3 := Some(w.mem[id].s3.value.(code := "state_write_failed", next := Some(w.now + w.cfg.retryInitial))))
  }

  // storeTransfer: the record on disk first; memory shows the change only after that.
  function Store(w: World, id: Id, c: Change, o: Outcome): World {
    if !Tracked(w, id) then w
    else w.(disk := Persist(w.disk, id, Changed(w, id, c), o),
            mem := w.mem[id := if o == Saved then Changed(w, id, c) else NotStored(w, id)])
  }

  // The part of nextUpload's test that depends on one task.
  predicate Eligible(w: World, id: Id) {
    && Tracked(w, id)
    && var t := w.mem[id]; var s := t.s3.value;
    && t.state != Running && !TaskExpired(t, w.now)
    && !(s.state != Uploaded && s.state != Expired && ResultExpired(t, w.now))
    && w.cfg.enabled && w.cfg.remote && !w.degraded && s.target == w.cfg.target
    && (Terminal(s.state) ==> s.upload.Some?)
    && !(s.next.Some? && w.now < s.next.value)
  }

  function Due(t: Task): Time {
    if t.s3.Some? && t.s3.value.next.Some? then t.s3.value.next.value else t.received
  }

  predicate Overdue(w: World, id: Id) {
    && Tracked(w, id)
    && var t := w.mem[id];
    && t.state != Running && !TaskExpired(t, w.now)
    && t.s3.value.state != Uploaded && t.s3.value.state != Expired && ResultExpired(t, w.now)
  }

  function Lapsed(t: Task): Task
    requires t.s3.Some?
  {
    t.(s3 := Some(t.s3.value.(state := Expired, code := "local_result_expired", next := None)))
  }

  datatype Removal = Gone | Deferred | Half
  datatype Verdict = Intact | Unreadable | NoArchive | Differs
  datatype Answer = Absent | Matches | Conflict | NoAnswer

  // ---- service: admission, the sampler, downloads, cleanup, selection ----

  // Corrupt: a result is taken back in memory and, as far as the write goes, on disk. With a
  // write that leaves the disk alone it is also what finish does after a publish that failed.
  datatype Service =
    | Submit(t: Task, o: Outcome)
    | TakeJob
    | Publish(t: Task, o: Outcome)
    | Finish(t: Task, built: Option<Archive>, o: Outcome)
    | Release
    | Corrupt(id: Id, o: Outcome)
    | Cleanup(id: Id, r: Removal)
    | DropDir(id: Id)
    | Expire(id: Id, o: Outcome)
    | Select(id: Id)

  // The sampler's copy of its task: only progress differs from what memory holds.
  predicate SameCourse(t: Task, m: Task) {
    t == m.(phase := t.phase, sources := t.sources, points := t.points, errors := t.errors)
  }

  predicate Sampled(w: World, t: Task) {
    w.sampler == Some(t.id) && t.id in w.mem && w.mem[t.id].state == Running && SameCourse(t, w.mem[t.id])
    && t.phase != Finished
  }

  predicate GoodArchive(b: Option<Archive>) { b.Some? ==> IsDigest(b.value.sha) }

  predicate NewTask(w: World, t: Task) {
    && t.id !in w.issued && t.id !in w.mem && t.id !in w.disk && ValidTask(t, t.id)
    && t.state == Running && t.phase == Sampling && t.received == w.now
    && t.sources == 0 && t.points == 0 && !t.errors
    && !t.available && t.size == 0 && t.sha == ""
    && t.s3 == (if w.cfg.enabled
                then Some(Transfer(w.cfg.target, WaitingResult, None, "", 0, 0, None, None, None, ""))
                else None)
  }

  // The request table lets a new task in: unknown, or known only for an expired task.
  predicate Vacant(w: World, request: string) {
    request in w.requests ==> w.requests[request] in w.mem && TaskExpired(w.mem[w.requests[request]], w.now)
  }

  predicate MaySubmit(w: World, t: Task) {
    !w.degraded && w.active == None && NewTask(w, t) && Vacant(w, t.request)
  }

  ghost predicate MaySelect(w: World, id: Id) {
    && w.upload == Idle && Eligible(w, id)
    && forall j :: j in w.mem && Eligible(w, j) ==> Due(w.mem[id]) <= Due(w.mem[j])
  }

  ghost predicate MayServe(w: World, s: Service) {
    w.mode == Serving &&
    match s
    case Submit(t, _) => MaySubmit(w, t)
    case TakeJob => |w.jobs| > 0 && w.sampler == None
    case Publish(t, _) => Sampled(w, t)
    case Finish(t, built, _) => Sampled(w, t) && GoodArchive(built)
    case Release => w.sampler.Some? && !(w.sampler.value in w.mem && w.mem[w.sampler.value].state == Running)
    case Corrupt(id, _) => id in w.mem && w.mem[id].state != Running
    case Cleanup(id, _) => id in w.mem && w.mem[id].state != Running && TaskExpired(w.mem[id], w.now)
    case DropDir(id) => id in w.disk && id !in w.mem && id in w.removed
    case Expire(id, _) => w.upload == Idle && Overdue(w, id)
    case Select(id) => MaySelect(w, id)
  }

  // A task's record is written with outcome o; memory then shows m.
  function Recorded(w: World, id: Id, t: Task, m: Task, o: Outcome): World {
    w.(disk := Persist(w.disk, id, t, o), mem := w.mem[id := m])
  }

  function Submitted(w: World, t: Task, o: Outcome): World {
    var v := w.(disk := Persist(w.disk, t.id, t, o), issued := w.issued + {t.id});
    if o != Saved then v.(degraded := true)
    else v.(mem := w.mem[t.id := t], requests := w.requests[t.request := t.id],
            active := Some(t.id), jobs := w.jobs + [t.id])
  }

  function Finalize(t: Task, built: Option<Archive>, w: World): Task {
    Finalized(t, built, w.now, w.cfg.agent, w.cfg.resultKeep, w.cfg.taskKeep)
  }

  function Damaged(t: Task): Task { t.(available := false, errors := true) }

  function WithoutRequest(w: World, id: Id): map<string, Id>
    requires id in w.mem
  {
    var r := w.mem[id].request;
    if r in w.requests && w.requests[r] == id then w.requests - {r} else w.requests
  }

  function OwnedBy(w: World, id: Id): set<string> { set u | u in w.live && u in w.owner && w.owner[u] == id }

  function Evicted(w: World, id: Id, r: Removal): World
    requires id in w.mem
  {
    var v := w.(removed := w.removed + {id}, lost := w.lost + OwnedBy(w, id));
    if r == Half then v.(disk := w.disk - {id})
    else v.(mem := w.mem - {id}, requests := WithoutRequest(w, id),
            disk := if r == Gone then w.disk - {id} else w.disk)
  }

  function Served(w: World, s: Service): World {
    match s
    case Submit(t, o) => Submitted(w, t, o)
    case TakeJob => if |w.jobs| == 0 then w else w.(sampler := Some(w.jobs[0]), jobs := w.jobs[1..])
    case Publish(t, o) => Recorded(w, t.id, t, t, o)
    case Finish(t, built, o) =>
      var f := Finalize(t, built, w);
      Recorded(w, t.id, f, f, o)
    case Release => w.(active := None, sampler := None)
    case Corrupt(id, o) =>
      if id in w.mem then Recorded(w, id, Damaged(w.mem[id]), Damaged(w.mem[id]), o) else w
    case Cleanup(id, r) => if id in w.mem then Evicted(w, id, r) else w
    case DropDir(id) => w.(disk := w.disk - {id}, lost := w.lost + OwnedBy(w, id))
    case Expire(id, o) =>
      if !Tracked(w, id) then w else
      var t := Lapsed(w.mem[id]);
      Recorded(w, id, t, if o == Saved then t else w.mem[id], o)
    case Select(id) =>
      if !Tracked(w, id) then w else
      var s := w.mem[id].s3.value;
      w.(upload := if Terminal(s.state) then Cleaning(id, s) else Chosen(id, s))
  }

  // ---- transfer, section by section ----

  datatype Move =
    | Drop
    | Begin(o: Outcome)
    | Inspect(v: Verdict, o: Outcome)
    | Check(a: Answer)
    | AbortStale(ok: bool)
    | ClearStale(o: Outcome)
    | PutWhole(effect: Option<Object>, ack: bool)
    | Create(up: string, ack: bool)
    | Checkpoint(o: Outcome)
    | AbortOrphan(ok: bool)
    | SendPart(ok: bool)
    | Complete(effect: Option<Object>, ack: bool)
    | AbortUndo(ok: bool)
    | Forget(o: Outcome)
    | CheckAgain(a: Answer)
    | GiveUp
    | Commit(o: Outcome)
    | Retry(code: string, at: Time, o: Outcome)
    | CleanAbort(ok: bool)
    | CleanForget(o: Outcome)

  // The remote store answers a Check truthfully or not at all.
  predicate Honest(w: World, a: Answer, id: Id, s: Transfer) {
    s.key.Some? &&
    match a
    case Absent => s.key.value !in w.objects
    case Matches => s.key.value in w.objects && Agrees(w.objects[s.key.value], s, w.cfg.agent, id)
    case Conflict => s.key.value in w.objects && !Agrees(w.objects[s.key.value], s, w.cfg.agent, id)
    case NoAnswer => true
  }

  predicate MayMove(w: World, m: Move) {
    match m
    case Drop => w.upload.Chosen?
    case Begin(_) => w.upload.Chosen?
    case Inspect(_, _) => w.upload.Begun?
    case Check(a) => w.upload.Verified? && Honest(w, a, w.upload.id, w.upload.s)
    case AbortStale(_) => w.upload.Stale? && w.upload.s.upload.Some?
    case ClearStale(_) => w.upload.Purged?
    case PutWhole(_, _) => w.upload.Missing?
    case Create(up, _) => w.upload.Missing? && !w.upload.s.target.yos && up !in w.owner
    case Checkpoint(_) => w.upload.Created?
    case AbortOrphan(_) => w.upload.Orphaned?
    case SendPart(_) => w.upload.Sending?
    case Complete(_, _) => w.upload.Sending?
    case AbortUndo(_) => w.upload.Undoing?
    case Forget(_) => w.upload.Undone?
    case CheckAgain(a) => w.upload.Stored? && Honest(w, a, w.upload.id, w.upload.s)
    case GiveUp => w.upload.Matched?
    case Commit(_) => w.upload.Matched?
    case Retry(_, _, _) => w.upload.Failing?
    case CleanAbort(_) => w.upload.Cleaning? && w.upload.s.upload.Some?
    case CleanForget(_) => w.upload.Cleaned?
  }

  // The state write a section makes, if any.
  datatype StateWrite = NoWrite | StateWrite(c: Change, o: Outcome)

  function WriteOf(w: World, m: Move): StateWrite
    requires MayMove(w, m)
  {
    match m
    case Begin(o) => StateWrite(ToUploading, o)
    case Inspect(NoArchive, o) => StateWrite(ToUnavailable("local_result_unavailable"), o)
    case Inspect(Differs, o) => StateWrite(ToUnavailable("local_integrity_mismatch"), o)
    case ClearStale(o) => StateWrite(SetUpload(None), o)
    case Checkpoint(o) => StateWrite(SetUpload(Some(w.upload.up)), o)
    case Forget(o) => StateWrite(SetUpload(None), o)
    case Commit(o) => StateWrite(ToUploaded(w.now), o)
    case Retry(code, at, o) => StateWrite(ToRetry(code, at), o)
    case CleanForget(o) => StateWrite(ClearUpload, o)
    case _ => NoWrite
  }

  // Put overwrites: nothing here relies on a create-only remote store.
  function Write(objects: map<Key, Object>, s: Transfer, effect: Option<Object>): map<Key, Object> {
    if effect.Some? && s.key.Some? then objects[s.key.value := effect.value] else objects
  }

  function ObjectsAfter(w: World, m: Move): map<Key, Object>
    requires MayMove(w, m)
  {
    match m
    case PutWhole(effect, _) => Write(w.objects, w.upload.s, effect)
    case Complete(effect, _) => Write(w.objects, w.upload.s, effect)
    case _ => w.objects
  }

  // Multipart uploads alive on the remote store.
  function LiveAfter(w: World, m: Move): set<string>
    requires MayMove(w, m)
  {
    match m
    case Create(up, _) => w.live + {up}
    case AbortStale(ok) => if ok then w.live - {w.upload.s.upload.value} else w.live
    case AbortOrphan(ok) => if ok then w.live - {w.upload.up} else w.live
    case Complete(effect, ack) => if effect.Some? || ack then w.live - {w.upload.up} else w.live
    case AbortUndo(ok) => if ok then w.live - {w.upload.up} else w.live
    case CleanAbort(ok) => if ok then w.live - {w.upload.s.upload.value} else w.live
    case _ => w.live
  }

  // Ids the agent has given up: the create was not acknowledged, or its checkpoint and its abort
  // both failed. The record may still name one, if that checkpoint got past its rename.
  function LostAfter(w: World, m: Move): set<string>
    requires MayMove(w, m)
  {
    match m
    case Create(up, ack) => if ack then w.lost else w.lost + {up}
    case AbortOrphan(ok) => if ok then w.lost else w.lost + {w.upload.up}
    case _ => w.lost
  }

  // After a Check a match needs no Put; an earlier multipart upload goes first.
  function AfterCheck(a: Answer, id: Id, s: Transfer): Position {
    if a == Conflict || a == NoAnswer then Failing(id)
    else if s.upload.Some? then Stale(id, s, a == Absent)
    else if a == Absent then Missing(id, s)
    else Matched(id, s)
  }

  function UploadAfter(w: World, m: Move): Position
    requires MayMove(w, m)
  {
    var u := w.upload;
    match m
    case Drop => Idle
    case Begin(o) => if StoreOk(w, u.id, o) then Begun(u.id, u.s) else Idle
    case Inspect(v, o) => if v == Intact then Verified(u.id, u.s) else if v == Unreadable then Failing(u.id) else Idle
    case Check(a) => AfterCheck(a, u.id, u.s)
    case AbortStale(ok) => if ok then Purged(u.id, u.s, u.missing) else Failing(u.id)
    case ClearStale(o) =>
      if !StoreOk(w, u.id, o) then Idle else if u.missing then Missing(u.id, u.s) else Matched(u.id, u.s)
    case PutWhole(_, ack) => if ack then Stored(u.id, u.s) else Failing(u.id)
    case Create(up, ack) => if ack then Created(u.id, u.s, up) else Failing(u.id)
    case Checkpoint(o) => if StoreOk(w, u.id, o) then Sending(u.id, u.s, u.up) else Orphaned(u.id, u.s, u.up)
    case AbortOrphan(_) => Failing(u.id)
    case SendPart(ok) => if ok then u else Undoing(u.id, u.s, u.up)
    case Complete(_, ack) => if ack then Stored(u.id, u.s) else Undoing(u.id, u.s, u.up)
    case AbortUndo(ok) => if ok then Undone(u.id, u.s) else Failing(u.id)
    case Forget(_) => Failing(u.id)
    case CheckAgain(a) => if a == Matches then Matched(u.id, u.s) else Failing(u.id)
    case GiveUp => Failing(u.id)
    case Commit(_) => Idle
    case Retry(_, _, _) => Idle
    case CleanAbort(ok) => if ok then Cleaned(u.id) else Failing(u.id)
    case CleanForget(_) => Idle
  }

  function Written(w: World, m: Move): World
    requires MayMove(w, m)
  {
    var wr := WriteOf(w, m);
    if wr.NoWrite? then w else Store(w, w.upload.id, wr.c, wr.o)
  }

  function Moved(w: World, m: Move): World
    requires MayMove(w, m)
  {
    Written(w, m).(
      objects := ObjectsAfter(w, m),
      live := LiveAfter(w, m), lost := LostAfter(w, m),
      owner := if m.Create? then w.owner[m.up := w.upload.id] else w.owner,
      upload := UploadAfter(w, m))
  }

  // ---- crash and recovery ----

  // Exit: the process ends, by a restart or a kill, and the files are as it left them. Crash: the
  // machine fails, and of each record one version is left. Load: the records recovery cannot read
  // are unread, all of them if it cannot list the tasks.
  datatype Restart =
    | Exit(cfg: Config, effect: Option<Object>, born: Option<string>)
    | Crash(cfg: Config, keep: map<Id, Task>, effect: Option<Object>, born: Option<string>)
    | Load(unread: set<Id>, owners: map<string, Id>, damage: bool)
    | Mark(id: Id, o: Outcome)
    | Rebuild(id: Id, t: Task, built: Option<Archive>, damage: bool, o: Outcome)
    | Recheck(id: Id, intact: bool, o: Outcome)
    | Open

  // Two unexpired tasks that answer to the same request_id.
  predicate Rivals(mem: map<Id, Task>, now: Time, i: Id, j: Id) {
    && i in mem && j in mem && i != j && mem[i].request == mem[j].request
    && !TaskExpired(mem[i], now) && !TaskExpired(mem[j], now)
  }

  ghost predicate Ambiguous(mem: map<Id, Task>, now: Time) { exists i, j :: Rivals(mem, now, i, j) }

  // The request table recovery builds: every request with exactly one unexpired task.
  ghost predicate Owners(owners: map<string, Id>, mem: map<Id, Task>, now: Time) {
    && (forall r :: r in owners ==>
          owners[r] in mem && mem[owners[r]].request == r && !TaskExpired(mem[owners[r]], now))
    && (forall i, j :: Rivals(mem, now, i, j) ==> mem[i].request !in owners)
    && (forall i :: i in mem && !TaskExpired(mem[i], now) && (forall j :: !Rivals(mem, now, i, j)) ==>
          mem[i].request in owners)
  }

  function Readable(w: World, unread: set<Id>): map<Id, Task> {
    map id | id in w.disk && id !in unread && ValidRecord(w.disk[id].cur, id, w.cfg.agent) :: w.disk[id].cur
  }

  predicate Waits(w: World, id: Id) { w.mode.Recovering? && id in w.mode.todo && id in w.mem }

  predicate Repackaged(t: Task) { t.state == Interrupted && t.phase == Packaging }

  // What a crash leaves of each record: one of its versions, or nothing if its creation was never synced.
  ghost predicate Survives(w: World, keep: map<Id, Task>) {
    && keep.Keys <= w.disk.Keys
    && (forall id :: id in keep ==> keep[id] in Versions(w.disk[id]))
    && (forall id :: id in w.disk && id !in keep ==> w.disk[id].unsynced)
  }

  predicate MayReset(w: World, cfg: Config, born: Option<string>) {
    cfg.agent == w.cfg.agent && ValidConfig(cfg) && (born.Some? ==> born.value !in w.owner)
  }

  ghost predicate MayRestart(w: World, r: Restart) {
    match r
    case Exit(cfg, _, born) => MayReset(w, cfg, born)
    case Crash(cfg, keep, _, born) => MayReset(w, cfg, born) && Survives(w, keep)
    case Load(unread, owners, damage) =>
      && w.mode == Loading && Owners(owners, Readable(w, unread), w.now)
      && (Ambiguous(Readable(w, unread), w.now) || Readable(w, unread).Keys != w.disk.Keys ==> damage)
    case Mark(id, _) => Waits(w, id) && w.mem[id].state == Running
    case Rebuild(id, t, built, _, _) =>
      Waits(w, id) && Repackaged(w.mem[id]) && SameCourse(t, w.mem[id]) && Repackaged(t) && GoodArchive(built)
    case Recheck(id, _, _) => Waits(w, id) && w.mem[id].state != Running && !Repackaged(w.mem[id])
    case Open => w.mode == Recovering({})
  }

  function Done(w: World, id: Id): Mode {
    if w.mode.Recovering? then Recovering(w.mode.todo - {id}) else w.mode
  }

  function Stopped(t: Task, w: World): Task {
    t.(state := Interrupted, times := EndTimes(t, w.now, w.cfg.resultKeep, w.cfg.taskKeep), errors := true,
        phase := Packaging)
  }

  // The multipart id a restart cuts off: created, not yet safely in the record.
  function CutOff(u: Position): set<string> {
    if u.Created? || u.Orphaned? then {u.up} else {}
  }

  function Born(w: World, born: Option<string>): set<string> {
    if w.upload.Missing? && born.Some? then {born.value} else {}
  }

  // A new process: memory is gone, and a put or a create that was under way may have taken effect.
  function Reset(w: World, cfg: Config, disk: map<Id, File>, effect: Option<Object>, born: Option<string>): World {
    w.(cfg := cfg, mode := Loading, degraded := false, mem := map[], requests := map[], active := None, jobs := [],
       sampler := None, upload := Idle, disk := disk,
       objects := if w.upload.Missing? || w.upload.Sending? then Write(w.objects, w.upload.s, effect) else w.objects,
       live := w.live + Born(w, born),
       owner := if Born(w, born) == {} then w.owner else w.owner[born.value := w.upload.id],
       lost := w.lost + CutOff(w.upload) + Born(w, born))
  }

  function Settle(keep: map<Id, Task>): map<Id, File> { map id | id in keep :: File(keep[id], {}, false) }

  function Rechecked(w: World, id: Id, intact: bool, o: Outcome): World
    requires id in w.mem
  {
    if intact || !w.mem[id].available || ResultExpired(w.mem[id], w.now)
    then w.(mode := Done(w, id))
    else Recorded(w, id, Damaged(w.mem[id]), Damaged(w.mem[id]), o)
           .(mode := Done(w, id), degraded := w.degraded || o != Saved)
  }

  function Restarted(w: World, r: Restart): World {
    match r
    case Exit(cfg, effect, born) => Reset(w, cfg, w.disk, effect, born)
    case Crash(cfg, keep, effect, born) => Reset(w, cfg, Settle(keep), effect, born)
    case Load(unread, owners, damage) =>
      w.(mem := Readable(w, unread), requests := owners, degraded := damage,
          mode := Recovering(Readable(w, unread).Keys))
    case Mark(id, o) =>
      if id !in w.mem then w else
      var t := Stopped(w.mem[id], w);
      var v := Recorded(w, id, t, t, o);
      if o == Saved then v else v.(degraded := true, mode := Done(w, id))
    case Rebuild(id, t, built, damage, o) =>
      var f := Finalize(t.(errors := true), built, w);
      Recorded(w, id, f, f, o).(degraded := w.degraded || damage, mode := Done(w, id))
    case Recheck(id, intact, o) => if id in w.mem then Rechecked(w, id, intact, o) else w
    case Open => w.(mode := Serving)
  }

  // ---- runs ----

  datatype Action = Tick(d: nat) | Serve(s: Service) | Upload(m: Move) | Again(r: Restart)

  ghost predicate Enabled(w: World, a: Action) {
    match a
    case Tick(_) => true
    case Serve(s) => MayServe(w, s)
    case Upload(m) => MayMove(w, m)
    case Again(r) => MayRestart(w, r)
  }

  ghost function Next(w: World, a: Action): World
    requires Enabled(w, a)
  {
    match a
    case Tick(d) => w.(now := w.now + d)
    case Serve(s) => Served(w, s)
    case Upload(m) => Moved(w, m)
    case Again(r) => Restarted(w, r)
  }

  ghost predicate Init(w: World) {
    && ValidConfig(w.cfg) && w.mode == Loading && !w.degraded
    && w.mem == map[] && w.requests == map[] && w.active == None && w.jobs == [] && w.sampler == None
    && w.disk == map[] && w.issued == {} && w.removed == {}
    && w.live == {} && w.owner == map[] && w.lost == {} && w.upload == Idle
  }

  ghost predicate Step(w: World, v: World) { exists a :: Enabled(w, a) && v == Next(w, a) }

  ghost predicate IsRun(run: seq<World>) {
    |run| > 0 && forall i :: 0 <= i < |run| - 1 ==> Step(run[i], run[i + 1])
  }
}
