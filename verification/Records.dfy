// The durable task record and its transfer part (internal/agent/types.go,
// internal/agent/s3_types.go) with the validity test that recovery applies
// (internal/agent/archive.go).
module Records {
  datatype Option<+T> = None | Some(value: T)

  type Id = string
  type Time = int

  predicate IsHex(c: char) { '0' <= c <= '9' || 'a' <= c <= 'f' }

  predicate ValidId(s: string) {
    && |s| == 36
    && forall i :: 0 <= i < 36 ==>
         if i == 8 || i == 13 || i == 18 || i == 23 then s[i] == '-' else IsHex(s[i])
  }

  predicate IsDigest(s: string) {
    |s| == 64 && forall c :: c in s ==> IsHex(c)
  }

  // A remote destination. `wellFormed` stands for the syntax test on endpoint,
  // region, bucket and prefix.
  datatype Target = Target(yos: bool, place: string, wellFormed: bool)

  // Object keys are the joined components (S3) or their hash (YOS). Both are
  // kept as the tuple they are computed from.
  datatype Key = Key(target: Target, agent: string, task: Id, sha: string)

  function ObjectKey(target: Target, agent: string, task: Id, sha: string): Key {
    Key(target, agent, task, sha)
  }

  datatype TransferState = WaitingResult | Pending | Uploading | RetryWait | Uploaded | Expired | Unavailable

  datatype Transfer = Transfer(
    target: Target, state: TransferState, key: Option<Key>, sha: string, size: int, attempts: int,
    upload: Option<string>, uploadedAt: Option<Time>, next: Option<Time>, code: string)

  datatype TaskState = Running | Completed | Partial | Failed | Interrupted
  datatype Phase = Sampling | Packaging | Finished

  // EndedAt, ResultExpiresAt and TaskExpiresAt: written together, once.
  datatype Times = Times(ended: Time, resultUntil: Time, taskUntil: Time)

  datatype Task = Task(
    id: Id, request: string, window: int, step: int, received: Time, state: TaskState, phase: Phase,
    sources: nat, points: nat, errors: bool, times: Option<Times>,
    available: bool, size: int, sha: string, s3: Option<Transfer>)

  datatype Archive = Archive(size: nat, sha: string)

  predicate ResultExpired(t: Task, now: Time) { t.times.Some? && now >= t.times.value.resultUntil }
  predicate TaskExpired(t: Task, now: Time) { t.times.Some? && now >= t.times.value.taskUntil }

  predicate ValidTask(t: Task, id: Id) {
    && ValidId(id) && t.id == id
    && 1 <= |t.request| <= 128
    && 0 < t.step <= t.window <= 9223372036
    && t.received != 0
    && (t.state == Running <==> t.times.None?)
  }

  predicate NeedsKey(state: TransferState) {
    state == Pending || state == Uploading || state == RetryWait || state == Uploaded
  }

  predicate Terminal(state: TransferState) {
    state == Expired || state == Unavailable || state == Uploaded
  }

  predicate ValidTransfer(s: Transfer, t: Task, agent: string) {
    && s.target.wellFormed
    && 0 <= s.attempts && 0 <= s.size
    && (NeedsKey(s.state) ==> s.key.Some?)
    && (s.key.Some? ==>
          && IsDigest(s.sha)
          && s.key.value == ObjectKey(s.target, agent, t.id, s.sha)
          && s.size == t.size && s.sha == t.sha)
    && (s.target.yos ==> s.upload.None?)
    && (s.state == Uploaded ==> s.key.Some? && s.uploadedAt.Some?)
  }

  // What recovery demands of a task.json before it trusts it.
  predicate ValidRecord(t: Task, id: Id, agent: string) {
    && ValidTask(t, id)
    && (t.s3.Some? ==> ValidTransfer(t.s3.value, t, agent))
  }

  function UploadOf(t: Task): Option<string> {
    if t.s3.Some? then t.s3.value.upload else None
  }

  predicate IsUploaded(t: Task) { t.s3.Some? && t.s3.value.state == Uploaded }

  predicate SameObject(s: Transfer, v: Transfer) {
    s.target == v.target && s.key == v.key && s.sha == v.sha && s.size == v.size
  }

  const YOS_MAX_OBJECT := 1_000_000_000

  // prepareTransfer: the transfer part of a task whose archive was just built or failed.
  function Prepare(t: Task, agent: string): Option<Transfer> {
    if t.s3.None? then None else
    var s := t.s3.value;
    if s.state == Uploaded then Some(s)
    else if !t.available then Some(s.(state := Unavailable, code := "local_result_unavailable"))
    else
      var p := s.(key := Some(ObjectKey(s.target, agent, t.id, t.sha)), sha := t.sha, size := t.size,
                  state := Pending, code := "", next := None);
      if s.target.yos && t.size > YOS_MAX_OBJECT
      then Some(p.(state := Unavailable, code := "yos_object_too_large"))
      else Some(p)
  }

  function EndTimes(t: Task, now: Time, resultKeep: int, taskKeep: int): Option<Times> {
    if t.times.Some? then t.times else Some(Times(now, now + resultKeep, now + taskKeep))
  }

  function FinalState(t: Task, built: bool): TaskState {
    if t.state == Interrupted then Interrupted
    else if !built || t.sources == 0 then Failed
    else if t.errors then Partial
    else Completed
  }

  // finish, up to the write: end times once, final state, archive, transfer.
  function Finalized(t: Task, built: Option<Archive>, now: Time, agent: string, resultKeep: int, taskKeep: int): Task {
    var f := t.(times := EndTimes(t, now, resultKeep, taskKeep), phase := Finished,
                state := FinalState(t, built.Some?));
    var g := if built.Some? then f.(available := true, size := built.value.size, sha := built.value.sha)
             else f.(available := false, errors := true);
    g.(s3 := Prepare(g, agent))
  }
}
