// The first steps of a run from an empty store, and closed values to start one with.
module SampleRuns {
  import opened Records
  import opened AgentWorld
  import opened AgentRuns

  lemma OneRun(w: World)
    ensures IsRun([w])
  {}

  lemma TwoRun(w: World, v: World)
    requires Step(w, v)
    ensures IsRun([w, v])
  {}

  // One more step.
  lemma Then(run: seq<World>, a: Action) returns (more: seq<World>)
    requires IsRun(run) && Enabled(run[|run| - 1], a)
    ensures IsRun(more) && more == run + [Next(run[|run| - 1], a)]
  {
    var w := run[|run| - 1];
    var v := Next(w, a);
    assert Step(w, v);
    more := run + [v];
    hide Step, Enabled, Next;
    forall i | 0 <= i < |more| - 1 ensures Step(more[i], more[i + 1]) {
      if i < |run| - 1 { assert Step(run[i], run[i + 1]); }
    }
  }

  lemma Boot(w: World) returns (v: World, run: seq<World>)
    requires Init(w)
    ensures |run| == 3 && run[0] == w && run[2] == v && IsRun(run)
    ensures v == w.(mode := Serving)
  {
    var load := Load({}, map[], false);
    var u := Restarted(w, load);
    assert Readable(w, {}) == map[];
    v := Restarted(u, Open);
    run := [w, u, v];
    assert Step(w, u) by { assert Enabled(w, Again(load)); }
    assert Step(u, v) by { assert u.mode == Recovering({}); assert Enabled(u, Again(Open)); }
  }

  lemma Admit(w: World, a: Task) returns (v: World, run: seq<World>)
    requires w.mode == Serving && w.jobs == [] && w.sampler == None && MaySubmit(w, a)
    ensures |run| == 3 && run[0] == w && run[2] == v && IsRun(run)
    ensures v == Submitted(w, a, Saved).(jobs := [], sampler := Some(a.id))
  {
    var u := Served(w, Submit(a, Saved));
    v := Served(u, TakeJob);
    run := [w, u, v];
    hide Persist, MaySubmit;
    assert Step(w, u) by { assert Enabled(w, Serve(Submit(a, Saved))); }
    assert Step(u, v) by { assert Enabled(u, Serve(TakeJob)); }
  }

  // The process ends and the next one reads every record; there is only one.
  lemma Reread(w: World, id: Id, f: File) returns (v: World, run: seq<World>)
    requires ValidConfig(w.cfg) && w.disk == map[id := f] && ValidRecord(f.cur, id, w.cfg.agent)
    requires w.upload == Idle || w.upload.Failing?
    requires !TaskExpired(f.cur, w.now)
    ensures |run| == 3 && run[0] == w && run[2] == v && IsRun(run) && run[1].disk == w.disk
    ensures v == w.(mode := Recovering({id}), degraded := false, mem := map[id := f.cur],
      requests := map[f.cur.request := id],
                    active := None, jobs := [], sampler := None, upload := Idle)
  {
    var exit := Exit(w.cfg, None, None);
    var u := Restarted(w, exit);
    assert Born(w, None) == {} && w.lost + {} + {} == w.lost && w.live + {} == w.live;
    var load := Load({}, map[f.cur.request := id], false);
    hide ValidRecord, ValidConfig, TaskExpired;
    assert Readable(u, {}) == map[id := f.cur];
    assert map[id := f.cur].Keys == {id} == map[id := f].Keys;
    OneTask(id, f.cur, w.now);
    v := Restarted(u, load);
    run := [w, u, v];
    assert Step(w, u) by { assert Enabled(w, Again(exit)); }
    assert Step(u, v) by { assert Enabled(u, Again(load)); }
  }

  lemma OneTask(id: Id, t: Task, now: Time)
    requires !TaskExpired(t, now)
    ensures Owners(map[t.request := id], map[id := t], now) && !Ambiguous(map[id := t], now)
  {
    hide TaskExpired;
    assert forall i, j :: !Rivals(map[id := t], now, i, j);
  }

  // ---- closed values ----

  function SampleId(c: char): Id {
    seq(36, i => if i == 8 || i == 13 || i == 18 || i == 23 then '-' else c)
  }

  lemma SampleIds()
    ensures ValidId(SampleId('a')) && ValidId(SampleId('b')) && SampleId('a') != SampleId('b')
  {
    assert SampleId('a')[0] == 'a' && SampleId('b')[0] == 'b';
  }

  function Digest(): string { seq(64, _ => 'a') }

  const PLACE := Target(false, "bucket", true)

  function Settings(enabled: bool): Config { Config("agent", enabled, true, PLACE, 10, 20, 1, 1) }

  function EmptyStore(enabled: bool, objects: map<Key, Object>): World {
    World(Settings(enabled), 1, Loading, false, map[], map[], None, [], None, map[], {}, {}, objects, {}, map[],
        {}, Idle)
  }

  // A request made at a given time.
  function Asked(id: Id, enabled: bool, at: Time): Task {
    Task(id, "request", 1, 1, at, Running, Sampling, 0, 0, false, None, false, 0, "",
         if enabled then Some(Transfer(PLACE, WaitingResult, None, "", 0, 0, None, None, None, "")) else None)
  }

  lemma Starts(enabled: bool, objects: map<Key, Object>)
    ensures var w := EmptyStore(enabled, objects); Init(w) && MaySubmit(w, Asked(SampleId('a'), enabled, 1))
    ensures ValidTask(Asked(SampleId('b'), enabled, 21), SampleId('b')) && SampleId('a') != SampleId('b')
  {
    SampleIds();
    hide ValidId, SampleId;
  }
}
