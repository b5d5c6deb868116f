/** The collection cycle: Gather (plugins/inputs/arangodb/arangodb.go, lines
    194-226). url.Parse is an uninterpreted parameter and each task's network
    outcome comes from an oracle indexed by task number; the concurrent
    fan-out is run sequentially, in configuration order. */
module Collector {
  import opened Results
  import opened ArangoTypes
  import opened Requests
  import opened Normalizer
  import opened Endpoint

  /** The plugin configuration that matters here: endpoint strings and credentials. */
  datatype Config = Config(urls: seq<string>, creds: Credentials)

  /** One call into the accumulator. AddError receives gatherURL's return
      value as it is, nil included. */
  datatype SinkCall = AddFields(record: Record) | AddError(err: Option<GatherError>)

  /** A cycle either runs every task and returns `returned` from Gather, or a
      task panics and the process dies. */
  datatype GatherRun =
    | Completed(calls: seq<SinkCall>, returned: Option<GatherError>)
    | Crashed(panic: Panic)

  /** The parsed endpoints, in configuration order; unparsable strings are skipped. */
  function KeptUrls(urls: seq<string>, parse: string -> Option<Url>): (kept: seq<Url>)
    ensures |kept| <= |urls|
    ensures forall v :: v in kept ==> exists x :: x in urls && parse(x) == Some(v)
    decreases |urls|
  {
    if |urls| == 0 then []
    else
      var init := urls[..|urls| - 1];
      var last := urls[|urls| - 1];
      assert forall x :: x in init ==> x in urls;
      KeptUrls(init, parse) + (match parse(last) case Some(v) => [v] case None => [])
  }

  /** The positions of the parsable strings, in increasing order. */
  function KeptPositions(urls: seq<string>, parse: string -> Option<Url>): seq<nat>
    decreases |urls|
  {
    if |urls| == 0 then []
    else
      KeptPositions(urls[..|urls| - 1], parse)
      + (if parse(urls[|urls| - 1]).Some? then [|urls| - 1] else [])
  }

  /** The kept endpoints are exactly the parsable strings, parsed, in their
      configuration order: position k of the kept list is the k-th parsable
      string, and a position is skipped exactly when its string does not parse. */
  lemma KeptUrlsExactly(urls: seq<string>, parse: string -> Option<Url>)
    ensures |KeptPositions(urls, parse)| == |KeptUrls(urls, parse)|
    ensures forall k :: 0 <= k < |KeptPositions(urls, parse)| ==>
      KeptPositions(urls, parse)[k] < |urls|
      && parse(urls[KeptPositions(urls, parse)[k]]) == Some(KeptUrls(urls, parse)[k])
    ensures forall k, l :: 0 <= k < l < |KeptPositions(urls, parse)| ==>
      KeptPositions(urls, parse)[k] < KeptPositions(urls, parse)[l]
    ensures forall i :: 0 <= i < |urls| ==> (parse(urls[i]).Some? <==> i in KeptPositions(urls, parse))
  {
    KeptPositionsParse(urls, parse);
    KeptPositionsOrdered(urls, parse);
    KeptPositionsComplete(urls, parse);
  }

  /** Position k of the kept list comes from the k-th kept position. */
  lemma {:induction false} KeptPositionsParse(urls: seq<string>, parse: string -> Option<Url>)
    ensures |KeptPositions(urls, parse)| == |KeptUrls(urls, parse)|
    ensures forall k :: 0 <= k < |KeptPositions(urls, parse)| ==>
      KeptPositions(urls, parse)[k] < |urls|
      && parse(urls[KeptPositions(urls, parse)[k]]) == Some(KeptUrls(urls, parse)[k])
    decreases |urls|
  {
    if |urls| > 0 {
      var init := urls[..|urls| - 1];
      KeptPositionsParse(init, parse);
      var p := KeptPositions(urls, parse);
      var pi := KeptPositions(init, parse);
      var kept := KeptUrls(urls, parse);
      var ki := KeptUrls(init, parse);
      forall k | 0 <= k < |p|
        ensures p[k] < |urls| && parse(urls[p[k]]) == Some(kept[k])
      {
        if k < |pi| {
          assert p[k] == pi[k] && kept[k] == ki[k];
          assert urls[pi[k]] == init[pi[k]];
        }
      }
    }
  }

  /** The kept positions are strictly increasing and below |urls|. */
  lemma {:induction false} KeptPositionsOrdered(urls: seq<string>, parse: string -> Option<Url>)
    ensures forall k :: 0 <= k < |KeptPositions(urls, parse)| ==> KeptPositions(urls, parse)[k] < |urls|
    ensures forall k, l :: 0 <= k < l < |KeptPositions(urls, parse)| ==>
      KeptPositions(urls, parse)[k] < KeptPositions(urls, parse)[l]
    decreases |urls|
  {
    if |urls| > 0 {
      KeptPositionsOrdered(urls[..|urls| - 1], parse);
    }
  }

  /** A position is kept exactly when its string parses. */
  lemma {:induction false} KeptPositionsComplete(urls: seq<string>, parse: string -> Option<Url>)
    ensures forall i :: 0 <= i < |urls| ==> (parse(urls[i]).Some? <==> i in KeptPositions(urls, parse))
    decreases |urls|
  {
    if |urls| > 0 {
      var init := urls[..|urls| - 1];
      KeptPositionsComplete(init, parse);
      KeptPositionsOrdered(init, parse);
      assert forall i :: 0 <= i < |init| ==> urls[i] == init[i];
      assert |urls| - 1 !in KeptPositions(init, parse);
    }
  }

  /** The task runs of a cycle, one per kept endpoint: task `i` is gatherURL
      on the i-th kept endpoint with the oracle's outcome for it. */
  function Runs(kept: seq<Url>, creds: Credentials, net: (nat, Url) -> Network): (runs: seq<EndpointRun>)
    ensures |runs| == |kept|
    ensures forall i :: 0 <= i < |kept| ==> runs[i] == GatherUrl(kept[i], creds, net(i, kept[i]))
    ensures forall i :: 0 <= i < |kept| ==> EmitsOnSuccessOnly(runs[i])
  {
    seq(|kept|, i requires 0 <= i < |kept| => GatherUrl(kept[i], creds, net(i, kept[i])))
  }

  /** The accumulator calls of a task that returned: its records, then its error value. */
  function TaskCalls(run: EndpointRun): (calls: seq<SinkCall>)
    requires run.ending.Returned?
    ensures |calls| == |run.emitted| + 1
    ensures forall k :: 0 <= k < |run.emitted| ==> calls[k] == AddFields(run.emitted[k])
    ensures calls[|calls| - 1] == AddError(run.ending.err)
  {
    RecordCalls(run.emitted) + [AddError(run.ending.err)]
  }

  function RecordCalls(rs: seq<Record>): (calls: seq<SinkCall>)
    ensures |calls| == |rs|
    ensures forall k :: 0 <= k < |rs| ==> calls[k] == AddFields(rs[k])
  {
    seq(|rs|, k requires 0 <= k < |rs| => AddFields(rs[k]))
  }

  /** The tasks run one after another in task order; the first panic ends the
      process, and a cycle that completes returns nil. */
  function RunTasks(runs: seq<EndpointRun>): (result: GatherRun)
    ensures result.Completed? ==> result.returned == None
    decreases |runs|
  {
    if |runs| == 0 then Completed([], None)
    else
      var prev := RunTasks(runs[..|runs| - 1]);
      var run := runs[|runs| - 1];
      if prev.Crashed? then prev
      else if run.ending.Panicked? then Crashed(run.ending.panic)
      else Completed(prev.calls + TaskCalls(run), None)
  }

  /** Gather: parse, keep what parses, run one task per kept endpoint. */
  function Gather(cfg: Config, parse: string -> Option<Url>, net: (nat, Url) -> Network): (result: GatherRun)
    ensures result.Completed? ==> result.returned == None
  {
    RunTasks(Runs(KeptUrls(cfg.urls, parse), cfg.creds, net))
  }

  // ---------------------------------------------------------------------------
  // Counting accumulator calls.

  function Concat(segments: seq<seq<SinkCall>>): seq<SinkCall>
    decreases |segments|
  {
    if |segments| == 0 then [] else Concat(segments[..|segments| - 1]) + segments[|segments| - 1]
  }

  function ErrorCalls(calls: seq<SinkCall>): nat
    decreases |calls|
  {
    if |calls| == 0 then 0
    else ErrorCalls(calls[..|calls| - 1]) + (if calls[|calls| - 1].AddError? then 1 else 0)
  }

  function FieldCalls(calls: seq<SinkCall>): nat
    decreases |calls|
  {
    if |calls| == 0 then 0
    else FieldCalls(calls[..|calls| - 1]) + (if calls[|calls| - 1].AddFields? then 1 else 0)
  }

  lemma {:induction false} CountsAdd(a: seq<SinkCall>, b: seq<SinkCall>)
    ensures ErrorCalls(a + b) == ErrorCalls(a) + ErrorCalls(b)
    ensures FieldCalls(a + b) == FieldCalls(a) + FieldCalls(b)
    decreases |b|
  {
    if |b| == 0 {
      assert a + b == a;
    } else {
      var b' := b[..|b| - 1];
      assert (a + b)[..|a + b| - 1] == a + b';
      assert (a + b)[|a + b| - 1] == b[|b| - 1];
      CountsAdd(a, b');
    }
  }

  lemma {:induction false} RecordCallsCount(rs: seq<Record>)
    ensures ErrorCalls(RecordCalls(rs)) == 0
    ensures FieldCalls(RecordCalls(rs)) == |rs|
    decreases |rs|
  {
    if |rs| > 0 {
      var rs' := rs[..|rs| - 1];
      assert RecordCalls(rs)[..|rs| - 1] == RecordCalls(rs');
      RecordCallsCount(rs');
    }
  }

  /** Number of runs that returned nil. */
  function Successes(runs: seq<EndpointRun>): nat
    decreases |runs|
  {
    if |runs| == 0 then 0
    else Successes(runs[..|runs| - 1]) + (if runs[|runs| - 1].ending == Returned(None) then 1 else 0)
  }

  /** The segments of a completed cycle: each run's accumulator calls, in task order. */
  function Segments(runs: seq<EndpointRun>): (segs: seq<seq<SinkCall>>)
    requires forall i :: 0 <= i < |runs| ==> runs[i].ending.Returned?
    ensures |segs| == |runs|
    ensures forall i :: 0 <= i < |runs| ==> segs[i] == TaskCalls(runs[i])
  {
    seq(|runs|, i requires 0 <= i < |runs| && runs[i].ending.Returned? => TaskCalls(runs[i]))
  }

  // ---------------------------------------------------------------------------
  // Properties of the cycle.

  /** The tasks complete exactly when none of them panics, and Gather then returns nil. */
  lemma {:induction false} RunTasksCompletes(runs: seq<EndpointRun>)
    ensures RunTasks(runs).Completed? <==> forall i :: 0 <= i < |runs| ==> runs[i].ending.Returned?
    ensures RunTasks(runs).Completed? ==> RunTasks(runs).returned == None
    decreases |runs|
  {
    if |runs| > 0 {
      var init := runs[..|runs| - 1];
      RunTasksCompletes(init);
      assert forall i :: 0 <= i < |init| ==> init[i] == runs[i];
    }
  }

  /** A completed cycle's calls are each task's calls, in task order. */
  lemma {:induction false} RunTasksCalls(runs: seq<EndpointRun>)
    requires forall i :: 0 <= i < |runs| ==> runs[i].ending.Returned?
    ensures RunTasks(runs).Completed? && RunTasks(runs).calls == Concat(Segments(runs))
    decreases |runs|
  {
    if |runs| > 0 {
      var init := runs[..|runs| - 1];
      var last := runs[|runs| - 1];
      assert forall i :: 0 <= i < |init| ==> init[i] == runs[i];
      RunTasksCalls(init);
      assert Segments(runs)[..|runs| - 1] == Segments(init);
      assert Concat(Segments(runs)) == Concat(Segments(init)) + TaskCalls(last);
    }
  }

  /** A crashed cycle dies with the panic of its first panicking task. */
  lemma {:induction false} RunTasksCrash(runs: seq<EndpointRun>)
    requires RunTasks(runs).Crashed?
    ensures exists j :: (0 <= j < |runs|
                         && runs[j].ending == Panicked(RunTasks(runs).panic)
                         && (forall i :: 0 <= i < j ==> runs[i].ending.Returned?))
    decreases |runs|
  {
    var init := runs[..|runs| - 1];
    var last := runs[|runs| - 1];
    assert forall i :: 0 <= i < |init| ==> init[i] == runs[i];
    if RunTasks(init).Crashed? {
      RunTasksCrash(init);
      var j :| 0 <= j < |init| && init[j].ending == Panicked(RunTasks(init).panic)
               && forall i :: 0 <= i < j ==> init[i].ending.Returned?;
      assert runs[j] == init[j];
    } else {
      RunTasksCompletes(init);
      assert last.ending == Panicked(RunTasks(runs).panic);
      assert forall i :: 0 <= i < |runs| - 1 ==> runs[i].ending.Returned?;
    }
  }

  /** A run emits three records when it returns nil and none otherwise. */
  predicate EmitsOnSuccessOnly(run: EndpointRun) {
    && (run.ending == Returned(None) ==> |run.emitted| == 3)
    && (run.ending != Returned(None) ==> run.emitted == [])
  }

  /** A completed cycle reports exactly one error value per task and emits
      exactly three records per task whose gatherURL returned nil. */
  lemma {:induction false} RunTasksCounts(runs: seq<EndpointRun>)
    requires RunTasks(runs).Completed?
    requires forall i :: 0 <= i < |runs| ==> EmitsOnSuccessOnly(runs[i])
    ensures ErrorCalls(RunTasks(runs).calls) == |runs|
    ensures FieldCalls(RunTasks(runs).calls) == 3 * Successes(runs)
    decreases |runs|
  {
    if |runs| > 0 {
      var init := runs[..|runs| - 1];
      var run := runs[|runs| - 1];
      assert forall i :: 0 <= i < |init| ==> init[i] == runs[i];
      RunTasksCounts(init);
      var prev := RunTasks(init).calls;
      assert RunTasks(runs).calls == prev + TaskCalls(run);
      TaskCallsCount(run);
      CountsAdd(prev, TaskCalls(run));
    }
  }

  /** A returned task makes one AddError call and one AddFields call per record. */
  lemma TaskCallsCount(run: EndpointRun)
    requires run.ending.Returned?
    ensures ErrorCalls(TaskCalls(run)) == 1
    ensures FieldCalls(TaskCalls(run)) == |run.emitted|
  {
    var tail := [AddError(run.ending.err)];
    assert ErrorCalls(tail) == 1 && FieldCalls(tail) == 0 by {
      assert tail[..0] == [];
    }
    RecordCallsCount(run.emitted);
    CountsAdd(RecordCalls(run.emitted), tail);
  }

  /** Membership in a concatenation: every call of segment j is a call of the whole. */
  lemma {:induction false} InConcat(segments: seq<seq<SinkCall>>, j: nat, c: SinkCall)
    requires j < |segments| && c in segments[j]
    ensures c in Concat(segments)
    decreases |segments|
  {
    if j < |segments| - 1 {
      InConcat(segments[..|segments| - 1], j, c);
    }
  }

  /** A cycle over task runs returns nil exactly when no task panics; then it
      has reported one error value per task and three records per task that
      returned nil, and one task's failure removes nothing of another's: every
      record a task emits reaches the accumulator, as does every task's error value. */
  lemma CycleOutcome(runs: seq<EndpointRun>)
    requires forall i :: 0 <= i < |runs| ==> EmitsOnSuccessOnly(runs[i])
    ensures RunTasks(runs).Completed? <==> forall i :: 0 <= i < |runs| ==> runs[i].ending.Returned?
    ensures RunTasks(runs).Completed? ==>
      && RunTasks(runs).returned == None
      && ErrorCalls(RunTasks(runs).calls) == |runs|
      && FieldCalls(RunTasks(runs).calls) == 3 * Successes(runs)
      && (forall i, r :: 0 <= i < |runs| && r in runs[i].emitted ==> AddFields(r) in RunTasks(runs).calls)
      && (forall i :: 0 <= i < |runs| ==> AddError(runs[i].ending.err) in RunTasks(runs).calls)
  {
    RunTasksCompletes(runs);
    if RunTasks(runs).Completed? {
      RunTasksCalls(runs);
      RunTasksCounts(runs);
      var segs := Segments(runs);
      forall i, r | 0 <= i < |runs| && r in runs[i].emitted
        ensures AddFields(r) in RunTasks(runs).calls
      {
        var k :| 0 <= k < |runs[i].emitted| && runs[i].emitted[k] == r;
        assert segs[i][k] == AddFields(r);
        InConcat(segs, i, AddFields(r));
      }
      forall i | 0 <= i < |runs|
        ensures AddError(runs[i].ending.err) in RunTasks(runs).calls
      {
        assert segs[i][|segs[i]| - 1] == AddError(runs[i].ending.err);
        InConcat(segs, i, AddError(runs[i].ending.err));
      }
    }
  }

  /** Gather runs exactly one task per parsable configured string (which task
      runs on which endpoint is stated by Runs and KeptUrlsExactly); and when
      it returns it returns nil, no task having panicked, after reporting every
      task's error value and records. */
  lemma GatherOutcome(cfg: Config, parse: string -> Option<Url>, net: (nat, Url) -> Network)
    ensures |Runs(KeptUrls(cfg.urls, parse), cfg.creds, net)| == |KeptPositions(cfg.urls, parse)|
    ensures Gather(cfg, parse, net).Completed? ==>
      && Gather(cfg, parse, net).returned == None
      && ErrorCalls(Gather(cfg, parse, net).calls) == |KeptPositions(cfg.urls, parse)|
    ensures var runs := Runs(KeptUrls(cfg.urls, parse), cfg.creds, net);
      Gather(cfg, parse, net).Completed? ==>
      && (forall i :: 0 <= i < |runs| ==> runs[i].ending.Returned?)
      && (forall i, r :: 0 <= i < |runs| && r in runs[i].emitted ==> AddFields(r) in Gather(cfg, parse, net).calls)
      && (forall i :: 0 <= i < |runs| ==> AddError(runs[i].ending.err) in Gather(cfg, parse, net).calls)
  {
    var runs := Runs(KeptUrls(cfg.urls, parse), cfg.creds, net);
    KeptUrlsExactly(cfg.urls, parse);
    CycleOutcome(runs);
  }

  /** Once a prefix of the tasks has crashed, every longer prefix has too. */
  lemma {:induction false} CrashPersists(runs: seq<EndpointRun>, m: nat)
    requires m <= |runs|
    requires RunTasks(runs[..m]).Crashed?
    ensures RunTasks(runs) == RunTasks(runs[..m])
    decreases |runs| - m
  {
    if m < |runs| {
      assert runs[..m + 1][..m] == runs[..m];
      CrashPersists(runs, m + 1);
    } else {
      assert runs[..m] == runs;
    }
  }

  /** Running one more task: a completed prefix either crashes with that
      task's panic or grows by that task's calls. */
  lemma RunTasksStep(runs: seq<EndpointRun>, t: nat)
    requires t < |runs| && RunTasks(runs[..t]).Completed?
    ensures runs[t].ending.Panicked? ==> RunTasks(runs[..t + 1]) == Crashed(runs[t].ending.panic)
    ensures runs[t].ending.Returned? ==>
      RunTasks(runs[..t + 1]) == Completed(RunTasks(runs[..t]).calls + TaskCalls(runs[t]), None)
  {
    assert runs[..t + 1][..t] == runs[..t];
  }

  /** The parse loop of Gather (lines 204-213). */
  method KeepParsable(urls: seq<string>, parse: string -> Option<Url>) returns (allUrls: seq<Url>)
    ensures allUrls == KeptUrls(urls, parse)
  {
    allUrls := [];
    var i := 0;
    while i < |urls|
      invariant 0 <= i <= |urls|
      invariant allUrls == KeptUrls(urls[..i], parse)
    {
      assert urls[..i + 1][..i] == urls[..i];
      match parse(urls[i]) {
        case Some(u) => allUrls := allUrls + [u];
        case None =>
      }
      i := i + 1;
    }
    assert urls[..i] == urls;
  }

  /** The task loop of Gather (lines 216-225), run in order. */
  method RunAll(allUrls: seq<Url>, creds: Credentials, net: (nat, Url) -> Network) returns (result: GatherRun)
    ensures result == RunTasks(Runs(allUrls, creds, net))
  {
    ghost var runs := Runs(allUrls, creds, net);
    var calls: seq<SinkCall> := [];
    var t := 0;
    while t < |allUrls|
      invariant 0 <= t <= |allUrls|
      invariant RunTasks(runs[..t]) == Completed(calls, None)
    {
      var run := GatherUrl(allUrls[t], creds, net(t, allUrls[t]));
      RunTasksStep(runs, t);
      if run.ending.Panicked? {
        result := Crashed(run.ending.panic);
        CrashPersists(runs, t + 1);
        return;
      }
      calls := calls + TaskCalls(run);
      t := t + 1;
    }
    assert runs[..t] == runs;
    result := Completed(calls, None);
  }

  /** Gather written as the source writes it: the parse loop, then the task loop. */
  method RunGather(cfg: Config, parse: string -> Option<Url>, net: (nat, Url) -> Network)
    returns (result: GatherRun)
    ensures result == Gather(cfg, parse, net)
  {
    var allUrls := KeepParsable(cfg.urls, parse);
    result := RunAll(allUrls, cfg.creds, net);
  }

  /** One healthy endpoint, one unparsable string and one endpoint whose login
      cannot connect: the cycle emits the healthy endpoint's three records,
      then its nil, then the other endpoint's login error, and returns nil. */
  lemma MixedCycle(cfg: Config, parse: string -> Option<Url>, net: (nat, Url) -> Network,
                   a: Url, b: Url, cause: string)
    requires |cfg.urls| == 3
    requires parse(cfg.urls[0]) == Some(a) && parse(cfg.urls[1]) == None && parse(cfg.urls[2]) == Some(b)
    requires AllStepsSucceed(net(0, a))
    requires net(1, b).marshalError.None? && net(1, b).loginBuildError.None?
    requires net(1, b).login == TransportError(cause)
    ensures Gather(cfg, parse, net) ==
      Completed(RecordCalls(Records(a, Normalize(net(0, a).stats.value).value))
                + [AddError(None)] + [AddError(Some(LoginTransport(b, cause)))], None)
  {
    KeptTwoOfThree(cfg.urls, parse, a, b);
    MixedTasks(cfg.creds, net, a, b, cause);
    RunsOfTwo(cfg.creds, net, a, b);
    RunTasksPair(GatherUrl(a, cfg.creds, net(0, a)), GatherUrl(b, cfg.creds, net(1, b)));
  }

  /** The accumulator calls of the two tasks of MixedCycle. */
  lemma MixedTasks(creds: Credentials, net: (nat, Url) -> Network, a: Url, b: Url, cause: string)
    requires AllStepsSucceed(net(0, a))
    requires net(1, b).marshalError.None? && net(1, b).loginBuildError.None?
    requires net(1, b).login == TransportError(cause)
    ensures GatherUrl(a, creds, net(0, a)).ending.Returned?
    ensures GatherUrl(b, creds, net(1, b)).ending.Returned?
    ensures TaskCalls(GatherUrl(a, creds, net(0, a)))
         == RecordCalls(Records(a, Normalize(net(0, a).stats.value).value)) + [AddError(None)]
    ensures TaskCalls(GatherUrl(b, creds, net(1, b))) == [AddError(Some(LoginTransport(b, cause)))]
  {
    SuccessExactly(a, creds, net(0, a));
    LoginUnreachable(b, creds, net(1, b), cause);
  }

  /** Two kept endpoints give two tasks: the first on network outcome 0, the
      second on network outcome 1. */
  lemma RunsOfTwo(creds: Credentials, net: (nat, Url) -> Network, a: Url, b: Url)
    ensures Runs([a, b], creds, net) == [GatherUrl(a, creds, net(0, a)), GatherUrl(b, creds, net(1, b))]
  {
    var runs := Runs([a, b], creds, net);
    assert runs[0] == GatherUrl(a, creds, net(0, a));
    assert runs[1] == GatherUrl(b, creds, net(1, b));
  }

  /** Of three strings whose middle one does not parse, the outer two are kept. */
  lemma KeptTwoOfThree(urls: seq<string>, parse: string -> Option<Url>, a: Url, b: Url)
    requires |urls| == 3
    requires parse(urls[0]) == Some(a) && parse(urls[1]) == None && parse(urls[2]) == Some(b)
    ensures KeptUrls(urls, parse) == [a, b]
  {
    assert urls[..1][..0] == [];
    assert urls[..2][..1] == urls[..1];
    assert urls[..3][..2] == urls[..2];
    assert KeptUrls(urls[..1], parse) == [a];
    assert KeptUrls(urls[..2], parse) == [a];
  }

  /** Two tasks that both return run to completion, first one's calls first. */
  lemma RunTasksPair(r0: EndpointRun, r1: EndpointRun)
    requires r0.ending.Returned? && r1.ending.Returned?
    ensures RunTasks([r0, r1]) == Completed(TaskCalls(r0) + TaskCalls(r1), None)
  {
    assert [r0, r1][..1] == [r0];
    assert [r0][..0] == [];
    assert RunTasks([]) == Completed([], None);
    assert RunTasks([r0]) == Completed([] + TaskCalls(r0), None);
    assert [] + TaskCalls(r0) == TaskCalls(r0);
  }
}
