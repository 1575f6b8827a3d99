/** The events that a worker fires for one task message, and what they do to the node. */
module TaskExecutor {
  import opened WorkflowTypes
  import opened SchedulerModel
  import opened NodeMachine
  import opened Placement
  import opened Frontier
  import opened LookAheads
  import opened Limits
  import opened WorkflowGraph
  import opened DagParser

  // A task message as it is parsed; a parser that throws leaves a message text instead.
  datatype TaskData = TaskData(taskId: NodeId, name: string, results: seq<ArtifactId>)

  // A task's constructor may throw; its processing may throw or return the uploaded artifacts.
  datatype Processing = ProcessThrows(message: string) | Produces(results: seq<ArtifactId>)
  datatype Construction = ConstructorThrows(message: string) | Constructed(process: Processing)

  datatype TaskStatus = ProcessingStarted | ProcessingFailed | ProcessingCompleted | ArtifactUploaded
  datatype StatusEvent = StatusEvent(status: TaskStatus, message: string, taskId: string, artifactId: string)

  type Factories = map<string, TaskData -> Construction>

  // What the listeners of an event throw, if they throw.
  type Listener = StatusEvent -> Option<string>

  const UNKNOWN_TASK := "-1"

  function FailureEvent(taskId: string, message: string): StatusEvent {
    StatusEvent(ProcessingFailed, message, taskId, "")
  }

  function StartEvent(data: TaskData): StatusEvent {
    StatusEvent(ProcessingStarted, "Started processing: " + data.name, data.taskId, "")
  }

  function CompletionEvent(data: TaskData): StatusEvent {
    StatusEvent(ProcessingCompleted, "Completed processing: " + data.name, data.taskId, "")
  }

  function ArtifactEvent(data: TaskData, result: ArtifactId): StatusEvent {
    StatusEvent(ArtifactUploaded, "Uploaded Artifacts: " + data.name, data.taskId, result)
  }

  function ArtifactEvents(data: TaskData, results: seq<ArtifactId>): (r: seq<StatusEvent>)
    ensures |r| == |results| && forall i :: 0 <= i < |results| ==> r[i] == ArtifactEvent(data, results[i])
  {
    seq(|results|, i requires 0 <= i < |results| => ArtifactEvent(data, results[i]))
  }

  // ---------------------------------------------------------------- what is fired

  /** The events that the guarded part fires if no listener throws, before the task throws. */
  function Planned(data: TaskData, task: Construction): seq<StatusEvent> {
    match task
    case ConstructorThrows(_) => []
    case Constructed(ProcessThrows(_)) => [StartEvent(data)]
    case Constructed(Produces(results)) =>
      [StartEvent(data)] + ([CompletionEvent(data)] + ArtifactEvents(data, results))
  }

  /** What the task itself throws in the end. */
  function Thrown(task: Construction): Option<string> {
    match task
    case ConstructorThrows(message) => Some(message)
    case Constructed(ProcessThrows(message)) => Some(message)
    case Constructed(Produces(_)) => None
  }

  // What was fired, and what was thrown in the end.
  type Played = (seq<StatusEvent>, Option<string>)

  /** An event and what comes after it, unless its listeners throw. */
  function Continued(listener: Listener, e: StatusEvent, rest: Played): Played {
    if listener(e).Some? then ([e], listener(e)) else ([e] + rest.0, rest.1)
  }

  /** Firing stops behind the first event whose listeners throw. */
  function Play(listener: Listener, planned: seq<StatusEvent>): (r: Played)
    ensures r.0 <= planned && (r.1.None? ==> r.0 == planned)
    ensures r.1.Some? ==> r.0 != [] && r.1 == listener(r.0[|r.0| - 1])
  {
    if planned == [] then ([], None) else Continued(listener, planned[0], Play(listener, planned[1..]))
  }

  lemma {:induction false} PlayMore(listener: Listener, planned: seq<StatusEvent>, e: StatusEvent)
    ensures Play(listener, planned + [e]) ==
            if Play(listener, planned).1.Some? then Play(listener, planned) else (planned + [e], listener(e))
  {
    if planned == [] {
      assert [e][1..] == [] && [e] + [] == [e] && planned + [e] == [e];
    } else if listener(planned[0]).None? {
      assert (planned + [e])[1..] == planned[1..] + [e];
      PlayMore(listener, planned[1..], e);
      assert [planned[0]] + (planned[1..] + [e]) == planned + [e];
    }
  }

  /** The guarded part: its events, and the exception that leaves it. */
  function Guarded(listener: Listener, data: TaskData, task: Construction): Played {
    var (fired, error) := Play(listener, Planned(data, task));
    (fired, if error.Some? then error else Thrown(task))
  }

  /** All events of a task message. */
  function Fired(listener: Listener, factories: Factories, raw: Result<TaskData, string>): (r: seq<StatusEvent>)
  {
    match raw
    case Err(message) => [FailureEvent(UNKNOWN_TASK, message)]
    case Ok(data) =>
      if data.name !in factories then [FailureEvent(data.taskId, "Did not find task: " + data.name)]
      else
        var (fired, error) := Guarded(listener, data, factories[data.name](data));
        fired + if error.Some? then [FailureEvent(data.taskId, error.value)] else []
  }

  /** Only what the listeners of a failure event throw leaves the executor. */
  function Escapes(listener: Listener, fired: seq<StatusEvent>): Option<string> {
    if fired != [] && fired[|fired| - 1].status == ProcessingFailed then listener(fired[|fired| - 1]) else None
  }

  class Executor {
    const taskFactories: Factories
    const listener: Listener
    var fired: seq<StatusEvent>

    constructor (taskFactories: Factories, listener: Listener)
      ensures this.taskFactories == taskFactories && this.listener == listener && fired == []
    {
      this.taskFactories, this.listener := taskFactories, listener;
      fired := [];
    }

    method FireOnTaskStatusChanged(e: StatusEvent) returns (error: Option<string>)
      modifies this
      ensures fired == old(fired) + [e] && error == listener(e)
    {
      fired := fired + [e];
      return listener(e);
    }

    /** Fires the events of a task message; an exception of the guarded part becomes a failure
        event, and an exception of a failure event's listeners escapes. */
    method ExecuteTask(rawTask: Result<TaskData, string>) returns (escaped: Option<string>)
      modifies this
      ensures fired == old(fired) + Fired(listener, taskFactories, rawTask)
      ensures escaped == Escapes(listener, Fired(listener, taskFactories, rawTask))
    {
      if rawTask.Err? {
        escaped := FireOnTaskStatusChanged(FailureEvent(UNKNOWN_TASK, rawTask.error));
        return;
      }
      var taskData := rawTask.value;
      if taskData.name !in taskFactories {
        escaped := FireOnTaskStatusChanged(FailureEvent(taskData.taskId, "Did not find task: " + taskData.name));
        return;
      }
      var error := RunGuarded(taskData, taskFactories[taskData.name](taskData));
      NoFailurePlanned(taskData, taskFactories[taskData.name](taskData));
      if error.Some? {
        escaped := FireOnTaskStatusChanged(FailureEvent(taskData.taskId, error.value));
        return;
      }
      return None;
    }

    /** The guarded part: the exception that leaves it, if there is one. */
    method RunGuarded(taskData: TaskData, task: Construction) returns (error: Option<string>)
      modifies this
      ensures fired == old(fired) + Guarded(listener, taskData, task).0
      ensures error == Guarded(listener, taskData, task).1
    {
      GuardedSteps(listener, taskData, task);
      if task.ConstructorThrows? {
        return Some(task.message);
      }
      error := FireOnTaskStatusChanged(StartEvent(taskData));
      if error.Some? {
        return;
      }
      error := RunProcess(taskData, task.process);
      Appended(old(fired), StartEvent(taskData), Processed(listener, taskData, task.process).0);
    }

    method RunProcess(taskData: TaskData, process: Processing) returns (error: Option<string>)
      modifies this
      ensures fired == old(fired) + Processed(listener, taskData, process).0
      ensures error == Processed(listener, taskData, process).1
    {
      if process.ProcessThrows? {
        return Some(process.message);
      }
      error := FireOnTaskStatusChanged(CompletionEvent(taskData));
      if error.Some? {
        return;
      }
      error := FireArtifacts(taskData, process.results);
      Appended(old(fired), CompletionEvent(taskData), Play(listener, ArtifactEvents(taskData, process.results)).0);
    }

    method FireArtifacts(taskData: TaskData, results: seq<ArtifactId>) returns (error: Option<string>)
      modifies this
      ensures var (played, thrown) := Play(listener, ArtifactEvents(taskData, results));
              fired == old(fired) + played && error == thrown
    {
      ghost var planned := ArtifactEvents(taskData, results);
      var i := 0;
      error := None;
      while i < |results| && error.None?
        invariant 0 <= i <= |results| == |planned|
        invariant fired == old(fired) + Play(listener, planned[..i]).0 && error == Play(listener, planned[..i]).1
      {
        var next := i + 1;
        PlayNext(listener, planned, i, next);
        error := FireOnTaskStatusChanged(ArtifactEvent(taskData, results[i]));
        i := next;
      }
      if error.Some? { PlayStops(listener, planned, i); }
      assert planned[..|planned|] == planned;
    }
  }

  lemma PlayNext(listener: Listener, planned: seq<StatusEvent>, i: nat, next: nat)
    requires i < |planned| && next == i + 1 && Play(listener, planned[..i]).1.None?
    ensures Play(listener, planned[..next]) == (Play(listener, planned[..i]).0 + [planned[i]], listener(planned[i]))
  {
    assert planned[..next] == planned[..i] + [planned[i]];
    PlayMore(listener, planned[..i], planned[i]);
  }

  /** What follows the start of a task. */
  function Processed(listener: Listener, data: TaskData, process: Processing): Played {
    match process
    case ProcessThrows(message) => ([], Some(message))
    case Produces(results) => Continued(listener, CompletionEvent(data), Play(listener, ArtifactEvents(data, results)))
  }

  /** The guarded part, event by event. */
  lemma GuardedSteps(listener: Listener, data: TaskData, task: Construction)
    ensures Guarded(listener, data, task) ==
            match task
            case ConstructorThrows(message) => ([], Some(message))
            case Constructed(process) => Continued(listener, StartEvent(data), Processed(listener, data, process))
  {
    if task.Constructed? {
      match task.process
      case ProcessThrows(_) =>
        PlayFirst(listener, StartEvent(data), []);
        assert [StartEvent(data)] + [] == [StartEvent(data)];
      case Produces(results) =>
        var artifacts := ArtifactEvents(data, results);
        PlayFirst(listener, StartEvent(data), [CompletionEvent(data)] + artifacts);
        PlayFirst(listener, CompletionEvent(data), artifacts);
    }
  }

  lemma Appended(before: seq<StatusEvent>, e: StatusEvent, rest: seq<StatusEvent>)
    ensures before + [e] + rest == before + ([e] + rest)
  {}

  lemma PlayFirst(listener: Listener, e: StatusEvent, rest: seq<StatusEvent>)
    ensures Play(listener, [e] + rest) == Continued(listener, e, Play(listener, rest))
  {
    assert ([e] + rest)[1..] == rest;
  }

  lemma TakeDrop(planned: seq<StatusEvent>, k: nat, rest: nat)
    requires k == rest + 1 <= |planned|
    ensures planned[..k][1..] == planned[1..][..rest]
  {}

  /** Nothing is fired behind an event whose listeners throw. */
  lemma {:induction false} PlayStops(listener: Listener, planned: seq<StatusEvent>, k: nat)
    requires k <= |planned| && Play(listener, planned[..k]).1.Some?
    ensures Play(listener, planned) == Play(listener, planned[..k])
  {
    if listener(planned[0]).None? {
      var rest := k - 1;
      TakeDrop(planned, k, rest);
      PlayStops(listener, planned[1..], rest);
    }
  }

  lemma NoFailurePlanned(data: TaskData, task: Construction)
    ensures forall e :: e in Planned(data, task) ==> e.status != ProcessingFailed
  {}

  // ---------------------------------------------------------------- events that all arrive

  function Delivers(e: StatusEvent): Option<string> {
    None
  }

  /** The events of a task message when no listener throws. */
  function Trace(factories: Factories, raw: Result<TaskData, string>): seq<StatusEvent> {
    Fired(Delivers, factories, raw)
  }

  /** The events of a task that was constructed. */
  function ProcessTrace(data: TaskData, process: Processing): seq<StatusEvent> {
    match process
    case ProcessThrows(message) => [StartEvent(data), FailureEvent(data.taskId, message)]
    case Produces(results) => [StartEvent(data)] + ([CompletionEvent(data)] + ArtifactEvents(data, results))
  }

  lemma {:induction false} PlaysAll(planned: seq<StatusEvent>)
    ensures Play(Delivers, planned) == (planned, None)
  {
    if planned != [] { PlaysAll(planned[1..]); }
  }

  lemma ConstructedTrace(factories: Factories, data: TaskData)
    requires data.name in factories && factories[data.name](data).Constructed?
    ensures Trace(factories, Ok(data)) == ProcessTrace(data, factories[data.name](data).process)
  {
    var task := factories[data.name](data);
    PlaysAll(Planned(data, task));
  }

  // ---------------------------------------------------------------- messages

  /** The message that the task manager receives for an event. */
  function Message(worker: string, e: StatusEvent): Event {
    match e.status
    case ProcessingStarted => Started(worker, e.taskId)
    case ProcessingCompleted => Completed(worker, e.taskId)
    case ProcessingFailed => FailedEvent(worker, e.taskId)
    case ArtifactUploaded => Uploaded(e.taskId, e.artifactId)
  }

  /** Task events and artifact events travel in two queues, each in order. */
  function TaskStream(worker: string, trace: seq<StatusEvent>): seq<Event> {
    if trace == [] then []
    else (if trace[0].status == ArtifactUploaded then [] else [Message(worker, trace[0])])
         + TaskStream(worker, trace[1..])
  }

  function ArtifactStream(worker: string, trace: seq<StatusEvent>): seq<Event> {
    if trace == [] then []
    else (if trace[0].status == ArtifactUploaded then [Message(worker, trace[0])] else [])
         + ArtifactStream(worker, trace[1..])
  }

  lemma StreamsFrom(worker: string, e: StatusEvent, rest: seq<StatusEvent>)
    ensures TaskStream(worker, [e] + rest) ==
            (if e.status == ArtifactUploaded then [] else [Message(worker, e)]) + TaskStream(worker, rest)
    ensures ArtifactStream(worker, [e] + rest) ==
            (if e.status == ArtifactUploaded then [Message(worker, e)] else []) + ArtifactStream(worker, rest)
  {
    assert ([e] + rest)[1..] == rest;
  }

  lemma SingleStream(worker: string, n: NodeId, message: string)
    ensures TaskStream(worker, [FailureEvent(n, message)]) == [FailedEvent(worker, n)]
  {
    var e := FailureEvent(n, message);
    StreamsFrom(worker, e, []);
    assert [e] + [] == [e];
  }

  lemma ThrowStreams(worker: string, data: TaskData, message: string)
    ensures TaskStream(worker, ProcessTrace(data, ProcessThrows(message))) ==
            [Started(worker, data.taskId), FailedEvent(worker, data.taskId)]
  {
    SingleStream(worker, data.taskId, message);
    StreamsFrom(worker, StartEvent(data), [FailureEvent(data.taskId, message)]);
  }

  lemma {:induction false} ArtifactsOnly(worker: string, data: TaskData, results: seq<ArtifactId>)
    ensures TaskStream(worker, ArtifactEvents(data, results)) == []
    ensures ArtifactStream(worker, ArtifactEvents(data, results)) == Uploads(data.taskId, results)
  {
    if results != [] {
      assert ArtifactEvents(data, results)[1..] == ArtifactEvents(data, results[1..]);
      ArtifactsOnly(worker, data, results[1..]);
    }
  }

  /** The two streams of a task that succeeds. */
  lemma SuccessStreams(worker: string, data: TaskData, results: seq<ArtifactId>)
    ensures var trace := ProcessTrace(data, Produces(results));
            && TaskStream(worker, trace) == [Started(worker, data.taskId), Completed(worker, data.taskId)]
            && ArtifactStream(worker, trace) == Uploads(data.taskId, results)
  {
    var (completed, artifacts) := (CompletionEvent(data), ArtifactEvents(data, results));
    ArtifactsOnly(worker, data, results);
    StreamsFrom(worker, completed, artifacts);
    StreamsFrom(worker, StartEvent(data), [completed] + artifacts);
  }

  // ---------------------------------------------------------------- effect on the node

  /** However the two streams of a successful task are interleaved with each other and with
      dispatch, the task's node succeeds, its artifacts are published, and every other node
      ends in the status that it has after any other interleaving. */
  lemma SuccessfulTask(s: State, worker: string, data: TaskData, run1: seq<Event>, run2: seq<Event>)
    requires WF(s) && Closed(s) && data.taskId in s.wf.nodes && CanMove(s, data.taskId, Running)
    requires var trace := ProcessTrace(data, Produces(s.wf.nodes[data.taskId].task.results));
             && Interleaves(TaskStream(worker, trace), ArtifactStream(worker, trace), run1)
             && Interleaves(TaskStream(worker, trace), ArtifactStream(worker, trace), run2)
    ensures Exec(s, run1).status[data.taskId] == Succeeded && Exec(s, run1).status == Exec(s, run2).status
    ensures Exec(s, run1).published == s.published + ToSet(s.wf.nodes[data.taskId].task.results)
  {
    var n := data.taskId;
    SuccessStreams(worker, data, s.wf.nodes[n].task.results);
    Confluence(s, worker, n, [Started(worker, n), Completed(worker, n)], run1, run2);
  }

  /** What a failure leaves of a node: queued again, or failed for good when its retries are
      used up. */
  function AfterFailure(s: State, n: NodeId): DagNodeStatus
    requires n in s.retries && n in s.wf.nodes
  {
    if s.retries[n] + 1 > s.wf.nodes[n].task.retryPolicy.maxRetryCount then Failed else Queued
  }

  /** The node has failed once since. */
  ghost predicate FailedSince(s: State, r: State, n: NodeId) {
    && n in s.retries && n in s.wf.nodes && n in r.status
    && r.retries == s.retries[n := s.retries[n] + 1] && r.status[n] == AfterFailure(s, n)
  }

  lemma FailureEffect(s: State, n: NodeId)
    requires WF(s) && n in s.wf.nodes && s.status[n] == Running
    ensures FailedSince(s, TaskFailed(s, n), n)
  {
    var failed := MarkFailed(s, n);
    CancelMoves(failed, n);
    FailedNodes(s, n);
  }

  lemma FailedSinceStart(s: State, r: State, n: NodeId)
    requires WF(s) && n in s.wf.nodes && FailedSince(Mark(s, n, Running), r, n)
    ensures FailedSince(s, r, n)
  {}

  lemma FailsAfterStart(s: State, worker: string, n: NodeId)
    requires WF(s) && n in s.wf.nodes && CanMove(s, n, Running)
    ensures FailedSince(s, Step(Step(s, Started(worker, n)), FailedEvent(worker, n)), n)
  {
    StartEffect(s, worker, n);
    var started := Mark(s, n, Running);
    FailureEffect(started, n);
    FailedSinceStart(s, TaskFailed(started, n), n);
  }

  lemma ThrowEffect(s: State, worker: string, n: NodeId, es: seq<Event>)
    requires WF(s) && n in s.wf.nodes && CanMove(s, n, Running) && es == [Started(worker, n), FailedEvent(worker, n)]
    ensures FailedSince(s, Exec(s, es), n)
  {
    TwoEvents(s, Started(worker, n), FailedEvent(worker, n));
    FailsAfterStart(s, worker, n);
  }

  /** A task whose processing throws counts one retry and is queued again, or has failed for
      good when its retries are used up. */
  lemma ThrowingTask(s: State, worker: string, data: TaskData, message: string)
    requires WF(s) && data.taskId in s.wf.nodes && CanMove(s, data.taskId, Running)
    ensures FailedSince(s, Exec(s, TaskStream(worker, ProcessTrace(data, ProcessThrows(message)))), data.taskId)
  {
    ThrowStreams(worker, data, message);
    ThrowEffect(s, worker, data.taskId, TaskStream(worker, ProcessTrace(data, ProcessThrows(message))));
  }

  /** A task that is reported as failed without having started: a message that cannot be
      parsed, a name without a factory, or a constructor that throws. */
  predicate NeverStarted(factories: Factories, raw: Result<TaskData, string>) {
    raw.Err? || raw.value.name !in factories || factories[raw.value.name](raw.value).ConstructorThrows?
  }

  /** Where the failure of such a task is reported. */
  function ReportedId(raw: Result<TaskData, string>): NodeId {
    if raw.Err? then UNKNOWN_TASK else raw.value.taskId
  }

  lemma NeverStartedStream(worker: string, factories: Factories, raw: Result<TaskData, string>)
    requires NeverStarted(factories, raw)
    ensures TaskStream(worker, Trace(factories, raw)) == [FailedEvent(worker, ReportedId(raw))]
  {
    var message := Trace(factories, raw)[0].message;
    assert Trace(factories, raw) == [FailureEvent(ReportedId(raw), message)];
    SingleStream(worker, ReportedId(raw), message);
  }

  lemma ReportIgnored(s: State, worker: string, factories: Factories, raw: Result<TaskData, string>)
    requires WF(s) && NeverStarted(factories, raw) && !CanMove(s, ReportedId(raw), Failed)
    ensures Exec(s, TaskStream(worker, Trace(factories, raw))) == s
  {
    NeverStartedStream(worker, factories, raw);
    NoFailure(s, ReportedId(raw));
    OneEvent(s, FailedEvent(worker, ReportedId(raw)));
  }

  /** The state after a report differs from the state before. */
  lemma FailureShows(s: State, r: State, n: NodeId)
    requires FailedSince(s, r, n)
    ensures r != s
  {
    assert r.retries[n] == s.retries[n] + 1;
  }

  lemma SuccessDiffers(s: State, r: State, n: NodeId)
    requires CanMove(s, n, Running) && n in r.status && r.status[n] == Succeeded
    ensures r != s
  {}

  lemma ThrowCounts(s: State, worker: string, data: TaskData, message: string)
    requires WF(s) && data.taskId in s.wf.nodes && CanMove(s, data.taskId, Running)
    ensures Exec(s, TaskStream(worker, ProcessTrace(data, ProcessThrows(message)))) != s
  {
    ThrowingTask(s, worker, data, message);
    FailureShows(s, Exec(s, TaskStream(worker, ProcessTrace(data, ProcessThrows(message)))), data.taskId);
  }

  lemma SuccessCounts(s: State, worker: string, data: TaskData, results: seq<ArtifactId>)
    requires WF(s) && data.taskId in s.wf.nodes && CanMove(s, data.taskId, Running)
    ensures Exec(s, TaskStream(worker, ProcessTrace(data, Produces(results)))) != s
  {
    SuccessReported(s, worker, data, results);
    SuccessDiffers(s, Exec(s, TaskStream(worker, ProcessTrace(data, Produces(results)))), data.taskId);
  }

  lemma ReportCounts(s: State, worker: string, data: TaskData, process: Processing)
    requires WF(s) && data.taskId in s.wf.nodes && CanMove(s, data.taskId, Running)
    ensures Exec(s, TaskStream(worker, ProcessTrace(data, process))) != s
  {
    match process
    case ProcessThrows(message) => ThrowCounts(s, worker, data, message);
    case Produces(results) => SuccessCounts(s, worker, data, results);
  }

  /** The task manager ignores the report exactly of such tasks: the node keeps its status and
      its retry count, and the task is neither retried nor given up. */
  lemma FailureReport(s: State, worker: string, factories: Factories, raw: Result<TaskData, string>)
    requires WF(s) && UNKNOWN_TASK !in s.wf.nodes
    requires raw.Ok? ==> raw.value.taskId in s.wf.nodes && CanMove(s, raw.value.taskId, Running)
    ensures Exec(s, TaskStream(worker, Trace(factories, raw))) == s <==> NeverStarted(factories, raw)
  {
    if NeverStarted(factories, raw) {
      ReportIgnored(s, worker, factories, raw);
    } else {
      ConstructedTrace(factories, raw.value);
      ReportCounts(s, worker, raw.value, factories[raw.value.name](raw.value).process);
    }
  }

  lemma SuccessEffect(s: State, worker: string, n: NodeId, es: seq<Event>)
    requires WF(s) && n in s.wf.nodes && CanMove(s, n, Running) && es == [Started(worker, n), Completed(worker, n)]
    ensures n in Exec(s, es).status && Exec(s, es).status[n] == Succeeded
  {
    TwoEvents(s, Started(worker, n), Completed(worker, n));
    StartEffect(s, worker, n);
    SuccessShows(Mark(s, n, Running), n);
  }

  lemma SuccessReported(s: State, worker: string, data: TaskData, results: seq<ArtifactId>)
    requires WF(s) && data.taskId in s.wf.nodes && CanMove(s, data.taskId, Running)
    ensures var r := Exec(s, TaskStream(worker, ProcessTrace(data, Produces(results))));
            data.taskId in r.status && r.status[data.taskId] == Succeeded
  {
    SuccessStreams(worker, data, results);
    SuccessEffect(s, worker, data.taskId, TaskStream(worker, ProcessTrace(data, Produces(results))));
  }

  /** No parsed workflow has a node with the id that stands for an unknown task. */
  lemma UnknownTaskIsNoNode(def: WorkflowDefinition)
    ensures UNKNOWN_TASK !in ParsedWorkflow(def).nodes
  {
    ParsedDistinct(def);
    forall i | 0 <= i < |ParsedNodes(def)| ensures ParsedNodes(def)[i].id != UNKNOWN_TASK {
      assert IdOf(def, i)[0] == 'w';
    }
    ByIdKeys(ParsedNodes(def), Fixed);
  }

  /** A task that never starts blocks its node and its worker: its report changes nothing, and
      over every later run the node keeps its status and the worker keeps the node. */
  lemma NeverStartedBlocks(s: State, worker: string, factories: Factories, data: TaskData, i: nat, st: DagNodeStatus,
                           es: seq<Event>)
    requires NeverStarted(factories, Ok(data)) && Inv(s) && Unstarted(s, i, data.taskId, st)
    requires HonestRun(s, es) && NeverStarts(es, data.taskId)
    ensures Exec(s, TaskStream(worker, Trace(factories, Ok(data)))) == s
    ensures Unstarted(Exec(s, es), i, data.taskId, st)
  {
    ReportIgnored(s, worker, factories, Ok(data));
    UnstartedForever(s, es, i, data.taskId, st);
  }
}
