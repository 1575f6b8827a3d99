/** What the executor reports on a task message, event by event, and where it stops when the
    listeners of an event throw. */
module ExecutorReports {
  import opened WorkflowTypes
  import opened TaskExecutor

  /** The reports on a task that produces the results: its start, its completion, and one on
      each result. */
  ghost predicate FullReport(data: TaskData, results: seq<ArtifactId>, events: seq<StatusEvent>) {
    && |events| == |results| + 2
    && events[0] == StatusEvent(ProcessingStarted, "Started processing: " + data.name, data.taskId, "")
    && events[1] == StatusEvent(ProcessingCompleted, "Completed processing: " + data.name, data.taskId, "")
    && forall i :: 2 <= i < |events| ==>
                     events[i] == StatusEvent(ArtifactUploaded, "Uploaded Artifacts: " + data.name, data.taskId,
                                              results[i - 2])
  }

  /** The listeners of event `k` are the first ones that throw. */
  ghost predicate ThrowsFirst(listener: Listener, events: seq<StatusEvent>, k: nat) {
    && k < |events| && listener(events[k]).Some?
    && forall j :: 0 <= j < k ==> listener(events[j]).None?
  }

  ghost predicate NoneThrows(listener: Listener, events: seq<StatusEvent>) {
    forall j :: 0 <= j < |events| ==> listener(events[j]).None?
  }

  lemma {:induction false} PlayedUpTo(listener: Listener, events: seq<StatusEvent>, k: nat)
    requires ThrowsFirst(listener, events, k)
    ensures Play(listener, events) == (events[..k + 1], listener(events[k]))
  {
    if k == 0 {
      assert events[..1] == [events[0]];
    } else {
      var rest := k - 1;
      PlayedUpTo(listener, events[1..], rest);
      assert [events[0]] + events[1..][..k] == events[..k + 1];
    }
  }

  lemma {:induction false} PlayedAll(listener: Listener, events: seq<StatusEvent>)
    requires NoneThrows(listener, events)
    ensures Play(listener, events) == (events, None)
  {
    if events != [] {
      PlayedAll(listener, events[1..]);
      assert [events[0]] + events[1..] == events;
    }
  }

  lemma PlannedReport(data: TaskData, results: seq<ArtifactId>, events: seq<StatusEvent>)
    requires FullReport(data, results, events)
    ensures Planned(data, Constructed(Produces(results))) == events
  {
    var planned := Planned(data, Constructed(Produces(results)));
    assert |planned| == |events|;
    forall i | 0 <= i < |events| ensures planned[i] == events[i] {
      if i >= 2 { assert planned[i] == ArtifactEvents(data, results)[i - 2]; }
    }
  }

  lemma EscapesFailure(listener: Listener, before: seq<StatusEvent>, data: TaskData, message: string)
    ensures Escapes(listener, before + [StatusEvent(ProcessingFailed, message, data.taskId, "")]) ==
            listener(StatusEvent(ProcessingFailed, message, data.taskId, ""))
  {}

  /** A task that produces its results is reported on in full if no listener throws, and
      nothing escapes. */
  lemma ReportsInFull(listener: Listener, factories: Factories, data: TaskData, results: seq<ArtifactId>,
                      events: seq<StatusEvent>)
    requires data.name in factories && factories[data.name](data) == Constructed(Produces(results))
    requires FullReport(data, results, events) && NoneThrows(listener, events)
    ensures Fired(listener, factories, Ok(data)) == events
    ensures Escapes(listener, Fired(listener, factories, Ok(data))) == None
  {
    PlannedReport(data, results, events);
    PlayedAll(listener, events);
    NoFailurePlanned(data, Constructed(Produces(results)));
    assert events[|events| - 1] in events;
  }

  /** If the listeners of a report throw, nothing more is reported but the failure with what
      they threw, although the task has run; what the listeners of the failure throw escapes. */
  lemma ReportsUpToThrow(listener: Listener, factories: Factories, data: TaskData, results: seq<ArtifactId>,
                         events: seq<StatusEvent>, k: nat)
    requires data.name in factories && factories[data.name](data) == Constructed(Produces(results))
    requires FullReport(data, results, events) && ThrowsFirst(listener, events, k)
    ensures var failure := StatusEvent(ProcessingFailed, listener(events[k]).value, data.taskId, "");
            && Fired(listener, factories, Ok(data)) == events[..k + 1] + [failure]
            && Escapes(listener, Fired(listener, factories, Ok(data))) == listener(failure)
  {
    PlannedReport(data, results, events);
    PlayedUpTo(listener, events, k);
    EscapesFailure(listener, events[..k + 1], data, listener(events[k]).value);
  }

  /** A task whose processing throws is reported as started and then as failed, with what it
      threw or else what the listeners of its start threw. */
  lemma ReportsThrowing(listener: Listener, factories: Factories, data: TaskData, message: string)
    requires data.name in factories && factories[data.name](data) == Constructed(ProcessThrows(message))
    ensures var start := StatusEvent(ProcessingStarted, "Started processing: " + data.name, data.taskId, "");
            var reason := if listener(start).Some? then listener(start).value else message;
            var failure := StatusEvent(ProcessingFailed, reason, data.taskId, "");
            && Fired(listener, factories, Ok(data)) == [start, failure]
            && Escapes(listener, Fired(listener, factories, Ok(data))) == listener(failure)
  {
    PlayFirst(listener, StartEvent(data), []);
    assert [StartEvent(data)] + [] == [StartEvent(data)];
  }

  /** A task that was never constructed is reported only as failed: with what the parser or the
      constructor threw, or as not found. */
  lemma ReportsNeverStarted(listener: Listener, factories: Factories, raw: Result<TaskData, string>)
    requires NeverStarted(factories, raw)
    ensures var fired := Fired(listener, factories, raw);
            && |fired| == 1 && fired[0].status == ProcessingFailed && fired[0].artifactId == ""
            && fired[0].taskId == (if raw.Err? then "-1" else raw.value.taskId)
            && Escapes(listener, fired) == listener(fired[0])
    ensures raw.Err? ==> Fired(listener, factories, raw)[0].message == raw.error
    ensures raw.Ok? && raw.value.name !in factories ==>
              Fired(listener, factories, raw)[0].message == "Did not find task: " + raw.value.name
    ensures raw.Ok? && raw.value.name in factories ==>
              factories[raw.value.name](raw.value) ==
              ConstructorThrows(Fired(listener, factories, raw)[0].message)
  {
    if raw.Ok? && raw.value.name in factories {
      var task := factories[raw.value.name](raw.value);
      assert Planned(raw.value, task) == [];
      assert Fired(listener, factories, raw) == [FailureEvent(raw.value.taskId, task.message)];
    }
  }
}
