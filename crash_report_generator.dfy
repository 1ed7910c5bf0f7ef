/**
 DefaultCrashReportGenerator: classifies one pod snapshot as an application
 crash or not and, when it is one, builds the single crash report.

 The collaborators whose bodies are not part of this model are inputs:
 `parseAppIndex` stands for util.ParseAppIndex, `events` is what the event
 list query for the pod returned, and `isStopped` stands for k8s.IsStopped.
 The logger is the `logs` sequence of the result, and `eventsQueried` says
 whether the event list query was issued at all.
 */
module CrashReportGenerator {
  import opened Wrappers
  import opened Kube
  import opened CrashEvents

  /** The waiting reason the orchestration platform uses for a crash loop. */
  const CrashLoopBackOff: string := "CrashLoopBackOff"

  const FailedToParseAppIndex: string := "failed-to-parse-app-index"
  const FailedToGetK8sEvents: string := "failed-to-get-k8s-events"

  /** The runtime error Go raises when a nil pointer is dereferenced. */
  const NilDereference: string := "runtime error: invalid memory address or nil pointer dereference"

  /** util.ParseAppIndex's two results: the index and the error, if any. */
  datatype AppIndex = AppIndex(index: int, err: Option<string>)

  /** How a call ends: it returns `(report, reported)`, or it panics. */
  datatype Outcome =
    | Returned(report: CrashReport, reported: bool)
    | Panicked(message: string)

  /** One call of Generate: how it ended and what it did on the way. */
  datatype Generation = Generation(outcome: Outcome, logs: seq<LogEntry>, eventsQueried: bool)

  const NoReport: Outcome := Returned(EmptyReport, false)

  // ---------------------------------------------------------------------
  // The two per-container rules and what "first in list order" means.

  /** A container that has terminated with a non-zero exit code. */
  predicate IsCrashTerminated(status: ContainerStatus)
  {
    status.state.terminated.Some? && status.state.terminated.value.exitCode != 0
  }

  /** A container waiting because it is in a crash loop. */
  predicate IsCrashLooping(status: ContainerStatus)
  {
    status.state.waiting.Some? && status.state.waiting.value.reason == CrashLoopBackOff
  }

  ghost predicate FirstCrashTerminated(statuses: seq<ContainerStatus>, i: int)
  {
    && 0 <= i < |statuses|
    && IsCrashTerminated(statuses[i])
    && forall j :: 0 <= j < i ==> !IsCrashTerminated(statuses[j])
  }

  ghost predicate FirstCrashLooping(statuses: seq<ContainerStatus>, i: int)
  {
    && 0 <= i < |statuses|
    && IsCrashLooping(statuses[i])
    && forall j :: 0 <= j < i ==> !IsCrashLooping(statuses[j])
  }

  ghost predicate HasCrashTerminated(statuses: seq<ContainerStatus>)
  {
    exists i :: 0 <= i < |statuses| && IsCrashTerminated(statuses[i])
  }

  ghost predicate HasCrashLooping(statuses: seq<ContainerStatus>)
  {
    exists i :: 0 <= i < |statuses| && IsCrashLooping(statuses[i])
  }

  /** The report identifies the pod it was built for. */
  ghost predicate Identifies(r: CrashReport, pod: Pod, parseAppIndex: string -> AppIndex)
  {
    && r.processGuid == ProcessGuidOf(pod)
    && r.instance == pod.name
    && r.index == parseAppIndex(pod.name).index
  }

  /** The crash details of a report built from a terminated container. */
  ghost predicate FromTermination(r: CrashReport, status: ContainerStatus, t: ContainerStateTerminated)
  {
    && r.exitStatus == t.exitCode
    && r.exitDescription == t.reason
    && r.crashTimestamp == Second(t.startedAt)
    && r.crashCount == status.restartCount
  }

  // ---------------------------------------------------------------------
  // The operations of crash_report_generator.go.

  /**
   getTerminatedContainerStatusIfAny: the first container, in list order,
   that terminated with a non-zero exit code.
   */
  function TerminatedContainerStatusIfAny(statuses: seq<ContainerStatus>): (r: Option<ContainerStatus>)
    ensures r.None? <==> !HasCrashTerminated(statuses)
    ensures r.Some? ==> exists i :: FirstCrashTerminated(statuses, i) && statuses[i] == r.value
    ensures r.Some? ==> r.value in statuses && r.value.state.terminated.Some? && r.value.state.terminated.value.exitCode != 0
  {
    if |statuses| == 0 then None
    else if IsCrashTerminated(statuses[0]) then
      assert FirstCrashTerminated(statuses, 0);
      Some(statuses[0])
    else
      var r := TerminatedContainerStatusIfAny(statuses[1..]);
      assert r.Some? ==> exists i :: FirstCrashTerminated(statuses, i) && statuses[i] == r.value by {
        if r.Some? {
          var i :| FirstCrashTerminated(statuses[1..], i) && statuses[1..][i] == r.value;
          assert FirstCrashTerminated(statuses, i + 1);
        }
      }
      r
  }

  /**
   getCrashedContainerStatusIfAny: the first container, in list order,
   that is waiting with reason CrashLoopBackOff.
   */
  function CrashedContainerStatusIfAny(statuses: seq<ContainerStatus>): (r: Option<ContainerStatus>)
    ensures r.None? <==> !HasCrashLooping(statuses)
    ensures r.Some? ==> exists i :: FirstCrashLooping(statuses, i) && statuses[i] == r.value
    ensures r.Some? ==> r.value in statuses && r.value.state.waiting.Some? && r.value.state.waiting.value.reason == CrashLoopBackOff
  {
    if |statuses| == 0 then None
    else if IsCrashLooping(statuses[0]) then
      assert FirstCrashLooping(statuses, 0);
      Some(statuses[0])
    else
      var r := CrashedContainerStatusIfAny(statuses[1..]);
      assert r.Some? ==> exists i :: FirstCrashLooping(statuses, i) && statuses[i] == r.value by {
        if r.Some? {
          var i :| FirstCrashLooping(statuses[1..], i) && statuses[1..][i] == r.value;
          assert FirstCrashLooping(statuses, i + 1);
        }
      }
      r
  }

  /**
   generateReport: the report for the pod with the given crash details.
   The index comes from parsing the pod name again; the parse error is
   ignored here, as the Go code ignores it.
   */
  function GenerateReport(
    pod: Pod,
    reason: string,
    exitStatus: int,
    exitDescription: string,
    crashTimestamp: int,
    restartCount: int,
    parseAppIndex: string -> AppIndex
  ): (r: CrashReport)
    ensures Identifies(r, pod, parseAppIndex)
    ensures r.reason == reason && r.exitStatus == exitStatus && r.exitDescription == exitDescription
    ensures r.crashTimestamp == crashTimestamp && r.crashCount == restartCount
  {
    CrashReport(
      processGuid := ProcessGuidOf(pod),
      reason := reason,
      instance := pod.name,
      index := parseAppIndex(pod.name).index,
      exitStatus := exitStatus,
      exitDescription := exitDescription,
      crashTimestamp := crashTimestamp,
      crashCount := restartCount)
  }

  /**
   generateReportForTerminatedPod: consult the pod's events; a failed
   query or a stop means no report, otherwise report the termination of
   `status`, using its reason both as reason and as exit description.
   */
  function GenerateReportForTerminatedPod(
    pod: Pod,
    status: ContainerStatus,
    events: Result<seq<Event>, string>,
    parseAppIndex: string -> AppIndex,
    isStopped: seq<Event> -> bool
  ): (g: Generation)
    requires status.state.terminated.Some?
    ensures g.eventsQueried && g.outcome.Returned?
    ensures events.Failure? ==>
      g.outcome == NoReport
      && g.logs == [LogEntry(FailedToGetK8sEvents, events.error, map["guid" := ProcessGuidOf(pod)])]
    ensures events.Success? && isStopped(events.value) ==> g.outcome == NoReport && g.logs == []
    ensures g.outcome.reported <==> events.Success? && !isStopped(events.value)
    ensures g.outcome.reported ==>
      var t := status.state.terminated.value;
      && g.logs == []
      && Identifies(g.outcome.report, pod, parseAppIndex)
      && g.outcome.report.reason == t.reason
      && FromTermination(g.outcome.report, status, t)
  {
    match events
    case Failure(err) =>
      Generation(NoReport, [LogEntry(FailedToGetK8sEvents, err, map["guid" := ProcessGuidOf(pod)])], true)
    case Success(podEvents) =>
      if isStopped(podEvents) then
        Generation(NoReport, [], true)
      else
        var terminated := status.state.terminated.value;
        var report := GenerateReport(pod, terminated.reason, terminated.exitCode, terminated.reason,
                                     Second(terminated.startedAt), status.restartCount, parseAppIndex);
        Generation(Returned(report, true), [], true)
  }

  /**
   Generate: the guards in their fixed order. No statuses: no report.
   Unparseable pod name: no report and one log line. A non-zero
   termination: the terminated path. Otherwise a crash loop: a report from
   the last termination, whose absence is a nil dereference in the Go code.
   Otherwise: no report.
   */
  function Generate(
    pod: Pod,
    events: Result<seq<Event>, string>,
    parseAppIndex: string -> AppIndex,
    isStopped: seq<Event> -> bool
  ): (g: Generation)
    // 1. no statuses
    ensures |pod.containerStatuses| == 0 ==> g == Generation(NoReport, [], false)
    // 2. the pod name has no index; checked before any container
    ensures |pod.containerStatuses| > 0 && parseAppIndex(pod.name).err.Some? ==>
      g == Generation(NoReport,
                      [LogEntry(FailedToParseAppIndex, parseAppIndex(pod.name).err.value,
                                map["pod-name" := pod.name, "guid" := ProcessGuidOf(pod)])],
                      false)
    // 3. the first non-zero termination decides, and only it queries events
    ensures forall i | FirstCrashTerminated(pod.containerStatuses, i) ::
      parseAppIndex(pod.name).err.None? ==>
        && g.eventsQueried
        && g.outcome.Returned?
        && (events.Failure? ==>
              g.outcome == NoReport
              && g.logs == [LogEntry(FailedToGetK8sEvents, events.error, map["guid" := ProcessGuidOf(pod)])])
        && (events.Success? && isStopped(events.value) ==> g == Generation(NoReport, [], true))
        && (events.Success? && !isStopped(events.value) ==>
              var status := pod.containerStatuses[i];
              var t := status.state.terminated.value;
              && g.outcome.reported
              && g.outcome.report.reason == t.reason
              && FromTermination(g.outcome.report, status, t))
    // 4. otherwise the first crash-looping container decides, without any event query
    ensures forall i | FirstCrashLooping(pod.containerStatuses, i) ::
      parseAppIndex(pod.name).err.None? && !HasCrashTerminated(pod.containerStatuses) ==>
        var status := pod.containerStatuses[i];
        && !g.eventsQueried
        && g.logs == []
        && (status.lastTerminationState.terminated.None? ==> g.outcome == Panicked(NilDereference))
        && (status.lastTerminationState.terminated.Some? ==>
              var t := status.lastTerminationState.terminated.value;
              && g.outcome.Returned?
              && g.outcome.reported
              && g.outcome.report.reason == CrashLoopBackOff
              && FromTermination(g.outcome.report, status, t))
    // 5. no qualifying container
    ensures parseAppIndex(pod.name).err.None?
            && !HasCrashTerminated(pod.containerStatuses)
            && !HasCrashLooping(pod.containerStatuses) ==>
      g == Generation(NoReport, [], false)
    // what holds of every call
    ensures g.outcome.Returned? && !g.outcome.reported ==> g.outcome.report == EmptyReport
    ensures g.outcome.Returned? && g.outcome.reported ==>
      && Identifies(g.outcome.report, pod, parseAppIndex)
      && parseAppIndex(pod.name).err.None?
      && g.logs == []
      && 0 <= g.outcome.report.crashTimestamp < 60
    ensures |g.logs| <= 1
    ensures g.eventsQueried <==>
      |pod.containerStatuses| > 0 && parseAppIndex(pod.name).err.None? && HasCrashTerminated(pod.containerStatuses)
  {
    var statuses := pod.containerStatuses;
    if |statuses| == 0 then
      Generation(NoReport, [], false)
    else
      var parsed := parseAppIndex(pod.name);
      if parsed.err.Some? then
        Generation(NoReport,
                   [LogEntry(FailedToParseAppIndex, parsed.err.value,
                             map["pod-name" := pod.name, "guid" := ProcessGuidOf(pod)])],
                   false)
      else
        match TerminatedContainerStatusIfAny(statuses)
        case Some(status) =>
          GenerateReportForTerminatedPod(pod, status, events, parseAppIndex, isStopped)
        case None =>
          match CrashedContainerStatusIfAny(statuses)
          case Some(container) =>
            (match container.lastTerminationState.terminated
             case None =>
               Generation(Panicked(NilDereference), [], false)
             case Some(terminated) =>
               var report := GenerateReport(pod, container.state.waiting.value.reason, terminated.exitCode,
                                            terminated.reason, Second(terminated.startedAt),
                                            container.restartCount, parseAppIndex);
               Generation(Returned(report, true), [], false))
          case None =>
            Generation(NoReport, [], false)
  }

  // ---------------------------------------------------------------------
  // Properties relating several calls.

  /**
   Priority by list order: a qualifying terminated container in a prefix
   is selected whatever follows it; only without one does the rest count.
   */
  lemma {:induction false} TerminatedSelectionPrefersEarlier(front: seq<ContainerStatus>, back: seq<ContainerStatus>)
    ensures TerminatedContainerStatusIfAny(front + back) ==
      if TerminatedContainerStatusIfAny(front).Some? then TerminatedContainerStatusIfAny(front)
      else TerminatedContainerStatusIfAny(back)
  {
    if |front| == 0 {
      assert front + back == back;
    } else {
      assert (front + back)[0] == front[0];
      assert (front + back)[1..] == front[1..] + back;
      TerminatedSelectionPrefersEarlier(front[1..], back);
    }
  }

  /** The same priority by list order for crash-looping containers. */
  lemma {:induction false} CrashedSelectionPrefersEarlier(front: seq<ContainerStatus>, back: seq<ContainerStatus>)
    ensures CrashedContainerStatusIfAny(front + back) ==
      if CrashedContainerStatusIfAny(front).Some? then CrashedContainerStatusIfAny(front)
      else CrashedContainerStatusIfAny(back)
  {
    if |front| == 0 {
      assert front + back == back;
    } else {
      assert (front + back)[0] == front[0];
      assert (front + back)[1..] == front[1..] + back;
      CrashedSelectionPrefersEarlier(front[1..], back);
    }
  }

  /**
   Without a non-zero termination the event list and the stop test play no
   part: the classification is the same whatever the query would return.
   */
  lemma EventsMatterOnlyOnTerminatedPath(
    pod: Pod,
    events: Result<seq<Event>, string>, events': Result<seq<Event>, string>,
    parseAppIndex: string -> AppIndex,
    isStopped: seq<Event> -> bool, isStopped': seq<Event> -> bool)
    requires !HasCrashTerminated(pod.containerStatuses)
    ensures Generate(pod, events, parseAppIndex, isStopped) == Generate(pod, events', parseAppIndex, isStopped')
    ensures !Generate(pod, events, parseAppIndex, isStopped).eventsQueried
  {
  }
}
