/**
 The fixtures of crash_report_generator_test.go and the outcomes it
 expects, stated for every crash time. util.ParseAppIndex and
 k8s.IsStopped are replaced by stand-ins that agree with the tests: the
 fixture name "test-pod-0" parses to 0, "naughty-pod" does not parse, and
 a pod with a "Killing" event is stopped.
 */
module CrashReportGeneratorExamples {
  import opened Wrappers
  import opened Kube
  import opened CrashEvents
  import opened CrashReportGenerator

  const BetterLuck: string := "better luck next time"

  /** time.Time{}: January 1 of year 1, UTC. */
  const ZeroTime: Time := Time(-62135596800, 0)

  function TestParseAppIndex(name: string): AppIndex
  {
    if name == "test-pod-0" then AppIndex(0, None) else AppIndex(0, Some("could not parse app index"))
  }

  predicate KillingSeen(events: seq<Event>)
  {
    exists e :: e in events && e.reason == "Killing"
  }

  function NewPod(statuses: seq<ContainerStatus>): Pod
  {
    Pod("test-pod-0", "", map[AnnotationProcessGuid := "test-pod-anno"], statuses)
  }

  const NoState: ContainerState := ContainerState(None, None, None)

  const RunningStatus: ContainerStatus :=
    ContainerStatus(1, ContainerState(None, Some(ContainerStateRunning(ZeroTime)), None), NoState)

  function TerminatedStatus(exitCode: Int32, crashTime: Time): ContainerStatus
  {
    ContainerStatus(8, ContainerState(None, None, Some(ContainerStateTerminated(exitCode, BetterLuck, crashTime))), NoState)
  }

  function WaitingStatus(reason: string, crashTime: Time): ContainerStatus
  {
    ContainerStatus(3, ContainerState(Some(ContainerStateWaiting(reason)), None, None),
                    ContainerState(None, None, Some(ContainerStateTerminated(1, BetterLuck, crashTime))))
  }

  /** "When app is in CrashLoopBackOff", with one and with two containers. */
  lemma CrashLoopBackOffIsReported(crashTime: Time)
    ensures
      var expected := Returned(CrashReport("test-pod-anno", CrashLoopBackOff, "test-pod-0", 0, 1, BetterLuck,
                                           Second(crashTime), 3), true);
      && Generate(NewPod([WaitingStatus(CrashLoopBackOff, crashTime)]), Success([]), TestParseAppIndex, KillingSeen).outcome == expected
      && Generate(NewPod([RunningStatus, WaitingStatus(CrashLoopBackOff, crashTime)]), Success([]), TestParseAppIndex, KillingSeen).outcome == expected
  {
  }

  /** "When app has been terminated", with one and with two containers. */
  lemma TerminationIsReported(crashTime: Time)
    ensures
      var expected := Returned(CrashReport("test-pod-anno", BetterLuck, "test-pod-0", 0, 1, BetterLuck,
                                           Second(crashTime), 8), true);
      && Generate(NewPod([TerminatedStatus(1, crashTime)]), Success([]), TestParseAppIndex, KillingSeen).outcome == expected
      && Generate(NewPod([RunningStatus, TerminatedStatus(1, crashTime)]), Success([]), TestParseAppIndex, KillingSeen).outcome == expected
  {
  }

  /** "with zero exit status": no report. */
  lemma CleanExitIsNotReported(crashTime: Time)
    ensures Generate(NewPod([TerminatedStatus(0, crashTime)]), Success([]), TestParseAppIndex, KillingSeen).outcome == NoReport
  {
  }

  /** "When a pod name does not have index": no report and one helpful log line. */
  lemma NaughtyPodIsLoggedOnce(crashTime: Time)
    ensures
      var pod := NewPod([TerminatedStatus(1, crashTime)]).(name := "naughty-pod");
      var g := Generate(pod, Success([]), TestParseAppIndex, KillingSeen);
      && g.outcome == NoReport
      && |g.logs| == 1
      && g.logs[0].message == "failed-to-parse-app-index"
      && g.logs[0].data == map["pod-name" := "naughty-pod", "guid" := "test-pod-anno"]
  {
  }

  /** "When pod is stopped": no report. */
  lemma StoppedPodIsNotReported(crashTime: Time)
    ensures
      var killing := Event("not-default", "pinky-pod", "Killing");
      Generate(NewPod([TerminatedStatus(1, crashTime)]), Success([killing]), TestParseAppIndex, KillingSeen).outcome == NoReport
  {
    assert KillingSeen([Event("not-default", "pinky-pod", "Killing")]);
  }

  /** "When getting events fails": no report and one log line carrying the GUID. */
  lemma FailedEventQueryIsLogged(crashTime: Time)
    ensures
      var g := Generate(NewPod([TerminatedStatus(1, crashTime)]), Failure("boom"), TestParseAppIndex, KillingSeen);
      && g.outcome == NoReport
      && g.logs == [LogEntry("failed-to-get-k8s-events", "boom", map["guid" := "test-pod-anno"])]
  {
  }

  /** "When app is waiting, but NOT because of CrashLoopBackOff", and a pod without statuses. */
  lemma OtherWaitingAndNoStatusesAreNotReported(crashTime: Time)
    ensures Generate(NewPod([WaitingStatus("Friday", crashTime)]), Success([]), TestParseAppIndex, KillingSeen).outcome == NoReport
    ensures Generate(NewPod([]), Success([]), TestParseAppIndex, KillingSeen).outcome == NoReport
  {
  }
}
