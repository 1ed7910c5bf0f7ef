/**
 The slice of the Kubernetes core/v1 object model that the crash-report
 generator reads: a pod's name, namespace, annotations and container
 statuses, the three container states, and platform events.
 */
module Kube {
  import opened Wrappers

  /** Go's int32, the width of ExitCode and RestartCount in core/v1. */
  type Int32 = x: int | -0x8000_0000 <= x < 0x8000_0000

  /**
   A point in time as Go's time.Time carries it: seconds since the Unix
   epoch plus the offset, in seconds, of the location it is shown in.
   */
  datatype Time = Time(unixSeconds: int, zoneOffsetSeconds: int)

  /**
   time.Time.Second(): the second within the minute of the wall clock in
   the time's own location, a value in 0..59 and not an epoch count.
   */
  function Second(t: Time): (s: int)
    ensures 0 <= s < 60
    ensures (t.unixSeconds + t.zoneOffsetSeconds - s) % 60 == 0
  {
    (t.unixSeconds + t.zoneOffsetSeconds) % 60
  }

  datatype ContainerStateWaiting = ContainerStateWaiting(reason: string)

  /** The generator never reads a running state; its start time is kept so fixtures can be written. */
  datatype ContainerStateRunning = ContainerStateRunning(startedAt: Time)

  datatype ContainerStateTerminated = ContainerStateTerminated(
    exitCode: Int32,
    reason: string,
    startedAt: Time)

  /**
   The three optional (pointer) members of v1.ContainerState. The Go type
   does not force exactly one of them to be set, and neither does this one.
   */
  datatype ContainerState = ContainerState(
    waiting: Option<ContainerStateWaiting>,
    running: Option<ContainerStateRunning>,
    terminated: Option<ContainerStateTerminated>)

  datatype ContainerStatus = ContainerStatus(
    restartCount: Int32,
    state: ContainerState,
    lastTerminationState: ContainerState)

  /**
   A pod snapshot; a nil and an empty status list are both `[]`. The
   namespace is read only by the event query, which is an input here.
   */
  datatype Pod = Pod(
    name: string,
    namespace: string,
    annotations: map<string, string>,
    containerStatuses: seq<ContainerStatus>)

  /**
   A platform event about some object, as listed for a pod. Only the stop
   test looks at events; namespace and involved object are kept so
   fixtures can be written.
   */
  datatype Event = Event(namespace: string, involvedObjectName: string, reason: string)

  /** The annotation key under which a pod carries its process GUID. */
  const AnnotationProcessGuid: string := "cloudfoundry.org/process_guid"

  /** Go's map index: a missing key reads as the empty string. */
  function ProcessGuidOf(pod: Pod): string
  {
    if AnnotationProcessGuid in pod.annotations then pod.annotations[AnnotationProcessGuid] else ""
  }
}
