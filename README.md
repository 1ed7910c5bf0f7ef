# Crash-report generator model

A Dafny model of Eirini's crash-report generator
(`DefaultCrashReportGenerator` in `k8s/informers/event/crash_report_generator.go`).
The generator is given one pod snapshot. The snapshot holds the pod's name, its
process-GUID annotation and its ordered container statuses. The generator decides
whether the pod's latest observed state is an application crash. When it is,
the generator builds one crash report for the Cloud Controller. The decision is a
fixed chain of guards:

1. A pod with no container statuses gets no report.
2. A pod name without a parseable index gets no report and one
   `failed-to-parse-app-index` log line.
3. The first container that terminated with a non-zero exit code takes priority.
   On that path the pod's events are listed. A failed query means no report and
   one `failed-to-get-k8s-events` log line. A stopped pod means no report.
4. Otherwise, the first container waiting in `CrashLoopBackOff` is reported
   from its last termination.
5. Otherwise there is no report.

Files:

- `wrappers.dfy`: `Option` and `Result`.
- `kube.dfy`: the core/v1 types that are read: pod, container status, the
  three container states, event, and `time.Time` with its `Second()`.
- `crash_events.dfy`: the crash report, its zero value, and log records.
- `crash_report_generator.dfy`: the five operations of the Go file, the
  first-in-list-order specification they are checked against, and lemmas.
- `crash_report_generator_examples.dfy`: the fixtures of the Go test file
  and the outcomes it expects, proved for every crash time.

Modelling choices:

- The generator is pure, so it is modelled with datatypes and functions. Each
  `...IfAny` loop is a recursive find-first function. It is checked against a
  ghost "first index satisfying the rule" predicate.
- The collaborators whose code is not part of this model are inputs.
  `util.ParseAppIndex` is a function `string -> AppIndex`. `AppIndex` holds
  Go's `(int, error)` pair, because `generateReport` parses the name again and
  ignores the error. The result of `k8s.GetEvents` is a
  `Result<seq<Event>, string>` value. `k8s.IsStopped` is a predicate on event
  lists. Every property of `Generate` holds for every choice of these inputs.
- The logger is the `logs` sequence of the result, one `LogEntry(message,
  error, data)` per `logger.Error` call. Whether the event query was issued is
  the `eventsQueried` flag.
- The CrashLoopBackOff path dereferences `LastTerminationState.Terminated`
  without a nil check. The model makes this an explicit
  `Panicked(NilDereference)` outcome, so it is not a precondition.
- `CrashTimestamp` is `StartedAt.Second()`, the second within the minute
  (0..59) of the time's own location. It is not an epoch value. A `Time` is
  Unix seconds plus a zone offset, and `Second` is their sum modulo 60.
  The field is `CrashTimestamp int64` of `cc_messages.AppCrashedRequest`. The
  code fills it with the second within the minute, and the tests expect that
  value (crash_report_generator_test.go:56, 80, 106, 215).
- A missing process-GUID annotation reads as `""`, as a Go map lookup does.

## Model

| member | source | states |
|---|---|---|
| `Kube.Second` | k8s/informers/event/crash_report_generator.go:34 | The crash timestamp is a second-of-minute in 0..59, congruent modulo 60 to the local wall-clock seconds. |
| `CrashReportGenerator.TerminatedContainerStatusIfAny` | k8s/informers/event/crash_report_generator.go:79-88 | Returns nothing exactly when no container terminated with a non-zero exit code. Otherwise it returns the first such container in list order, so an exit-0 container is never selected. |
| `CrashReportGenerator.CrashedContainerStatusIfAny` | k8s/informers/event/crash_report_generator.go:90-99 | Returns nothing exactly when no container is waiting with reason exactly `CrashLoopBackOff`. Otherwise it returns the first such container in list order. |
| `CrashReportGenerator.GenerateReport` | k8s/informers/event/crash_report_generator.go:55-77 | The report carries the pod's process-GUID annotation, its name as instance and the parsed index. Reason, exit status, exit description, timestamp and crash count are the given crash details. |
| `CrashReportGenerator.GenerateReportForTerminatedPod` | k8s/informers/event/crash_report_generator.go:40-53 | Always queries events. A failed query gives no report and one `failed-to-get-k8s-events` log with `guid`. A stop gives no report and no log. Otherwise the report has reason = exit description = termination reason, plus the exit code, second-of-minute start and restart count. It reports exactly when the query succeeded and the pod is not stopped. |
| `CrashReportGenerator.Generate` | k8s/informers/event/crash_report_generator.go:15-38 | No statuses: `(empty, false)` with no log and no query. Unparseable name: `(empty, false)` with exactly one `failed-to-parse-app-index` log carrying `pod-name` and `guid`, before any container is inspected. If a non-zero termination exists, the first one decides as on the terminated path and crash loops are not consulted. Otherwise the first `CrashLoopBackOff` container gives a report from its last termination, or a nil-dereference panic when that termination is missing, with no query. Otherwise `(empty, false)`. Every report identifies the pod and has a timestamp in 0..59. `false` always comes with the empty report. At most one log line. Events are queried exactly when a non-zero termination exists and the name parses. |
| `CrashReportGenerator.TerminatedSelectionPrefersEarlier` | k8s/informers/event/crash_report_generator.go:79-88 | A qualifying terminated container earlier in the list wins over anything after it. Later containers count only when the prefix has none. |
| `CrashReportGenerator.CrashedSelectionPrefersEarlier` | k8s/informers/event/crash_report_generator.go:90-99 | The same list-order priority holds for crash-looping containers. |
| `CrashReportGenerator.EventsMatterOnlyOnTerminatedPath` | k8s/informers/event/crash_report_generator.go:27-36 | Without a non-zero termination, the outcome does not depend on the event query's result or on the stop test, and no query is made. |
| `CrashReportGeneratorExamples.CrashLoopBackOffIsReported` | k8s/informers/event/crash_report_generator_test.go:37-85 | Single- and two-container crash-looping fixtures give the expected report: reason `CrashLoopBackOff`, exit status 1, crash count 3, index 0, instance `test-pod-0`. |
| `CrashReportGeneratorExamples.TerminationIsReported` | k8s/informers/event/crash_report_generator_test.go:87-219 | Single- and two-container terminated fixtures give the expected report: reason and description `better luck next time`, exit status 1, crash count 8. |
| `CrashReportGeneratorExamples.CleanExitIsNotReported` | k8s/informers/event/crash_report_generator_test.go:111-123 | A lone container that exited with code 0 gives no report. |
| `CrashReportGeneratorExamples.NaughtyPodIsLoggedOnce` | k8s/informers/event/crash_report_generator_test.go:125-148 | `naughty-pod` gives no report and exactly one `failed-to-parse-app-index` log line with its name and GUID. |
| `CrashReportGeneratorExamples.StoppedPodIsNotReported` | k8s/informers/event/crash_report_generator_test.go:151-170 | A `Killing` event suppresses the report. |
| `CrashReportGeneratorExamples.FailedEventQueryIsLogged` | k8s/informers/event/crash_report_generator_test.go:172-195 | A failed event query gives no report and one `failed-to-get-k8s-events` log line carrying the GUID. |
| `CrashReportGeneratorExamples.OtherWaitingAndNoStatusesAreNotReported` | k8s/informers/event/crash_report_generator_test.go:222-266 | A container waiting for another reason, and a pod with no statuses, give no report. |

## Left out

- `util.ParseAppIndex`, `k8s.GetEvents` and `k8s.IsStopped`: their code is not part of this model. They are inputs, as described above. The example lemmas use stand-ins that agree with the test file: `test-pod-0` parses to 0, `naughty-pod` fails, and any `Killing` event means stopped.
- How the event query selects events by namespace and involved object: that happens inside `k8s.GetEvents`, which is not part of this model. The model receives the query's answer.
- The Kubernetes clientset and the lager logger as real objects. Only the logged message, the error text and the data keys are kept. The logger's session-name prefix (`crash-event-logger-test.` in the tests) is not modelled.
- `event.CrashLoopBackOff` and `k8s.AnnotationProcessGUID`: their definitions are not part of this model. The model assumes the values `"CrashLoopBackOff"` and `"cloudfoundry.org/process_guid"`. The first decides which waiting reasons trigger a report. No proved property depends on the second.
- Container-state fields that the generator never reads (messages, signals, finish times, container IDs): not modelled.
- A nil `*v1.Pod`: not modelled, because the generator is always called with a pod.
- `Kube.Second`: assumes the location offset is a whole number of seconds, as it is in Go. Go's `time.Time` otherwise is not modelled.
- `cmd/route-pod-informer/main.go`: process bootstrap (flags, config, logger sink, NATS and kube clients, starting the informer). It is all I/O.
- `handler/app_handler_test.go`, the Bifrost translation engine, the HTTP app handler, the informer loop and the route emitter: their code is not part of this model.
