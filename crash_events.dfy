/**
 What the generator produces: the crash report (events.CrashReport with
 its embedded cc_messages.AppCrashedRequest, flattened) and the structured
 log records it emits.
 */
module CrashEvents {

  datatype CrashReport = CrashReport(
    processGuid: string,
    reason: string,
    instance: string,
    index: int,
    exitStatus: int,
    exitDescription: string,
    crashTimestamp: int,
    crashCount: int)

  /** Go's zero value `events.CrashReport{}`, returned beside `false`. */
  const EmptyReport: CrashReport := CrashReport("", "", "", 0, 0, "", 0, 0)

  /** One `logger.Error(message, err, data)` call. */
  datatype LogEntry = LogEntry(message: string, error: string, data: map<string, string>)
}
