/** The message contract: what a validated telemetry message carries, and the one order on keys. */
module Telemetry {

  datatype Option<+T> = None | Some(value: T)

  /** The order key of a message; `seqNo` is the field the wire format calls `seq`. */
  datatype OrderKey = OrderKey(sessionId: int, seqNo: int)

  /** Lexicographic, strict: equal keys are duplicates and neither is newer. */
  predicate IsNewer(candidate: OrderKey, stored: OrderKey) {
    || candidate.sessionId > stored.sessionId
    || (candidate.sessionId == stored.sessionId && candidate.seqNo > stored.seqNo)
  }

  datatype EventType = Status | Metrics | Counters | Diagnostic

  datatype ReportedState = Online | Degraded | Offline

  datatype Severity = Info | Warning | Error

  /** The four payload shapes; the shape determines the type of the message. */
  datatype Payload =
    | StatusPayload(state: ReportedState)
    | MetricsPayload(temperatureC: real, cpuPercent: real, ramPercent: real)
    | CountersPayload(operationsTotal: nat, uptimeMs: nat)
    | DiagnosticPayload(severity: Severity, code: string, text: string)

  /** The dedup key of a message. */
  datatype Identity = Identity(deviceId: string, key: OrderKey)

  datatype Message = Message(deviceId: string, key: OrderKey, occurredAt: int, payload: Payload) {
    function Type(): EventType {
      match payload
      case StatusPayload(_) => Status
      case MetricsPayload(_, _, _) => Metrics
      case CountersPayload(_, _) => Counters
      case DiagnosticPayload(_, _, _) => Diagnostic
    }

    function Id(): Identity {
      Identity(deviceId, key)
    }

    /** Exactly the messages that get an alert document. */
    predicate IsErrorDiagnostic() {
      payload.DiagnosticPayload? && payload.severity == Error
    }
  }

  /** What the source guarantees about its identities: one identity, one message. */
  ghost predicate UniqueIdentities(messages: set<Message>) {
    forall m, n :: m in messages && n in messages && m.Id() == n.Id() ==> m == n
  }
}
