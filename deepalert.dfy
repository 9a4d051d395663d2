/**
  The parts of a deepalert report that the transformer reads. Timestamps are
  already formatted as "YYYY-MM-DD HH:MM"; the report's investigation sections
  are reached only through the extraction collaborator, so they are not fields here.
 */
module Deepalert {

  /** An alert attribute. The context does not show in the rendering but takes
      part in the attribute's fingerprint. */
  datatype Attribute = Attribute(key: string, typ: string, value: string, context: seq<string>)

  datatype Alert = Alert(
    detector: string,
    ruleName: string,
    description: string,
    timestamp: string,
    attributes: seq<Attribute>)

  datatype ReportResult = ReportResult(severity: string, reason: string)

  datatype Report = Report(
    result: ReportResult,
    alerts: seq<Alert>,
    id: string,
    status: string)
}
