/**
 * The alert-group notification the upstream alerting manager posts, with the
 * fields the handler decodes and re-encodes (main.go:193-213).
 */
module Notifications {

  /** The only webhook schema version the handler accepts. */
  const SupportedWebhookVersion: string := "4"

  type Labels = map<string, string>

  /** One firing or resolved alert. `startsAt` and `endsAt` are carried as the
      instant's text; the handler never looks at them. */
  datatype Alert = Alert(
    annotations: Labels,
    endsAt: string,
    generatorURL: string,
    labels: Labels,
    startsAt: string,
    status: string)

  /** The whole document; `timestamp` is the `@timestamp` field. */
  datatype Notification = Notification(
    alerts: seq<Alert>,
    commonAnnotations: Labels,
    commonLabels: Labels,
    externalURL: string,
    groupLabels: Labels,
    receiver: string,
    status: string,
    version: string,
    groupKey: string,
    timestamp: string)

  /** `m` carries exactly the data of `n`, except perhaps the receipt time. */
  predicate SameExceptTimestamp(m: Notification, n: Notification) {
    && m.alerts == n.alerts
    && m.commonAnnotations == n.commonAnnotations
    && m.commonLabels == n.commonLabels
    && m.externalURL == n.externalURL
    && m.groupLabels == n.groupLabels
    && m.receiver == n.receiver
    && m.status == n.status
    && m.version == n.version
    && m.groupKey == n.groupKey
  }

  /** Sets `@timestamp` to the receipt time, whatever the caller put there. */
  function Stamp(n: Notification, receivedAt: string): (m: Notification)
    ensures m.timestamp == receivedAt
    ensures SameExceptTimestamp(m, n)
  {
    n.(timestamp := receivedAt)
  }

  /** What a caller sends as `@timestamp` has no influence on the stamped document. */
  lemma StampIgnoresClientTimestamp(n: Notification, n': Notification, receivedAt: string)
    requires SameExceptTimestamp(n, n')
    ensures Stamp(n, receivedAt) == Stamp(n', receivedAt)
  {
  }

  /** Stamping twice is stamping once with the later time. */
  lemma StampOverwrites(n: Notification, first: string, second: string)
    ensures Stamp(Stamp(n, first), second) == Stamp(n, second)
  {
  }
}
