/**
 * notification/message.go: the older messages, Go named types over an underlying value whose
 * kind is carried by the type alone. The file shown wraps a string; `cmd/server.go` builds them
 * from a backup (`WarningMessage{Backup: b}`), so the underlying value is a type parameter.
 */
module NotificationMessage {

  datatype Notice<P> = WarningMessage(value: P) | ErrorMessage(value: P)

  /** `Message()`: the underlying string itself. */
  function Text(n: Notice<string>): string {
    n.value
  }

  /** Converting a string to a notice of either kind and back loses nothing. */
  lemma TextRoundTrip(s: string)
    ensures Text(WarningMessage(s)) == s
    ensures Text(ErrorMessage(s)) == s
  {
  }

  /** Two notices are equal exactly when kind and text are: the kind is extra information. */
  lemma NoticeDeterminedByKindAndText(a: Notice<string>, b: Notice<string>)
    ensures a == b <==> (a.WarningMessage? == b.WarningMessage? && Text(a) == Text(b))
  {
  }
}
