/**
 * message/message.go: the messages relayed to notifiers. `Warning` and `Error` wrap the backup
 * they were raised for; `Foreign` stands for any other implementation of the `Message` interface,
 * which the notifiers' type switches let through their default branches.
 */
module Message {
  import opened Velero

  datatype Message =
    | Warning(backup: Backup)
    | Error(backup: Backup)
    | Foreign(text: string, foreignBackup: Backup)

  /** The text `"%s is in state %s"` both variants of message.go format. */
  function StateText(b: Backup): (t: string)
    ensures |t| == |b.name| + |" is in state "| + |b.phase|
    ensures t[..|b.name|] == b.name
    ensures t[|b.name|..|b.name| + 13] == " is in state "
    ensures t[|t| - |b.phase|..] == b.phase
  {
    b.name + " is in state " + b.phase
  }

  /** `Message()` of each variant. */
  function Text(m: Message): string {
    match m
    case Warning(b) => StateText(b)
    case Error(b) => StateText(b)
    case Foreign(t, _) => t
  }

  /** `GetBackup()` of each variant. */
  function GetBackup(m: Message): Backup {
    match m
    case Warning(b) => b
    case Error(b) => b
    case Foreign(_, b) => b
  }

  /** For the same backup, a Warning and an Error read the same. */
  lemma WarningAndErrorSameText(b: Backup)
    ensures Text(Warning(b)) == Text(Error(b)) == StateText(b)
  {
  }

  /** Wrapping a backup and reading it back gives that backup, for both variants. */
  lemma GetBackupReturnsWrapped(b: Backup)
    ensures GetBackup(Warning(b)) == b && GetBackup(Error(b)) == b
  {
  }

  /** The state text of a backup starts with its name and ends with its phase. */
  lemma StateTextNamesBackup(b: Backup, t: string)
    requires t == Text(Warning(b)) || t == Text(Error(b))
    ensures |t| == |b.name| + 13 + |b.phase|
    ensures t[..|b.name|] == b.name && t[|t| - |b.phase|..] == b.phase
  {
  }
}
