/**
 * The event classification shared by server/server.go and cmd/server.go: the type assertion on
 * the event object, the switch on the watch event type and the switch on the backup phase.
 * It decides what the loop logs and whether it raises a warning or an error.
 */
module Classifier {
  import opened Velero
  import opened Wrappers

  datatype Severity = WarningSeverity | ErrorSeverity

  datatype Level = Info | Warn | ErrorLevel

  /** One call on the logger: level, message and the backup name it carries, if any. */
  datatype LogLine = LogLine(level: Level, text: string, name: string)

  /** What one watch event leads to. */
  datatype Verdict =
    | NotABackup                               // the object is not a *v1.Backup
    | Skipped(kind: EventType, backup: Backup)  // an Added or Deleted event
    | Observed(backup: Backup)                  // New, Completed, Deleting or InProgress
    | Raise(severity: Severity, backup: Backup) // PartiallyFailed or Failed
    | Unhandled(backup: Backup)                 // any other phase: no case of the switch matches

  function Classify(evt: WatchEvent): (v: Verdict)
    ensures evt.obj.OtherObject? <==> v.NotABackup?
    ensures v.Raise? <==>
      && evt.obj.BackupObject?
      && evt.kind != Added && evt.kind != Deleted
      && evt.obj.backup.phase in {PhasePartiallyFailed, PhaseFailed}
    ensures v.Raise? ==>
      && v.backup == evt.obj.backup
      && (v.severity == WarningSeverity <==> evt.obj.backup.phase == PhasePartiallyFailed)
  {
    match evt.obj
    case OtherObject => NotABackup
    case BackupObject(b) =>
      if evt.kind == Added || evt.kind == Deleted then Skipped(evt.kind, b)
      else if b.phase == PhaseNew || b.phase == PhaseCompleted
           || b.phase == PhaseDeleting || b.phase == PhaseInProgress then Observed(b)
      else if b.phase == PhasePartiallyFailed then Raise(WarningSeverity, b)
      else if b.phase == PhaseFailed then Raise(ErrorSeverity, b)
      else Unhandled(b)
  }

  /** The one log call each verdict makes, if any. */
  function Note(v: Verdict): Option<LogLine> {
    match v
    case NotABackup => Some(LogLine(ErrorLevel, "Non-Backup event registered", ""))
    case Skipped(k, b) =>
      Some(LogLine(Info, if k == Added then "Backup added" else "Backup deleted", b.name))
    case Observed(b) =>
      Some(LogLine(Info,
        if b.phase == PhaseNew then "New backup detected"
        else if b.phase == PhaseCompleted then "Backup completed"
        else if b.phase == PhaseDeleting then "Backup deletion"
        else "Backup in progress",
        b.name))
    case Raise(_, _) => None
    case Unhandled(_) => None
  }



  /** A non-Backup object is logged once, at error level, and raises nothing. */
  lemma NonBackupLoggedAsError(evt: WatchEvent)
    requires evt.obj.OtherObject?
    ensures !Classify(evt).Raise?
    ensures Note(Classify(evt)).Some? && Note(Classify(evt)).value.level == ErrorLevel
  {
  }

  /** Added and Deleted events never raise, whatever the phase. */
  lemma AddedDeletedNeverRaise(evt: WatchEvent)
    requires evt.kind == Added || evt.kind == Deleted
    ensures !Classify(evt).Raise?
  {
  }

  /** The four observed phases raise nothing and log once at info level. */
  lemma ObservedPhasesLogInfo(evt: WatchEvent)
    requires evt.obj.BackupObject? && evt.kind != Added && evt.kind != Deleted
    requires evt.obj.backup.phase in {PhaseNew, PhaseCompleted, PhaseDeleting, PhaseInProgress}
    ensures Classify(evt) == Observed(evt.obj.backup)
    ensures Note(Classify(evt)).Some? && Note(Classify(evt)).value.level == Info
  {
  }

  /** Raising and logging exclude each other: a raised event is not logged by the loop. */
  lemma RaiseXorNote(evt: WatchEvent)
    ensures Classify(evt).Raise? ==> Note(Classify(evt)).None?
    ensures Note(Classify(evt)).None? ==> Classify(evt).Raise? || Classify(evt).Unhandled?
  {
  }
}
