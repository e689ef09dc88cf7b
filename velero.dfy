/**
 * The parts of the Velero and Kubernetes API types that the notification core looks at:
 * a Backup's name, status phase, labels and annotations, and the watch events that carry it.
 */
module Velero {

  /** Velero's `BackupPhase` is a Go string type; the switches compare it with these constants. */
  type Phase = string

  const PhaseNew: Phase := "New"
  const PhaseInProgress: Phase := "InProgress"
  const PhaseCompleted: Phase := "Completed"
  const PhaseDeleting: Phase := "Deleting"
  const PhasePartiallyFailed: Phase := "PartiallyFailed"
  const PhaseFailed: Phase := "Failed"

  /** A snapshot of a `v1.Backup`. A nil labels or annotations map reads like an empty one. */
  datatype Backup = Backup(
    name: string,
    phase: Phase,
    labels: map<string, string>,
    annotations: map<string, string>)

  /** Kubernetes `watch.EventType`. */
  datatype EventType = Added | Modified | Deleted | Bookmark | WatchError

  /** The object of a watch event: a Backup, or anything else (including nil). */
  datatype Object = BackupObject(backup: Backup) | OtherObject

  datatype WatchEvent = WatchEvent(kind: EventType, obj: Object)
}
