/** What every module of this project shares: optional values and the ways an
    external command (docker, systemctl, rename, ...) can end. */
module Faults {
  datatype Option<+T> = None | Some(value: T)

  type Image = string

  /** A directory tree, read as relative path -> file contents. */
  type Content = map<string, string>

  /** A directory and the identities of the containers that have ever run on its data. */
  datatype Tree = Tree(content: Content, writers: set<nat>)

  /** One external command as seen by the privileged helper: it may succeed, fail
      without effect, fail although it took effect, or be cut short by a crash
      of the helper on either side of the effect. */
  datatype Outcome = Done | FailedBefore | FailedAfter | CrashedBefore | CrashedAfter

  predicate TakesEffect(o: Outcome) {
    o.Done? || o.FailedAfter? || o.CrashedAfter?
  }

  /** What a caller learns; nobody learns anything after `Crash`. */
  datatype Reply = Success | Error | Crash

  function ReplyOf(o: Outcome): Reply {
    match o
    case Done => Success
    case FailedBefore => Error
    case FailedAfter => Error
    case CrashedBefore => Crash
    case CrashedAfter => Crash
  }
}
