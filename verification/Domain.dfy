// Entities, enumerations and validation rules shared by every other module
// (internal/domain/enums.go, internal/domain/validation.go, internal/usecase/ports.go).

module Domain {
  datatype Option<+T> = None | Some(value: T)

  type Id = string
  type Key = string
  type Channel = string
  type Priority = string

  const SMS: Channel := "sms"
  const EMAIL: Channel := "email"
  const PUSH: Channel := "push"

  const HIGH: Priority := "high"
  const NORMAL: Priority := "normal"
  const LOW: Priority := "low"

  predicate ValidChannel(c: Channel) {
    c == SMS || c == EMAIL || c == PUSH
  }

  predicate ValidPriority(p: Priority) {
    p == HIGH || p == NORMAL || p == LOW
  }

  datatype Status = Pending | Queued | Sending | Delivered | Failed | Cancelled {
    predicate Cancellable() {
      Pending? || Queued?
    }

    // The states after which nothing is left to do for a notification.
    predicate Settled() {
      Delivered? || Failed? || Cancelled?
    }
  }

  // The payload carried by the work queue and the two delayed sets.
  datatype QueueItem = QueueItem(id: Id, priority: Priority)

  function Max(a: int, b: int): int {
    if a < b then b else a
  }

  function Min(a: int, b: int): int {
    if a < b then a else b
  }

  // The number of sends a notification may use: even a limit of zero or less
  // lets the first attempt through.
  function Cap(maxAttempts: int): (c: nat) {
    Max(1, maxAttempts)
  }
}
