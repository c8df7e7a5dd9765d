/** Types shared by every part of the model. */
module Base {
  datatype Option<+T> = None | Some(value: T)

  datatype Result<+T, +E> = Ok(value: T) | Err(error: E)

  /** Payment ids, outbox ids, worker numbers: opaque, compared only for equality. */
  type Id = nat

  /** Seconds since an arbitrary epoch. */
  type Time = real

  /** What `str.strip` takes for white space. */
  predicate IsSpace(c: char) {
    var n := c as int;
    || 0x09 <= n <= 0x0D || 0x1C <= n <= 0x20 || n == 0x85 || n == 0xA0 || n == 0x1680
    || 0x2000 <= n <= 0x200A || n == 0x2028 || n == 0x2029 || n == 0x202F || n == 0x205F || n == 0x3000
  }

  /** What `publish` can do: the broker may have taken the message even when the call raised. */
  datatype PublishOutcome = Confirmed | AcceptedButRaised | NotAccepted

  /** What `commit` can do: it may raise after taking effect. */
  datatype CommitOutcome = Committed | CommittedButRaised | RolledBack

  predicate TookEffect(outcome: CommitOutcome) {
    !outcome.RolledBack?
  }
}
