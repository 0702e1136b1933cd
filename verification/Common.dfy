/** Datatypes shared by every module: an optional value and a value-or-error. */
module Common {

  datatype Option<+T> = None | Some(value: T)

  datatype Result<+T, +E> = Ok(value: T) | Err(error: E)

  /** A day in microseconds. */
  const DAY := 86_400_000_000

  /** Library functions the model does not look into: how an identifier and an instant are
      printed, how a printed instant is read back, how an instant is shown to a person, and
      whether a text can be sent to the database at all (one with a NUL character cannot). */
  datatype Codec = Codec(showId: nat -> string, iso: int -> string, readIso: string -> Option<int>,
                         showWhen: int -> string, sendable: string -> bool)

  /** What the booking service and the notifier rely on: identifiers print differently,
      and an instant survives being printed and read. */
  ghost predicate Faithful(codec: Codec) {
    && (forall a, b :: codec.showId(a) == codec.showId(b) ==> a == b)
    && (forall t :: codec.readIso(codec.iso(t)) == Some(t))
  }
}
