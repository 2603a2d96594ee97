/** Definitions shared by every part of the model: optional values, record
    identifiers and the unit of time. */
module Common {

  /** A value that may be absent (a JavaScript `null`/`undefined`). */
  datatype Option<+T> = None | Some(value: T)

  /** Record identifiers. The database hands out fresh ones; the model draws
      them from a counter in `Store.Db`. */
  type Id = nat

  /** Instants and durations are milliseconds since the epoch. */
  type Ms = int

  /** One day in milliseconds, the factor every duration in days is scaled by. */
  const DayMs: int := 86400000

  /** JavaScript truthiness of an optional string: present and not empty. */
  predicate Truthy(s: Option<string>) {
    s.Some? && s.value != ""
  }
}
