/** Types shared by every model: optional values, results, record ids and clock readings. */
module Prelude {

  datatype Option<+T> = None | Some(value: T)

  datatype Result<+T, +E> = Ok(value: T) | Err(error: E)

  /** Primary keys. The source draws random UUIDs and random tokens; a model step
      receives them as parameters that are not yet in use. */
  type Id = nat

  /** Clock readings in microseconds, the resolution of the source's timestamps. */
  type Time = int

  const SECOND: int := 1_000_000
  const DAY: int := 86_400 * SECOND
}
