/**
 * The configuration handed to the orchestrator. Every field may be left
 * unset (a Java null), which is written here as None.
 */
module Configuration {

  /** Java's `Integer`. */
  newtype Int32 = x: int | -0x8000_0000 <= x < 0x8000_0000

  /** Java's `Long`. */
  newtype Int64 = x: int | -0x8000_0000_0000_0000 <= x < 0x8000_0000_0000_0000

  /** A nullable reference: None is null. */
  datatype Option<T> = None | Some(value: T)

  /** Task id (for logs), wait between attempts in milliseconds, and number of extra attempts. */
  datatype ConfigurationBundle = ConfigurationBundle(
    id: Option<string>,
    waitDuration: Option<Int64>,
    retryCount: Option<Int32>)
}
