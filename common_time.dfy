/** The time scalars of the `common_time` crate, as plain wrappers around integers. */
module CommonTime {
  import opened Ints

  /** Days since the UNIX epoch. */
  datatype Date = Date(days: i32)

  /** An instant stored as a signed 64-bit count, as `DateTime::new` receives it. */
  datatype DateTime = DateTime(value: i64)

  datatype TimeUnit = Second | Millisecond | Microsecond | Nanosecond

  /** A signed 64-bit count of `unit`s since the UNIX epoch. */
  datatype Timestamp = Timestamp(value: i64, unit: TimeUnit)

  /** `Timestamp::from_millis`: the count is read as milliseconds. */
  function TimestampFromMillis(millis: i64): Timestamp
  {
    Timestamp(millis, Millisecond)
  }
}
