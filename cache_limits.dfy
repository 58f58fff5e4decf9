/** The validation and normalisation of the legacy cache limits
    (storage_settings_scheme.cpp, `NoTimeLimit` and the two cache blocks). */
module CacheLimits {
  import opened Ints

  /** Lines 29-35: a stored time limit meaning "no limit". Older versions
      stored the "unlimited" value of a 64-bit field into this 32-bit one, so
      the truncation of `INT64_MAX` is accepted as well as 0 and `INT32_MAX`;
      written out, the three sentinels are 0, `INT32_MAX` and -1. */
  predicate NoTimeLimit(t: i32)
    ensures NoTimeLimit(t) <==> t == 0 || t == 0x7FFF_FFFF || t == -1
  {
    Int64MaxAsInt32();
    t == 0 || t == ToInt32(Int32Max) || t == ToInt32(Int64Max)
  }

  /** A time limit the decoder accepts: a sentinel or a non-negative value. */
  predicate ValidTime(t: i32) {
    NoTimeLimit(t) || t >= 0
  }

  /** A size limit the decoder accepts: strictly above the cache database's
      largest single entry. */
  predicate ValidSize(size: int, maxDataSize: int) {
    size > maxDataSize
  }

  /** The time limit kept in the context: 0 for "no limit", otherwise as read. */
  function StoredTime(t: i32): (r: i32)
    ensures r == 0 <==> NoTimeLimit(t)
    ensures !NoTimeLimit(t) ==> r == t
    ensures ValidTime(t) ==> r >= 0
  {
    if NoTimeLimit(t) then 0 else t
  }

  /** Every accepted time is stored as a non-negative value other than the
      `INT32_MAX` sentinel, and storing is idempotent. */
  lemma StoredTimeNormal(t: i32)
    requires ValidTime(t)
    ensures 0 <= StoredTime(t) < 0x7FFF_FFFF
    ensures StoredTime(StoredTime(t)) == StoredTime(t)
  {
  }

  /** A non-negative time limit is kept as read exactly when it is not the
      `INT32_MAX` sentinel. */
  lemma StoredTimeKeepsOrdinary(t: i32)
    requires t >= 0
    ensures StoredTime(t) == t <==> t != 0x7FFF_FFFF
  {
  }
}
