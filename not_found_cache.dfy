/**
 * The shared part of every not-found cache (NFC): how long a "missing"
 * entry for a resource lives, and the paging queries that this base
 * implementation answers with nothing.
 */
module NotFoundCache {
  import opened Wrappers
  import opened StoreTypes

  /**
   * `getTimeoutInSeconds(resource)`: the configured system-wide NFC timeout,
   * unless the resource's location carries its own NFC-timeout attribute
   * with a positive value, which then wins. `configDefault` is the
   * configuration's value and `nfcTimeoutAttr` the location attribute
   * (None when the location has none).
   */
  function TimeoutInSeconds(configDefault: int32, nfcTimeoutAttr: Option<int32>): (r: int32)
    ensures nfcTimeoutAttr.Some? && nfcTimeoutAttr.value > 0 ==> r == nfcTimeoutAttr.value
    ensures nfcTimeoutAttr.None? ==> r == configDefault
    ensures nfcTimeoutAttr.Some? && nfcTimeoutAttr.value <= 0 ==> r == configDefault
    ensures r == configDefault || (nfcTimeoutAttr.Some? && r == nfcTimeoutAttr.value)
    ensures r <= 0 ==> r == configDefault
  {
    if nfcTimeoutAttr.Some? && nfcTimeoutAttr.value > 0 then nfcTimeoutAttr.value else configDefault
  }

  /**
   * A positive system default can never be turned into a zero or negative
   * timeout by any location attribute.
   */
  lemma PositiveDefaultGivesPositiveTimeout(configDefault: int32, nfcTimeoutAttr: Option<int32>)
    requires configDefault > 0
    ensures TimeoutInSeconds(configDefault, nfcTimeoutAttr) > 0
  {
  }

  /** `getAllMissing(pageIndex, pageSize)`: no location has a missing path on any page. */
  function AllMissing<L>(pageIndex: int32, pageSize: int32): (r: map<L, set<string>>)
    ensures forall location :: location !in r
  {
    map[]
  }

  /** `getMissing(location, pageIndex, pageSize)`: no path is missing for any location on any page. */
  function Missing<L>(location: L, pageIndex: int32, pageSize: int32): (r: set<string>)
    ensures forall path :: path !in r
  {
    {}
  }
}
