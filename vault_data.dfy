/**
 * The shape of one vault's metrics as the vaults API delivers them
 * (src/hooks/useVaultsData.ts:4-17). Every numeric field arrives as text and is
 * parsed only where it is read.
 */
module VaultData {
  import opened Wrappers

  /**
   * An optional text field as the chart reads it. The source first tests the
   * string for truthiness and only then parses it, so:
   *   - `Absent`           : undefined, null or the empty string (falsy);
   *   - `Present(Some(v))` : a non-empty string that `parseFloat` reads as `v`;
   *   - `Present(None)`    : a non-empty string that `parseFloat` reads as NaN.
   */
  datatype TextField = Absent | Present(parsed: Option<real>)

  /** One vault record; `decimals` is a number field that may be missing. */
  datatype VaultRecord = VaultRecord(
    id: string,
    estimatedApy: string,
    totalValueLocked: TextField,
    inactive: bool,
    usdPrice: TextField,
    sharePrice: TextField,
    pricePerFullShare: TextField,
    decimals: Option<int>)

  /** The `base` object of the API response: vault id to record. */
  type VaultsMap = map<string, VaultRecord>
}
