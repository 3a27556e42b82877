/** components/WalletInfo.tsx: how the wallet overview shows the address. */
module WalletInfo {
  import opened WalletLib

  /** Addresses longer than this are shortened on the overview card. */
  const WRAP_LENGTH: nat := 20

  /**
   * The address as the card shows it: shortened by `FormatPublicKey` only when
   * longer than 20 characters. Every shown address fits in 20 characters, and a
   * shortened one keeps the first and last six.
   */
  function DisplayedAddress(publicKey: string): (shown: string)
    ensures |publicKey| <= WRAP_LENGTH ==> shown == publicKey
    ensures |shown| <= WRAP_LENGTH
    ensures |publicKey| > WRAP_LENGTH ==>
      && |shown| == 15
      && shown[..KEPT_CHARS] == publicKey[..KEPT_CHARS]
      && shown[|shown| - KEPT_CHARS..] == publicKey[|publicKey| - KEPT_CHARS..]
  {
    if |publicKey| > WRAP_LENGTH then FormatPublicKey(publicKey) else publicKey
  }
}
