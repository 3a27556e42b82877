/**
 * The blockchain client library (`@solana/web3.js` and `bs58`), kept abstract.
 *
 * The wallet's own code never looks inside the library: it hands it strings
 * and byte arrays and gets back keypairs, strings, or an exception. Calls that
 * give the same answer for the same input are the function fields of `Sdk`;
 * calls whose answer depends on randomness or on the network are parameters of
 * the methods that make them (see `Wrappers.Outcome`).
 */
module SolanaSdk {
  import opened Wrappers

  /** A keypair as the library holds it: its 64-byte secret key. */
  datatype Keypair = Keypair(secretKey: seq<bv8>)

  /** A connection handle: the RPC endpoint and the commitment level it confirms at. */
  datatype Connection = Connection(endpoint: string, commitment: string)

  /** The deterministic part of the client library. */
  datatype Sdk = Sdk(
    /** `bs58.encode`: the text form of a secret key. */
    encodeBase58: seq<bv8> -> string,
    /** `bs58.decode` followed by `Keypair.fromSecretKey`; either step may throw. */
    keypairFromEncoded: string -> Outcome<Keypair>,
    /** `keypair.publicKey.toString()`: the base58 address of a keypair. */
    publicKeyString: Keypair -> string,
    /** Whether `new PublicKey(address)` returns instead of throwing. */
    isValidSolanaAddress: string -> bool
  )

  /** The library's round-trip promise for a key it generated: encoding and decoding gives it back. */
  ghost predicate RoundTrips(sdk: Sdk, kp: Keypair)
  {
    sdk.keypairFromEncoded(sdk.encodeBase58(kp.secretKey)) == Returned(kp)
  }
}
