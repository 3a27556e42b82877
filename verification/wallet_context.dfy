/**
 * contexts/WalletContext.tsx: the process-wide wallet state that every screen
 * reads, and the handlers that change it. Each handler is one sequential step;
 * the values its awaited calls produce are its parameters.
 */
module WalletContext {
  import opened Wrappers
  import opened SolanaSdk
  import opened WalletLib

  /** The screens' view of the state: still loading, no usable wallet, or a wallet with an address. */
  datatype Phase = Loading | NoWallet | WalletLoaded

  /** `WalletProvider`: one field per `useState` hook, plus the storage and library it uses. */
  class WalletProvider {
    const store: Storage
    const sdk: Sdk

    var walletData: Option<WalletData>
    var keypair: Option<Keypair>
    var publicKey: Option<string>
    var balance: real
    var isLoading: bool
    var connection: Option<Connection>

    /**
     * The provider's invariant: the keypair and its address are set and
     * cleared together, a keypair only exists beside a record, and the
     * balance is never negative.
     */
    ghost predicate Valid()
      reads this, store
    {
      && store.Valid()
      && (keypair.Some? <==> publicKey.Some?)
      && (keypair.Some? ==> publicKey == Some(sdk.publicKeyString(keypair.value)))
      && (keypair.Some? ==> walletData.Some?)
      && balance >= 0.0
    }

    /** The derived `transactions`: the record's history, or none when there is no record. */
    function Transactions(): (txs: seq<TransactionData>)
      reads this
      ensures walletData.None? ==> txs == []
      ensures walletData.Some? ==> txs == walletData.value.transactions
    {
      if walletData.Some? then walletData.value.transactions else []
    }

    /**
     * Loading until `initialize` settles; then a wallet exactly when the
     * address is truthy. The wallet and send pages redirect home in the
     * no-wallet phase (`!isLoading && !publicKey`); an empty address is falsy.
     */
    function Phase(): (p: Phase)
      reads this
      ensures p == Loading <==> isLoading
      ensures p == NoWallet <==> !isLoading && (publicKey.None? || publicKey.value == "")
    {
      if isLoading then Loading
      else if publicKey.Some? && publicKey.value != "" then WalletLoaded
      else NoWallet
    }

    /**
     * A page that does not redirect once loading has settled has a keypair and
     * a record behind its address.
     */
    lemma LoadedPhaseHasKeypair()
      requires Valid()
      ensures Phase() == WalletLoaded ==> keypair.Some? && walletData.Some?
    {
    }

    /** The state on mount: nothing loaded, balance 0, loading. */
    constructor (store: Storage, sdk: Sdk)
      requires store.Valid()
      ensures Valid()
      ensures this.store == store && this.sdk == sdk
      ensures walletData == None && keypair == None && publicKey == None
      ensures balance == 0.0 && isLoading && connection == None
      ensures Phase() == Loading && Transactions() == []
    {
      this.store := store;
      this.sdk := sdk;
      walletData := None;
      keypair := None;
      publicKey := None;
      balance := 0.0;
      isLoading := true;
      connection := None;
    }

    /**
     * The mount effect `initialize`: open the connection, load the stored
     * record, derive its keypair and fetch the balance (`balanceQuery` is what
     * the balance query did). Decoding the key may throw; the error is reported
     * (`errorReported`, the toast) with the record already set and the keypair
     * untouched. Loading ends on every path.
     */
    method Initialize(balanceQuery: Outcome<nat>) returns (errorReported: bool)
      requires Valid()
      modifies this
      ensures Valid()
      ensures !isLoading && Phase() != Loading
      ensures connection == Some(Connection(DEFAULT_NETWORK, COMMITMENT))
      ensures store.slot.None? ==>
        && !errorReported
        && walletData == old(walletData) && keypair == old(keypair)
        && publicKey == old(publicKey) && balance == old(balance)
      ensures store.slot.Some? ==> walletData == store.slot && Transactions() == History(store.slot)
      ensures store.slot.Some? ==>
        (errorReported <==> sdk.keypairFromEncoded(store.slot.value.keypair).Threw?)
      ensures store.slot.Some? && errorReported ==>
        keypair == old(keypair) && publicKey == old(publicKey) && balance == old(balance)
      ensures store.slot.Some? && !errorReported ==>
        && keypair == Some(sdk.keypairFromEncoded(store.slot.value.keypair).value)
        && publicKey == Some(sdk.publicKeyString(keypair.value))
        && balance == GetBalance(balanceQuery)
        && (publicKey.value != "" ==> Phase() == WalletLoaded)
    {
      errorReported := false;
      isLoading := true;
      connection := Some(Connection(DEFAULT_NETWORK, COMMITMENT));
      var storedWallet := store.GetStoredWallet();
      if storedWallet.Some? {
        walletData := storedWallet;
        var kp := sdk.keypairFromEncoded(storedWallet.value.keypair);
        if kp.Threw? {
          errorReported := true;
        } else {
          keypair := Some(kp.value);
          publicKey := Some(sdk.publicKeyString(kp.value));
          balance := GetBalance(balanceQuery);
        }
      }
      isLoading := false;
    }

    /**
     * `createNewWallet`: replace the stored record with a fresh one for the
     * generated keypair `generated`, then derive the keypair back from the
     * record. If that derivation throws, the error is reported and only the
     * record has changed. When the library round-trips the generated key, the
     * wallet is loaded with exactly that keypair.
     */
    method CreateNewWallet(generated: Keypair) returns (errorReported: bool)
      requires Valid()
      modifies this, store
      ensures Valid()
      ensures walletData == Some(WalletData(sdk.encodeBase58(generated.secretKey), [], DEFAULT_NETWORK))
      ensures Transactions() == []
      ensures store.slot == if store.inBrowser then walletData else None
      ensures errorReported <==> sdk.keypairFromEncoded(walletData.value.keypair).Threw?
      ensures !errorReported ==>
        && keypair == Some(sdk.keypairFromEncoded(walletData.value.keypair).value)
        && publicKey == Some(sdk.publicKeyString(keypair.value))
        && balance == 0.0
      ensures errorReported ==>
        keypair == old(keypair) && publicKey == old(publicKey) && balance == old(balance)
      ensures RoundTrips(sdk, generated) ==> !errorReported && keypair == Some(generated)
      ensures isLoading == old(isLoading) && connection == old(connection)
    {
      var newWalletData := CreateWallet(store, sdk, generated);
      walletData := Some(newWalletData);
      var kp := sdk.keypairFromEncoded(newWalletData.keypair);
      if kp.Threw? {
        errorReported := true;
        return;
      }
      keypair := Some(kp.value);
      publicKey := Some(sdk.publicKeyString(kp.value));
      balance := 0.0;
      errorReported := false;
    }

    /** `resetWallet`: clear storage and forget the record, keypair and address; balance back to 0. */
    method ResetWallet()
      requires Valid()
      modifies this, store
      ensures Valid()
      ensures store.slot == None
      ensures walletData == None && keypair == None && publicKey == None && balance == 0.0
      ensures Transactions() == []
      ensures !isLoading ==> Phase() == NoWallet
      ensures isLoading == old(isLoading) && connection == old(connection)
    {
      store.ClearWallet();
      walletData := None;
      keypair := None;
      publicKey := None;
      balance := 0.0;
    }

    /**
     * `refreshBalance`: with a keypair and a connection, the balance becomes
     * what the query (`query`) gives; otherwise nothing happens.
     */
    method RefreshBalance(query: Outcome<nat>)
      requires Valid()
      modifies this
      ensures Valid()
      ensures old(keypair).Some? && old(connection).Some? ==> balance == GetBalance(query)
      ensures old(keypair).None? || old(connection).None? ==> balance == old(balance)
      ensures walletData == old(walletData) && keypair == old(keypair) && publicKey == old(publicKey)
      ensures isLoading == old(isLoading) && connection == old(connection)
    {
      if keypair.Some? && connection.Some? {
        balance := GetBalance(query);
      }
    }
  }
}
