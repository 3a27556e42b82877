/**
 * components/SendForm.tsx: the form schema on recipient and amount, and the
 * submit handler that guards, sends, and raises and lowers `isSubmitting`.
 */
module SendForm {
  import opened Wrappers
  import opened SolanaSdk
  import opened WalletLib
  import opened WalletContext

  /** The parsed form: recipient address and amount in SOL. */
  datatype FormValues = FormValues(recipient: string, amount: real)

  /** The schema's validation issues. */
  datatype Issue = RecipientRequired | InvalidAddress | AmountNotPositive

  /** The route a successful send navigates to. */
  const WALLET_ROUTE: string := "/wallet"

  /**
   * `formSchema`: the issues it raises, in order. A failed length or sign
   * check does not stop the refinement after it, so both of a field's checks
   * report; the amount is checked twice (`positive` and the `val > 0`
   * refinement).
   */
  function SchemaIssues(sdk: Sdk, values: FormValues): (issues: seq<Issue>)
    ensures RecipientRequired in issues <==> values.recipient == ""
    ensures InvalidAddress in issues <==> !sdk.isValidSolanaAddress(values.recipient)
    ensures AmountNotPositive in issues <==> values.amount <= 0.0
    ensures issues == [] <==>
      values.recipient != "" && sdk.isValidSolanaAddress(values.recipient) && values.amount > 0.0
  {
    (if |values.recipient| < 1 then [RecipientRequired] else [])
    + (if !sdk.isValidSolanaAddress(values.recipient) then [InvalidAddress] else [])
    + (if !(values.amount > 0.0) then [AmountNotPositive] else [])
    + (if !(values.amount > 0.0) then [AmountNotPositive] else [])
  }

  /** The form submits (and `onSubmit` runs) only when the schema raises nothing. */
  predicate Accepts(sdk: Sdk, values: FormValues)
  {
    SchemaIssues(sdk, values) == []
  }

  /** Which way `onSubmit`'s early-return guards send a submission. */
  datatype Guard = WalletNotInitialized | InsufficientBalance | Proceed

  /**
   * The guards in order: a keypair and a connection first, then an amount no
   * larger than the cached balance.
   */
  function SubmitGuard(hasKeypair: bool, hasConnection: bool, amount: real, balance: real): (g: Guard)
    ensures g == WalletNotInitialized <==> !hasKeypair || !hasConnection
    ensures g == InsufficientBalance <==> hasKeypair && hasConnection && amount > balance
    ensures g == Proceed <==> hasKeypair && hasConnection && amount <= balance
  {
    if !hasKeypair || !hasConnection then WalletNotInitialized
    else if amount > balance then InsufficientBalance
    else Proceed
  }

  /**
   * Once a page shows a loaded wallet, the "Wallet not initialized" guard can
   * only fire because the connection is missing.
   */
  lemma NotInitializedOnlyWithoutConnection(wallet: WalletProvider, amount: real)
    requires wallet.Valid()
    requires wallet.Phase() == WalletLoaded
    ensures SubmitGuard(wallet.keypair.Some?, wallet.connection.Some?, amount, wallet.balance) == WalletNotInitialized
            ==> wallet.connection.None?
  {
  }

  /** How a submission ended, as its toast reports it. */
  datatype SubmitResult = Rejected(guard: Guard) | Sent(signature: string) | SendFailed

  /** The `SendForm` component: its `isSubmitting` flag over the shared wallet state. */
  class Form {
    const wallet: WalletProvider
    var isSubmitting: bool
    /** The value of `isSubmitting` at each call of `sendSol`, oldest first. */
    ghost var sendCalls: seq<bool>

    constructor (wallet: WalletProvider)
      ensures this.wallet == wallet
      ensures !isSubmitting && sendCalls == []
    {
      this.wallet := wallet;
      isSubmitting := false;
      sendCalls := [];
    }

    /**
     * `onSubmit`, for values the schema accepted. `sent` is what
     * `sendAndConfirmTransaction` did, `now` the clock, `balanceQuery` what the
     * balance refresh after a success did. `route` is the router push.
     */
    method OnSubmit(values: FormValues, sent: Outcome<string>, now: int, balanceQuery: Outcome<nat>)
      returns (result: SubmitResult, route: Option<string>)
      requires wallet.Valid()
      requires Accepts(wallet.sdk, values)
      modifies this, wallet, wallet.store
      ensures wallet.Valid()
      ensures var g := SubmitGuard(old(wallet.keypair).Some?, old(wallet.connection).Some?,
                                   values.amount, old(wallet.balance));
        && (g != Proceed ==>
              && result == Rejected(g)
              && isSubmitting == old(isSubmitting) && sendCalls == old(sendCalls)
              && wallet.store.slot == old(wallet.store.slot))
        && (g == Proceed ==>
              && !isSubmitting && sendCalls == old(sendCalls) + [true]
              && (result.Sent? <==> sent.Returned? && sent.value != "")
              && (sent.Returned? ==>
                    wallet.store.slot == Recorded(old(wallet.store.slot),
                                                  SendEntry(sent.value, now, values.amount, values.recipient)))
              && (sent.Threw? ==> wallet.store.slot == old(wallet.store.slot)))
      ensures result.Sent? ==> result.signature == sent.value && wallet.balance == GetBalance(balanceQuery)
      ensures !result.Sent? ==> wallet.balance == old(wallet.balance)
      ensures route.Some? <==> result.Sent?
      ensures route.Some? ==> route.value == WALLET_ROUTE
      ensures wallet.walletData == old(wallet.walletData)
      ensures wallet.keypair == old(wallet.keypair) && wallet.publicKey == old(wallet.publicKey)
      ensures wallet.isLoading == old(wallet.isLoading) && wallet.connection == old(wallet.connection)
    {
      route := None;
      if wallet.keypair.None? || wallet.connection.None? {
        return Rejected(WalletNotInitialized), None;
      }
      if values.amount > wallet.balance {
        return Rejected(InsufficientBalance), None;
      }
      isSubmitting := true;
      sendCalls := sendCalls + [isSubmitting];
      var signature := SendSol(wallet.store, wallet.sdk, wallet.keypair.value, values.recipient,
                               values.amount, sent, now);
      if signature.Some? && signature.value != "" {
        wallet.RefreshBalance(balanceQuery);
        result := Sent(signature.value);
        route := Some(WALLET_ROUTE);
      } else {
        result := SendFailed;
      }
      isSubmitting := false;
    }
  }
}
