/**
 * lib/wallet.ts: the wallet record, its single local-storage slot, the
 * network operations that append to its history, and address formatting.
 */
module WalletLib {
  import opened Wrappers
  import opened SolanaSdk

  const MAINNET: string := "https://api.mainnet-beta.solana.com"
  const TESTNET: string := "https://api.testnet.solana.com"
  const DEVNET: string := "https://api.devnet.solana.com"
  /** The endpoint every new wallet and the shared connection use. */
  const DEFAULT_NETWORK: string := DEVNET
  /** The commitment level of the shared connection. */
  const COMMITMENT: string := "confirmed"

  /** Lamports (the indivisible unit) in one SOL. */
  const LAMPORTS_PER_SOL: nat := 1_000_000_000

  /** Public keys no longer than this are shown in full. */
  const SHORT_KEY_LENGTH: nat := 12
  /** Characters kept on each side of a shortened public key. */
  const KEPT_CHARS: nat := 6
  const ELLIPSIS: string := "..."

  datatype TransactionType = Send | Receive | Airdrop

  /** One history entry; `timestamp` is the client clock in milliseconds, `amount` is in SOL. */
  datatype TransactionData = TransactionData(
    signature: string,
    timestamp: int,
    amount: real,
    kind: TransactionType,
    otherParty: Option<string>)

  /** The persisted wallet: the base58 secret key, the history (newest first) and the endpoint. */
  datatype WalletData = WalletData(
    keypair: string,
    transactions: seq<TransactionData>,
    network: string)

  /** The entry `requestAirdrop` records: no counterparty. */
  function AirdropEntry(signature: string, now: int, amount: real): TransactionData
  {
    TransactionData(signature, now, amount, Airdrop, None)
  }

  /** The entry `sendSol` records: the destination is the counterparty. */
  function SendEntry(signature: string, now: int, amount: real, to: string): TransactionData
  {
    TransactionData(signature, now, amount, Send, Some(to))
  }

  /** The history held in a storage slot; an empty slot has none. */
  function History(slot: Option<WalletData>): seq<TransactionData>
  {
    if slot.Some? then slot.value.transactions else []
  }

  /**
   * What the slot holds after one successful network operation records `tx`:
   * a stored record gets `tx` in front of its history and is otherwise kept;
   * an empty slot stays empty.
   */
  function Recorded(slot: Option<WalletData>, tx: TransactionData): (r: Option<WalletData>)
    ensures r.Some? <==> slot.Some?
    ensures r.Some? ==> r.value.keypair == slot.value.keypair && r.value.network == slot.value.network
    ensures r.Some? ==> |r.value.transactions| > 0 && r.value.transactions[0] == tx
    ensures r.Some? ==> r.value.transactions[1..] == slot.value.transactions
  {
    match slot
    case None => None
    case Some(w) => Some(w.(transactions := [tx] + w.transactions))
  }

  /** The slot after the operations recording `txs`, in that order, each succeed. */
  function RecordedAll(slot: Option<WalletData>, txs: seq<TransactionData>): Option<WalletData>
    decreases |txs|
  {
    if txs == [] then slot
    else Recorded(RecordedAll(slot, txs[..|txs| - 1]), txs[|txs| - 1])
  }

  /** `s` in reverse order: its last element first. */
  function Reversed<T>(s: seq<T>): (r: seq<T>)
    ensures |r| == |s|
    decreases |s|
  {
    if s == [] then [] else [s[|s| - 1]] + Reversed(s[..|s| - 1])
  }

  /** The k-th element of the reversal is the k-th from the end. */
  lemma {:induction false} ReversedAt<T>(s: seq<T>, k: nat)
    requires k < |s|
    ensures Reversed(s)[k] == s[|s| - 1 - k]
  {
    if k == 0 {
      if |s| > 1 {
        ReversedAt(s[..|s| - 1], 0);
      }
    } else {
      ReversedAt(s[..|s| - 1], k - 1);
    }
  }

  /**
   * Successive records stack up newest first: the history becomes the new
   * entries in reverse order of their operations, followed by the earlier
   * history unchanged; key and network are kept.
   */
  lemma {:induction false} RecordedAllNewestFirst(w: WalletData, txs: seq<TransactionData>)
    ensures RecordedAll(Some(w), txs) == Some(w.(transactions := Reversed(txs) + w.transactions))
  {
    if txs == [] {
      assert Reversed(txs) + w.transactions == w.transactions;
    } else {
      var init, last := txs[..|txs| - 1], txs[|txs| - 1];
      RecordedAllNewestFirst(w, init);
      var earlier := Reversed(init) + w.transactions;
      var later := [last] + earlier;
      assert later == Reversed(txs) + w.transactions by {
        assert Reversed(txs) == [last] + Reversed(init);
      }
      calc {
        RecordedAll(Some(w), txs);
        Recorded(RecordedAll(Some(w), init), last);
        Recorded(Some(w.(transactions := earlier)), last);
        Some(w.(transactions := later));
      }
    }
  }

  /** With no stored record, successful operations write nothing. */
  lemma {:induction false} RecordedAllWithoutWallet(txs: seq<TransactionData>)
    ensures RecordedAll(None, txs) == None
  {
    if txs != [] {
      RecordedAllWithoutWallet(txs[..|txs| - 1]);
    }
  }

  /** Timestamps never increase along the history. */
  ghost predicate NewestFirst(h: seq<TransactionData>)
  {
    forall i, j :: 0 <= i < j < |h| ==> h[i].timestamp >= h[j].timestamp
  }

  /** Timestamps never decrease along a sequence of operations (a clock that does not run backwards). */
  ghost predicate ClockOrdered(txs: seq<TransactionData>)
  {
    forall i, j :: 0 <= i < j < |txs| ==> txs[i].timestamp <= txs[j].timestamp
  }

  /** A reversed, clock-ordered batch in front of a sorted history keeps it sorted. */
  lemma ReversedBatchNewestFirst(h: seq<TransactionData>, txs: seq<TransactionData>, earlier: seq<TransactionData>)
    requires |h| == |txs| + |earlier|
    requires h[|txs|..] == earlier
    requires forall i :: 0 <= i < |txs| ==> h[i] == txs[|txs| - 1 - i]
    requires NewestFirst(earlier)
    requires ClockOrdered(txs)
    requires |txs| > 0 && |earlier| > 0 ==> earlier[0].timestamp <= txs[0].timestamp
    ensures NewestFirst(h)
  {
  }

  /** If the clock never runs backwards, the stored history stays sorted newest first. */
  lemma RecordedAllKeepsNewestFirst(w: WalletData, txs: seq<TransactionData>)
    requires NewestFirst(w.transactions)
    requires ClockOrdered(txs)
    requires |txs| > 0 && |w.transactions| > 0 ==> w.transactions[0].timestamp <= txs[0].timestamp
    ensures NewestFirst(History(RecordedAll(Some(w), txs)))
  {
    RecordedAllNewestFirst(w, txs);
    var h := Reversed(txs) + w.transactions;
    forall i | 0 <= i < |txs|
      ensures h[i] == txs[|txs| - 1 - i]
    {
      ReversedAt(txs, i);
    }
    ReversedBatchNewestFirst(h, txs, w.transactions);
  }

  /**
   * The browser's local storage, reduced to the one key (`solanaWallet`) the
   * wallet uses. Outside a browser (`typeof window === 'undefined'`) there is
   * no storage and the slot is always empty.
   */
  class Storage {
    const inBrowser: bool
    var slot: Option<WalletData>

    ghost predicate Valid()
      reads this
    {
      !inBrowser ==> slot.None?
    }

    /** Storage as found at page load: whatever an earlier session persisted, if anything. */
    constructor (inBrowser: bool, persisted: Option<WalletData>)
      ensures Valid()
      ensures this.inBrowser == inBrowser
      ensures slot == if inBrowser then persisted else None
    {
      this.inBrowser := inBrowser;
      slot := if inBrowser then persisted else None;
    }

    /** `storeWallet`: overwrite the slot; nothing happens outside a browser. */
    method StoreWallet(w: WalletData)
      requires Valid()
      modifies this
      ensures Valid()
      ensures inBrowser ==> slot == Some(w)
      ensures !inBrowser ==> slot == old(slot) == None
    {
      if inBrowser {
        slot := Some(w);
      }
    }

    /** `getStoredWallet`: the stored record, absent when there is none or no browser. */
    method GetStoredWallet() returns (r: Option<WalletData>)
      requires Valid()
      ensures r == slot
      ensures !inBrowser ==> r.None?
    {
      if inBrowser {
        r := slot;
      } else {
        r := None;
      }
    }

    /** `clearWallet`: empty the slot. */
    method ClearWallet()
      requires Valid()
      modifies this
      ensures Valid()
      ensures slot == None
    {
      if inBrowser {
        slot := None;
      }
    }

    /** `hasWallet`: whether a record is stored; always false outside a browser. */
    method HasWallet() returns (b: bool)
      requires Valid()
      ensures b <==> slot.Some?
      ensures !inBrowser ==> !b
    {
      if inBrowser {
        b := slot.Some?;
      } else {
        b := false;
      }
    }
  }

  /**
   * `createWallet`: store and return a fresh record for the newly generated
   * keypair, discarding whatever was stored before. `generated` is the result
   * of `Keypair.generate()`.
   */
  method CreateWallet(store: Storage, sdk: Sdk, generated: Keypair) returns (w: WalletData)
    requires store.Valid()
    modifies store
    ensures store.Valid()
    ensures w.keypair == sdk.encodeBase58(generated.secretKey)
    ensures w.transactions == []
    ensures w.network == DEFAULT_NETWORK
    ensures store.slot == if store.inBrowser then Some(w) else None
  {
    w := WalletData(sdk.encodeBase58(generated.secretKey), [], DEFAULT_NETWORK);
    store.StoreWallet(w);
  }

  /**
   * `getBalance`: the balance in SOL given what the balance query did. A query
   * that throws yields 0; otherwise the lamports are converted to SOL.
   */
  function GetBalance(query: Outcome<nat>): (sol: real)
    ensures sol >= 0.0
    ensures query.Threw? ==> sol == 0.0
    ensures query.Returned? ==> sol * (LAMPORTS_PER_SOL as real) == query.value as real
  {
    match query
    case Returned(lamports) => lamports as real / LAMPORTS_PER_SOL as real
    case Threw => 0.0
  }

  /**
   * The history update shared by `requestAirdrop` and `sendSol`: reload the
   * record, put `tx` in front of its transactions and store it back; with no
   * record stored, write nothing.
   */
  method RecordTransaction(store: Storage, tx: TransactionData)
    requires store.Valid()
    modifies store
    ensures store.Valid()
    ensures store.slot == Recorded(old(store.slot), tx)
  {
    var walletData := store.GetStoredWallet();
    if walletData.Some? {
      var updated := walletData.value.(transactions := [tx] + walletData.value.transactions);
      store.StoreWallet(updated);
    }
  }

  /**
   * `requestAirdrop`: `airdrop` is what `connection.requestAirdrop` did and
   * `confirmation` what `connection.confirmTransaction` did. Only when both
   * return is the airdrop recorded and its signature returned; any exception
   * yields null and leaves storage alone.
   */
  method RequestAirdrop(store: Storage, airdrop: Outcome<string>, confirmation: Outcome<()>, now: int,
                        amount: real := 1.0)
    returns (sig: Option<string>)
    requires store.Valid()
    modifies store
    ensures store.Valid()
    ensures sig.Some? <==> airdrop.Returned? && confirmation.Returned?
    ensures sig.Some? ==> sig.value == airdrop.value
    ensures sig.Some? ==> store.slot == Recorded(old(store.slot), AirdropEntry(sig.value, now, amount))
    ensures sig.None? ==> store.slot == old(store.slot)
  {
    if airdrop.Threw? {
      return None;
    }
    var signature := airdrop.value;
    if confirmation.Threw? {
      return None;
    }
    RecordTransaction(store, AirdropEntry(signature, now, amount));
    sig := Some(signature);
  }

  /**
   * `sendSol`: parse the destination (`new PublicKey` throws on an invalid
   * address), then send and confirm; `sent` is what `sendAndConfirmTransaction`
   * did. `keypair` signs the transfer inside that call. The send is recorded,
   * with the destination as counterparty, only when it returns.
   */
  method SendSol(store: Storage, sdk: Sdk, keypair: Keypair, toPublicKey: string, amount: real,
                 sent: Outcome<string>, now: int)
    returns (sig: Option<string>)
    requires store.Valid()
    modifies store
    ensures store.Valid()
    ensures sig.Some? <==> sdk.isValidSolanaAddress(toPublicKey) && sent.Returned?
    ensures sig.Some? ==> sig.value == sent.value
    ensures sig.Some? ==> store.slot == Recorded(old(store.slot), SendEntry(sig.value, now, amount, toPublicKey))
    ensures sig.None? ==> store.slot == old(store.slot)
  {
    if !sdk.isValidSolanaAddress(toPublicKey) {
      return None;
    }
    if sent.Threw? {
      return None;
    }
    RecordTransaction(store, SendEntry(sent.value, now, amount, toPublicKey));
    sig := Some(sent.value);
  }

  /**
   * `formatPublicKey`: short keys unchanged; longer ones as the first six
   * characters, an ellipsis and the last six.
   */
  function FormatPublicKey(publicKey: string): (r: string)
    ensures |publicKey| <= SHORT_KEY_LENGTH ==> r == publicKey
    ensures |publicKey| > SHORT_KEY_LENGTH ==>
      && |r| == 2 * KEPT_CHARS + |ELLIPSIS| == 15
      && r[..KEPT_CHARS] == publicKey[..KEPT_CHARS]
      && r[KEPT_CHARS..KEPT_CHARS + |ELLIPSIS|] == ELLIPSIS
      && r[KEPT_CHARS + |ELLIPSIS|..] == publicKey[|publicKey| - KEPT_CHARS..]
  {
    if |publicKey| <= SHORT_KEY_LENGTH then publicKey
    else publicKey[..KEPT_CHARS] + ELLIPSIS + publicKey[|publicKey| - KEPT_CHARS..]
  }

  /** Formatting a formatted key changes nothing, and no formatted key is longer than 15 characters. */
  lemma FormatPublicKeyIdempotent(publicKey: string)
    ensures FormatPublicKey(FormatPublicKey(publicKey)) == FormatPublicKey(publicKey)
    ensures |FormatPublicKey(publicKey)| <= 15
  {
  }

  /**
   * The example walk-through: a new wallet, a one-SOL airdrop, then a 0.5 SOL
   * transfer to `b`. The history holds two entries, the transfer first.
   */
  lemma CreateAirdropSendScenario(encoded: string, airdropSig: string, t1: int, sendSig: string, t2: int, b: string)
    ensures var slot := RecordedAll(Some(WalletData(encoded, [], DEFAULT_NETWORK)),
                                    [AirdropEntry(airdropSig, t1, 1.0), SendEntry(sendSig, t2, 0.5, b)]);
      && |History(slot)| == 2
      && History(slot)[0] == TransactionData(sendSig, t2, 0.5, Send, Some(b))
      && History(slot)[1] == TransactionData(airdropSig, t1, 1.0, Airdrop, None)
  {
    RecordedAllNewestFirst(WalletData(encoded, [], DEFAULT_NETWORK),
                           [AirdropEntry(airdropSig, t1, 1.0), SendEntry(sendSig, t2, 0.5, b)]);
  }
}
