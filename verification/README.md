# Ghost wallet: a Dafny model of the wallet store, wallet state and send form

The wallet is a browser-only Solana "burner" wallet. It keeps one wallet
record in local storage under the key `solanaWallet`. The record holds the
base58 secret key, a transaction history (newest first) and the network
endpoint. A shared in-memory state object, the wallet context, is loaded from
that record when the app mounts. A send form validates a recipient and an
amount, then transfers funds. This model covers the three parts that carry
logic:

- `wallet.dfy`, module `WalletLib` (lib/wallet.ts). It holds the record types
  and the storage slot as a class `Storage` with one optional record, which is
  always empty outside a browser. It models `storeWallet`, `getStoredWallet`,
  `clearWallet`, `hasWallet` and `createWallet`, plus the history update that
  `requestAirdrop` and `sendSol` do after a network success. It also models
  `getBalance` failing to 0 and `formatPublicKey`. `Recorded` is the pure
  meaning of one history update and `RecordedAll` the meaning of several in a
  row. The lemmas about them state the newest-first order of the history.
- `wallet_context.dfy`, module `WalletContext` (contexts/WalletContext.tsx).
  The class `WalletProvider` has one field per state hook. Its invariant
  `Valid()` says that the keypair and the address are set and cleared
  together, that a keypair exists only beside a record, and that the balance
  is never negative. The handlers are `Initialize`, `CreateNewWallet`,
  `ResetWallet` and `RefreshBalance`. `Transactions()` is the exposed history.
  `Phase()` is the loading / no wallet / wallet loaded view that the screens
  act on. The wallet and send pages redirect home in the no-wallet phase.
- `send_form.dfy`, module `SendForm` (components/SendForm.tsx). It holds the
  schema as the list of issues it raises, and the submit guards as a pure
  function. The class `Form` carries the `isSubmitting` flag. A ghost log
  records the flag's value at every call of `sendSol`.
- `wallet_info.dfy`, module `WalletInfo`: the overview card's rule that only
  addresses longer than 20 characters are shortened.
- `sdk.dfy`, module `SolanaSdk`, and `wrappers.dfy`, module `Wrappers`. The
  client library (`@solana/web3.js`, `bs58`) stays abstract. Base58 encoding,
  decoding a stored key into a keypair, the address of a keypair, and the
  address-validity check (`isValidSolanaAddress`, i.e. whether
  `new PublicKey(s)` returns) are the function fields of the datatype `Sdk`.
  Key generation, `Date.now()` and every network call are method parameters.
  A network result is an `Outcome`: `Returned(value)` or `Threw`.

Two behaviours of the code are worth stating:

- A corrupt stored key during `initialize` does not escape as an unhandled
  failure. The code catches it, reports it, and still ends loading.
- `createNewWallet` has its own error path even though key generation cannot
  fail. If deriving the keypair back from the new record throws, only the
  record has changed. When the library round-trips the generated key
  (`RoundTrips`), the wallet is loaded with exactly that keypair.

Two consequences of the code are stated as proved contracts:

- After a successful send, storage holds the new entry. The context's
  `walletData` is left as it was by `Form.OnSubmit`, so the context's
  `transactions` only shows the entry once the record is reloaded.
- A signature that is the empty string is recorded by `sendSol` but counts
  as a failure in `onSubmit`.

## Model

| member | source | states |
|---|---|---|
| `WalletLib.Storage.StoreWallet` | lib/wallet.ts:29-33 | in a browser the slot then holds exactly the given record (so `GetStoredWallet` returns it and `HasWallet` is true); outside one nothing is stored |
| `WalletLib.Storage.GetStoredWallet` | lib/wallet.ts:35-43 | returns the stored record, and always the absent value outside a browser |
| `WalletLib.Storage.ClearWallet` | lib/wallet.ts:45-49 | the slot is empty afterwards, so `HasWallet` is false and `GetStoredWallet` returns the absent value |
| `WalletLib.Storage.HasWallet` | lib/wallet.ts:51-56 | true exactly when a record is stored; always false outside a browser |
| `WalletLib.CreateWallet` | lib/wallet.ts:59-68 | returns a record holding the encoded generated secret key, an empty history and the devnet endpoint; storage then holds that record and nothing of the previous one |
| `WalletLib.GetBalance` | lib/wallet.ts:80-91 | a failed query gives 0; otherwise the result times LAMPORTS_PER_SOL is the lamport count; never negative |
| `WalletLib.Recorded` | lib/wallet.ts:108-118 | one history update: a stored record gets the entry at index 0 with the old history after it, and keeps its key and network; an empty slot stays empty |
| `WalletLib.RecordTransaction` | lib/wallet.ts:107-118 | reloading, prepending with `unshift` and storing back leaves the slot equal to `Recorded` of the old slot |
| `WalletLib.RequestAirdrop` | lib/wallet.ts:94-125 | a signature is returned exactly when both the airdrop request and the confirmation return; only then is an `airdrop` entry with the requested amount (default 1) and no counterparty prepended; otherwise the result is absent and storage is untouched |
| `WalletLib.SendSol` | lib/wallet.ts:128-171 | a signature is returned exactly when the destination parses and the send returns; only then is a `send` entry with the amount and the destination as counterparty prepended (nothing is written when no record is stored); otherwise the result is absent and storage is untouched |
| `WalletLib.RecordedAllNewestFirst` | lib/wallet.ts:116 | after successive successful operations the history is their entries in reverse order (the last operation's first), followed by the earlier history unchanged and in order; key and network are kept |
| `WalletLib.RecordedAllWithoutWallet` | lib/wallet.ts:153-164 | with no stored record, any number of successful operations write nothing |
| `WalletLib.RecordedAllKeepsNewestFirst` | lib/wallet.ts:110-116 | if the clock never runs backwards, the stored history stays sorted by timestamp, newest first |
| `WalletLib.FormatPublicKey` | lib/wallet.ts:174-177 | keys of at most 12 characters come back unchanged; longer ones become exactly 15 characters: their first 6, `...`, their last 6 |
| `WalletLib.FormatPublicKeyIdempotent` | lib/wallet.ts:174-177 | formatting is idempotent and never yields more than 15 characters |
| `WalletLib.CreateAirdropSendScenario` | lib/wallet.ts:59-171 | a new wallet, then a 1 SOL airdrop, then a 0.5 SOL send to B, gives a history of two entries with the send first (counterparty B) and the airdrop second (no counterparty) |
| `WalletContext.WalletProvider.Transactions` | contexts/WalletContext.tsx:145 | the exposed history is the record's history, and empty when there is no record |
| `WalletContext.WalletProvider.Phase` | app/wallet/page.tsx:16-20 | loading exactly while `isLoading`; no wallet (the redirect home, as in app/send/page.tsx:14-18) exactly when loading is over and the address is absent or empty; wallet loaded otherwise |
| `WalletContext.WalletProvider.LoadedPhaseHasKeypair` | contexts/WalletContext.tsx:58-59 | under the invariant, the wallet-loaded phase has a keypair and a record behind its address |
| `WalletContext.WalletProvider.constructor` | contexts/WalletContext.tsx:34-39 | the mount state: no record, keypair or address, balance 0, loading, no connection |
| `WalletContext.WalletProvider.Initialize` | contexts/WalletContext.tsx:44-75 | loading is false afterwards on every path and the devnet connection is set; with nothing stored, nothing else changes; with a record stored, the record is set; if decoding its key throws, an error is reported and the keypair, address and balance are untouched; otherwise the keypair, its address and the fetched balance are set and, for a non-empty address, the phase is wallet loaded; the exposed history is the stored one; the invariant is kept |
| `WalletContext.WalletProvider.CreateNewWallet` | contexts/WalletContext.tsx:81-104 | the record is the new one with an empty history, and storage holds it; on a successful derivation the keypair and address are set and the balance is 0, and on a throw only the record changed; the generated keypair is loaded whenever the library round-trips it; the invariant is kept |
| `WalletContext.WalletProvider.ResetWallet` | contexts/WalletContext.tsx:107-118 | storage is cleared; record, keypair and address are absent, the balance is 0 and the exposed history is empty; once loaded the phase is no wallet |
| `WalletContext.WalletProvider.RefreshBalance` | contexts/WalletContext.tsx:121-136 | with a keypair and a connection the balance becomes the query's result; without them nothing changes |
| `SendForm.SchemaIssues` | components/SendForm.tsx:32-43 | an empty recipient is reported; an address that fails the validity check is reported; a non-positive amount is reported; no issue exactly when the recipient is non-empty and valid and the amount is greater than 0 |
| `SendForm.SubmitGuard` | components/SendForm.tsx:60-77 | not initialised exactly when the keypair or the connection is missing; insufficient balance exactly when both are present and the amount exceeds the balance; proceed otherwise, so an amount equal to the balance proceeds |
| `SendForm.NotInitializedOnlyWithoutConnection` | components/SendForm.tsx:60-67 | on a page in the wallet-loaded phase, the "Wallet not initialized" guard fires only when the connection is missing |
| `SendForm.Form.constructor` | components/SendForm.tsx:47 | `isSubmitting` starts false and no send has been made |
| `SendForm.Form.OnSubmit` | components/SendForm.tsx:59-112 | a rejected submission leaves `isSubmitting`, storage and the balance untouched and never calls `sendSol`; one that passes both guards calls `sendSol` exactly once with `isSubmitting` true, ends with `isSubmitting` false, and records the send when it returns; only a non-empty signature refreshes the balance and navigates to `/wallet`; the invariant is kept and the context's record is left as it was |
| `WalletInfo.DisplayedAddress` | components/WalletInfo.tsx:98 | addresses of at most 20 characters are shown whole, longer ones shortened to 15 keeping the first and last 6; nothing shown is longer than 20 |

## Left out

- The client library is not modelled. This covers `Keypair.generate`,
  `Keypair.fromSecretKey`, base58 encoding and decoding, the `PublicKey`
  constructor, `Connection`, `getBalance`, `requestAirdrop`,
  `confirmTransaction` and `sendAndConfirmTransaction`. They are abstract
  functions or success/failure parameters. The library's own promises are not
  assumed: that a generated key's address is valid, or that empty or
  wrong-length strings are invalid addresses. `RoundTrips` appears only as a
  hypothesis.
- `confirmTransaction` is modelled only as returning or throwing. It also
  returns for a transaction that failed on chain, and the airdrop is then
  recorded as in the code.
- `JSON.stringify`, `JSON.parse` and `localStorage` itself are not modelled;
  the slot holds the record directly. A corrupt stored string that makes
  `JSON.parse` throw, and a storage write that throws (quota), are not
  modelled.
- Floating point is not modelled. `GetBalance` divides exactly, in reals.
  `amount * LAMPORTS_PER_SOL` only feeds the abstract network calls, so it
  does not appear.
- `getConnection` and `getKeypairFromWallet` have no members of their own. The
  first is folded into `Initialize`, which sets the devnet connection. The
  second is the `keypairFromEncoded` field of `Sdk`.
- The public key and connection arguments of `requestAirdrop` and `sendSol`
  are dropped. They only feed the abstract network call.
- async scheduling is not modelled. Each handler is one sequential step, so a
  balance refresh interleaving with a pending transfer is not covered.
- Toasts and `console.error` appear only as the `errorReported` results and
  the `SubmitResult` value. The router push appears as `OnSubmit`'s `route`.
- The `catch` branch of `onSubmit` is not modelled: `sendSol` and
  `refreshBalance` catch their own errors, and failures of the toast or router
  code are out of scope. The `finally` that clears `isSubmitting` is the last
  step on every path after the guards.
- zod coercion of non-numeric or infinite amount text is not modelled, and
  neither is the per-field error display of react-hook-form. Amounts are reals.
- The submit button being disabled while `isSubmitting` is true is not
  modelled.
- Screens and JSX are not modelled: app/page.tsx, app/wallet/page.tsx (beyond
  `Phase`), app/send/page.tsx, app/layout.tsx, components/TransactionList.tsx,
  and the copy, refresh and airdrop handlers of components/WalletInfo.tsx.
- `useWallet` throwing outside a provider is not modelled.
- `receive` entries are never produced by the code; the type only lists them.
- FormatPublicKey: lengths count characters (Unicode scalar values), not the
  UTF-16 code units of JavaScript's `length` and `slice`. The two agree on the
  base58 addresses the app formats, which are ASCII.
- DisplayedAddress: the 20-character limit counts characters, not UTF-16 code
  units, for the same reason; the two agree on base58 addresses.
- SchemaIssues: the `min(1)` check counts characters, not UTF-16 code units.
  Both counts are zero exactly for the empty string, so the issue raised is
  the same.
