# sol-kit button handlers, modelled in Dafny

sol-kit is a React front end over the Solana JavaScript libraries. It has four
working screens beside a static home page. Apart from the balance refresh in
src/App.tsx, the logic it owns sits in the button handlers of those four
screens:

- **Create Token**: four ordered guards; a rent query sized for the mint plus
  its metadata; envelope 1 (create account, metadata pointer, mint, metadata),
  co-signed by a fresh mint keypair; then envelope 2 (associated token account,
  mint-to). The form is reset in `finally`.
- **Send SOL**: ordered guards, a balance check, and one transfer.
- **Airdrop**: one request, with a "429" response mapped to a fixed message
  that points at the public faucet.
- **Sign Message**: ordered guards, a wallet signature, and a verification of
  that signature against the wallet's key.

Each handler is a pure function. Its inputs are the component state, the
wallet state (`Solana.Wallet`), a `Solana.Library` of foreign pure functions,
and a `Solana.Oracle`. The oracle gives what every awaited RPC or wallet call
resolves to or throws, as a function of the call's arguments. Each handler
returns three things: the trace of external calls made (`seq<Call>`), the text
or toast shown, and the state after the handler has run to completion.

Files:

- `js.dfy` (module `Js`): the JavaScript semantics the handlers rely on. It
  covers numbers that may be NaN, thrown values and `err.message || fallback`,
  `trim` with the ECMA-262 whitespace set, `includes`, and `slice`.
- `solana.dfy` (module `Solana`): keys, instruction descriptors, transaction
  envelopes, calls, the oracle and the library. It also defines
  `HaltsAtFirstFailure`: every call in a trace except the last resolved.
- `create_token.dfy`, `send_token.dfy`, `airdrop.dfy`, `sign_message.dfy`: one
  module per screen. Each has the handler and a `Step`/`Replay` machine over
  user events, which carries the invariant that holds between clicks. Create
  Token, Send SOL and Sign Message also have their guards and their
  button-disabled rule. The Airdrop handler has no guards, and its
  `disabled={isAirdropping}` rule is part of its `Step`.

Three behaviours of the code are worth stating on their own:

- Send SOL checks the wallet, then rejects a blank recipient, then a bad
  amount, and only then parses the recipient as a key.
- The Send SOL handler tests the amount with `!amount || parseFloat(amount) <= 0`,
  and a NaN parse passes that test. `SendToken.NaNAmountReachesSend` shows
  that the handler, taken alone, then builds a transfer whose lamports are NaN
  and hands it to the wallet. Whether the real `SystemProgram.transfer`
  builder accepts NaN is library behaviour outside this model. On the screen
  the amount is a number input, which hands the handler "" for non-numeric
  text.
- Create Token creates the mint account with `space = mintLen`, but pays the
  rent for the mint plus its metadata.

## Model

| member | source | states |
|---|---|---|
| Js.MessageOr | src/components/SendToken.tsx:95 | the shown text (`err.message`, else the fallback) is the message when it is a non-empty string and the fallback otherwise; with a non-empty fallback it is never empty |
| Js.TrimStart | src/components/SendToken.tsx:33 | the result is the longest suffix that does not start with whitespace: everything removed is whitespace |
| Js.TrimEnd | src/components/SendToken.tsx:33 | the result is the longest prefix that does not end with whitespace: everything removed is whitespace |
| Js.BlankIffAllWhitespace | src/components/SignMessage.tsx:25 | `!s.trim()` holds exactly when every character of `s` is whitespace |
| Js.SliceHead | src/components/SendToken.tsx:82-84 | `slice(0, 8)` is a prefix of length min(8, length) |
| Js.SliceTail | src/components/SendToken.tsx:85 | `slice(-8)` is a suffix of length min(8, length) |
| CreateToken.GuardFailure | src/components/CreateToken.tsx:48-66 | each guard message arises exactly when every earlier guard passed and its own check fails: connection and key, then `sendTransaction`, then decimals in [1,9], then supply > 0 |
| CreateToken.TryCreate | src/components/CreateToken.tsx:46-162 | a failed guard throws its message with no call; otherwise 1 to 4 calls are made, each after the previous one resolved; the block succeeds exactly when all 4 calls resolve; a throw is the last call's throw; the second call, when made, is the blockhash query |
| CreateToken.OnClick | src/components/CreateToken.tsx:40-176 | the handler always ends idle with the default form (empty texts, decimals 9, supply 0); exactly one of error and success is set; a guard failure makes no call and shows its message; past the guards an error means the last call made threw, so the run stops only at a throwing call; the second call, when made, is the blockhash query; success means all 4 calls resolved, and its text names the mint's address |
| CreateToken.QueriesResolvedSendsMint | src/components/CreateToken.tsx:80-127 | once the guards pass and the rent and blockhash queries resolve, envelope 1 is sent as the third call |
| CreateToken.MintResolvedSendsDistribution | src/components/CreateToken.tsx:127-158 | once envelope 1 resolves, envelope 2 is sent as the fourth call |
| CreateToken.MetadataUriDefault | src/components/CreateToken.tsx:74-76 | the metadata URI is the user's URL when it is non-empty and the placeholder image otherwise |
| CreateToken.NotConnectedCallsNothing | src/components/CreateToken.tsx:48-52 | a disconnected wallet, or one without a key, gives "Wallet not connected. Please connect your wallet first." and an empty trace |
| CreateToken.RentQueriedForMintAndMetadata | src/components/CreateToken.tsx:80-85 | once the guards pass, the first call queries rent for `mintLen + TYPE_SIZE + LENGTH_SIZE + pack(metadata).length` |
| CreateToken.MintEnvelopeSent | src/components/CreateToken.tsx:87-127 | the third call sends exactly createAccount (space `mintLen`, lamports = queried rent), init metadata pointer, init mint (given decimals, wallet as authority, no freeze authority), init metadata, in that order; fee payer is the wallet, the blockhash is the one just fetched, and the mint key is the partial signer |
| CreateToken.DistributionOnlyAfterMint | src/components/CreateToken.tsx:127-158 | envelope 2 is sent only if envelope 1 resolved; if envelope 1 throws, the trace ends with it and its error is shown |
| CreateToken.DistributionEnvelopeSent | src/components/CreateToken.tsx:130-162 | the fourth call sends exactly create-associated-account then mint-to of `supply * 10^decimals` into that account; if it resolves, the success text names the mint, otherwise its error is shown |
| CreateToken.QueryFailureEndsRun | src/components/CreateToken.tsx:83-122 | a throwing rent query ends the trace after one call, and a throwing blockhash query ends it after two, the second being the blockhash query; either way its error is shown |
| CreateToken.CallFailureShowsMessage | src/components/CreateToken.tsx:163-167 | a thrown `Error` shows its `message`; any other thrown value shows "An unknown error occurred" |
| CreateToken.EnterDecimals | src/components/CreateToken.tsx:276-281 | an entry in [1,9] replaces the decimals and nothing else; any other entry leaves the form unchanged |
| CreateToken.EnabledButtonPassesRangeGuards | src/components/CreateToken.tsx:347-353 | when the button is enabled, the decimals and supply guards pass, so only a missing key or a wallet that cannot send can refuse the click |
| CreateToken.StepKeepsSettled | src/components/CreateToken.tsx:168-175 | every edit or click keeps the screen idle with decimals in [1,9] |
| CreateToken.ReplayKeepsSettled | src/components/CreateToken.tsx:276-281 | every sequence of edits and clicks from a settled state ends settled: idle, decimals in [1,9] |
| CreateToken.DecimalsGuardUnreachable | src/components/CreateToken.tsx:59-61 | from the initial screen, no sequence of events makes the decimals guard fire |
| SendToken.GuardFailure | src/components/SendToken.tsx:26-55 | each toast arises exactly when the earlier guards passed and its own check fails: key and `sendTransaction`, then recipient blank after trim, then amount empty or parsing to at most 0, then recipient not parsing as a key |
| SendToken.Submit | src/components/SendToken.tsx:57-100 | past the guards: the balance query comes first; the transfer from the wallet to the parsed recipient of `amount * LAMPORTS_PER_SOL` is sent exactly when the balance query resolved to at least that amount, and a resolved but smaller balance shows "Insufficient balance"; each call only after the previous one resolved; success means both calls resolved, clears both fields and shows the success text; on error the fields are kept and the toast is non-empty; `isSending` always ends false |
| SendToken.OnClick | src/components/SendToken.tsx:25-101 | a guard failure makes no call, shows its toast and leaves the state unchanged (`isSending` never set); otherwise the flag ends false, a send follows the balance query exactly when the balance resolved to at least `amount * LAMPORTS_PER_SOL`, and the fields are cleared only on success |
| SendToken.SufficientBalanceSendsTransfer | src/components/SendToken.tsx:59-79 | once the guards pass and the balance resolves to at least `amount * LAMPORTS_PER_SOL`, the trace is the balance query then one transfer of that many lamports from the wallet's key to the parsed recipient |
| SendToken.InsufficientBalanceSendsNothing | src/components/SendToken.tsx:60-68 | a balance below `amount * LAMPORTS_PER_SOL` gives "Insufficient balance" after the balance query alone, with the flag lowered |
| SendToken.CallFailureShowsMessage | src/components/SendToken.tsx:94-97 | a throwing call shows `err.message`, or "Failed to send transaction" when it is missing or empty |
| SendToken.NaNAmountReachesSend | src/components/SendToken.tsx:40-45 | in the handler taken alone, a non-empty amount that parses to NaN passes the amount guard, and the transfer the handler builds, whose lamports are NaN, is handed to the wallet (the builder is modelled as a total constructor) |
| SendToken.ButtonDisabledIff | src/components/SendToken.tsx:170 | the button is disabled exactly when sending, when the recipient is only whitespace, or when the amount is empty |
| SendToken.EnabledButtonPassesFieldGuards | src/components/SendToken.tsx:170 | when the button is enabled, the recipient guard passes, and the amount guard fails only for an amount parsing to at most 0 |
| SendToken.ReplayStaysIdle | src/components/SendToken.tsx:98-100 | after any sequence of edits and clicks from an idle screen, `isSending` is false |
| SignMessage.GuardFailure | src/components/SignMessage.tsx:18-30 | "Wallet not connected or signing not supported" exactly when the key or `signMessage` is missing; "Please enter a message to sign" exactly when both are present and the message is blank after trim |
| SignMessage.Sign | src/components/SignMessage.tsx:32-52 | the one call signs the encoded message; a success toast is shown exactly when signing resolved and the signature verifies against the wallet's key; its text is "Message signed successfully!" and only then is the message cleared; every error toast is non-empty; `isSigning` ends false |
| SignMessage.OnClick | src/components/SignMessage.tsx:17-53 | a guard failure makes no sign call and leaves the state unchanged; otherwise exactly one sign call is made and the flag ends false; the message is kept on every error |
| SignMessage.UnverifiedSignatureRejected | src/components/SignMessage.tsx:35-40 | a signature that resolves but fails verification gives "Message signature invalid!" and keeps the message |
| SignMessage.SignFailureShowsMessage | src/components/SignMessage.tsx:46-49 | a throwing sign call shows `err.message`, or "Failed to sign message" when it is missing or empty |
| SignMessage.ButtonDisabledIff | src/components/SignMessage.tsx:94 | the button is disabled exactly when signing or when the message is only whitespace |
| SignMessage.EnabledButtonPassesMessageGuard | src/components/SignMessage.tsx:94 | when the button is enabled, the empty-message guard passes |
| SignMessage.ReplayStaysIdle | src/components/SignMessage.tsx:50-52 | after any sequence of edits and clicks from an idle screen, `isSigning` is false |
| Airdrop.SelectAmount | src/components/Airdrop.tsx:83-86 | pressing a preset selects it and changes nothing else |
| Airdrop.Request | src/components/Airdrop.tsx:23-51 | exactly one request, crediting `wallet.publicKey` with the preset times `LAMPORTS_PER_SOL`; the flag ends false and the amount is kept; exactly one of error and success is non-empty; success text "`<amount>` SOL successfully airdropped to your wallet!" exactly when the request resolved; a thrown message containing "429" gives the fixed rate-limit text, and any other throw gives "Airdrop failed: " followed by the message, or "Unknown error occurred" when it is missing or empty |
| Airdrop.LamportsArePresetMultiples | src/components/Airdrop.tsx:29-32 | every preset requests 1e8, 5e8, 1e9 or 5e9 lamports (0.1, 0.5, 1 or 5 SOL) |
| Airdrop.RateLimitShowsFaucetLink | src/components/Airdrop.tsx:39-42 | the rate-limit message contains "faucet.solana.com", so the faucet link is shown with it |
| Airdrop.NoHostInFailedPrefix | src/components/Airdrop.tsx:45 | no occurrence of "faucet.solana.com" starts inside "Airdrop failed: " |
| Airdrop.GenericShowsFaucetLinkIff | src/components/Airdrop.tsx:148 | "Airdrop failed: " + m shows the faucet link exactly when m contains "faucet.solana.com" |
| Airdrop.UnknownErrorHidesFaucetLink | src/components/Airdrop.tsx:44-46 | the fallback "Unknown error occurred" does not show the faucet link |
| Airdrop.FaucetLinkAfterRequest | src/components/Airdrop.tsx:36-47 | after a request the link shows exactly when it threw with a non-empty message containing "429", or with a message that itself contains "faucet.solana.com" |
| Airdrop.ReplayStaysIdle | src/components/Airdrop.tsx:48-50 | after any sequence of selections and requests from an idle screen, `isAirdropping` is false |

## Left out

- Library behaviour is not modelled. This covers `getMintLen`, `TYPE_SIZE`, `LENGTH_SIZE`, `pack`, `getAssociatedTokenAddressSync`, `PublicKey` parsing and printing, `parseFloat`, `TextEncoder` and `ed25519.verify`. They are uninterpreted fields of `Solana.Library`. Instruction builders are constructors that carry their arguments. The model assumes none of these throw. In particular, `SystemProgram.transfer` and `createMintToInstruction` convert their amount to an integer and would throw on a NaN or fractional one. The model does not capture that: a NaN transfer in Send SOL, and a fractional `supply * 10^decimals` mint-to in Create Token sent after envelope 1, are both built and handed on.
- The RPC connection and wallet calls are modelled only as outcomes from `Solana.Oracle`. Their outcome depends only on their arguments.
- `Keypair.generate()` is not modelled. Its randomness becomes the `mint` parameter.
- Floating point is not modelled. Numbers are mathematical reals, plus NaN where the code can produce it. `amount * LAMPORTS_PER_SOL`, `Math.pow(10, decimals)`, and the preset times `LAMPORTS_PER_SOL` are exact here. No IEEE rounding is claimed.
- CreateToken.EnterDecimals: decimals are whole numbers. A fractional entry such as 2.5 passes the source's `onChange` filter, and a NaN entry cannot be represented.
- The supply field is a real. NaN and infinite supply are not modelled.
- Thrown `null` or `undefined` values are not modelled in the three catch blocks that read `err.message` (Send SOL, Sign Message, Airdrop), where that read would itself throw. The Create Token catch tests `instanceof Error` first, and `OtherValue(None)` covers such a value there. Non-string `message` properties are not modelled either.
- Input sanitization is not modelled. `EditAmount` accepts any text, although the browser's number input hands the Send SOL handler "" for non-numeric text.
- Strings are sequences of Unicode scalar values, while JavaScript's `slice`, `trim` and `includes` work on UTF-16 code units. For text with characters outside the Basic Multilingual Plane, `Js.SliceHead` and `Js.SliceTail` count differently from `slice(0, 8)` and `slice(-8)`, which can split a surrogate pair.
- `console.error` logging, toast rendering, JSX markup, icons and styling are left out. They are presentation only.
- Async interleaving is left out. Each handler runs to completion before the next event, so the input-disabled-while-busy attributes have no effect in the model.
- src/App.tsx is left out: provider wiring, routing, the 15-second balance refresh interval and its cleanup, and the refresh spinner timeout. These are timers, I/O and UI.
- src/components/Home.tsx is left out. It is static navigation.
- src/polyfills.ts is left out. It patches the global environment.
- The Airdrop screen shows its button only while the wallet is connected. The model instead passes `wallet.publicKey` through as the code does, with its non-null assertion. A missing key appears in the request's arguments.
