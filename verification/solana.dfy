/** The Solana vocabulary the handlers assemble: keys, instructions,
    transaction envelopes, the wallet as the adapter exposes it, the external
    calls a handler can make, and the foreign pure functions it relies on. */
module Solana {
  import opened Js

  /** `LAMPORTS_PER_SOL`: base units per SOL. */
  const LAMPORTS_PER_SOL: real := 1000000000.0

  /** A public key; `toBytes()` gives its bytes. */
  datatype PublicKey = PublicKey(bytes: seq<bv8>)

  /** A locally generated keypair (`Keypair.generate()`). */
  datatype Keypair = Keypair(publicKey: PublicKey, secretKey: seq<bv8>)

  /** The on-chain programs an instruction targets. */
  datatype Program = SystemProgram | Token2022Program | AssociatedTokenProgram

  /** The token metadata record passed to `pack`. */
  datatype TokenMetadata = TokenMetadata(
    mint: PublicKey, name: string, symbol: string, uri: string,
    additionalMetadata: seq<(string, string)>)

  /** The instruction descriptors the handlers build, one constructor per
      builder, carrying the arguments the handler passes to it. */
  datatype Instruction =
    | CreateAccount(from: PublicKey, newAccount: PublicKey, space: int, rentLamports: real, program: Program)
    | InitializeMetadataPointer(mint: PublicKey, authority: PublicKey, metadataAddress: PublicKey, program: Program)
    | InitializeMint(mint: PublicKey, decimals: int, mintAuthority: PublicKey, freezeAuthority: Option<PublicKey>, program: Program)
    | InitializeMetadata(program: Program, metadata: PublicKey, mint: PublicKey, name: string, symbol: string, uri: string,
                         mintAuthority: PublicKey, updateAuthority: PublicKey)
    | CreateAssociatedTokenAccount(payer: PublicKey, associatedToken: PublicKey, owner: PublicKey, mint: PublicKey, program: Program)
    | MintTo(mint: PublicKey, destination: PublicKey, authority: PublicKey, amount: real, multiSigners: seq<PublicKey>, program: Program)
    | Transfer(from: PublicKey, to: PublicKey, lamports: Num)

  /** A transaction envelope as the handler hands it to the wallet: ordered
      instructions, the fee payer and recent blockhash when the handler sets
      them, and the keys that have partially signed it. */
  datatype Transaction = Transaction(
    instructions: seq<Instruction>,
    feePayer: Option<PublicKey>,
    recentBlockhash: Option<string>,
    partialSigners: seq<PublicKey>)

  /** The wallet adapter state a handler reads (`useWallet()`): whether it is
      connected, its key, and whether it offers `sendTransaction` and
      `signMessage`. */
  datatype Wallet = Wallet(
    connected: bool,
    publicKey: Option<PublicKey>,
    canSendTransaction: bool,
    canSignMessage: bool)

  /** One awaited call to the RPC connection or to the wallet. */
  datatype Call =
    | GetMinimumBalanceForRentExemption(size: int)
    | GetLatestBlockhash
    | GetBalance(owner: PublicKey)
    | RequestAirdrop(recipient: Option<PublicKey>, lamports: real)
    | SendTransaction(tx: Transaction)
    | SignBytes(message: seq<bv8>)

  /** What each external call resolves to or throws, as a function of its
      arguments. */
  datatype Oracle = Oracle(
    minimumBalanceForRentExemption: int -> Outcome<real>,
    latestBlockhash: Outcome<string>,
    balance: PublicKey -> Outcome<real>,
    requestAirdrop: (Option<PublicKey>, real) -> Outcome<string>,
    sendTransaction: Transaction -> Outcome<string>,
    signMessage: seq<bv8> -> Outcome<seq<bv8>>)

  /** Library code the handlers call synchronously and whose behaviour is not
      modelled: `getMintLen([MetadataPointer])`, `TYPE_SIZE`, `LENGTH_SIZE`,
      `pack(..).length`, `getAssociatedTokenAddressSync(mint, owner)`,
      `PublicKey.toString()`, `new PublicKey(text)`, `parseFloat`,
      `TextEncoder.encode` and `ed25519.verify(sig, message, key)`. */
  datatype Library = Library(
    mintLen: nat,
    typeSize: nat,
    lengthSize: nat,
    packedLength: TokenMetadata -> nat,
    associatedTokenAddress: (PublicKey, PublicKey) -> PublicKey,
    toBase58: PublicKey -> string,
    parsePublicKey: string -> Option<PublicKey>,
    parseFloat: string -> Num,
    encodeUtf8: string -> seq<bv8>,
    verifyEd25519: (seq<bv8>, seq<bv8>, seq<bv8>) -> bool)

  /** What the call threw, or None when it resolved. */
  function Failure(o: Oracle, c: Call): Option<Thrown> {
    match c
    case GetMinimumBalanceForRentExemption(size) => FailureOf(o.minimumBalanceForRentExemption(size))
    case GetLatestBlockhash => FailureOf(o.latestBlockhash)
    case GetBalance(owner) => FailureOf(o.balance(owner))
    case RequestAirdrop(to, lamports) => FailureOf(o.requestAirdrop(to, lamports))
    case SendTransaction(tx) => FailureOf(o.sendTransaction(tx))
    case SignBytes(m) => FailureOf(o.signMessage(m))
  }

  function FailureOf<T>(r: Outcome<T>): Option<Thrown> {
    match r
    case Returned(_) => None
    case Threw(e) => Some(e)
  }

  /** The call resolved rather than threw. */
  predicate Succeeds(o: Oracle, c: Call) {
    Failure(o, c).None?
  }

  /** Calls are awaited one after another and a throw ends the run: every call
      of the trace but the last one resolved. */
  ghost predicate HaltsAtFirstFailure(o: Oracle, calls: seq<Call>) {
    forall i :: 0 <= i < |calls| - 1 ==> Succeeds(o, calls[i])
  }

  /** Every call of the trace resolved. */
  ghost predicate AllSucceed(o: Oracle, calls: seq<Call>) {
    forall i :: 0 <= i < |calls| ==> Succeeds(o, calls[i])
  }
}
