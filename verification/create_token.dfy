/** The token-creation screen (src/components/CreateToken.tsx): the click
    handler, the decimals filter and the button-disabled rule.

    The handler runs to completion: four guards, a rent query, a blockhash
    query, the mint-creation envelope, then the distribution envelope. Every
    thrown value lands in one catch, and the `finally` block resets the form. */
module CreateToken {
  import opened Js
  import opened Solana

  const NOT_CONNECTED := "Wallet not connected. Please connect your wallet first."
  const NO_SEND := "Wallet does not support sending transactions."
  const BAD_DECIMALS := "Token decimals must be between 1 and 9."
  const BAD_SUPPLY := "Token supply must be greater than 0."
  const UNKNOWN_ERROR := "An unknown error occurred"
  const SUCCESS_PREFIX := "Token created successfully! Mint: "

  /** The image shown when the user leaves the URL field empty. */
  const PLACEHOLDER_URI := "https://encrypted-tbn0.gstatic.com/images?q=tbn:ANd9GcSg600Xa4ws6jp54kMDNGYF232lIhY51QJqEA&s"

  /** The form fields. Decimals are whole numbers here; supply is any number
      the field yields. */
  datatype Form = Form(name: string, symbol: string, imageUrl: string, decimals: int, supply: real)

  /** The initial field values, to which `finally` also resets them. */
  const DEFAULT_FORM := Form("", "", "", 9, 0.0)

  /** The component state: form fields, the loading flag, and the error and
      success texts (`null` is None). */
  datatype State = State(form: Form, isLoading: bool, error: Option<string>, success: Option<string>)

  const INITIAL_STATE := State(DEFAULT_FORM, false, None, None)

  /** The result of one click: the external calls made, in order, and the
      state after the handler finished. */
  datatype Run = Run(calls: seq<Call>, state: State)

  /** What the `try` block produced: its calls and either the success text or
      the value it threw. */
  datatype Attempt = Attempt(calls: seq<Call>, outcome: Outcome<string>)

  /** The four guards in source order; the first that fails names the error.
      None means all passed. */
  function GuardFailure(f: Form, w: Wallet): (r: Option<string>)
    ensures r == Some(NOT_CONNECTED) <==> !w.connected || w.publicKey.None?
    ensures r == Some(NO_SEND) <==> w.connected && w.publicKey.Some? && !w.canSendTransaction
    ensures r == Some(BAD_DECIMALS) <==>
      w.connected && w.publicKey.Some? && w.canSendTransaction && !(1 <= f.decimals <= 9)
    ensures r == Some(BAD_SUPPLY) <==>
      w.connected && w.publicKey.Some? && w.canSendTransaction && 1 <= f.decimals <= 9 && f.supply <= 0.0
    ensures r == None <==>
      w.connected && w.publicKey.Some? && w.canSendTransaction && 1 <= f.decimals <= 9 && f.supply > 0.0
  {
    if !w.connected || w.publicKey.None? then Some(NOT_CONNECTED)
    else if !w.canSendTransaction then Some(NO_SEND)
    else if f.decimals < 1 || f.decimals > 9 then Some(BAD_DECIMALS)
    else if f.supply <= 0.0 then Some(BAD_SUPPLY)
    else None
  }

  /** `tokenImageUrl || placeholder`: the empty string is falsy. */
  function MetadataUri(url: string): string {
    if url != "" then url else PLACEHOLDER_URI
  }

  /** The metadata record handed to `pack`. */
  function Metadata(f: Form, mint: PublicKey): TokenMetadata {
    TokenMetadata(mint, f.name, f.symbol, MetadataUri(f.imageUrl), [])
  }

  /** `mintLen + metadataLen`, the size the rent is queried for. */
  function RentSize(lib: Library, md: TokenMetadata): int {
    lib.mintLen + (lib.typeSize + lib.lengthSize + lib.packedLength(md))
  }

  function Pow10(n: nat): nat {
    if n == 0 then 1 else 10 * Pow10(n - 1)
  }

  /** `tokenSupply * Math.pow(10, tokenDecimals)`. */
  function MintAmount(supply: real, decimals: nat): real {
    supply * (Pow10(decimals) as real)
  }

  /** Envelope 1: create the mint account, initialize the metadata pointer,
      the mint and the metadata, bound to the wallet as fee payer and to the
      fetched blockhash, partially signed by the mint keypair. */
  function MintEnvelope(f: Form, payer: PublicKey, mint: Keypair, lib: Library, rent: real, blockhash: string): Transaction {
    var m := mint.publicKey;
    Transaction(
      [ CreateAccount(payer, m, lib.mintLen, rent, Token2022Program),
        InitializeMetadataPointer(m, payer, m, Token2022Program),
        InitializeMint(m, f.decimals, payer, None, Token2022Program),
        InitializeMetadata(Token2022Program, m, m, f.name, f.symbol, MetadataUri(f.imageUrl), payer, payer) ],
      Some(payer), Some(blockhash), [m])
  }

  /** Envelope 2: create the wallet's associated token account for the mint,
      then mint the whole supply into it. Fee payer and blockhash are left
      for the wallet to fill in. */
  function DistributionEnvelope(f: Form, payer: PublicKey, mint: Keypair, lib: Library): Transaction
    requires f.decimals >= 0
  {
    var m := mint.publicKey;
    var ata := lib.associatedTokenAddress(m, payer);
    Transaction(
      [ CreateAssociatedTokenAccount(payer, ata, payer, m, Token2022Program),
        MintTo(m, ata, payer, MintAmount(f.supply, f.decimals), [], Token2022Program) ],
      None, None, [])
  }

  /** The `try` block. `mint` is the keypair `Keypair.generate()` returns. */
  function TryCreate(f: Form, w: Wallet, mint: Keypair, lib: Library, o: Oracle): (a: Attempt)
    ensures GuardFailure(f, w).Some? ==> a == Attempt([], Threw(ErrorObject(GuardFailure(f, w).value)))
    ensures GuardFailure(f, w).None? ==> 1 <= |a.calls| <= 4
    ensures HaltsAtFirstFailure(o, a.calls)
    ensures a.outcome.Returned? <==> |a.calls| == 4 && AllSucceed(o, a.calls)
    ensures a.outcome.Threw? && a.calls != [] ==> Failure(o, a.calls[|a.calls| - 1]) == Some(a.outcome.error)
    ensures |a.calls| >= 2 ==> a.calls[1] == GetLatestBlockhash
  {
    match GuardFailure(f, w)
    case Some(msg) => Attempt([], Threw(ErrorObject(msg)))
    case None =>
      var payer := w.publicKey.value;
      var rentCall := GetMinimumBalanceForRentExemption(RentSize(lib, Metadata(f, mint.publicKey)));
      match o.minimumBalanceForRentExemption(rentCall.size)
      case Threw(e) => Attempt([rentCall], Threw(e))
      case Returned(rent) =>
        match o.latestBlockhash
        case Threw(e) => Attempt([rentCall, GetLatestBlockhash], Threw(e))
        case Returned(blockhash) =>
          var tx1 := MintEnvelope(f, payer, mint, lib, rent, blockhash);
          match o.sendTransaction(tx1)
          case Threw(e) => Attempt([rentCall, GetLatestBlockhash, SendTransaction(tx1)], Threw(e))
          case Returned(_) =>
            var tx2 := DistributionEnvelope(f, payer, mint, lib);
            var calls := [rentCall, GetLatestBlockhash, SendTransaction(tx1), SendTransaction(tx2)];
            assert Succeeds(o, calls[0]) && Succeeds(o, calls[1]) && Succeeds(o, calls[2]);
            match o.sendTransaction(tx2)
            case Threw(e) =>
              assert !Succeeds(o, calls[3]);
              Attempt(calls, Threw(e))
            case Returned(_) =>
              assert Succeeds(o, calls[3]);
              Attempt(calls, Returned(SUCCESS_PREFIX + lib.toBase58(mint.publicKey)))
  }

  /** The catch block's text: `err.message` for an `Error`, otherwise a fixed
      fallback. */
  function ErrorText(err: Thrown): string {
    match err
    case ErrorObject(m) => m
    case OtherValue(_) => UNKNOWN_ERROR
  }

  /** `onClick`: clear the texts, run the `try` block, map its outcome to the
      success or error text, and reset the form in `finally`. */
  function OnClick(s: State, w: Wallet, mint: Keypair, lib: Library, o: Oracle): (run: Run)
    ensures run.state.form == DEFAULT_FORM && !run.state.isLoading
    ensures run.state.error.Some? != run.state.success.Some?
    ensures GuardFailure(s.form, w).Some? ==>
      run.calls == [] && run.state.error == GuardFailure(s.form, w)
    ensures GuardFailure(s.form, w).None? ==> 1 <= |run.calls| <= 4
    ensures HaltsAtFirstFailure(o, run.calls)
    ensures run.state.success.Some? <==> |run.calls| == 4 && AllSucceed(o, run.calls)
    ensures run.state.success.Some? ==> run.state.success.value == SUCCESS_PREFIX + lib.toBase58(mint.publicKey)
    ensures GuardFailure(s.form, w).None? && run.state.error.Some? ==>
      !Succeeds(o, run.calls[|run.calls| - 1])
    ensures |run.calls| >= 2 ==> run.calls[1] == GetLatestBlockhash
  {
    var a := TryCreate(s.form, w, mint, lib, o);
    var finalForm := DEFAULT_FORM;
    match a.outcome
    case Returned(text) => Run(a.calls, State(finalForm, false, None, Some(text)))
    case Threw(e) => Run(a.calls, State(finalForm, false, Some(ErrorText(e)), None))
  }

  /** The metadata URI is the user's URL when it is non-empty and the
      placeholder otherwise; it is never empty. */
  lemma MetadataUriDefault(url: string)
    ensures url != "" ==> MetadataUri(url) == url
    ensures url == "" ==> MetadataUri(url) == PLACEHOLDER_URI
    ensures MetadataUri(url) != ""
  {
  }

  /** A missing connection or key is reported before anything is called. */
  lemma NotConnectedCallsNothing(s: State, w: Wallet, mint: Keypair, lib: Library, o: Oracle)
    requires !w.connected || w.publicKey.None?
    ensures OnClick(s, w, mint, lib, o).calls == []
    ensures OnClick(s, w, mint, lib, o).state.error == Some(NOT_CONNECTED)
  {
  }

  /** Once the guards pass, the first call is the rent query, for the mint
      length plus type tag, length prefix and packed metadata, whose URI is
      the user's URL or the placeholder. */
  lemma RentQueriedForMintAndMetadata(s: State, w: Wallet, mint: Keypair, lib: Library, o: Oracle)
    requires GuardFailure(s.form, w).None?
    ensures OnClick(s, w, mint, lib, o).calls[0] ==
      GetMinimumBalanceForRentExemption(
        lib.mintLen + lib.typeSize + lib.lengthSize +
        lib.packedLength(TokenMetadata(mint.publicKey, s.form.name, s.form.symbol,
                                       if s.form.imageUrl == "" then PLACEHOLDER_URI else s.form.imageUrl, [])))
  {
  }

  /** The third call, when made, sends envelope 1: exactly the four
      instructions in order, the account sized `mintLen` but funded with the
      rent returned for the larger size, the wallet as fee payer and
      authority, the fetched blockhash, and the mint as partial signer. */
  lemma MintEnvelopeSent(s: State, w: Wallet, mint: Keypair, lib: Library, o: Oracle)
    requires |OnClick(s, w, mint, lib, o).calls| >= 3
    ensures GuardFailure(s.form, w).None?
    ensures
      var run := OnClick(s, w, mint, lib, o);
      var payer := w.publicKey.value;
      var m := mint.publicKey;
      && run.calls[0].GetMinimumBalanceForRentExemption?
      && o.minimumBalanceForRentExemption(run.calls[0].size).Returned?
      && o.latestBlockhash.Returned?
      && run.calls[1] == GetLatestBlockhash
      && run.calls[2] == SendTransaction(Transaction(
           [ CreateAccount(payer, m, lib.mintLen, o.minimumBalanceForRentExemption(run.calls[0].size).value, Token2022Program),
             InitializeMetadataPointer(m, payer, m, Token2022Program),
             InitializeMint(m, s.form.decimals, payer, None, Token2022Program),
             InitializeMetadata(Token2022Program, m, m, s.form.name, s.form.symbol,
                                MetadataUri(s.form.imageUrl), payer, payer) ],
           Some(payer), Some(o.latestBlockhash.value), [m]))
  {
  }

  /** Once the guards pass and both queries resolve, envelope 1 is sent. */
  lemma QueriesResolvedSendsMint(s: State, w: Wallet, mint: Keypair, lib: Library, o: Oracle)
    requires GuardFailure(s.form, w).None?
    requires o.minimumBalanceForRentExemption(RentSize(lib, Metadata(s.form, mint.publicKey))).Returned?
    requires o.latestBlockhash.Returned?
    ensures |OnClick(s, w, mint, lib, o).calls| >= 3
  {
  }

  /** Once envelope 1 resolves, envelope 2 is sent. */
  lemma MintResolvedSendsDistribution(s: State, w: Wallet, mint: Keypair, lib: Library, o: Oracle)
    requires |OnClick(s, w, mint, lib, o).calls| >= 3
    requires Succeeds(o, OnClick(s, w, mint, lib, o).calls[2])
    ensures |OnClick(s, w, mint, lib, o).calls| == 4
  {
  }

  /** Envelope 2 is sent only after envelope 1 resolved; when envelope 1
      throws, the trace ends with it and its message is the error. */
  lemma DistributionOnlyAfterMint(s: State, w: Wallet, mint: Keypair, lib: Library, o: Oracle)
    requires |OnClick(s, w, mint, lib, o).calls| >= 3
    ensures
      var run := OnClick(s, w, mint, lib, o);
      && (|run.calls| == 4 ==> Succeeds(o, run.calls[2]))
      && (!Succeeds(o, run.calls[2]) ==>
            |run.calls| == 3 && run.state.error == Some(ErrorText(o.sendTransaction(run.calls[2].tx).error)))
  {
  }

  /** The fourth call sends envelope 2: create the wallet's associated token
      account, then mint `supply * 10^decimals` into it. Full success reports
      the mint's address. */
  lemma DistributionEnvelopeSent(s: State, w: Wallet, mint: Keypair, lib: Library, o: Oracle)
    requires |OnClick(s, w, mint, lib, o).calls| == 4
    ensures 1 <= s.form.decimals <= 9
    ensures
      var run := OnClick(s, w, mint, lib, o);
      var payer := w.publicKey.value;
      var m := mint.publicKey;
      var ata := lib.associatedTokenAddress(m, payer);
      && run.calls[3] == SendTransaction(Transaction(
           [ CreateAssociatedTokenAccount(payer, ata, payer, m, Token2022Program),
             MintTo(m, ata, payer, s.form.supply * (Pow10(s.form.decimals) as real), [], Token2022Program) ],
           None, None, []))
      && (Succeeds(o, run.calls[3]) ==> run.state.success == Some(SUCCESS_PREFIX + lib.toBase58(m)))
      && (!Succeeds(o, run.calls[3]) ==> run.state.error == Some(ErrorText(o.sendTransaction(run.calls[3].tx).error)))
  {
    var a := TryCreate(s.form, w, mint, lib, o);
    var payer := w.publicKey.value;
    assert a.calls[3] == SendTransaction(DistributionEnvelope(s.form, payer, mint, lib));
    assert MintAmount(s.form.supply, s.form.decimals) == s.form.supply * (Pow10(s.form.decimals) as real);
    var ata := lib.associatedTokenAddress(mint.publicKey, payer);
    assert DistributionEnvelope(s.form, payer, mint, lib).instructions[1] == MintTo(mint.publicKey, ata, payer, s.form.supply * (Pow10(s.form.decimals) as real), [], Token2022Program);
  }

  /** A failing rent or blockhash query ends the run with its message. */
  lemma QueryFailureEndsRun(s: State, w: Wallet, mint: Keypair, lib: Library, o: Oracle)
    requires GuardFailure(s.form, w).None?
    ensures
      var run := OnClick(s, w, mint, lib, o);
      var rent := o.minimumBalanceForRentExemption(run.calls[0].size);
      && (rent.Threw? ==> |run.calls| == 1 && run.state.error == Some(ErrorText(rent.error)))
      && (rent.Returned? && o.latestBlockhash.Threw? ==>
            |run.calls| == 2 && run.calls[1] == GetLatestBlockhash
            && run.state.error == Some(ErrorText(o.latestBlockhash.error)))
  {
  }

  /** A thrown call ends the run and shows its `message` when it threw an
      `Error`, and the fixed fallback for any other thrown value. */
  lemma CallFailureShowsMessage(s: State, w: Wallet, mint: Keypair, lib: Library, o: Oracle)
    requires GuardFailure(s.form, w).None?
    ensures
      var run := OnClick(s, w, mint, lib, o);
      var last := run.calls[|run.calls| - 1];
      !Succeeds(o, last) ==>
        var e := Failure(o, last).value;
        run.state.error == Some(if e.ErrorObject? then e.message else UNKNOWN_ERROR)
        && run.state.success == None
  {
  }

  /** The decimals field's `onChange`: a value outside [1,9] is ignored. */
  function EnterDecimals(f: Form, entered: int): (g: Form)
    ensures 1 <= entered <= 9 ==> g == f.(decimals := entered)
    ensures !(1 <= entered <= 9) ==> g == f
  {
    if entered >= 1 && entered <= 9 then f.(decimals := entered) else f
  }

  /** The create button is disabled while loading, while disconnected, or
      while decimals or supply are out of range. */
  predicate ButtonDisabled(s: State, w: Wallet) {
    s.isLoading || !w.connected || s.form.decimals < 1 || s.form.decimals > 9 || s.form.supply <= 0.0
  }

  /** A click on an enabled button can only be refused for a missing key or a
      wallet that cannot send; the range guards always pass. */
  lemma EnabledButtonPassesRangeGuards(s: State, w: Wallet)
    requires !ButtonDisabled(s, w)
    ensures GuardFailure(s.form, w) != Some(BAD_DECIMALS)
    ensures GuardFailure(s.form, w) != Some(BAD_SUPPLY)
    ensures w.publicKey.Some? && w.canSendTransaction ==> GuardFailure(s.form, w) == None
  {
  }

  /** What the user can do on the screen. A click carries the wallet, the
      generated mint keypair, the library and the outcomes of its calls. */
  datatype Event =
    | EditName(text: string)
    | EditSymbol(text: string)
    | EditImageUrl(text: string)
    | EditDecimals(entered: int)
    | EditSupply(value: real)
    | Click(wallet: Wallet, mint: Keypair, lib: Library, oracle: Oracle)

  /** One event; a click on a disabled button does nothing. */
  function Step(s: State, e: Event): State {
    match e
    case EditName(t) => s.(form := s.form.(name := t))
    case EditSymbol(t) => s.(form := s.form.(symbol := t))
    case EditImageUrl(t) => s.(form := s.form.(imageUrl := t))
    case EditDecimals(v) => s.(form := EnterDecimals(s.form, v))
    case EditSupply(v) => s.(form := s.form.(supply := v))
    case Click(w, mint, lib, o) => if ButtonDisabled(s, w) then s else OnClick(s, w, mint, lib, o).state
  }

  function Replay(s: State, events: seq<Event>): State
    decreases |events|
  {
    if events == [] then s else Replay(Step(s, events[0]), events[1..])
  }

  /** Between events the screen is idle and its decimals lie in [1,9]. */
  ghost predicate Settled(s: State) {
    !s.isLoading && 1 <= s.form.decimals <= 9
  }

  lemma StepKeepsSettled(s: State, e: Event)
    requires Settled(s)
    ensures Settled(Step(s, e))
  {
  }

  /** From any settled state, every sequence of edits and clicks leaves the
      screen idle with decimals in [1,9]. */
  lemma {:induction false} ReplayKeepsSettled(s: State, events: seq<Event>)
    requires Settled(s)
    ensures Settled(Replay(s, events))
    decreases |events|
  {
    if events != [] {
      StepKeepsSettled(s, events[0]);
      ReplayKeepsSettled(Step(s, events[0]), events[1..]);
    }
  }

  /** Hence the decimals guard never fires on a screen reached from its
      initial state. */
  lemma DecimalsGuardUnreachable(events: seq<Event>, w: Wallet)
    ensures GuardFailure(Replay(INITIAL_STATE, events).form, w) != Some(BAD_DECIMALS)
  {
    ReplayKeepsSettled(INITIAL_STATE, events);
  }
}
