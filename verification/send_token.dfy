/** The SOL transfer screen (src/components/SendToken.tsx): the click handler
    and the button-disabled rule.

    Four guards return early with an error toast and touch nothing. Past them
    the handler raises `isSending`, queries the balance, refuses an amount
    above it, and otherwise sends one transfer; `finally` lowers the flag. */
module SendToken {
  import opened Js
  import opened Solana

  const NOT_CONNECTED := "Wallet not connected or transaction not supported"
  const NO_RECIPIENT := "Please enter a recipient address"
  const BAD_AMOUNT := "Please enter a valid amount"
  const BAD_RECIPIENT := "Invalid recipient address"
  const INSUFFICIENT := "Insufficient balance"
  const SEND_FAILED := "Failed to send transaction"

  /** The toast each click shows. */
  datatype Toast = ErrorToast(text: string) | SuccessToast(text: string)

  /** The form fields, as the inputs hold them, and the sending flag. */
  datatype State = State(recipient: string, amount: string, isSending: bool)

  const INITIAL_STATE := State("", "", false)

  /** One click: the external calls made, in order, the toast shown, and the
      state afterwards. */
  datatype Run = Run(calls: seq<Call>, toast: Toast, state: State)

  /** The guards in source order; the first that fails names the toast.
      `!amount || parseFloat(amount) <= 0` lets a NaN parse through, because
      every comparison with NaN is false. */
  function GuardFailure(s: State, w: Wallet, lib: Library): (r: Option<string>)
    ensures r == Some(NOT_CONNECTED) <==> w.publicKey.None? || !w.canSendTransaction
    ensures r == Some(NO_RECIPIENT) <==>
      w.publicKey.Some? && w.canSendTransaction && IsBlank(s.recipient)
    ensures r == Some(BAD_AMOUNT) <==>
      w.publicKey.Some? && w.canSendTransaction && !IsBlank(s.recipient)
      && (s.amount == "" || AtMostZero(lib.parseFloat(s.amount)))
    ensures r == Some(BAD_RECIPIENT) <==>
      w.publicKey.Some? && w.canSendTransaction && !IsBlank(s.recipient)
      && s.amount != "" && !AtMostZero(lib.parseFloat(s.amount)) && lib.parsePublicKey(s.recipient).None?
    ensures r == None <==>
      w.publicKey.Some? && w.canSendTransaction && !IsBlank(s.recipient)
      && s.amount != "" && !AtMostZero(lib.parseFloat(s.amount)) && lib.parsePublicKey(s.recipient).Some?
  {
    if w.publicKey.None? || !w.canSendTransaction then Some(NOT_CONNECTED)
    else if IsBlank(s.recipient) then Some(NO_RECIPIENT)
    else if s.amount == "" || AtMostZero(lib.parseFloat(s.amount)) then Some(BAD_AMOUNT)
    else if lib.parsePublicKey(s.recipient).None? then Some(BAD_RECIPIENT)
    else None
  }

  /** `parseFloat(amount) * LAMPORTS_PER_SOL`. */
  function AmountInLamports(s: State, lib: Library): Num {
    Times(lib.parseFloat(s.amount), LAMPORTS_PER_SOL)
  }

  /** The success toast: the amount as typed and the first and last eight
      characters of the recipient as typed. */
  function SuccessText(amount: string, recipient: string): string {
    "Successfully sent " + amount + " SOL to " + SliceHead(recipient, 8) + "..." + SliceTail(recipient, 8)
  }

  /** The envelope: one transfer; fee payer and blockhash are left to the
      wallet. */
  function TransferEnvelope(from: PublicKey, to: PublicKey, lamports: Num): Transaction {
    Transaction([Transfer(from, to, lamports)], None, None, [])
  }

  /** The `try` block, entered with `isSending` raised, the wallet key
      `from` and the parsed recipient `to`; `finally` lowers the flag. */
  function Submit(s: State, from: PublicKey, to: PublicKey, lib: Library, o: Oracle): (run: Run)
    ensures !run.state.isSending
    ensures 1 <= |run.calls| <= 2 && run.calls[0] == GetBalance(from)
    ensures HaltsAtFirstFailure(o, run.calls)
    ensures |run.calls| == 2 <==>
      o.balance(from).Returned? && !Below(o.balance(from).value, AmountInLamports(s, lib))
    ensures |run.calls| == 1 && o.balance(from).Returned? ==> run.toast == ErrorToast(INSUFFICIENT)
    ensures |run.calls| == 2 ==>
      run.calls[1] == SendTransaction(Transaction([Transfer(from, to, AmountInLamports(s, lib))], None, None, []))
    ensures run.toast.SuccessToast? <==> |run.calls| == 2 && AllSucceed(o, run.calls)
    ensures run.toast.SuccessToast? ==>
      run.state == State("", "", false) && run.toast.text == SuccessText(s.amount, s.recipient)
    ensures run.toast.ErrorToast? ==>
      run.state.recipient == s.recipient && run.state.amount == s.amount && run.toast.text != ""
  {
    var settled := s.(isSending := false);
    match o.balance(from)
    case Threw(e) => Run([GetBalance(from)], ErrorToast(MessageOr(e, SEND_FAILED)), settled)
    case Returned(balance) =>
      var lamports := AmountInLamports(s, lib);
      if Below(balance, lamports) then
        Run([GetBalance(from)], ErrorToast(INSUFFICIENT), settled)
      else
        var tx := TransferEnvelope(from, to, lamports);
        var calls := [GetBalance(from), SendTransaction(tx)];
        match o.sendTransaction(tx)
        case Threw(e) =>
          assert !Succeeds(o, calls[1]);
          Run(calls, ErrorToast(MessageOr(e, SEND_FAILED)), settled)
        case Returned(_) =>
          Run(calls, SuccessToast(SuccessText(s.amount, s.recipient)), State("", "", false))
  }

  /** `onClick`: the guards, then the `try` block. */
  function OnClick(s: State, w: Wallet, lib: Library, o: Oracle): (run: Run)
    ensures GuardFailure(s, w, lib).Some? ==>
      run == Run([], ErrorToast(GuardFailure(s, w, lib).value), s)
    ensures GuardFailure(s, w, lib).None? ==>
      !run.state.isSending && 1 <= |run.calls| <= 2 && run.calls[0] == GetBalance(w.publicKey.value)
    ensures GuardFailure(s, w, lib).None? ==>
      (|run.calls| == 2 <==>
        o.balance(w.publicKey.value).Returned?
        && !Below(o.balance(w.publicKey.value).value, AmountInLamports(s, lib)))
    ensures HaltsAtFirstFailure(o, run.calls)
    ensures run.toast.SuccessToast? <==> |run.calls| == 2 && AllSucceed(o, run.calls)
    ensures run.toast.SuccessToast? ==> run.state == State("", "", false)
    ensures run.toast.ErrorToast? ==>
      run.state.recipient == s.recipient && run.state.amount == s.amount && run.toast.text != ""
  {
    match GuardFailure(s, w, lib)
    case Some(msg) => Run([], ErrorToast(msg), s)
    case None => Submit(s.(isSending := true), w.publicKey.value, lib.parsePublicKey(s.recipient).value, lib, o)
  }

  /** A balance below the amount in lamports gives "Insufficient balance"
      after the balance query alone: nothing is sent and the flag is down. */
  lemma InsufficientBalanceSendsNothing(s: State, w: Wallet, lib: Library, o: Oracle)
    requires GuardFailure(s, w, lib).None?
    requires o.balance(w.publicKey.value).Returned?
    requires Below(o.balance(w.publicKey.value).value, AmountInLamports(s, lib))
    ensures
      var run := OnClick(s, w, lib, o);
      run.calls == [GetBalance(w.publicKey.value)] && run.toast == ErrorToast(INSUFFICIENT)
      && run.state == s.(isSending := false)
  {
  }

  /** A balance of at least the amount in lamports leads to exactly one
      transfer, from the wallet's key to the parsed recipient. */
  lemma SufficientBalanceSendsTransfer(s: State, w: Wallet, lib: Library, o: Oracle)
    requires GuardFailure(s, w, lib).None?
    requires o.balance(w.publicKey.value).Returned?
    requires !Below(o.balance(w.publicKey.value).value, AmountInLamports(s, lib))
    ensures OnClick(s, w, lib, o).calls == [
      GetBalance(w.publicKey.value),
      SendTransaction(TransferEnvelope(w.publicKey.value, lib.parsePublicKey(s.recipient).value, AmountInLamports(s, lib)))]
  {
  }

  /** A thrown balance query or send shows `err.message`, or the fallback
      when the message is missing or empty. */
  lemma CallFailureShowsMessage(s: State, w: Wallet, lib: Library, o: Oracle)
    requires GuardFailure(s, w, lib).None?
    ensures
      var run := OnClick(s, w, lib, o);
      var last := run.calls[|run.calls| - 1];
      !Succeeds(o, last) ==> run.toast == ErrorToast(MessageOr(Failure(o, last).value, SEND_FAILED))
  {
  }

  /** In the handler taken alone: a non-empty amount that parses to NaN
      passes the amount guard, and with a valid recipient and a resolved
      balance query, the handler builds a transfer whose lamports are NaN
      and hands it to the wallet. The instruction builder is a total
      constructor here; whether the real one accepts NaN is library
      behaviour. (The number input in front of the handler hands it "" for
      non-numeric text.) */
  lemma NaNAmountReachesSend(s: State, w: Wallet, lib: Library, o: Oracle)
    requires w.publicKey.Some? && w.canSendTransaction && !IsBlank(s.recipient)
    requires s.amount != "" && lib.parseFloat(s.amount) == NaN
    requires lib.parsePublicKey(s.recipient).Some?
    requires o.balance(w.publicKey.value).Returned?
    ensures OnClick(s, w, lib, o).calls[1] ==
      SendTransaction(TransferEnvelope(w.publicKey.value, lib.parsePublicKey(s.recipient).value, NaN))
  {
  }

  /** The send button is disabled while sending, while the recipient is
      blank after trimming, or while the amount is empty. */
  predicate ButtonDisabled(s: State) {
    s.isSending || IsBlank(s.recipient) || s.amount == ""
  }

  /** The same rule with blankness read as "only whitespace". */
  lemma ButtonDisabledIff(s: State)
    ensures ButtonDisabled(s) <==> s.isSending || AllWhitespace(s.recipient) || s.amount == ""
  {
    BlankIffAllWhitespace(s.recipient);
  }

  /** A click on an enabled button passes the recipient guard, and fails the
      amount guard only for an amount that parses to zero or less. */
  lemma EnabledButtonPassesFieldGuards(s: State, w: Wallet, lib: Library)
    requires !ButtonDisabled(s)
    ensures GuardFailure(s, w, lib) != Some(NO_RECIPIENT)
    ensures GuardFailure(s, w, lib) == Some(BAD_AMOUNT) ==> AtMostZero(lib.parseFloat(s.amount))
  {
  }

  /** What the user can do on the screen. */
  datatype Event =
    | EditRecipient(text: string)
    | EditAmount(text: string)
    | Click(wallet: Wallet, lib: Library, oracle: Oracle)

  /** One event; a click on a disabled button does nothing. */
  function Step(s: State, e: Event): State {
    match e
    case EditRecipient(t) => s.(recipient := t)
    case EditAmount(t) => s.(amount := t)
    case Click(w, lib, o) => if ButtonDisabled(s) then s else OnClick(s, w, lib, o).state
  }

  function Replay(s: State, events: seq<Event>): State
    decreases |events|
  {
    if events == [] then s else Replay(Step(s, events[0]), events[1..])
  }

  /** From an idle screen, every sequence of edits and clicks leaves it idle.
      Handlers run to completion, so this only chains the handler's own
      guarantee that the flag ends lowered; the busy branch of `Step` is
      never taken here. */
  lemma {:induction false} ReplayStaysIdle(s: State, events: seq<Event>)
    requires !s.isSending
    ensures !Replay(s, events).isSending
    decreases |events|
  {
    if events != [] {
      ReplayStaysIdle(Step(s, events[0]), events[1..]);
    }
  }
}
