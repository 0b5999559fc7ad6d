/** The message-signing screen (src/components/SignMessage.tsx): the click
    handler and the button-disabled rule.

    Two guards return early with an error toast. Past them the handler raises
    `isSigning`, asks the wallet to sign the encoded message, checks the
    returned signature against the wallet's key itself, and clears the message
    only when both steps succeed; `finally` lowers the flag. */
module SignMessage {
  import opened Js
  import opened Solana

  const NOT_CONNECTED := "Wallet not connected or signing not supported"
  const EMPTY_MESSAGE := "Please enter a message to sign"
  const INVALID_SIGNATURE := "Message signature invalid!"
  const SIGNED := "Message signed successfully!"
  const SIGN_FAILED := "Failed to sign message"

  /** The toast each click shows. */
  datatype Toast = ErrorToast(text: string) | SuccessToast(text: string)

  /** The message field and the signing flag. */
  datatype State = State(message: string, isSigning: bool)

  const INITIAL_STATE := State("", false)

  /** One click: the external calls made, the toast shown, and the state
      afterwards. */
  datatype Run = Run(calls: seq<Call>, toast: Toast, state: State)

  /** The guards in source order; the first that fails names the toast. */
  function GuardFailure(s: State, w: Wallet): (r: Option<string>)
    ensures r == Some(NOT_CONNECTED) <==> w.publicKey.None? || !w.canSignMessage
    ensures r == Some(EMPTY_MESSAGE) <==> w.publicKey.Some? && w.canSignMessage && IsBlank(s.message)
    ensures r == None <==> w.publicKey.Some? && w.canSignMessage && !IsBlank(s.message)
  {
    if w.publicKey.None? || !w.canSignMessage then Some(NOT_CONNECTED)
    else if IsBlank(s.message) then Some(EMPTY_MESSAGE)
    else None
  }

  /** The `try` block, entered with `isSigning` raised and the wallet key
      `key`; `finally` lowers the flag. A failed check throws an `Error`
      whose message becomes the toast. */
  function Sign(s: State, key: PublicKey, lib: Library, o: Oracle): (run: Run)
    ensures !run.state.isSigning
    ensures run.calls == [SignBytes(lib.encodeUtf8(s.message))]
    ensures run.toast.SuccessToast? <==>
      && o.signMessage(lib.encodeUtf8(s.message)).Returned?
      && lib.verifyEd25519(o.signMessage(lib.encodeUtf8(s.message)).value, lib.encodeUtf8(s.message), key.bytes)
    ensures run.toast.SuccessToast? ==> run.toast.text == SIGNED && run.state.message == ""
    ensures run.toast.ErrorToast? ==> run.state.message == s.message && run.toast.text != ""
  {
    var encoded := lib.encodeUtf8(s.message);
    var settled := s.(isSigning := false);
    match o.signMessage(encoded)
    case Threw(e) => Run([SignBytes(encoded)], ErrorToast(MessageOr(e, SIGN_FAILED)), settled)
    case Returned(sig) =>
      if !lib.verifyEd25519(sig, encoded, key.bytes) then
        Run([SignBytes(encoded)], ErrorToast(MessageOr(ErrorObject(INVALID_SIGNATURE), SIGN_FAILED)), settled)
      else
        Run([SignBytes(encoded)], SuccessToast(SIGNED), State("", false))
  }

  /** `onClick`: the guards, then the `try` block. */
  function OnClick(s: State, w: Wallet, lib: Library, o: Oracle): (run: Run)
    ensures GuardFailure(s, w).Some? ==> run == Run([], ErrorToast(GuardFailure(s, w).value), s)
    ensures GuardFailure(s, w).None? ==>
      !run.state.isSigning && run.calls == [SignBytes(lib.encodeUtf8(s.message))]
    ensures run.toast.SuccessToast? ==> run.state.message == "" && |run.calls| == 1 && AllSucceed(o, run.calls)
    ensures run.toast.ErrorToast? ==> run.state.message == s.message
  {
    match GuardFailure(s, w)
    case Some(msg) => Run([], ErrorToast(msg), s)
    case None => Sign(s.(isSigning := true), w.publicKey.value, lib, o)
  }

  /** A signature that resolves but does not verify against the wallet's key
      is reported as invalid, and the message is kept. */
  lemma UnverifiedSignatureRejected(s: State, w: Wallet, lib: Library, o: Oracle)
    requires GuardFailure(s, w).None?
    requires o.signMessage(lib.encodeUtf8(s.message)).Returned?
    requires !lib.verifyEd25519(o.signMessage(lib.encodeUtf8(s.message)).value, lib.encodeUtf8(s.message), w.publicKey.value.bytes)
    ensures OnClick(s, w, lib, o).toast == ErrorToast(INVALID_SIGNATURE)
    ensures OnClick(s, w, lib, o).state == State(s.message, false)
  {
  }

  /** A thrown signing call shows `err.message`, or the fallback when the
      message is missing or empty. */
  lemma SignFailureShowsMessage(s: State, w: Wallet, lib: Library, o: Oracle)
    requires GuardFailure(s, w).None?
    requires o.signMessage(lib.encodeUtf8(s.message)).Threw?
    ensures OnClick(s, w, lib, o).toast ==
      ErrorToast(MessageOr(o.signMessage(lib.encodeUtf8(s.message)).error, SIGN_FAILED))
  {
  }

  /** The sign button is disabled while signing or while the message is blank
      after trimming. */
  predicate ButtonDisabled(s: State) {
    s.isSigning || IsBlank(s.message)
  }

  /** The same rule with blankness read as "only whitespace". */
  lemma ButtonDisabledIff(s: State)
    ensures ButtonDisabled(s) <==> s.isSigning || AllWhitespace(s.message)
  {
    BlankIffAllWhitespace(s.message);
  }

  /** A click on an enabled button is refused only for a missing key or a
      wallet that cannot sign. */
  lemma EnabledButtonPassesMessageGuard(s: State, w: Wallet)
    requires !ButtonDisabled(s)
    ensures GuardFailure(s, w) != Some(EMPTY_MESSAGE)
  {
  }

  /** What the user can do on the screen. */
  datatype Event =
    | EditMessage(text: string)
    | Click(wallet: Wallet, lib: Library, oracle: Oracle)

  /** One event; a click on a disabled button does nothing. */
  function Step(s: State, e: Event): State {
    match e
    case EditMessage(t) => s.(message := t)
    case Click(w, lib, o) => if ButtonDisabled(s) then s else OnClick(s, w, lib, o).state
  }

  function Replay(s: State, events: seq<Event>): State
    decreases |events|
  {
    if events == [] then s else Replay(Step(s, events[0]), events[1..])
  }

  /** From an idle screen, every sequence of edits and clicks leaves it idle.
      Handlers run to completion, so this only chains the handler's own
      guarantee that the flag ends lowered; the busy branch of `Step` is
      never taken here. */
  lemma {:induction false} ReplayStaysIdle(s: State, events: seq<Event>)
    requires !s.isSigning
    ensures !Replay(s, events).isSigning
    decreases |events|
  {
    if events != [] {
      ReplayStaysIdle(Step(s, events[0]), events[1..]);
    }
  }
}
