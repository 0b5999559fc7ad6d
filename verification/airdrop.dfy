/** The faucet screen (src/components/Airdrop.tsx): the airdrop request, its
    error mapping, the preset amounts and the faucet-link rule.

    The handler clears both texts, raises `isAirdropping`, requests the
    airdrop, and reports either success, a fixed rate-limit text for a "429"
    response, or a generic failure; `finally` lowers the flag. */
module Airdrop {
  import opened Js
  import opened Solana

  /** The address whose presence in the error text shows the faucet link. */
  const FAUCET_HOST := "faucet.solana.com"

  /** The rate-limit text, written around the faucet address it names. */
  const RATE_LIMITED := "Airdrop limit reached! You've either hit your daily limit or the faucet is out of funds. Please try again later or visit https://"
    + FAUCET_HOST + " for alternate sources."
  const FAILED_PREFIX := "Airdrop failed: "
  const UNKNOWN_ERROR := "Unknown error occurred"
  const SUCCESS_SUFFIX := " SOL successfully airdropped to your wallet!"

  /** The four amount buttons. */
  datatype Preset = TenthSol | HalfSol | OneSol | FiveSol

  /** The amount selected before any button is pressed. */
  const DEFAULT_AMOUNT := TenthSol

  /** The preset's value in SOL. */
  function Sol(p: Preset): real {
    match p
    case TenthSol => 0.1
    case HalfSol => 0.5
    case OneSol => 1.0
    case FiveSol => 5.0
  }

  /** How JavaScript prints the preset's value in a template string. */
  function Label(p: Preset): string {
    match p
    case TenthSol => "0.1"
    case HalfSol => "0.5"
    case OneSol => "1"
    case FiveSol => "5"
  }

  /** The selected amount, the airdropping flag and the two texts (the empty
      string shows nothing). */
  datatype State = State(amount: Preset, isAirdropping: bool, error: string, success: string)

  const INITIAL_STATE := State(DEFAULT_AMOUNT, false, "", "")

  /** One request: the external calls made and the state afterwards. */
  datatype Run = Run(calls: seq<Call>, state: State)

  /** Pressing an amount button selects its preset and nothing else. */
  function SelectAmount(s: State, p: Preset): (t: State)
    ensures t.amount == p
    ensures t.(amount := s.amount) == s
  {
    s.(amount := p)
  }

  /** `error.message && error.message.includes("429")`. */
  predicate IsRateLimit(err: Thrown) {
    MessageOf(err).Some? && MessageOf(err).value != "" && Contains(MessageOf(err).value, "429")
  }

  /** The error text the catch block sets. */
  function ErrorText(err: Thrown): string {
    if IsRateLimit(err) then RATE_LIMITED else FAILED_PREFIX + MessageOr(err, UNKNOWN_ERROR)
  }

  /** `airdrop`: one request crediting the wallet with the selected amount in
      lamports. */
  function Request(s: State, w: Wallet, o: Oracle): (run: Run)
    ensures run.calls == [RequestAirdrop(w.publicKey, Sol(s.amount) * LAMPORTS_PER_SOL)]
    ensures run.state.amount == s.amount && !run.state.isAirdropping
    ensures (run.state.error == "") != (run.state.success == "")
    ensures AllSucceed(o, run.calls) <==> run.state.success == Label(s.amount) + SUCCESS_SUFFIX
    ensures AllSucceed(o, run.calls) <==> run.state.error == ""
    ensures
      var r := o.requestAirdrop(w.publicKey, Sol(s.amount) * LAMPORTS_PER_SOL);
      && (r.Threw? && IsRateLimit(r.error) ==> run.state.error == RATE_LIMITED)
      && (r.Threw? && !IsRateLimit(r.error) ==> run.state.error == FAILED_PREFIX + MessageOr(r.error, UNKNOWN_ERROR))
  {
    var call := RequestAirdrop(w.publicKey, Sol(s.amount) * LAMPORTS_PER_SOL);
    var cleared := s.(isAirdropping := true, error := "", success := "");
    match o.requestAirdrop(call.recipient, call.lamports)
    case Returned(_) =>
      Run([call], cleared.(isAirdropping := false, success := Label(s.amount) + SUCCESS_SUFFIX))
    case Threw(e) =>
      assert !Succeeds(o, [call][0]);
      Run([call], cleared.(isAirdropping := false, error := ErrorText(e)))
  }

  /** The airdrop is always one of the four presets, a whole positive number
      of lamports. */
  lemma LamportsArePresetMultiples(p: Preset)
    ensures Sol(p) * LAMPORTS_PER_SOL in {100000000.0, 500000000.0, 1000000000.0, 5000000000.0}
  {
  }

  /** Under the error box, the faucet link shows when the text mentions the
      faucet. */
  predicate ShowsFaucetLink(error: string) {
    Contains(error, FAUCET_HOST)
  }

  /** The rate-limit text names the faucet, so it always shows the link. */
  lemma RateLimitShowsFaucetLink()
    ensures ShowsFaucetLink(RATE_LIMITED)
  {
    var head := "Airdrop limit reached! You've either hit your daily limit or the faucet is out of funds. Please try again later or visit https://";
    assert RATE_LIMITED[|head|..|head| + |FAUCET_HOST|] == FAUCET_HOST;
    assert OccursAt(RATE_LIMITED, FAUCET_HOST, |head|);
  }

  /** No occurrence of the faucet host starts inside "Airdrop failed: ". */
  lemma NoHostInFailedPrefix(m: string, i: int)
    requires 0 <= i < |FAILED_PREFIX|
    ensures !OccursAt(FAILED_PREFIX + m, FAUCET_HOST, i)
  {
    var t := FAILED_PREFIX + m;
    if i <= |t| - |FAUCET_HOST| {
      // Only index 8 holds an 'f', and the third letters differ there.
      assert t[i..i + |FAUCET_HOST|][0] == t[i];
      assert t[i..i + |FAUCET_HOST|][2] == t[i + 2];
    }
  }

  /** The generic text shows the link exactly when the raw message (or its
      fallback) names the faucet. */
  lemma {:induction false} GenericShowsFaucetLinkIff(m: string)
    ensures ShowsFaucetLink(FAILED_PREFIX + m) <==> ShowsFaucetLink(m)
  {
    var t := FAILED_PREFIX + m;
    if ShowsFaucetLink(t) {
      var i :| 0 <= i <= |t| - |FAUCET_HOST| && OccursAt(t, FAUCET_HOST, i);
      if i < |FAILED_PREFIX| {
        NoHostInFailedPrefix(m, i);
      }
      assert t[i..i + |FAUCET_HOST|] == m[i - |FAILED_PREFIX|..i - |FAILED_PREFIX| + |FAUCET_HOST|];
      assert OccursAt(m, FAUCET_HOST, i - |FAILED_PREFIX|);
    }
    if ShowsFaucetLink(m) {
      ContainsInRight(FAILED_PREFIX, m, FAUCET_HOST);
    }
  }

  /** The fallback text does not name the faucet. */
  lemma UnknownErrorHidesFaucetLink()
    ensures !ShowsFaucetLink(UNKNOWN_ERROR)
  {
    forall i | 0 <= i <= |UNKNOWN_ERROR| - |FAUCET_HOST|
      ensures !OccursAt(UNKNOWN_ERROR, FAUCET_HOST, i)
    {
      assert UNKNOWN_ERROR[i..i + |FAUCET_HOST|][0] == UNKNOWN_ERROR[i];
    }
  }

  /** After a request the link shows exactly when it failed with a "429"
      message, or with a message that itself names the faucet. */
  lemma FaucetLinkAfterRequest(s: State, w: Wallet, o: Oracle)
    ensures
      var run := Request(s, w, o);
      var r := o.requestAirdrop(w.publicKey, Sol(s.amount) * LAMPORTS_PER_SOL);
      ShowsFaucetLink(run.state.error) <==>
        r.Threw? && (IsRateLimit(r.error) || (MessageOf(r.error).Some? && ShowsFaucetLink(MessageOf(r.error).value)))
  {
    var r := o.requestAirdrop(w.publicKey, Sol(s.amount) * LAMPORTS_PER_SOL);
    if r.Threw? {
      if IsRateLimit(r.error) {
        RateLimitShowsFaucetLink();
      } else {
        var m := MessageOr(r.error, UNKNOWN_ERROR);
        GenericShowsFaucetLinkIff(m);
        UnknownErrorHidesFaucetLink();
        if MessageOf(r.error).Some? && MessageOf(r.error).value == "" {
          assert !ShowsFaucetLink("") by {
            assert |FAUCET_HOST| > 0;
          }
        }
      }
    } else {
      assert !ShowsFaucetLink("") by {
        assert |FAUCET_HOST| > 0;
      }
    }
  }

  /** What the user can do on the screen. */
  datatype Event =
    | Select(preset: Preset)
    | Press(wallet: Wallet, oracle: Oracle)

  /** One event; pressing the button while airdropping does nothing. */
  function Step(s: State, e: Event): State {
    match e
    case Select(p) => SelectAmount(s, p)
    case Press(w, o) => if s.isAirdropping then s else Request(s, w, o).state
  }

  function Replay(s: State, events: seq<Event>): State
    decreases |events|
  {
    if events == [] then s else Replay(Step(s, events[0]), events[1..])
  }

  /** From an idle screen, every sequence of selections and requests leaves it
      idle.
      Handlers run to completion, so this only chains the handler's own
      guarantee that the flag ends lowered; the busy branch of `Step` is
      never taken here. */
  lemma {:induction false} ReplayStaysIdle(s: State, events: seq<Event>)
    requires !s.isAirdropping
    ensures !Replay(s, events).isAirdropping
    decreases |events|
  {
    if events != [] {
      ReplayStaysIdle(Step(s, events[0]), events[1..]);
    }
  }
}
