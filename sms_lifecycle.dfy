/**
 * The one-time-code lifecycle over a sequence of requests.
 *
 * Each Step is one request that reaches the SMS provider: a render of the
 * code form (`authentication_page`), a press of the resend button
 * (`pre_process_authentication`), a submitted code (`validate_authentication`)
 * or a new mobile number with a verified nonce (`add_mobile`). Apply is the
 * store after that request, taken from the specification functions that the
 * provider's methods are proved against.
 *
 * Two results are proved. First, every accepted code was issued: per user,
 * the number of accepted submissions never exceeds the number of tokens
 * issued (plus one if a token was already pending). Second, the store
 * follows the per-user state machine NoChallenge / Pending(code): a render
 * issues only from NoChallenge, a resend or new number always replaces the
 * pending code, and a submission is accepted exactly when the hash of the
 * candidate equals the hash of the pending code, after which the user is
 * back to NoChallenge.
 */
module SmsLifecycle {
  import opened Wrappers
  import opened UserMeta
  import opened Sms

  datatype Step =
    | RenderPage(u: UserId, code: string)
    | Resend(u: UserId, code: string)
    | Submit(u: UserId, candidate: string)
    | NewMobile(u: UserId, number: string, code: string)

  /** The request fields a resend and a submission carry. */
  function ResendRequest(): Request {
    map[INPUT_NAME_RESEND_CODE := "Resend Code"]
  }

  function SubmitRequest(candidate: string): Request {
    map[INPUT_NAME_SMS_CODE := candidate]
  }

  /** The store after one request. */
  function Apply(store: Store, step: Step, hash: string -> string): Store {
    match step
    case RenderPage(u, code) => AfterPage(store, Some(u), code, hash)
    case Resend(u, code) => AfterPreProcess(store, Some(u), ResendRequest(), code, hash)
    case Submit(u, candidate) => AfterAuthentication(store, Some(u), SubmitRequest(candidate), hash)
    case NewMobile(u, number, code) => AfterAddMobile(store, true, u, number, code, hash)
  }

  /** The request logs its user in through the SMS provider. */
  predicate Accepted(store: Store, step: Step, hash: string -> string) {
    step.Submit? && Authenticates(store, Some(step.u), SubmitRequest(step.candidate), hash)
  }

  /** The request writes a new token for its user. */
  predicate Issues(store: Store, step: Step) {
    step.Resend? || step.NewMobile? || (step.RenderPage? && !UserHasToken(store, step.u))
  }

  function Run(store: Store, steps: seq<Step>, hash: string -> string): Store
    decreases |steps|
  {
    if steps == [] then store else Run(Apply(store, steps[0], hash), steps[1..], hash)
  }

  function AcceptedCount(store: Store, steps: seq<Step>, hash: string -> string, u: UserId): nat
    decreases |steps|
  {
    if steps == [] then 0
    else (if steps[0].u == u && Accepted(store, steps[0], hash) then 1 else 0)
         + AcceptedCount(Apply(store, steps[0], hash), steps[1..], hash, u)
  }

  function IssuedCount(store: Store, steps: seq<Step>, hash: string -> string, u: UserId): nat
    decreases |steps|
  {
    if steps == [] then 0
    else (if steps[0].u == u && Issues(store, steps[0]) then 1 else 0)
         + IssuedCount(Apply(store, steps[0], hash), steps[1..], hash, u)
  }

  function PendingCount(store: Store, u: UserId): nat {
    if UserHasToken(store, u) then 1 else 0
  }

  /** A request for one user leaves every other user's token exactly as it was. */
  lemma StepKeepsOtherUsers(store: Store, step: Step, hash: string -> string, v: UserId)
    requires step.u != v
    ensures Lookup(Apply(store, step, hash), v, TOKEN_META_KEY) == Lookup(store, v, TOKEN_META_KEY)
    ensures UserHasToken(Apply(store, step, hash), v) == UserHasToken(store, v)
  {
  }

  /**
   * For the request's own user: an accepted submission removes the pending
   * token, an issuing request leaves one pending (when the digest is not
   * empty), and any other request leaves the pending state as it was.
   */
  lemma StepOwnUser(store: Store, step: Step, hash: string -> string)
    ensures Accepted(store, step, hash) ==> UserHasToken(store, step.u) && !UserHasToken(Apply(store, step, hash), step.u)
    ensures !Accepted(store, step, hash) && !Issues(store, step) ==>
      UserHasToken(Apply(store, step, hash), step.u) == UserHasToken(store, step.u)
  {
    match step
    case RenderPage(u, code) =>
    case Resend(u, code) =>
    case Submit(u, candidate) =>
      assert INPUT_NAME_SMS_CODE in SubmitRequest(candidate);
    case NewMobile(u, number, code) =>
  }

  /**
   * Single use over any sequence of requests: the codes accepted for `u`,
   * plus the token still pending at the end, never outnumber the tokens
   * issued for `u` plus the one pending at the start.
   */
  lemma {:induction false} AcceptedNeverExceedsIssued(store: Store, steps: seq<Step>, hash: string -> string, u: UserId)
    ensures AcceptedCount(store, steps, hash, u) + PendingCount(Run(store, steps, hash), u)
            <= IssuedCount(store, steps, hash, u) + PendingCount(store, u)
    decreases |steps|
  {
    if steps != [] {
      var step := steps[0];
      var next := Apply(store, step, hash);
      AcceptedNeverExceedsIssued(next, steps[1..], hash, u);
      if step.u == u {
        StepOwnUser(store, step, hash);
      } else {
        StepKeepsOtherUsers(store, step, hash, u);
      }
    }
  }

  /** With nothing pending at the start, each code is accepted at most once per issue. */
  lemma AcceptedAtMostIssuedFromClean(store: Store, steps: seq<Step>, hash: string -> string, u: UserId)
    requires !UserHasToken(store, u)
    ensures AcceptedCount(store, steps, hash, u) <= IssuedCount(store, steps, hash, u)
  {
    AcceptedNeverExceedsIssued(store, steps, hash, u);
  }

  // ---------------------------------------------------------------------
  // The per-user state machine
  // ---------------------------------------------------------------------

  datatype Challenge = NoChallenge | Pending(code: string)

  /** The code a request other than a submission may issue. */
  function CodeOf(step: Step): string
    requires !step.Submit?
  {
    match step
    case RenderPage(_, code) => code
    case Resend(_, code) => code
    case NewMobile(_, _, code) => code
  }

  /** The state machine's answer to a submission. */
  predicate MachineAccepts(ch: Challenge, step: Step, hash: string -> string) {
    step.Submit? && ch.Pending? && hash(step.candidate) == hash(ch.code)
  }

  /** The state machine's transition for a request about its own user. */
  function Next(ch: Challenge, step: Step, hash: string -> string): Challenge {
    match step
    case RenderPage(_, code) => if ch.NoChallenge? then Pending(code) else ch
    case Resend(_, code) => Pending(code)
    case NewMobile(_, _, code) => Pending(code)
    case Submit(_, _) => if MachineAccepts(ch, step, hash) then NoChallenge else ch
  }

  /** The machine run for user `u` only; requests for other users do not move it. */
  function MachineRun(ch: Challenge, steps: seq<Step>, hash: string -> string, u: UserId): Challenge
    decreases |steps|
  {
    if steps == [] then ch
    else MachineRun(if steps[0].u == u then Next(ch, steps[0], hash) else ch, steps[1..], hash, u)
  }

  /** The store agrees with state `ch` for user `u`. */
  predicate Abstracts(store: Store, u: UserId, ch: Challenge, hash: string -> string) {
    match ch
    case NoChallenge => !UserHasToken(store, u)
    case Pending(code) => GetUserToken(store, u) == Some(hash(code))
  }

  /** `wp_hash` is an HMAC-MD5 rendered in hex: 32 characters, so never "" or "0". */
  ghost predicate HexDigests(hash: string -> string) {
    forall s :: |hash(s)| == 32
  }

  lemma HexDigestNotEmpty(hash: string -> string, s: string)
    requires HexDigests(hash)
    ensures !EmptyString(hash(s))
  {
    assert |hash(s)| == 32;
  }

  /** One request keeps the store and the state machine in step, and they agree on acceptance. */
  lemma StepRefines(store: Store, ch: Challenge, step: Step, hash: string -> string)
    requires Abstracts(store, step.u, ch, hash)
    requires step.Submit? || !EmptyString(hash(CodeOf(step)))
    ensures Abstracts(Apply(store, step, hash), step.u, Next(ch, step, hash), hash)
    ensures Accepted(store, step, hash) <==> MachineAccepts(ch, step, hash)
  {
    match step
    case RenderPage(u, code) =>
    case Resend(u, code) =>
      assert ResendRequested(Some(u), ResendRequest());
    case NewMobile(u, number, code) =>
    case Submit(u, candidate) =>
      assert INPUT_NAME_SMS_CODE in SubmitRequest(candidate);
  }

  /**
   * Over any sequence of requests, the store follows the state machine for
   * `u`: the final store abstracts to the machine's final state. (That each
   * single step accepts exactly when the machine does is `StepRefines`.)
   */
  lemma {:induction false} RunRefines(store: Store, ch: Challenge, steps: seq<Step>, hash: string -> string, u: UserId)
    requires HexDigests(hash)
    requires Abstracts(store, u, ch, hash)
    ensures Abstracts(Run(store, steps, hash), u, MachineRun(ch, steps, hash, u), hash)
    decreases |steps|
  {
    if steps != [] {
      var step := steps[0];
      var next := Apply(store, step, hash);
      var ch' := if step.u == u then Next(ch, step, hash) else ch;
      if step.u == u {
        if !step.Submit? {
          HexDigestNotEmpty(hash, CodeOf(step));
        }
        StepRefines(store, ch, step, hash);
      } else {
        StepKeepsOtherUsers(store, step, hash, u);
        assert GetUserToken(next, u) == GetUserToken(store, u);
      }
      RunRefines(next, ch', steps[1..], hash, u);
    }
  }

  // ---------------------------------------------------------------------
  // The scenarios the lifecycle promises
  // ---------------------------------------------------------------------

  /** A code sent and then submitted twice logs in once: the replay is refused. */
  lemma SingleUse(store: Store, u: UserId, code: string, hash: string -> string)
    requires !EmptyString(hash(code))
    ensures var s1 := Apply(store, Resend(u, code), hash);
            Accepted(s1, Submit(u, code), hash)
            && !Accepted(Apply(s1, Submit(u, code), hash), Submit(u, code), hash)
  {
    var s1 := Apply(store, Resend(u, code), hash);
    assert ResendRequested(Some(u), ResendRequest());
    assert INPUT_NAME_SMS_CODE in SubmitRequest(code);
    assert TokenMatches(s1, u, code, hash);
  }

  /**
   * A resend replaces the pending code: the new code is accepted, and the old
   * one is refused unless its hash collides with the new one's.
   */
  lemma ResendReplacesCode(store: Store, u: UserId, oldCode: string, newCode: string, candidate: string,
                           hash: string -> string)
    requires !EmptyString(hash(newCode))
    ensures var s := Apply(Apply(store, Resend(u, oldCode), hash), Resend(u, newCode), hash);
            Accepted(s, Submit(u, candidate), hash) <==> hash(candidate) == hash(newCode)
  {
    assert ResendRequested(Some(u), ResendRequest());
    assert INPUT_NAME_SMS_CODE in SubmitRequest(candidate);
  }

  /** A wrong code is refused and the pending code survives, so the user may retry. */
  lemma WrongCodeKeepsToken(store: Store, u: UserId, candidate: string, hash: string -> string)
    requires UserHasToken(store, u)
    requires GetUserToken(store, u) != Some(hash(candidate))
    ensures !Accepted(store, Submit(u, candidate), hash)
    ensures Apply(store, Submit(u, candidate), hash) == store
    ensures UserHasToken(Apply(store, Submit(u, candidate), hash), u)
  {
    assert INPUT_NAME_SMS_CODE in SubmitRequest(candidate);
  }

  /** Re-rendering the form while a code is pending neither sends nor replaces anything. */
  lemma RenderKeepsPendingCode(store: Store, u: UserId, code: string, hash: string -> string)
    requires UserHasToken(store, u)
    ensures !Issues(store, RenderPage(u, code))
    ensures Apply(store, RenderPage(u, code), hash) == store
  {
  }

  /** Code "482913" for user 7: the first submission logs in, the replay does not. */
  lemma ScenarioIssueThenReplay(store: Store, hash: string -> string)
    requires HexDigests(hash)
    ensures var s1 := Apply(store, Resend(7, "482913"), hash);
            var s2 := Apply(s1, Submit(7, "482913"), hash);
            Accepted(s1, Submit(7, "482913"), hash) && !Accepted(s2, Submit(7, "482913"), hash)
            && AcceptedCount(store, [Resend(7, "482913"), Submit(7, "482913"), Submit(7, "482913")], hash, 7) == 1
  {
    HexDigestNotEmpty(hash, "482913");
    SingleUse(store, 7, "482913", hash);
    var steps := [Resend(7, "482913"), Submit(7, "482913"), Submit(7, "482913")];
    var s1 := Apply(store, steps[0], hash);
    var s2 := Apply(s1, steps[1], hash);
    assert steps[1..] == [Submit(7, "482913"), Submit(7, "482913")];
    assert steps[1..][1..] == [Submit(7, "482913")];
    assert AcceptedCount(store, steps, hash, 7) == AcceptedCount(s1, steps[1..], hash, 7);
    assert AcceptedCount(s1, steps[1..], hash, 7) == 1 + AcceptedCount(s2, steps[1..][1..], hash, 7);
  }
}
