/**
 * The SMS one-time-code provider (`Two_Factor_Extensions_SMS`).
 *
 * The provider keeps at most one pending token per user: the hash of the
 * last code it issued, stored in user meta under TOKEN_META_KEY. The
 * functions in the first half of this module are the specification of that
 * store (what is pending, what an issue, a validation or a page render does
 * to it); the class in the second half performs the same steps on the shared
 * MetaTable and is proved against them.
 *
 * Host facilities are parameters: `hash` is `wp_hash`, `code` is the value
 * the inherited `get_code` returned, `mailOk` is what `wp_mail` returned, and
 * the HTTP request is a dictionary from field name to string.
 */
module Sms {
  import opened Wrappers
  import opened UserMeta

  const TOKEN_META_KEY := "_two_factor_extensions_sms_token"
  const INPUT_NAME_RESEND_CODE := "sms-resend-code"
  const INPUT_NAME_SMS_CODE := "two-factor-sms-code"
  const MOBILE_META_KEY := "mobile"
  const NEW_MOBILE_META_KEY := "_new_mobile"

  /** `$_REQUEST`: the submitted fields; `isset` is membership. */
  type Request = map<string, string>

  /** One text message handed to the transport: where to, and which code. */
  datatype Message = Message(recipient: Option<MetaValue>, code: string)

  /** What `wp_send_json_success` / `wp_send_json_error` answer an AJAX call with. */
  datatype JsonResponse = JsonSuccess | JsonError

  function TokenKey(u: UserId): MetaKey {
    MetaKey(u, TOKEN_META_KEY)
  }

  // ---------------------------------------------------------------------
  // Queries
  // ---------------------------------------------------------------------

  /**
   * `get_user_token`: the stored hash when it is a non-empty string; a
   * missing key, an empty string, "0" or an array all read as no token.
   */
  function GetUserToken(store: Store, u: UserId): (r: Option<string>)
    ensures r.Some? ==> Lookup(store, u, TOKEN_META_KEY) == Some(Text(r.value)) && !EmptyString(r.value)
    ensures r.None? ==> IsEmpty(Lookup(store, u, TOKEN_META_KEY)) || store[TokenKey(u)].Structured?
  {
    match Lookup(store, u, TOKEN_META_KEY)
    case Some(Text(s)) => if EmptyString(s) then None else Some(s)
    case _ => None
  }

  /** `user_has_token`: a token is pending iff a non-empty string hash is stored. */
  predicate UserHasToken(store: Store, u: UserId)
    ensures UserHasToken(store, u) <==>
      TokenKey(u) in store && store[TokenKey(u)].Text? && !EmptyString(store[TokenKey(u)].s)
  {
    GetUserToken(store, u).Some?
  }

  /**
   * The meta key `generate_and_send_token` reads the destination number
   * from: `mobile`, unless that is empty or the code is for a new number,
   * in which case `_new_mobile`.
   */
  function DestinationKey(store: Store, u: UserId, isNew: bool): (key: string)
    ensures key == NEW_MOBILE_META_KEY <==> isNew || IsEmpty(Lookup(store, u, MOBILE_META_KEY))
    ensures key == MOBILE_META_KEY <==> key != NEW_MOBILE_META_KEY
    ensures key == MOBILE_META_KEY ==> !IsEmpty(Lookup(store, u, key))
  {
    var to := Lookup(store, u, MOBILE_META_KEY);
    if IsEmpty(to) || isNew then NEW_MOBILE_META_KEY else MOBILE_META_KEY
  }

  // ---------------------------------------------------------------------
  // The store after each operation
  // ---------------------------------------------------------------------

  /**
   * `generate_token`: the hash of the new code replaces whatever was stored;
   * it is pending unless the hash itself reads as empty.
   */
  function IssueToken(store: Store, u: UserId, code: string, hash: string -> string): (r: Store)
    ensures Lookup(r, u, TOKEN_META_KEY) == Some(Text(hash(code)))
    ensures UserHasToken(r, u) <==> !EmptyString(hash(code))
    ensures UserHasToken(r, u) ==> GetUserToken(r, u) == Some(hash(code))
    ensures r - {TokenKey(u)} == store - {TokenKey(u)}
  {
    store[TokenKey(u) := Text(hash(code))]
  }

  /**
   * The test in `validate_token`: a token is pending and the candidate's hash
   * equals it. With no token pending it fails, whatever the candidate.
   */
  predicate TokenMatches(store: Store, u: UserId, candidate: string, hash: string -> string)
    ensures TokenMatches(store, u, candidate, hash) ==> UserHasToken(store, u)
    ensures TokenMatches(store, u, candidate, hash) <==>
      Lookup(store, u, TOKEN_META_KEY) == Some(Text(hash(candidate))) && !EmptyString(hash(candidate))
  {
    var hashed := GetUserToken(store, u);
    !(hashed.None? || hash(candidate) != hashed.value)
  }

  /**
   * The store after `validate_token`: a match deletes the token, so it cannot
   * be used again; a mismatch leaves the store exactly as it was.
   */
  function Consume(store: Store, u: UserId, candidate: string, hash: string -> string): (r: Store)
    ensures TokenMatches(store, u, candidate, hash) ==> TokenKey(u) !in r && !UserHasToken(r, u)
    ensures !TokenMatches(store, u, candidate, hash) ==> r == store
    ensures r - {TokenKey(u)} == store - {TokenKey(u)}
  {
    if TokenMatches(store, u, candidate, hash) then store - {TokenKey(u)} else store
  }

  /** `validate_authentication` succeeds: a user ID and a submitted code, and the code matches. */
  predicate Authenticates(store: Store, user: Option<UserId>, request: Request, hash: string -> string)
    ensures Authenticates(store, user, request, hash) ==>
      user.Some? && INPUT_NAME_SMS_CODE in request && UserHasToken(store, user.value)
  {
    user.Some? && INPUT_NAME_SMS_CODE in request
    && TokenMatches(store, user.value, request[INPUT_NAME_SMS_CODE], hash)
  }

  /** The store after `validate_authentication`; without a user or a code field it is untouched. */
  function AfterAuthentication(store: Store, user: Option<UserId>, request: Request, hash: string -> string): (r: Store)
    ensures user.None? || INPUT_NAME_SMS_CODE !in request ==> r == store
    ensures !Authenticates(store, user, request, hash) ==> r == store
    ensures Authenticates(store, user, request, hash) ==> !UserHasToken(r, user.value)
    ensures Authenticates(store, user, request, hash) ==> r == store - {TokenKey(user.value)}
  {
    if user.Some? && INPUT_NAME_SMS_CODE in request
    then Consume(store, user.value, request[INPUT_NAME_SMS_CODE], hash)
    else store
  }

  /** `pre_process_authentication` answers true: a user ID and the resend button in the request. */
  predicate ResendRequested(user: Option<UserId>, request: Request) {
    user.Some? && INPUT_NAME_RESEND_CODE in request
  }

  /** The store after `pre_process_authentication`: a fresh token on resend, otherwise untouched. */
  function AfterPreProcess(store: Store, user: Option<UserId>, request: Request, code: string, hash: string -> string): (r: Store)
    ensures !ResendRequested(user, request) ==> r == store
    ensures ResendRequested(user, request) ==> Lookup(r, user.value, TOKEN_META_KEY) == Some(Text(hash(code)))
    ensures ResendRequested(user, request) ==> r - {TokenKey(user.value)} == store - {TokenKey(user.value)}
  {
    if ResendRequested(user, request) then IssueToken(store, user.value, code, hash) else store
  }

  /**
   * The store after `authentication_page`: a token is issued only when none is
   * pending, so a pending code stays valid across re-renders.
   */
  function AfterPage(store: Store, user: Option<UserId>, code: string, hash: string -> string): (r: Store)
    ensures user.None? ==> r == store
    ensures user.Some? && UserHasToken(store, user.value) ==> r == store
    ensures user.Some? && !EmptyString(hash(code)) ==> UserHasToken(r, user.value)
    ensures user.Some? && !UserHasToken(store, user.value) ==>
      Lookup(r, user.value, TOKEN_META_KEY) == Some(Text(hash(code)))
    ensures user.Some? ==> r - {TokenKey(user.value)} == store - {TokenKey(user.value)}
  {
    match user
    case None => store
    case Some(u) => if UserHasToken(store, u) then store else IssueToken(store, u, code, hash)
  }

  /**
   * The store after `add_mobile`: with a verified nonce, the new number is
   * recorded and a token issued; otherwise nothing changes.
   */
  function AfterAddMobile(store: Store, nonceVerified: bool, u: UserId, newMobile: string, code: string,
                          hash: string -> string): (r: Store)
    ensures !nonceVerified ==> r == store
    ensures nonceVerified ==> Lookup(r, u, NEW_MOBILE_META_KEY) == Some(Text(newMobile))
    ensures nonceVerified ==> Lookup(r, u, TOKEN_META_KEY) == Some(Text(hash(code)))
    ensures nonceVerified ==>
      r - {TokenKey(u), MetaKey(u, NEW_MOBILE_META_KEY)} == store - {TokenKey(u), MetaKey(u, NEW_MOBILE_META_KEY)}
  {
    if nonceVerified
    then IssueToken(store[MetaKey(u, NEW_MOBILE_META_KEY) := Text(newMobile)], u, code, hash)
    else store
  }

  // ---------------------------------------------------------------------
  // The provider, acting on the shared user-meta table
  // ---------------------------------------------------------------------

  class SmsProvider {
    const meta: MetaTable
    /** `wp_hash`; not assumed injective. */
    const hash: string -> string

    constructor (meta: MetaTable, hash: string -> string)
      ensures this.meta == meta && this.hash == hash
    {
      this.meta := meta;
      this.hash := hash;
    }

    /** `generate_token`: store the hash of `code` (from `get_code`) and return the code. */
    method GenerateToken(u: UserId, code: string) returns (token: string)
      modifies meta
      ensures token == code
      ensures meta.store == IssueToken(old(meta.store), u, code, hash)
    {
      token := code;
      meta.Update(u, TOKEN_META_KEY, Text(hash(token)));
    }

    /** `delete_token`. */
    method DeleteToken(u: UserId)
      modifies meta
      ensures meta.store == old(meta.store) - {TokenKey(u)}
      ensures !UserHasToken(meta.store, u)
    {
      meta.Delete(u, TOKEN_META_KEY);
    }

    /** `validate_token`: compare hashes; on a match delete the token and answer true. */
    method ValidateToken(u: UserId, candidate: string) returns (ok: bool)
      modifies meta
      ensures ok == TokenMatches(old(meta.store), u, candidate, hash)
      ensures meta.store == Consume(old(meta.store), u, candidate, hash)
    {
      var hashed := GetUserToken(meta.store, u);
      if hashed.None? || hash(candidate) != hashed.value {
        return false;
      }
      DeleteToken(u);
      return true;
    }

    /**
     * `generate_and_send_token`: the token is written before delivery is
     * attempted, so it is pending whatever the transport answers. With
     * SMS_DEBUG defined true the transport is always `wp_mail`, whose answer
     * is `mailOk`.
     */
    method GenerateAndSendToken(u: UserId, isNew: bool, code: string, mailOk: bool)
      returns (sent: Message, result: bool)
      modifies meta
      ensures meta.store == IssueToken(old(meta.store), u, code, hash)
      ensures sent.code == code && Lookup(meta.store, u, TOKEN_META_KEY) == Some(Text(hash(sent.code)))
      ensures sent.recipient == Lookup(old(meta.store), u, DestinationKey(old(meta.store), u, isNew))
      ensures result == mailOk
    {
      var token := GenerateToken(u, code);
      var to := Lookup(meta.store, u, MOBILE_META_KEY);
      if IsEmpty(to) || isNew {
        to := Lookup(meta.store, u, NEW_MOBILE_META_KEY);
      }
      sent := Message(to, token);
      result := mailOk;
    }

    /** `authentication_page` without its markup: send a code unless one is pending. */
    method AuthenticationPage(user: Option<UserId>, code: string, mailOk: bool) returns (sent: Option<Message>)
      modifies meta
      ensures meta.store == AfterPage(old(meta.store), user, code, hash)
      ensures sent.Some? <==> user.Some? && !UserHasToken(old(meta.store), user.value)
      ensures sent.Some? ==> sent.value.code == code
    {
      if user.None? {
        return None;
      }
      sent := None;
      if !UserHasToken(meta.store, user.value) {
        var m, _ := GenerateAndSendToken(user.value, false, code, mailOk);
        sent := Some(m);
      }
    }

    /** `validate_authentication`: fail closed without a user ID or a submitted code. */
    method ValidateAuthentication(user: Option<UserId>, request: Request) returns (ok: bool)
      modifies meta
      ensures ok == Authenticates(old(meta.store), user, request, hash)
      ensures meta.store == AfterAuthentication(old(meta.store), user, request, hash)
    {
      if user.None? || INPUT_NAME_SMS_CODE !in request {
        return false;
      }
      ok := ValidateToken(user.value, request[INPUT_NAME_SMS_CODE]);
    }

    /** `pre_process_authentication`: on the resend button, send a fresh code and answer true. */
    method PreProcessAuthentication(user: Option<UserId>, request: Request, code: string, mailOk: bool)
      returns (handled: bool)
      modifies meta
      ensures handled == ResendRequested(user, request)
      ensures meta.store == AfterPreProcess(old(meta.store), user, request, code, hash)
    {
      if user.Some? && INPUT_NAME_RESEND_CODE in request {
        var _, _ := GenerateAndSendToken(user.value, false, code, mailOk);
        return true;
      }
      return false;
    }

    /**
     * `add_mobile`, the AJAX handler: only when `verify_login_nonce` accepted
     * the request, record the new number and send a code to it. The answer is
     * success whatever the transport returned.
     */
    method AddMobile(nonceVerified: bool, u: UserId, newMobile: string, code: string, mailOk: bool)
      returns (response: JsonResponse, sent: Option<Message>)
      modifies meta
      ensures meta.store == AfterAddMobile(old(meta.store), nonceVerified, u, newMobile, code, hash)
      ensures response == JsonSuccess <==> nonceVerified
      ensures sent.Some? <==> nonceVerified
      ensures sent.Some? ==> sent.value == Message(Some(Text(newMobile)), code)
    {
      if nonceVerified {
        meta.Update(u, NEW_MOBILE_META_KEY, Text(newMobile));
        var m, _ := GenerateAndSendToken(u, true, code, mailOk);
        sent := Some(m);
        response := JsonSuccess;
      } else {
        sent := None;
        response := JsonError;
      }
    }
  }
}
