/**
 * The public-facing half of the plugin (`Two_Factor_Extensions_Public`): the
 * filters that register the SMS provider and the `mobile` contact method,
 * the `wp_login` hook that enforces SMS two-factor, and the handler of the
 * mobile-number verification form, which drives the SMS provider.
 *
 * Host state is abstract: the user-meta table, the Two-Factor login nonces,
 * the auth cookie, and a log of the host events the handler triggers (the
 * `wp_login_failed` action, nonce and cookie changes) so that their order
 * can be stated. Every answer that comes from the Two-Factor plugin or from
 * WordPress (which plugins are active, whether a nonce verifies, which
 * providers exist, the user's primary provider, a new nonce key) is an input.
 */
module Public {
  import opened Wrappers
  import opened UserMeta
  import opened PhpArrays
  import Sms

  const SMS_PROVIDER := "Two_Factor_Extensions_SMS"
  const SMS_PROVIDER_FILE := "includes/class-two-factor-extensions-sms.php"
  const TWO_FACTOR_PLUGIN := "two-factor/two-factor.php"
  const PLAYSMS_PLUGIN := "playsms/playsms.php"
  const WP_SMS_PLUGIN := "wp-sms/wp-sms.php"
  /** `Two_Factor_Core::ENABLED_PROVIDERS_USER_META_KEY`. */
  const ENABLED_PROVIDERS_META_KEY := "_two_factor_enabled_providers"
  const CONTACT_METHOD_MOBILE := "mobile"

  const FIELD_AUTH_ID := "wp-auth-id"
  const FIELD_AUTH_NONCE := "wp-auth-nonce"
  const FIELD_PROVIDER := "provider"
  const FIELD_REMEMBERME := "rememberme"
  const FIELD_INTERIM_LOGIN := "interim-login"

  // ---------------------------------------------------------------------
  // Filters: provider registry and contact methods
  // ---------------------------------------------------------------------

  /** What `add_extensions` hooks. */
  datatype Hook = ProvidersFilter | AdminNotice

  /**
   * `add_extensions`: the provider filter is hooked only when Two-Factor and
   * at least one SMS gateway plugin are active; otherwise the admin notice.
   */
  function AddExtensions(activePlugins: set<string>): (hook: Hook)
    ensures hook == ProvidersFilter <==>
      TWO_FACTOR_PLUGIN in activePlugins && (PLAYSMS_PLUGIN in activePlugins || WP_SMS_PLUGIN in activePlugins)
  {
    if TWO_FACTOR_PLUGIN in activePlugins && (PLAYSMS_PLUGIN in activePlugins || WP_SMS_PLUGIN in activePlugins)
    then ProvidersFilter
    else AdminNotice
  }

  /**
   * `add_providers`: map the SMS provider's class name to its class file
   * (under the plugin's directory `pluginDir`), leaving every other entry
   * where it was.
   */
  function AddProviders(providers: PhpArray<string>, pluginDir: string): (r: PhpArray<string>)
    ensures Get(r, StrKey(SMS_PROVIDER)) == Some(pluginDir + SMS_PROVIDER_FILE)
    ensures forall k :: k != StrKey(SMS_PROVIDER) ==> Get(r, k) == Get(providers, k)
    ensures |r| == |providers| + (if HasKey(providers, StrKey(SMS_PROVIDER)) then 0 else 1)
    ensures forall i :: 0 <= i < |providers| && providers[i].0 != StrKey(SMS_PROVIDER) ==> r[i] == providers[i]
    ensures UniqueKeys(providers) ==> UniqueKeys(r)
  {
    Assign(providers, StrKey(SMS_PROVIDER), pluginDir + SMS_PROVIDER_FILE)
  }

  /** The registry Two-Factor sees once the plugin has loaded. */
  function ProvidersAfterLoad(activePlugins: set<string>, providers: PhpArray<string>, pluginDir: string): PhpArray<string> {
    if AddExtensions(activePlugins) == ProvidersFilter then AddProviders(providers, pluginDir) else providers
  }

  /** The SMS provider is registered iff Two-Factor and a gateway are active (or it already was). */
  lemma SmsRegisteredIffPluginsActive(activePlugins: set<string>, providers: PhpArray<string>, pluginDir: string)
    requires !HasKey(providers, StrKey(SMS_PROVIDER))
    ensures HasKey(ProvidersAfterLoad(activePlugins, providers, pluginDir), StrKey(SMS_PROVIDER)) <==>
      TWO_FACTOR_PLUGIN in activePlugins && (PLAYSMS_PLUGIN in activePlugins || WP_SMS_PLUGIN in activePlugins)
  {
  }

  /**
   * `user_contactmethods`: `array_merge($methods, ['mobile' => label])`.
   * `mobile` reads the label and every other string key reads as before.
   */
  function UserContactMethods(methods: PhpArray<string>, mobileLabel: string): (r: PhpArray<string>)
    ensures Get(r, StrKey(CONTACT_METHOD_MOBILE)) == Some(mobileLabel)
    ensures forall s :: s != CONTACT_METHOD_MOBILE ==> Get(r, StrKey(s)) == Get(methods, StrKey(s))
  {
    var added := [(StrKey(CONTACT_METHOD_MOBILE), mobileLabel)];
    assert added[..0] == [];
    assert added[0].0 == StrKey(CONTACT_METHOD_MOBILE);
    ArrayMerge(methods, added)
  }

  /**
   * The contact methods after the filter, entry by entry: every entry keeps
   * its position and value (a `mobile` entry takes the label; a missing one
   * is appended), string keys are kept, and integer keys are renumbered
   * 0, 1, ... in order, as `array_merge` does.
   */
  lemma ContactMethodsLayout(methods: PhpArray<string>, mobileLabel: string)
    ensures var r := UserContactMethods(methods, mobileLabel);
      && |r| == |methods| + (if HasKey(methods, StrKey(CONTACT_METHOD_MOBILE)) then 0 else 1)
      && (forall i :: 0 <= i < |methods| ==>
            r[i].1 == (if methods[i].0 == StrKey(CONTACT_METHOD_MOBILE) then mobileLabel else methods[i].1))
      && (forall i :: 0 <= i < |methods| && methods[i].0.StrKey? ==> r[i].0 == methods[i].0)
      && (forall i :: 0 <= i < |methods| && methods[i].0.IntKey? ==> r[i].0 == IntKey(IntCount(methods[..i])))
  {
    var renumbered := Renumber(methods, 0);
    var k := StrKey(CONTACT_METHOD_MOBILE);
    MergeOneString(methods, CONTACT_METHOD_MOBILE, mobileLabel);
    GetRenumberString(methods, 0, CONTACT_METHOD_MOBILE);
    assert HasKey(renumbered, k) <==> HasKey(methods, k) by {
      assert Get(renumbered, k).Some? <==> HasKey(renumbered, k);
      assert Get(methods, k).Some? <==> HasKey(methods, k);
    }
    forall i | 0 <= i < |methods| ensures renumbered[i].0 == k <==> methods[i].0 == k {
    }
  }

  // ---------------------------------------------------------------------
  // Enforcement on login
  // ---------------------------------------------------------------------

  /**
   * The enabled-provider list `check_enforced_2fa` leaves behind: the SMS
   * provider is appended when absent; the existing entries keep their order.
   */
  function EnableSmsProvider(enabled: seq<string>): (r: seq<string>)
    ensures SMS_PROVIDER in r
    ensures |enabled| <= |r| && r[..|enabled|] == enabled
    ensures SMS_PROVIDER in enabled ==> r == enabled
    ensures SMS_PROVIDER !in enabled ==> |r| == |enabled| + 1 && multiset(r)[SMS_PROVIDER] == 1
  {
    if SMS_PROVIDER in enabled then enabled
    else
      var r := enabled + [SMS_PROVIDER];
      assert multiset(enabled)[SMS_PROVIDER] == 0;
      assert multiset(r) == multiset(enabled) + multiset{SMS_PROVIDER};
      assert r[..|enabled|] == enabled;
      r
  }

  /** Enabling twice is enabling once: a second login rewrites nothing. */
  lemma EnableSmsProviderIdempotent(enabled: seq<string>)
    ensures EnableSmsProvider(EnableSmsProvider(enabled)) == EnableSmsProvider(enabled)
  {
  }

  /** The user meta after the provider-list step of `check_enforced_2fa` with enforcement on. */
  function StoreWithSmsEnabled(store: Store, u: UserId, enabled: seq<string>): (r: Store)
    ensures SMS_PROVIDER in enabled ==> r == store
    ensures SMS_PROVIDER !in enabled ==>
      Lookup(r, u, ENABLED_PROVIDERS_META_KEY) == Some(Structured(EnableSmsProvider(enabled)))
    ensures r - {MetaKey(u, ENABLED_PROVIDERS_META_KEY)} == store - {MetaKey(u, ENABLED_PROVIDERS_META_KEY)}
  {
    if SMS_PROVIDER in enabled then store
    else store[MetaKey(u, ENABLED_PROVIDERS_META_KEY) := Structured(EnableSmsProvider(enabled))]
  }

  /** The enabled-provider list never holds the SMS provider twice through this plugin. */
  lemma SmsEnabledOnce(enabled: seq<string>)
    requires multiset(enabled)[SMS_PROVIDER] <= 1
    ensures multiset(EnableSmsProvider(enabled))[SMS_PROVIDER] == 1
  {
  }

  // ---------------------------------------------------------------------
  // Reading the user ID back from the form
  // ---------------------------------------------------------------------

  predicate IsDigit(c: char) {
    '0' <= c <= '9'
  }

  predicate AllDigits(s: string) {
    forall i :: 0 <= i < |s| ==> IsDigit(s[i])
  }

  /** The longest prefix of decimal digits. */
  function DigitPrefix(s: string): (r: string)
    ensures AllDigits(r) && r <= s
    ensures AllDigits(s) ==> r == s
    decreases |s|
  {
    if s == [] || !IsDigit(s[0]) then [] else [s[0]] + DigitPrefix(s[1..])
  }

  function DigitsValue(ds: string): nat
    requires AllDigits(ds)
    decreases |ds|
  {
    if ds == [] then 0 else DigitsValue(ds[..|ds| - 1]) * 10 + (ds[|ds| - 1] as int - '0' as int)
  }

  /** The bounds of PHP's integer type on a 64-bit platform. */
  const PHP_INT_MAX: int := 0x7fff_ffff_ffff_ffff
  const PHP_INT_MIN: int := -0x8000_0000_0000_0000

  /** The whitespace PHP skips before a numeric string: space, \t, \n, \r, \v, \f. */
  predicate IsSpace(c: char) {
    c == ' ' || c == '\t' || c == '\n' || c == '\r' || c as int == 11 || c as int == 12
  }

  function TrimLeadingSpace(s: string): (r: string)
    ensures |r| <= |s| && r == s[|s| - |r|..]
    ensures r == [] || !IsSpace(r[0])
    ensures s != [] && !IsSpace(s[0]) ==> r == s
    decreases |s|
  {
    if s != [] && IsSpace(s[0]) then TrimLeadingSpace(s[1..]) else s
  }

  /** The value of an exponent suffix `e`/`E`, optional sign, digits; 0 when there is none. */
  function Exponent(s: string): int {
    if |s| >= 2 && (s[0] == 'e' || s[0] == 'E') then
      if IsDigit(s[1]) then DigitsValue(DigitPrefix(s[1..]))
      else if |s| >= 3 && (s[1] == '+' || s[1] == '-') && IsDigit(s[2]) then
        var e := DigitsValue(DigitPrefix(s[2..]));
        if s[1] == '-' then 0 - e else e
      else 0
    else 0
  }

  lemma AllDigitsConcat(a: string, b: string)
    requires AllDigits(a) && AllDigits(b)
    ensures AllDigits(a + b)
  {
    forall i | 0 <= i < |a + b| ensures IsDigit((a + b)[i]) {
      if i >= |a| { assert (a + b)[i] == b[i - |a|]; }
    }
  }

  /** The digits of a fraction `.digits` at the start of `rest`; none without a dot. */
  function Fraction(rest: string): (r: string)
    ensures AllDigits(r)
    ensures |rest| > 0 && rest[0] == '.' ==> 1 + |r| <= |rest|
    ensures !(|rest| > 0 && rest[0] == '.') ==> r == []
  {
    if |rest| > 0 && rest[0] == '.' then DigitPrefix(rest[1..]) else []
  }

  /** What follows the fraction (or the dot alone, as in `5.e3`). */
  function AfterFraction(rest: string): (r: string)
    ensures |r| <= |rest|
  {
    if |rest| > 0 && rest[0] == '.' then rest[1 + |Fraction(rest)|..] else rest
  }

  /** `m` times ten to the power `shift`, truncated toward zero. */
  function Scale(m: nat, shift: int): nat
    decreases if shift >= 0 then shift else 0 - shift
  {
    if shift == 0 then m
    else if shift > 0 then Scale(m * 10, shift - 1)
    else Scale(m / 10, shift + 1)
  }

  /**
   * The magnitude of the unsigned decimal number at the start of `t`
   * (digits, an optional fraction, an optional exponent), truncated toward
   * zero; 0 when `t` does not start with a digit or with `.` and a digit.
   */
  function UnsignedValue(t: string): nat {
    var whole := DigitPrefix(t);
    var rest := t[|whole|..];
    var frac := Fraction(rest);
    if whole == [] && frac == [] then 0
    else
      AllDigitsConcat(whole, frac);
      Scale(DigitsValue(whole + frac), Exponent(AfterFraction(rest)) - |frac|)
  }

  /** Out-of-range values saturate, as PHP converts a numeric string's float to an integer. */
  function Saturate(x: int): (r: int)
    ensures PHP_INT_MIN <= r <= PHP_INT_MAX
    ensures PHP_INT_MIN <= x <= PHP_INT_MAX ==> r == x
  {
    if x > PHP_INT_MAX then PHP_INT_MAX else if x < PHP_INT_MIN then PHP_INT_MIN else x
  }

  /**
   * PHP's `(int)` cast of a request string (PHP 7.1 and later): leading
   * whitespace is skipped, then an optional sign and a decimal number with
   * optional fraction and exponent are read, truncated toward zero and
   * saturated; anything else reads as 0. So `"1e1"` reads as 10 and `"0x1A"`
   * as 0.
   */
  function IntCast(s: string): (r: int)
    ensures PHP_INT_MIN <= r <= PHP_INT_MAX
    ensures s != [] && AllDigits(s) && DigitsValue(s) <= PHP_INT_MAX ==> r == DigitsValue(s)
    ensures var t := TrimLeadingSpace(s);
      t == [] || !(IsDigit(t[0]) || t[0] == '.' || t[0] == '-' || t[0] == '+') ==> r == 0
  {
    var t := TrimLeadingSpace(s);
    if |t| > 0 && t[0] == '-' then Saturate(0 - UnsignedValue(t[1..]))
    else if |t| > 0 && t[0] == '+' then Saturate(UnsignedValue(t[1..]))
    else
      assert s != [] && AllDigits(s) ==> t == s by {
        if s != [] && AllDigits(s) { assert IsDigit(s[0]); }
      }
      UnsignedValueDigits(t);
      UnsignedValueNoNumber(t);
      Saturate(UnsignedValue(t))
  }

  /** A plain run of digits reads as its decimal value. */
  lemma UnsignedValueDigits(t: string)
    ensures t != [] && AllDigits(t) ==> UnsignedValue(t) == DigitsValue(t)
  {
    if t != [] && AllDigits(t) {
      assert t[|t|..] == [];
      assert DigitsValue(t + []) == DigitsValue(t) by { assert t + [] == t; }
    }
  }

  /** Text that starts with neither a digit nor a dot has no number. */
  lemma UnsignedValueNoNumber(t: string)
    ensures t == [] || !(IsDigit(t[0]) || t[0] == '.') ==> UnsignedValue(t) == 0
  {
    if t != [] && !(IsDigit(t[0]) || t[0] == '.') {
      assert DigitPrefix(t) == [];
    }
  }

  /** How the form writes a user ID into its hidden `wp-auth-id` field. */
  function DecimalString(n: nat): (r: string)
    ensures |r| > 0 && AllDigits(r)
  {
    if n < 10 then [('0' as int + n) as char]
    else DecimalString(n / 10) + [('0' as int + n % 10) as char]
  }

  lemma {:induction false} DigitsValueDecimal(n: nat)
    ensures DigitsValue(DecimalString(n)) == n
  {
    var r := DecimalString(n);
    if n >= 10 {
      DigitsValueDecimal(n / 10);
      assert r[..|r| - 1] == DecimalString(n / 10);
    }
  }

  /** The ID the form emits is the ID the handler reads back, for every ID PHP can hold. */
  lemma IntCastRoundTrip(n: nat)
    requires n <= PHP_INT_MAX
    ensures IntCast(DecimalString(n)) == n
  {
    DigitsValueDecimal(n);
  }

  /** Exponent notation: `"1e1"` reads as 10, not 1. */
  lemma IntCastExponent()
    ensures IntCast("1e1") == 10
  {
    var s := "1e1";
    assert TrimLeadingSpace(s) == s;
    assert DigitPrefix(s[1..]) == [];
    assert DigitPrefix(s) == "1";
    assert Fraction(s[1..]) == [];
    assert AfterFraction(s[1..]) == "e1";
    assert DigitPrefix("1") == "1";
    assert Exponent("e1") == 1;
    assert DigitsValue("1" + []) == 1;
    assert Scale(1, 1) == 10 by { assert Scale(10, 0) == 10; }
    assert UnsignedValue(s) == 10;
  }

  /** A fraction with an exponent: `"1.5e1"` reads as 15. */
  lemma IntCastFractionExponent()
    ensures IntCast("1.5e1") == 15
  {
    var s := "1.5e1";
    assert TrimLeadingSpace(s) == s;
    assert DigitPrefix(s[1..]) == [];
    assert DigitPrefix(s) == "1";
    assert DigitPrefix("e1") == [];
    assert DigitPrefix("5e1") == "5";
    assert Fraction(".5e1") == "5";
    assert AfterFraction(".5e1") == "e1";
    assert DigitPrefix("1") == "1";
    assert Exponent("e1") == 1;
    assert "1" + "5" == "15";
    assert DigitsValue("15") == 15 by {
      assert "15"[..1] == "1";
    }
    assert Scale(15, 0) == 15;
    assert UnsignedValue(s) == 15;
  }

  /** Leading whitespace is skipped and trailing text ignored. */
  lemma IntCastSpace()
    ensures IntCast(" 42abc") == 42
  {
    var s := " 42abc";
    var t := "42abc";
    assert s[1..] == t;
    assert IsSpace(s[0]) && !IsSpace(t[0]);
    assert TrimLeadingSpace(t) == t;
    assert TrimLeadingSpace(s) == t;
    assert DigitPrefix(t[2..]) == [];
    assert DigitPrefix(t[1..]) == "2";
    assert DigitPrefix(t) == "42";
    assert t[2..] == "abc";
    assert Fraction("abc") == [];
    assert AfterFraction("abc") == "abc";
    assert Exponent("abc") == 0;
    assert "42" + [] == "42";
    assert DigitsValue("42") == 42 by { assert "42"[..1] == "4"; }
    assert Scale(42, 0) == 42;
    assert UnsignedValue(t) == 42;
  }

  /** Hexadecimal is not read: `"0x1A"` reads as 0. */
  lemma IntCastHex()
    ensures IntCast("0x1A") == 0
  {
    var h := "0x1A";
    assert TrimLeadingSpace(h) == h;
    assert DigitPrefix(h[1..]) == [];
    assert DigitPrefix(h) == "0";
    assert h[1..] == "x1A";
    assert Fraction("x1A") == [];
    assert AfterFraction("x1A") == "x1A";
    assert Exponent("x1A") == 0;
    assert "0" + [] == "0";
    assert DigitsValue("0") == 0;
    assert UnsignedValue(h) == 0;
  }

  // ---------------------------------------------------------------------
  // Host state
  // ---------------------------------------------------------------------

  datatype AuthCookie = AuthCookie(user: UserId, remember: bool)

  datatype HostEvent =
    | LoginFailed(login: string)
    | LoginNonceCreated(user: UserId)
    | LoginNonceDeleted(user: UserId)
    | AuthCookieSet(user: UserId, remember: bool)
    | AuthCookieCleared

  /** The parts of WordPress and Two-Factor state the login handlers change. */
  class LoginHost {
    var loginNonces: map<UserId, string>
    var authCookie: Option<AuthCookie>
    var events: seq<HostEvent>

    constructor (cookie: Option<AuthCookie>)
      ensures loginNonces == map[] && authCookie == cookie && events == []
    {
      loginNonces := map[];
      authCookie := cookie;
      events := [];
    }

    /** `wp_clear_auth_cookie`. */
    method ClearAuthCookie()
      modifies this
      ensures authCookie == None && loginNonces == old(loginNonces)
      ensures events == old(events) + [AuthCookieCleared]
    {
      authCookie := None;
      events := events + [AuthCookieCleared];
    }

    /** `wp_set_auth_cookie`. */
    method SetAuthCookie(u: UserId, remember: bool)
      modifies this
      ensures authCookie == Some(AuthCookie(u, remember)) && loginNonces == old(loginNonces)
      ensures events == old(events) + [AuthCookieSet(u, remember)]
    {
      authCookie := Some(AuthCookie(u, remember));
      events := events + [AuthCookieSet(u, remember)];
    }

    /** `Two_Factor_Core::create_login_nonce`, whose new key (or failure) is `key`. */
    method CreateLoginNonce(u: UserId, key: Option<string>) returns (created: bool)
      modifies this
      ensures created == key.Some? && authCookie == old(authCookie)
      ensures created ==> loginNonces == old(loginNonces)[u := key.value] && events == old(events) + [LoginNonceCreated(u)]
      ensures !created ==> loginNonces == old(loginNonces) && events == old(events)
    {
      created := key.Some?;
      if created {
        loginNonces := loginNonces[u := key.value];
        events := events + [LoginNonceCreated(u)];
      }
    }

    /** `Two_Factor_Core::delete_login_nonce`. */
    method DeleteLoginNonce(u: UserId)
      modifies this
      ensures loginNonces == old(loginNonces) - {u} && authCookie == old(authCookie)
      ensures events == old(events) + [LoginNonceDeleted(u)]
    {
      loginNonces := loginNonces - {u};
      events := events + [LoginNonceDeleted(u)];
    }

    /** `do_action('wp_login_failed', $login)`. */
    method FireLoginFailed(login: string)
      modifies this
      ensures loginNonces == old(loginNonces) && authCookie == old(authCookie)
      ensures events == old(events) + [LoginFailed(login)]
    {
      events := events + [LoginFailed(login)];
    }
  }

  // ---------------------------------------------------------------------
  // check_enforced_2fa
  // ---------------------------------------------------------------------

  datatype EnforceOutcome =
    | NotEnforcing       // enforcement off: return at once
    | MobileOnFile       // the user has a mobile number: return, login proceeds
    | MobileFormShown    // no mobile number: cookie cleared, verification form, exit

  /**
   * `check_enforced_2fa` on `wp_login`. `enforcing` is what
   * `is_enforcing_mobile_two_factor` answers and `enabled` what
   * `get_enabled_providers_for_user` answers; `formNonce` is the key
   * `create_login_nonce` yields for the verification form.
   */
  method CheckEnforcedTwoFactor(meta: MetaTable, host: LoginHost, u: UserId, enforcing: bool,
                                enabled: seq<string>, formNonce: Option<string>)
    returns (outcome: EnforceOutcome)
    modifies meta, host
    ensures !enforcing ==> outcome == NotEnforcing && meta.store == old(meta.store)
    ensures !enforcing ==> unchanged(host)
    ensures enforcing ==> meta.store == StoreWithSmsEnabled(old(meta.store), u, enabled)
    ensures enforcing && !IsEmpty(Lookup(old(meta.store), u, Sms.MOBILE_META_KEY)) ==>
      outcome == MobileOnFile && unchanged(host)
    ensures enforcing && IsEmpty(Lookup(old(meta.store), u, Sms.MOBILE_META_KEY)) ==>
      outcome == MobileFormShown && host.authCookie == None
      && host.events == old(host.events) + [AuthCookieCleared] + (if formNonce.Some? then [LoginNonceCreated(u)] else [])
      && host.loginNonces == (if formNonce.Some? then old(host.loginNonces)[u := formNonce.value] else old(host.loginNonces))
    ensures host.authCookie != old(host.authCookie) ==> outcome == MobileFormShown
  {
    if !enforcing {
      return NotEnforcing;
    }
    if SMS_PROVIDER !in enabled {
      meta.Update(u, ENABLED_PROVIDERS_META_KEY, Structured(enabled + [SMS_PROVIDER]));
    }
    var mobile := Lookup(meta.store, u, Sms.MOBILE_META_KEY);
    if !IsEmpty(mobile) {
      return MobileOnFile;
    }
    host.ClearAuthCookie();
    var _ := host.CreateLoginNonce(u, formNonce);
    return MobileFormShown;
  }

  // ---------------------------------------------------------------------
  // validate_2fa_mobile_number
  // ---------------------------------------------------------------------

  datatype Outcome =
    | Ignored           // a field missing or no such user: plain return
    | RedirectedHome    // the login nonce did not verify
    | Forbidden         // an unknown provider name: wp_die with 403
    | NoProvider        // no provider named and none primary: a method call on null aborts
    | NonceFailure      // create_login_nonce failed: wp_die
    | FormResent        // the provider handled the request (a resend): form again
    | InvalidCode       // validation failed: form again, with an error
    | LoggedIn(remember: bool, interim: bool)

  /** Answers from Two-Factor for one request. */
  datatype CoreAnswers = CoreAnswers(
    nonceVerified: bool,        // verify_login_nonce
    providers: set<string>,     // the keys of get_providers
    primary: Option<string>,    // get_primary_provider_for_user
    foreignResend: bool,        // pre_process_authentication of a provider other than SMS
    foreignValid: bool,         // validate_authentication of a provider other than SMS
    newNonce: Option<string>)   // create_login_nonce

  datatype Route = Stop(outcome: Outcome) | Dispatch(user: UserId, provider: string)

  /** PHP truthiness of a request string. */
  predicate Truthy(s: string) {
    !EmptyString(s)
  }

  /** `rememberme` is on iff the request carries a truthy `rememberme`. */
  predicate RememberMe(post: Sms.Request) {
    FIELD_REMEMBERME in post && Truthy(post[FIELD_REMEMBERME])
  }

  /**
   * The checks before any provider runs: both fields present, the user
   * exists, the nonce verifies, and the provider named (if any) exists;
   * otherwise the user's primary provider.
   */
  function RouteRequest(post: Sms.Request, users: map<UserId, string>, core: CoreAnswers): (r: Route)
    ensures FIELD_AUTH_ID !in post || FIELD_AUTH_NONCE !in post ==> r == Stop(Ignored)
    ensures r.Stop? ==> r.outcome in {Ignored, RedirectedHome, Forbidden, NoProvider}
    ensures r.Dispatch? ==>
      FIELD_AUTH_ID in post && FIELD_AUTH_NONCE in post && r.user == IntCast(post[FIELD_AUTH_ID])
      && r.user in users && core.nonceVerified
    ensures r.Dispatch? && FIELD_PROVIDER in post ==> r.provider == post[FIELD_PROVIDER] && r.provider in core.providers
    ensures r.Dispatch? && FIELD_PROVIDER !in post ==> core.primary == Some(r.provider)
    ensures r == Stop(Forbidden) <==>
      FIELD_AUTH_ID in post && FIELD_AUTH_NONCE in post && IntCast(post[FIELD_AUTH_ID]) in users
      && core.nonceVerified && FIELD_PROVIDER in post && post[FIELD_PROVIDER] !in core.providers
    // A request that passes every check reaches a provider.
    ensures r.Dispatch? <==>
      FIELD_AUTH_ID in post && FIELD_AUTH_NONCE in post && IntCast(post[FIELD_AUTH_ID]) in users
      && core.nonceVerified
      && (FIELD_PROVIDER in post ==> post[FIELD_PROVIDER] in core.providers)
      && (FIELD_PROVIDER !in post ==> core.primary.Some?)
    // Which check stops it.
    ensures FIELD_AUTH_ID in post && FIELD_AUTH_NONCE in post && IntCast(post[FIELD_AUTH_ID]) !in users ==>
      r == Stop(Ignored)
    ensures (FIELD_AUTH_ID in post && FIELD_AUTH_NONCE in post && IntCast(post[FIELD_AUTH_ID]) in users
             && !core.nonceVerified) ==> r == Stop(RedirectedHome)
    ensures (FIELD_AUTH_ID in post && FIELD_AUTH_NONCE in post && IntCast(post[FIELD_AUTH_ID]) in users
             && core.nonceVerified && FIELD_PROVIDER !in post && core.primary.None?) ==> r == Stop(NoProvider)
  {
    if FIELD_AUTH_ID !in post || FIELD_AUTH_NONCE !in post then Stop(Ignored)
    else
      var id := IntCast(post[FIELD_AUTH_ID]);
      if id !in users then Stop(Ignored)
      else if !core.nonceVerified then Stop(RedirectedHome)
      else if FIELD_PROVIDER in post then
        (if post[FIELD_PROVIDER] in core.providers then Dispatch(id, post[FIELD_PROVIDER]) else Stop(Forbidden))
      else
        (if core.primary.Some? then Dispatch(id, core.primary.value) else Stop(NoProvider))
  }

  /** The chosen provider asks to handle the request itself (a resend). */
  predicate ProviderResends(route: Route, post: Sms.Request, core: CoreAnswers)
    requires route.Dispatch?
  {
    if route.provider == SMS_PROVIDER then Sms.ResendRequested(Some(route.user), post) else core.foreignResend
  }

  /** The chosen provider accepts the second factor. */
  predicate ProviderValidates(store: Store, route: Route, post: Sms.Request, core: CoreAnswers, hash: string -> string)
    requires route.Dispatch?
  {
    if route.provider == SMS_PROVIDER then Sms.Authenticates(store, Some(route.user), post, hash) else core.foreignValid
  }

  /**
   * The second half of `validate_2fa_mobile_number`, once a provider is
   * chosen: a resend, a failed validation or a login.
   */
  method RunProvider(sms: Sms.SmsProvider, host: LoginHost, post: Sms.Request, users: map<UserId, string>,
                     core: CoreAnswers, route: Route, code: string, mailOk: bool)
    returns (outcome: Outcome)
    requires route.Dispatch? && route.user in users
    modifies sms.meta, host
    // A resend: the provider runs, a fresh nonce, the form again; no cookie.
    ensures ProviderResends(route, post, core) ==>
      && sms.meta.store == (if route.provider == SMS_PROVIDER
                            then Sms.AfterPreProcess(old(sms.meta.store), Some(route.user), post, code, sms.hash)
                            else old(sms.meta.store))
      && outcome == (if core.newNonce.Some? then FormResent else NonceFailure)
      && host.authCookie == old(host.authCookie)
      && host.events == old(host.events) + (if core.newNonce.Some? then [LoginNonceCreated(route.user)] else [])
      && host.loginNonces == (if core.newNonce.Some? then old(host.loginNonces)[route.user := core.newNonce.value]
                              else old(host.loginNonces))
    // A failed validation: wp_login_failed, a fresh nonce, the form with an error; no cookie, token kept.
    ensures !ProviderResends(route, post, core) && !ProviderValidates(old(sms.meta.store), route, post, core, sms.hash) ==>
      && sms.meta.store == old(sms.meta.store)
      && outcome == (if core.newNonce.Some? then InvalidCode else NonceFailure)
      && host.authCookie == old(host.authCookie)
      && host.events == old(host.events) + [LoginFailed(users[route.user])]
                        + (if core.newNonce.Some? then [LoginNonceCreated(route.user)] else [])
      && host.loginNonces == (if core.newNonce.Some? then old(host.loginNonces)[route.user := core.newNonce.value]
                              else old(host.loginNonces))
    // Success: token consumed, nonce deleted, then the cookie set.
    ensures !ProviderResends(route, post, core) && ProviderValidates(old(sms.meta.store), route, post, core, sms.hash) ==>
      && sms.meta.store == (if route.provider == SMS_PROVIDER
                            then Sms.AfterAuthentication(old(sms.meta.store), Some(route.user), post, sms.hash)
                            else old(sms.meta.store))
      && outcome == LoggedIn(RememberMe(post), FIELD_INTERIM_LOGIN in post)
      && host.loginNonces == old(host.loginNonces) - {route.user}
      && host.authCookie == Some(AuthCookie(route.user, RememberMe(post)))
      && host.events == old(host.events) + [LoginNonceDeleted(route.user), AuthCookieSet(route.user, RememberMe(post))]
    ensures host.authCookie != old(host.authCookie) ==> outcome.LoggedIn?
  {
    // Allow the provider to re-send codes.
    var resend: bool;
    if route.provider == SMS_PROVIDER {
      resend := sms.PreProcessAuthentication(Some(route.user), post, code, mailOk);
    } else {
      resend := core.foreignResend;
    }
    if resend {
      var created := host.CreateLoginNonce(route.user, core.newNonce);
      if !created {
        return NonceFailure;
      }
      return FormResent;
    }

    // Ask the provider to verify the second factor.
    var valid: bool;
    if route.provider == SMS_PROVIDER {
      valid := sms.ValidateAuthentication(Some(route.user), post);
    } else {
      valid := core.foreignValid;
    }
    if !valid {
      host.FireLoginFailed(users[route.user]);
      var created := host.CreateLoginNonce(route.user, core.newNonce);
      if !created {
        return NonceFailure;
      }
      return InvalidCode;
    }

    host.DeleteLoginNonce(route.user);
    var remember := FIELD_REMEMBERME in post && Truthy(post[FIELD_REMEMBERME]);
    host.SetAuthCookie(route.user, remember);
    return LoggedIn(remember, FIELD_INTERIM_LOGIN in post);
  }

  /**
   * `validate_2fa_mobile_number`, without its markup. The auth cookie is set
   * only after the provider accepts the code, and the login nonce is deleted
   * first. A resend and a failed validation never set it; a failed validation
   * fires `wp_login_failed`. `code` and `mailOk` are what the SMS provider's
   * `get_code` and `wp_mail` answer if it sends a code.
   */
  method ValidateMobileNumber(sms: Sms.SmsProvider, host: LoginHost, post: Sms.Request,
                              users: map<UserId, string>, core: CoreAnswers, code: string, mailOk: bool)
    returns (outcome: Outcome)
    modifies sms.meta, host
    // The checks before any provider runs change nothing.
    ensures RouteRequest(post, users, core).Stop? ==>
      outcome == RouteRequest(post, users, core).outcome && sms.meta.store == old(sms.meta.store) && unchanged(host)
    // A resend: the provider runs, a fresh nonce, the form again; no cookie.
    ensures var route := RouteRequest(post, users, core);
      route.Dispatch? && ProviderResends(route, post, core) ==>
        && sms.meta.store == (if route.provider == SMS_PROVIDER
                              then Sms.AfterPreProcess(old(sms.meta.store), Some(route.user), post, code, sms.hash)
                              else old(sms.meta.store))
        && outcome == (if core.newNonce.Some? then FormResent else NonceFailure)
        && host.authCookie == old(host.authCookie)
        && host.events == old(host.events) + (if core.newNonce.Some? then [LoginNonceCreated(route.user)] else [])
        && host.loginNonces == (if core.newNonce.Some? then old(host.loginNonces)[route.user := core.newNonce.value]
                                else old(host.loginNonces))
    // A failed validation: wp_login_failed, a fresh nonce, the form with an error; no cookie, token kept.
    ensures var route := RouteRequest(post, users, core);
      route.Dispatch? && !ProviderResends(route, post, core) && !ProviderValidates(old(sms.meta.store), route, post, core, sms.hash) ==>
        && sms.meta.store == old(sms.meta.store)
        && outcome == (if core.newNonce.Some? then InvalidCode else NonceFailure)
        && host.authCookie == old(host.authCookie)
        && host.events == old(host.events) + [LoginFailed(users[route.user])]
                          + (if core.newNonce.Some? then [LoginNonceCreated(route.user)] else [])
        && host.loginNonces == (if core.newNonce.Some? then old(host.loginNonces)[route.user := core.newNonce.value]
                                else old(host.loginNonces))
    // Success: token consumed, nonce deleted, then the cookie set.
    ensures var route := RouteRequest(post, users, core);
      route.Dispatch? && !ProviderResends(route, post, core) && ProviderValidates(old(sms.meta.store), route, post, core, sms.hash) ==>
        && sms.meta.store == (if route.provider == SMS_PROVIDER
                              then Sms.AfterAuthentication(old(sms.meta.store), Some(route.user), post, sms.hash)
                              else old(sms.meta.store))
        && outcome == LoggedIn(RememberMe(post), FIELD_INTERIM_LOGIN in post)
        && host.loginNonces == old(host.loginNonces) - {route.user}
        && host.authCookie == Some(AuthCookie(route.user, RememberMe(post)))
        && host.events == old(host.events) + [LoginNonceDeleted(route.user), AuthCookieSet(route.user, RememberMe(post))]
    // The cookie changes only on a successful login.
    ensures host.authCookie != old(host.authCookie) ==> outcome.LoggedIn?
    ensures outcome.LoggedIn? ==> RouteRequest(post, users, core).Dispatch?
  {
    var route := RouteRequest(post, users, core);
    if FIELD_AUTH_ID !in post || FIELD_AUTH_NONCE !in post {
      return Ignored;
    }
    var id := IntCast(post[FIELD_AUTH_ID]);
    if id !in users {
      return Ignored;
    }
    if !core.nonceVerified {
      return RedirectedHome;
    }
    var name: string;
    if FIELD_PROVIDER in post {
      if post[FIELD_PROVIDER] !in core.providers {
        return Forbidden;
      }
      name := post[FIELD_PROVIDER];
    } else {
      if core.primary.None? {
        return NoProvider;
      }
      name := core.primary.value;
    }
    assert route == Dispatch(id, name);

    outcome := RunProvider(sms, host, post, users, core, route, code, mailOk);
  }
}
