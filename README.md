# Two-Factor Extensions: SMS one-time codes, modelled in Dafny

This WordPress plugin adds an SMS provider to the Two-Factor plugin. The provider runs a small per-user state machine over WordPress user meta:

- **Issue.** A code is issued by storing `wp_hash(code)` under `_two_factor_extensions_sms_token`, replacing any earlier hash.
- **Validate.** A submitted code is hashed and compared with the stored hash. A match deletes the hash, so each code works once. A mismatch leaves the hash in place.
- **Resend.** The resend button issues a new code.
- **Render.** The code form issues a code only when none is pending.

The public half of the plugin does three things:

- It registers the provider in Two-Factor's registry.
- It adds a `mobile` contact method.
- On `wp_login`, when enforcement is on, it puts the SMS provider into the user's enabled-provider list. It then either lets the login through or clears the auth cookie and asks for a mobile number. The verification form's handler calls the provider and sets the auth cookie only after a successful validation.

## Files

- `user_meta.dfy`:
  - `Wrappers` holds `Option`.
  - `UserMeta` holds the user-meta table: a map from (user ID, key) to a string or an unserialised array. It also holds PHP's `empty()` and the mutable `MetaTable` class.
- `php_arrays.dfy`: `PhpArrays` models PHP ordered arrays with integer and string keys. It covers assignment, lookup and `array_merge`, including the renumbering of integer keys.
- `sms.dfy`: `Sms` models `Two_Factor_Extensions_SMS`.
  - Specification functions give the store after each operation.
  - The `SmsProvider` class carries out the same steps on the shared `MetaTable` and is proved against those functions.
- `sms_lifecycle.dfy`: `SmsLifecycle` covers any sequence of requests. It proves two things:
  - Accepted codes never outnumber issued ones.
  - The store refines the state machine NoChallenge / Pending(code).
- `public.dfy`: `Public` models `Two_Factor_Extensions_Public`. It covers the filters, `check_enforced_2fa` and `validate_2fa_mobile_number`, over abstract host state: login nonces, the auth cookie and an ordered log of host events.

Host facilities are parameters:

- `wp_hash` is a function `hash: string -> string`, never assumed injective. The lifecycle refinement (`RunRefines`, `ScenarioIssueThenReplay`) assumes `HexDigests`: every digest is 32 characters long, as an MD5-based HMAC in hex is, so no digest is empty or "0".
- `get_code` is a `code` argument.
- The `wp_mail` result is a `mailOk` argument.
- The HTTP request is a `map<string, string>`.
- Two-Factor's answers are inputs: nonce verification, the provider list, the primary provider, a new nonce key and `is_enforcing_mobile_two_factor`.

Facts about the code that the model keeps:

- **Hash comparison.** `validate_token` compares the stored hash with `wp_hash` of the candidate using a plain `!==` (includes/class-two-factor-extensions-sms.php:250). The comparison is not constant-time.
- **Delivery result.** `generate_and_send_token` defines `SMS_DEBUG` as true on its first line (includes/class-two-factor-extensions-sms.php:125). So it always returns what `wp_mail` returns, and its gateway branches and the `no_sms_mechanism` error at :143 are unreachable.
- **Resend.** A resend makes the old code fail only when its hash differs from the new code's hash (`ResendReplacesCode`).
- **User ID.** The handler reads the user ID with PHP's `(int)` cast (public/class-two-factor-extensions-public.php:224). From PHP 7.1 that cast honours fractions and exponents, so `"1e1"` selects user 10; `IntCast` models this.

## Model

| member | source | states |
|---|---|---|
| Sms.GetUserToken | includes/class-two-factor-extensions-sms.php:211-219 | a hash is returned only when the stored value is a non-empty string, and it is that string; a missing key, "", "0" or an array gives none |
| Sms.UserHasToken | includes/class-two-factor-extensions-sms.php:87-95 | a token is pending iff the token key holds a string other than "" and "0" |
| Sms.DestinationKey | includes/class-two-factor-extensions-sms.php:131-134 | the destination is `_new_mobile` iff `isnew` is set or `mobile` is empty; `mobile` is used only when it is non-empty |
| Sms.IssueToken | includes/class-two-factor-extensions-sms.php:73-78 | after issuing, the token key holds exactly `wp_hash(code)`, replacing any earlier hash; it is pending iff that hash is non-empty; no other key changes |
| Sms.TokenMatches | includes/class-two-factor-extensions-sms.php:246-252 | validation fails closed: a match needs a pending token, and holds iff the stored value is `wp_hash(candidate)` and that hash is non-empty |
| Sms.Consume | includes/class-two-factor-extensions-sms.php:246-258 | on a match the token key is deleted and no token is pending; on a mismatch the store is unchanged; no other key changes |
| Sms.Authenticates | includes/class-two-factor-extensions-sms.php:195-202 | `validate_authentication` succeeds only with a user ID, a `two-factor-sms-code` field and a pending token |
| Sms.AfterAuthentication | includes/class-two-factor-extensions-sms.php:195-202 | without a user ID or the code field the store is untouched; a failed validation leaves the store unchanged; a successful one removes exactly the user's token key and leaves no token pending |
| Sms.AfterPreProcess | includes/class-two-factor-extensions-sms.php:228-236 | the store changes only when a user ID and the resend field are present, and then it holds the hash of the fresh code and nothing else changes |
| Sms.AfterPage | includes/class-two-factor-extensions-sms.php:152-159 | with no user nothing changes; with a pending token nothing changes; otherwise the token key holds exactly `wp_hash(code)`, which is pending if non-empty; only the user's token key can change |
| Sms.AfterAddMobile | includes/class-two-factor-extensions-sms.php:103-114 | an unverified nonce changes nothing; a verified one stores the new number under `_new_mobile` and the new code's hash, and changes nothing else |
| Sms.SmsProvider.GenerateToken | includes/class-two-factor-extensions-sms.php:73-78 | returns the code from `get_code` and leaves the store as IssueToken describes |
| Sms.SmsProvider.DeleteToken | includes/class-two-factor-extensions-sms.php:265-267 | removes exactly the token key; afterwards no token is pending |
| Sms.SmsProvider.ValidateToken | includes/class-two-factor-extensions-sms.php:246-258 | answers TokenMatches on the old store and leaves the store as Consume describes |
| Sms.SmsProvider.GenerateAndSendToken | includes/class-two-factor-extensions-sms.php:124-145 | the token is stored before delivery and stays pending whatever `wp_mail` returns; the message carries the code whose hash is stored and goes to the number under DestinationKey; the transport's result is returned |
| Sms.SmsProvider.AuthenticationPage | includes/class-two-factor-extensions-sms.php:152-159 | sends a code iff there is a user and no token is pending; the store is AfterPage |
| Sms.SmsProvider.ValidateAuthentication | includes/class-two-factor-extensions-sms.php:195-202 | answers Authenticates on the old store; the store is AfterAuthentication |
| Sms.SmsProvider.PreProcessAuthentication | includes/class-two-factor-extensions-sms.php:228-236 | answers true iff a user ID and the resend field are present; the store is AfterPreProcess |
| Sms.SmsProvider.AddMobile | includes/class-two-factor-extensions-sms.php:103-114 | JSON success iff the nonce verified; only then is the number stored and a code sent to that new number; the store is AfterAddMobile |
| SmsLifecycle.StepKeepsOtherUsers | includes/class-two-factor-extensions-sms.php:73-78 | a request for one user never changes another user's token |
| SmsLifecycle.StepOwnUser | includes/class-two-factor-extensions-sms.php:246-258 | an accepted submission needs a pending token and leaves none; a request that neither accepts nor issues keeps the pending state |
| SmsLifecycle.AcceptedNeverExceedsIssued | includes/class-two-factor-extensions-sms.php:246-258 | over any request sequence, accepted codes plus the token left pending never exceed issued tokens plus the one pending at the start (single use) |
| SmsLifecycle.AcceptedAtMostIssuedFromClean | includes/class-two-factor-extensions-sms.php:246-258 | starting with nothing pending, a user never logs in more often than codes were issued |
| SmsLifecycle.StepRefines | includes/class-two-factor-extensions-sms.php:152-258 | one request moves the store and the NoChallenge/Pending state machine together, and the store accepts a code exactly when the machine does |
| SmsLifecycle.RunRefines | includes/class-two-factor-extensions-sms.php:152-258 | over any request sequence the store follows the state machine: the pending hash is that of the machine's pending code, or no token is pending |
| SmsLifecycle.SingleUse | includes/class-two-factor-extensions-sms.php:250-257 | a code just sent is accepted once, and the same code submitted again is refused |
| SmsLifecycle.ResendReplacesCode | includes/class-two-factor-extensions-sms.php:228-236 | after a resend a candidate is accepted iff its hash equals the new code's hash, so the old code fails unless the two hashes collide |
| SmsLifecycle.WrongCodeKeepsToken | includes/class-two-factor-extensions-sms.php:250-252 | a wrong code is refused, the store is unchanged and the token stays pending |
| SmsLifecycle.RenderKeepsPendingCode | includes/class-two-factor-extensions-sms.php:157-159 | re-rendering the form while a code is pending issues nothing and changes nothing |
| SmsLifecycle.ScenarioIssueThenReplay | includes/class-two-factor-extensions-sms.php:228-258 | code "482913" for user 7 is accepted once; in resend, submit, submit exactly one login succeeds |
| Public.AddExtensions | public/class-two-factor-extensions-public.php:117-126 | the provider filter is hooked iff Two-Factor is active and PlaySMS or WP SMS is active; otherwise only the admin notice is hooked |
| Public.SmsRegisteredIffPluginsActive | public/class-two-factor-extensions-public.php:121-122 | starting from a registry without it, the SMS provider is registered after loading iff those plugins are active |
| Public.AddProviders | public/class-two-factor-extensions-public.php:159-163 | the SMS class name maps to its class file; every other key reads as before and keeps its position; unique keys stay unique |
| PhpArrays.Assign | public/class-two-factor-extensions-public.php:160 | PHP assignment to an array key: the key reads the new value, other keys are unchanged, an existing key keeps its position and a new one is appended |
| PhpArrays.Renumber | public/class-two-factor-extensions-public.php:183 | the first step of `array_merge`: values and string keys stay in place and integer keys are renumbered consecutively in order |
| PhpArrays.ArrayMerge | public/class-two-factor-extensions-public.php:183 | `array_merge`: the result is at least as long as the first array and at most as long as both together; every entry of the first array keeps its position, string keys unchanged and integer keys renumbered 0, 1, ...; it keeps its value unless the second array assigns its string key; a string key reads the last value the second array gives it (an independent definition, `LastGet`), or else its old value |
| PhpArrays.ArrayMergeTail | public/class-two-factor-extensions-public.php:183 | nothing but the second array's entries follows the first array: each later entry is an integer-keyed entry of the second array renumbered on from the first array's integer count, or carries a string key of the second array that the first array does not hold |
| PhpArrays.ArrayMergeAppendsInt | public/class-two-factor-extensions-public.php:183 | every integer-keyed entry of the second array is appended after the first array, with its value, under the first array's integer count plus the number of integer keys before it |
| PhpArrays.MergeIntoKeeps | public/class-two-factor-extensions-public.php:183 | merging entries into an array leaves every integer-keyed entry, and every string-keyed entry whose key the merged array does not assign, in place with its value |
| PhpArrays.MergeIntoTail | public/class-two-factor-extensions-public.php:183 | every entry merging adds after the accumulator comes from one entry of the merged array: numbered on, or a string key new to the accumulator |
| PhpArrays.MergeIntoAppendsInt | public/class-two-factor-extensions-public.php:183 | every integer-keyed entry of the merged array is appended after the accumulator, numbered on in order |
| PhpArrays.GetMergeInto | public/class-two-factor-extensions-public.php:183 | for any accumulator and any merged array, a string key ends with the last value the merged array assigns it, or keeps its accumulated value |
| PhpArrays.GetRenumberString | public/class-two-factor-extensions-public.php:183 | renumbering does not change what any string key reads |
| PhpArrays.MergeOneString | public/class-two-factor-extensions-public.php:183 | merging one string-keyed entry equals assigning it into the renumbered array |
| Public.UserContactMethods | public/class-two-factor-extensions-public.php:178-184 | after the filter `mobile` reads the label and every other string key reads as before |
| Public.ContactMethodsLayout | public/class-two-factor-extensions-public.php:178-184 | entries keep their positions and values (`mobile` takes the label, a missing one is appended) and integer keys are renumbered 0, 1, ... as `array_merge` does |
| Public.EnableSmsProvider | public/class-two-factor-extensions-public.php:197-202 | the SMS provider ends up in the list; existing entries keep their order; a list that already has it is unchanged; otherwise it is appended exactly once |
| Public.EnableSmsProviderIdempotent | public/class-two-factor-extensions-public.php:199-202 | enabling twice gives the same list as enabling once |
| Public.SmsEnabledOnce | public/class-two-factor-extensions-public.php:199-201 | if the list held the provider at most once, it holds it exactly once afterwards |
| Public.StoreWithSmsEnabled | public/class-two-factor-extensions-public.php:197-202 | the enabled-providers meta is rewritten only when the provider was absent, then with the extended list; no other key changes |
| Public.CheckEnforcedTwoFactor | public/class-two-factor-extensions-public.php:192-213 | enforcement off changes nothing; with it on, the list is updated as StoreWithSmsEnabled says; a user with a non-empty `mobile` returns with the cookie untouched; only a user without one has the cookie cleared and gets the form, with the new login nonce recorded |
| Public.IntCast | public/class-two-factor-extensions-public.php:224 | PHP's `(int)` of a string: always within PHP's 64-bit range; a plain run of digits reads as its value; text starting (after whitespace) with no digit, dot or sign reads as 0 |
| Public.IntCastRoundTrip | public/class-two-factor-extensions-public.php:224 | the `(int)` cast of the decimal user ID the form emits gives back that ID, for every ID up to `PHP_INT_MAX` |
| Public.IntCastExponent | public/class-two-factor-extensions-public.php:224 | `(int)"1e1"` is 10: exponent notation is honoured |
| Public.IntCastFractionExponent | public/class-two-factor-extensions-public.php:224 | `(int)"1.5e1"` is 15 |
| Public.IntCastSpace | public/class-two-factor-extensions-public.php:224 | `(int)" 42abc"` is 42: leading whitespace skipped, trailing text ignored |
| Public.IntCastHex | public/class-two-factor-extensions-public.php:224 | `(int)"0x1A"` is 0: hexadecimal is not read |
| Public.RouteRequest | public/class-two-factor-extensions-public.php:220-245 | a provider runs iff both fields are present, the user exists, the nonce verifies and the named provider exists (or, with none named, a primary one does); a missing field or unknown user is ignored, a failed nonce redirects home, an unknown named provider is a 403 and a missing primary provider stops the handler |
| Public.RunProvider | public/class-two-factor-extensions-public.php:247-278 | once a provider is chosen: a resend runs the provider, records a new login nonce and never sets the cookie; a failed validation fires `wp_login_failed`, keeps the store and records a new nonce; a success consumes the SMS token, deletes the login nonce and then sets the cookie |
| Public.ValidateMobileNumber | public/class-two-factor-extensions-public.php:218-282 | early exits change nothing; a resend runs the provider and re-renders with a new login nonce recorded and without the cookie; a failed validation fires `wp_login_failed`, keeps the token and records a new login nonce, without the cookie; success consumes the token and deletes the login nonce before setting the cookie with `rememberme` iff the request has a truthy `rememberme` |

## Left out

- HTML and script output are not modelled. This covers `authentication_page`'s markup, `user_options`, `verify_mobile_html`, `show_mobile_number_verification` (except its login-nonce creation), the interim-login and customizer page, and the login script.
  - `verify_mobile_html` would fail in PHP before it renders anything, after every state change modelled here. Its first failing step is a call to the provider's `user_has_token` (public/class-two-factor-extensions-public.php:348), which is `protected` in the SMS class (includes/class-two-factor-extensions-sms.php:87) and so cannot be called from `Two_Factor_Extensions_Public`. Further on, it refers to `Two_Factor_Extensions_SMS::INPUT_NAME_SEND_CODE` (public/class-two-factor-extensions-public.php:394), which the SMS class does not define.
- `is_enforcing_mobile_two_factor` is called by `check_enforced_2fa` but is not defined in the SMS class shown. The model takes its answer as the input `enforcing`.
- The gateway branches of `generate_and_send_token` (`wp_sms`, `wp_sms_send`, the `no_sms_mechanism` error) cannot be reached because `SMS_DEBUG` is defined as true. Only the `wp_mail` branch is modelled. The message text and the `@example.com` address are left out; the model keeps the recipient's meta value and the code.
- Two-Factor and WordPress internals (nonce verification, `create_login_nonce` keys, `get_providers`, the primary provider, `get_enabled_providers_for_user`, `get_code`, `wp_hash`, `wp_mail`) are foreign. Their answers are inputs.
- Providers other than SMS in `validate_2fa_mobile_number`: their pre-process and validate answers are inputs, and the model assumes they leave the user-meta store alone.
- `$_POST` and `$_REQUEST` are modelled as one request map. `sanitize_key` on the nonce is folded into the nonce-verification answer.
- Public.IntCast: the cast follows PHP 7.1 and later on a 64-bit platform. It covers leading whitespace, a sign, digits, a fraction and an exponent, truncation toward zero and saturation at the 64-bit bounds. It does not model two things PHP does through floating point: values past double precision are rounded, and values past the double range read as 0 rather than saturating. PHP before 7.1 stops at the first non-digit, so there `"1e1"` reads as 1.
- Public.IntCastRoundTrip: holds only for IDs up to `PHP_INT_MAX`, which is as far as PHP user IDs go.
- PHP's normalisation of numeric-string array keys into integer keys is assumed to have happened before the filters see the array.
- `is_available_for_user` returns true for every user, so it has no member. `get_label`, the singletons (`get_instance`), the settings page, hook wiring, the activator and the deactivator have no behaviour worth stating.
- Timing is not modelled: there is no token expiry or attempt limit in the code, and the hash comparison is not claimed to be constant-time. Concurrent requests on the same user's meta are not modelled; requests run one at a time.
- The redirect after login (`login_redirect`, `wp_safe_redirect`) and `wp_die` pages are reduced to outcome values.
