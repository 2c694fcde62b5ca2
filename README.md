# hashed-device-fingerprint-js, modelled in Dafny

The library exports a single function, `generateHashedFingerprint(options)`. It works in five steps:

1. It merges the caller's partial options over a table of defaults.
2. It collects the enabled attributes of the browser (`navigator`, `screen`) in a fixed order: user agent, language, `WxH`, `N-bit`, platform, `N cores`, then an IP address.
3. It joins them with `||` and hashes the result with SHA-256.
4. If asked, it writes the digest into a cookie.
5. It resolves with the digest. A thrown `Error` is rethrown with a fixed prefix before its message; anything else thrown is rethrown as a fixed unknown-error message.

The IP is either given by the caller or looked up through an IP-echo service. A lookup that gives nothing just leaves the IP out.

The model is six modules, one file each:

- `Wrappers` (wrappers.dfy): `Option` and `Result`.
- `Options` (options.dfy): the partial options, `defaultFingerprintOptions()`, the `{ ...defaults, ...options }` spread, the destructuring with its own defaults, and `Merge`.
- `Environment` (environment.dfy): the `navigator` and `screen` snapshot, and the decimal rendering of numbers used by the template strings.
- `Joining` (join.dfy): `join('||')`, with a splitting partner.
- `Attributes` (parts.dfy): the toggles, the fixed order, what each toggle pushes, and the attribute list `Parts`.
- `Fingerprint` (fingerprint.dfy): the error wrapping, `fetchUserIP`, the cookie, the whole call as the function `Generate`, and the imperative `GenerateHashedFingerprint`.

`GenerateHashedFingerprint` builds the list with one push at a time, like the source. It assigns `document.cookie` on a `Document` object, and it is proved equal to `Generate`.

What comes from outside is passed in as parameters:

- the SHA-256 function (`hash: string -> string`, uninterpreted);
- the clock (`now`, in milliseconds);
- `Date.prototype.toUTCString` (`toUTCString: int -> string`);
- the snapshot of the host globals (`Env`, plus a nullable `Document`);
- what the IP-echo request returns (`IpifyReply`).

In the model, the `catch` block is reached when code reads a host global that is not defined (`navigator`, `screen` or `document`). That read throws a `ReferenceError` whose message is `<name> is not defined`. One example: with the default options, in a host that defines neither `navigator` nor `screen`, the call rejects with `Failed to generate fingerprint: navigator is not defined`. In a host that defines `navigator` but not `screen`, the defaults fail on `screen` instead.

Facts about `src/index.ts` that the model keeps:

- `useUserAgent` and `useLanguage` default to `true`.
- There is no server/header branch, no `environment` or `customData` option and no max-touch-points attribute.
- The cookie is attempted whenever `saveToCookie` is on. Without a `document` global, the call then rejects.

## Model

| member | source | states |
|---|---|---|
| `Options.DefaultFingerprintOptions` | src/index.ts:100-111 | the default table: every toggle and `saveToCookie` on, 7 cookie days, `userIP` null |
| `Options.Merge` | src/index.ts:22-32 | every supplied option wins; every omitted (or undefined) option takes its default: toggles and `saveToCookie` true, 7 days, `userIP` null |
| `Options.DefaultTablesAgree` | src/index.ts:22-32 | the two default tables give the same configuration, so an explicit `undefined`, which survives the spread and takes the destructuring default, gets the same value as an absent key; in the model the spread fills every key |
| `Environment.NatToString` | src/index.ts:40-44 | a number in a template string renders as a non-empty string of decimal digits, with no leading zero |
| `Environment.ParseNatToString` | src/index.ts:40-44 | reading the rendering back gives the number (round trip) |
| `Environment.NatToStringInjective` | src/index.ts:40-44 | different numbers render differently |
| `Environment.ScreenPartsDetermineScreen` | src/index.ts:40-41 | the `WxH` and `N-bit` parts determine width, height and colour depth |
| `Joining.JoinSnoc` | src/index.ts:58 | joining a list of at least one part, then one more: the join of the first parts, `\|\|`, then the last part |
| `Joining.SplitJoin` | src/index.ts:58 | splitting the joined string on `\|\|` gives back any non-empty list whose parts contain no `\|` |
| `Joining.JoinCollides` | src/index.ts:58 | the delimiter is not escaped: `["a","b"]` and `["a\|\|b"]` join to the same string |
| `Attributes.PartsFailure` | src/index.ts:37-44 | collection fails exactly when an enabled attribute reads an undefined global, naming the first in reading order |
| `Attributes.PartsInFixedOrder` | src/index.ts:35-56 | when no global is missing, the list is exactly the enabled parts: user agent, language, `WxH`, `N-bit`, platform, `N cores`, IP |
| `Attributes.PartCount` | src/index.ts:39-44 | the list has one part per enabled toggle, two for screen resolution, plus one if an IP was added |
| `Attributes.DisableRemovesOwnParts` | src/index.ts:37-56 | switching off one toggle removes exactly that toggle's parts, keeps the parts before and after it in order, and never makes collection fail |
| `Attributes.RemoveOwnParts` | src/index.ts:37-56 | the same for any toggle list in which the toggle occurs once |
| `Attributes.ExplicitIP` | src/index.ts:47-50 | with `useIP` on and a non-empty `userIP`, the lookup is not consulted, its answer is irrelevant, and `userIP` is the last part |
| `Attributes.IPDisabled` | src/index.ts:47 | with `useIP` off there is no IP part, no lookup, and neither `userIP` nor the lookup's answer matters |
| `Attributes.LookupFallback` | src/index.ts:51-55 | when the lookup runs: an empty or absent answer gives the same list as `useIP: false`, and a non-empty answer is the last part |
| `Fingerprint.WrapFailureKeepsCause` | src/index.ts:73-78 | a thrown `Error` becomes the fixed prefix followed by its message; anything else becomes the fixed unknown-error message, which does not start with that prefix |
| `Fingerprint.FetchUserIP` | src/index.ts:85-94 | the lookup never throws; it yields an address only for a reply whose `ip` is a non-empty string, and never yields the empty string |
| `Fingerprint.ExpiryMs` | src/index.ts:65-68 | the expiry is `now` plus exactly `cookieExpiryDays` whole days of 86 400 000 ms |
| `Fingerprint.CookieValueRoundTrip` | src/index.ts:69 | the cookie string carries the digest under `hashedFingerprint`, up to the first `;` |
| `Fingerprint.GenerateResult` | src/index.ts:34-78 | the call resolves iff no global it reads is missing; it then resolves with the hash of the `\|\|`-joined list; otherwise it rejects with the wrapped `ReferenceError` of the first missing global (`document` last) |
| `Fingerprint.CookieWrittenIffSaveToCookie` | src/index.ts:63-72 | a cookie is written iff `saveToCookie` is on and the call resolves; it holds the returned digest and expires `now + days × 24 × 60 × 60 × 1000` |
| `Fingerprint.LookupAwaitedOnlyWhenNeeded` | src/index.ts:47-56 | the lookup is awaited iff `useIP` is on, `userIP` is falsy and collection reached the IP step |
| `Fingerprint.LookupIrrelevant` | src/index.ts:47-50 | with `useIP` off, or with a non-empty `userIP`, the lookup is never awaited and the whole outcome does not depend on it |
| `Fingerprint.FailedLookupSameAsNoIP` | src/index.ts:51-55 | a failed lookup, or one with an empty address, gives the same result and cookie as `useIP: false` |
| `Fingerprint.NothingCollectedHashesEmptyString` | src/index.ts:35-61 | with every attribute and the cookie off, the call needs no host global and resolves with the hash of the empty string |
| `Fingerprint.DefaultsFailWithoutBrowser` | src/index.ts:21-37 | with the default options and no host globals, the call rejects with the wrapped message for `navigator` |
| `Fingerprint.CollectDeviceData` | src/index.ts:35-56 | the conditional pushes give exactly `Parts` (the list, or the missing global); the lookup is awaited iff collection succeeds and the IP must be looked up |
| `Fingerprint.GenerateHashedFingerprint` | src/index.ts:21-79 | the imperative call settles as `Generate` says, awaits the lookup and writes the cookie exactly when `Generate` says, and assigns `document.cookie` the cookie string, or leaves it unchanged |

## Left out

- SHA-256 (`js-sha256`) is a foreign library; it is the uninterpreted parameter `hash`.
- The HTTP request to the IP-echo service and the JSON parsing are I/O. Their outcome is the input `IpifyReply`. The `console.error` logging is I/O and is not modelled.
- `async`/`await`: there is no concurrency. The one await is the point where `FetchUserIP(reply)` is read, which the ghost flag `lookedUp` records.
- `Date`, `setTime` and the `toUTCString()` format are not modelled. The expiry is an integer number of milliseconds, and the date string comes from the parameter `toUTCString`.
- The browser's cookie jar is not modelled. `Document.cookie` holds the string last assigned to it.
- JavaScript numbers are not modelled. `cookieExpiryDays` and the screen and navigator numbers are natural numbers: no fractions, negatives, `NaN` or `undefined`, and none of the exponent notation that `toString` uses from 10^21 up.
- Options.Spread: an explicit `undefined` survives the JavaScript spread and then takes the destructuring default; `Spread` treats it as an absent key instead. The two default tables agree, so the merged value is the same.
- ReferenceError: the message `<name> is not defined` is the V8 and SpiderMonkey wording; other engines word it differently (JavaScriptCore says `Can't find variable: <name>`), and those wordings are not modelled.
- `FetchUserIP`: an `ip` field that holds a non-string JSON value is not modelled.
- Input that TypeScript's types exclude is not modelled: non-boolean toggles and a `null` options object.
- Failures other than reads of undefined globals are not modelled: a throwing hash, or a `SecurityError` on the cookie. `WrapFailure` still covers a thrown non-`Error` value.
- The test script only prints hashes and asserts nothing. The build script is esbuild tooling. Neither is part of this model.
