/**
 * `generateHashedFingerprint`: merge the options, collect the attributes,
 * join and hash them, optionally write the cookie, and wrap any failure.
 * The hash (`sha256`), the clock and `toUTCString` are parameters.
 */
module Fingerprint {
  import opened Wrappers
  import opened Options
  import opened Environment
  import opened Joining
  import opened Attributes

  // ---------------------------------------------------------------- failures

  /** A thrown JavaScript value: an `Error` with its message, or anything else. */
  datatype Thrown = ErrorInstance(message: string) | NonError

  /** What reading an undefined global throws. */
  function ReferenceError(name: string): Thrown {
    ErrorInstance(name + " is not defined")
  }

  const FailurePrefix: string := "Failed to generate fingerprint: "
  // written as two literals so the verifier can look at its first character
  const UnknownFailure: string := "An unknown error occurred " + "during fingerprint generation."

  /** The `catch` block: the message of the error it rethrows. */
  function WrapFailure(t: Thrown): string {
    match t
    case ErrorInstance(m) => FailurePrefix + m
    case NonError => UnknownFailure
  }

  /**
   * The wrapped message keeps the cause: an `Error`'s message follows the
   * fixed prefix, and the unknown-error message cannot be mistaken for one.
   */
  lemma WrapFailureKeepsCause(t: Thrown)
    ensures t.ErrorInstance? ==>
      |WrapFailure(t)| >= |FailurePrefix|
      && WrapFailure(t)[..|FailurePrefix|] == FailurePrefix
      && WrapFailure(t)[|FailurePrefix|..] == t.message
    ensures t.NonError? ==> WrapFailure(t) == UnknownFailure
    ensures UnknownFailure[..|FailurePrefix|] != FailurePrefix
  {
    assert UnknownFailure[..|FailurePrefix|][0] == 'A';
  }

  // ---------------------------------------------------------------- IP lookup

  /**
   * What the request to the IP-echo service gives: the request is rejected,
   * the response is not `ok`, the body is not JSON, or the parsed body's
   * `ip` field (`None` when missing or `null`).
   */
  datatype IpifyReply = Rejected | NotOk | Malformed | Body(ip: Option<string>)

  /** `fetchUserIP()`: the address, or `null` on every failure; it never throws. */
  function FetchUserIP(reply: IpifyReply): (r: Option<string>)
    ensures r.Some? <==> reply.Body? && Truthy(reply.ip)
    ensures r.Some? ==> r == reply.ip && r.value != ""
  {
    match reply
    case Body(ip) => if Truthy(ip) then ip else None
    case _ => None
  }

  // ---------------------------------------------------------------- cookie

  const MillisPerDay: nat := 24 * 60 * 60 * 1000

  /** The cookie's expiry instant, in milliseconds since the epoch. */
  function ExpiryMs(now: int, days: nat): (e: int)
    ensures e >= now && (e == now <==> days == 0)
    ensures (e - now) % MillisPerDay == 0 && (e - now) / MillisPerDay == days
  {
    now + days * MillisPerDay
  }

  /** The cookie write the call performs: the digest and its expiry instant. */
  datatype CookieWrite = CookieWrite(digest: string, expiresMs: int)

  const CookiePrefix: string := "hashedFingerprint="

  /** The string assigned to `document.cookie`; the date format is a parameter. */
  function CookieString(w: CookieWrite, toUTCString: int -> string): string {
    CookiePrefix + w.digest + "; expires=" + toUTCString(w.expiresMs) + "; path=/"
  }

  function UpToSemicolon(s: string): string {
    if s == [] || s[0] == ';' then [] else [s[0]] + UpToSemicolon(s[1..])
  }

  /** Reads the fingerprint back from a cookie string. */
  function CookieValue(cookie: string): string {
    if |cookie| >= |CookiePrefix| && cookie[..|CookiePrefix|] == CookiePrefix
    then UpToSemicolon(cookie[|CookiePrefix|..])
    else ""
  }

  lemma {:induction false} UpToSemicolonPrefix(d: string, rest: string)
    requires ';' !in d
    ensures UpToSemicolon(d + ";" + rest) == d
  {
    if d != [] {
      assert d[0] in d;
      assert forall ch :: ch in d[1..] ==> ch in d;
      assert (d + ";" + rest)[1..] == d[1..] + ";" + rest;
      UpToSemicolonPrefix(d[1..], rest);
      assert [d[0]] + d[1..] == d;
    } else {
      assert (d + ";" + rest)[0] == ';';
    }
  }

  /** The written cookie carries the digest under `hashedFingerprint`. */
  lemma CookieValueRoundTrip(w: CookieWrite, toUTCString: int -> string)
    requires ';' !in w.digest
    ensures CookieValue(CookieString(w, toUTCString)) == w.digest
  {
    var rest := " expires=" + toUTCString(w.expiresMs) + "; path=/";
    var s := CookieString(w, toUTCString);
    assert s == CookiePrefix + (w.digest + ";" + rest);
    assert s[..|CookiePrefix|] == CookiePrefix;
    assert s[|CookiePrefix|..] == w.digest + ";" + rest;
    UpToSemicolonPrefix(w.digest, rest);
  }

  // ---------------------------------------------------------------- composition

  /**
   * What one call does: the settled promise (the digest, or the rethrown
   * message), whether the IP lookup was awaited, and the cookie write, if any.
   */
  datatype Outcome = Outcome(result: Result<string, string>, lookedUp: bool, cookie: Option<CookieWrite>)

  /** The whole call, as a function of the options and the world around it. */
  function Generate(options: FingerprintOptions, env: Env, fetched: Option<string>,
                    hash: string -> string, now: int, hasDocument: bool): Outcome
  {
    var c := Merge(options);
    match Parts(c, env, fetched)
    case Err(name) => Outcome(Err(WrapFailure(ReferenceError(name))), false, None)
    case Ok(parts) =>
      var digest := hash(Join(parts));
      if !c.saveToCookie then Outcome(Ok(digest), ConsultsLookup(c), None)
      else if !hasDocument then Outcome(Err(WrapFailure(ReferenceError("document"))), ConsultsLookup(c), None)
      else Outcome(Ok(digest), ConsultsLookup(c), Some(CookieWrite(digest, ExpiryMs(now, c.cookieExpiryDays))))
  }

  /**
   * The call resolves exactly when every global it reads is defined; it then
   * resolves with the hash of the joined attribute list. Otherwise it rejects
   * with the wrapped `ReferenceError` of the first undefined global.
   */
  lemma GenerateResult(options: FingerprintOptions, env: Env, fetched: Option<string>,
                       hash: string -> string, now: int, hasDocument: bool)
    ensures var c, o := Merge(options), Generate(options, env, fetched, hash, now, hasDocument);
      (o.result.Ok? <==> MissingGlobal(c, env).None? && (c.saveToCookie ==> hasDocument))
      && (o.result.Ok? ==> Parts(c, env, fetched).Ok? && o.result.value == hash(Join(Parts(c, env, fetched).value)))
      && (MissingGlobal(c, env).Some? ==>
            o.result == Err(FailurePrefix + MissingGlobal(c, env).value + " is not defined"))
      && (MissingGlobal(c, env).None? && c.saveToCookie && !hasDocument ==>
            o.result == Err(FailurePrefix + "document is not defined"))
  {
    var c := Merge(options);
    PartsFailure(c, env, fetched);
    if MissingGlobal(c, env).Some? {
      var n := MissingGlobal(c, env).value;
      assert FailurePrefix + (n + " is not defined") == FailurePrefix + n + " is not defined";
    }
    assert FailurePrefix + ("document" + " is not defined") == FailurePrefix + "document is not defined";
  }

  /**
   * A cookie is written exactly when `saveToCookie` is on and the call
   * resolves; it holds the returned digest and expires `cookieExpiryDays`
   * days after `now`.
   */
  lemma CookieWrittenIffSaveToCookie(options: FingerprintOptions, env: Env, fetched: Option<string>,
                                     hash: string -> string, now: int, hasDocument: bool)
    ensures var c, o := Merge(options), Generate(options, env, fetched, hash, now, hasDocument);
      (o.cookie.Some? <==> c.saveToCookie && o.result.Ok?)
      && (o.cookie.Some? ==>
            o.cookie.value.digest == o.result.value
            && o.cookie.value.expiresMs == now + c.cookieExpiryDays * 24 * 60 * 60 * 1000)
  {
  }

  /** The lookup is awaited exactly when it is needed and collection got that far. */
  lemma LookupAwaitedOnlyWhenNeeded(options: FingerprintOptions, env: Env, fetched: Option<string>,
                                    hash: string -> string, now: int, hasDocument: bool)
    ensures var c := Merge(options);
      Generate(options, env, fetched, hash, now, hasDocument).lookedUp
      <==> c.useIP && !Truthy(c.userIP) && MissingGlobal(c, env).None?
  {
    PartsFailure(Merge(options), env, fetched);
  }

  /**
   * With a non-empty `userIP` (and `useIP` on), or with `useIP` off, the
   * lookup is not awaited and its answer does not change anything.
   */
  lemma LookupIrrelevant(options: FingerprintOptions, env: Env, f1: Option<string>, f2: Option<string>,
                         hash: string -> string, now: int, hasDocument: bool)
    requires var c := Merge(options); !c.useIP || Truthy(c.userIP)
    ensures !Generate(options, env, f1, hash, now, hasDocument).lookedUp
    ensures Generate(options, env, f1, hash, now, hasDocument) == Generate(options, env, f2, hash, now, hasDocument)
  {
    var c := Merge(options);
    if c.useIP {
      ExplicitIP(c, env, f1);
      ExplicitIP(c, env, f2);
    } else {
      IPDisabled(c, env, f1, c.userIP, f2);
      assert c.(userIP := c.userIP) == c;
    }
  }

  /**
   * A lookup that fails, or answers an empty address, leaves the call as it
   * would be with `useIP: false`: the same digest, the same error, the same
   * cookie.
   */
  lemma FailedLookupSameAsNoIP(options: FingerprintOptions, env: Env, reply: IpifyReply,
                               hash: string -> string, now: int, hasDocument: bool)
    requires ConsultsLookup(Merge(options))
    requires !(reply.Body? && Truthy(reply.ip))
    ensures var noIP := options.(useIP := Some(false));
      var o, p := Generate(options, env, FetchUserIP(reply), hash, now, hasDocument),
                  Generate(noIP, env, FetchUserIP(reply), hash, now, hasDocument);
      o.result == p.result && o.cookie == p.cookie
  {
    var c := Merge(options);
    assert Merge(options.(useIP := Some(false))) == c.(useIP := false);
    LookupFallback(c, env, FetchUserIP(reply));
  }

  /**
   * With every attribute off and no cookie, the call needs no host global and
   * resolves with the hash of the empty string.
   */
  lemma NothingCollectedHashesEmptyString(options: FingerprintOptions, env: Env, fetched: Option<string>,
                                          hash: string -> string, now: int, hasDocument: bool)
    requires var c := Merge(options);
      !c.useUserAgent && !c.useLanguage && !c.useScreenResolution && !c.usePlatform
      && !c.useConcurrency && !c.useIP && !c.saveToCookie
    ensures Generate(options, env, fetched, hash, now, hasDocument) == Outcome(Ok(hash("")), false, None)
  {
    var c := Merge(options);
    PartsInFixedOrder(c, env, fetched);
  }

  /** In a host that defines neither `navigator` nor `screen`, the defaults fail on the first read of `navigator`. */
  lemma DefaultsFailWithoutBrowser(fetched: Option<string>, hash: string -> string, now: int)
    ensures Generate(NoOptions(), Env(None, None), fetched, hash, now, false).result
            == Err(FailurePrefix + "navigator is not defined")
  {
    var c, env := Merge(NoOptions()), Env(None, None);
    assert c.useUserAgent;
    assert MissingGlobal(c, env) == Some("navigator");
    PartsFailure(c, env, fetched);
    assert "navigator" + " is not defined" == "navigator is not defined";
  }

  // ---------------------------------------------------------------- the call

  /** The browser's `document`; only the `cookie` assignment is modelled. */
  class Document {
    var cookie: string

    constructor (initial: string)
      ensures cookie == initial
    {
      cookie := initial;
    }
  }

  /**
   * The pushes of `generateHashedFingerprint` that fill `deviceDataParts`,
   * in the order the source makes them. An `Err` names the undefined global
   * whose read threw; `lookedUp` records whether `fetchUserIP()` was awaited.
   */
  method CollectDeviceData(c: Config, env: Env, reply: IpifyReply)
    returns (r: Result<seq<string>, string>, ghost lookedUp: bool)
    ensures r == Parts(c, env, FetchUserIP(reply))
    ensures lookedUp <==> r.Ok? && ConsultsLookup(c)
  {
    ghost var fetched := FetchUserIP(reply);
    PartsFailure(c, env, fetched);
    lookedUp := false;
    // what each group of pushes adds, as the fixed-order lemma lists them
    ghost var p1 := if c.useUserAgent && env.navigator.Some? then [env.navigator.value.userAgent] else [];
    ghost var p2 := if c.useLanguage && env.navigator.Some? then [env.navigator.value.language] else [];
    ghost var p3 := if c.useScreenResolution && env.screen.Some?
                    then [ResolutionPart(env.screen.value), ColorDepthPart(env.screen.value)] else [];
    ghost var p4 := if c.usePlatform && env.navigator.Some? then [env.navigator.value.platform] else [];
    ghost var p5 := if c.useConcurrency && env.navigator.Some? then [ConcurrencyPart(env.navigator.value)] else [];
    ghost var p6 := if IPPart(c, fetched).Some? then [IPPart(c, fetched).value] else [];

    var deviceDataParts: seq<string> := [];
    if c.useUserAgent {
      if env.navigator.None? { return Err("navigator"), false; }
      deviceDataParts := deviceDataParts + [env.navigator.value.userAgent];
    }
    assert deviceDataParts == p1;
    if c.useLanguage {
      if env.navigator.None? { return Err("navigator"), false; }
      deviceDataParts := deviceDataParts + [env.navigator.value.language];
    }
    assert deviceDataParts == p1 + p2;
    if c.useScreenResolution {
      if env.screen.None? { return Err("screen"), false; }
      deviceDataParts := deviceDataParts + [ResolutionPart(env.screen.value)];
      deviceDataParts := deviceDataParts + [ColorDepthPart(env.screen.value)];
    }
    assert deviceDataParts == p1 + p2 + p3;
    if c.usePlatform {
      if env.navigator.None? { return Err("navigator"), false; }
      deviceDataParts := deviceDataParts + [env.navigator.value.platform];
    }
    assert deviceDataParts == p1 + p2 + p3 + p4;
    if c.useConcurrency {
      if env.navigator.None? { return Err("navigator"), false; }
      deviceDataParts := deviceDataParts + [ConcurrencyPart(env.navigator.value)];
    }
    assert deviceDataParts == p1 + p2 + p3 + p4 + p5;
    if c.useIP {
      if Truthy(c.userIP) {
        deviceDataParts := deviceDataParts + [c.userIP.value];
      } else {
        lookedUp := true;
        var ip := FetchUserIP(reply);
        if Truthy(ip) {
          deviceDataParts := deviceDataParts + [ip.value];
        }
      }
    }
    assert deviceDataParts == p1 + p2 + p3 + p4 + p5 + p6;
    PartsInFixedOrder(c, env, fetched);
    r := Ok(deviceDataParts);
  }

  /**
   * `generateHashedFingerprint(options)`. `reply` is what the IP-echo request
   * gives if it is made; `document` is `null` where the global is undefined.
   * `lookedUp` and `written` record the await and the cookie effect.
   */
  method GenerateHashedFingerprint(options: FingerprintOptions, env: Env, reply: IpifyReply,
                                   hash: string -> string, now: int, toUTCString: int -> string,
                                   document: Document?)
    returns (r: Result<string, string>, ghost lookedUp: bool, ghost written: Option<CookieWrite>)
    modifies document
    ensures var o := Generate(options, env, FetchUserIP(reply), hash, now, document != null);
      r == o.result && lookedUp == o.lookedUp && written == o.cookie
    ensures document != null ==>
      document.cookie == if written.Some? then CookieString(written.value, toUTCString) else old(document.cookie)
  {
    var c := Merge(options);
    written := None;
    var collected;
    collected, lookedUp := CollectDeviceData(c, env, reply);
    if collected.Err? {
      r := Err(WrapFailure(ReferenceError(collected.error)));
      return;
    }
    var deviceData := Join(collected.value);
    var hashedFingerprint := hash(deviceData);

    if c.saveToCookie {
      if document == null { r := Err(WrapFailure(ReferenceError("document"))); return; }
      var write := CookieWrite(hashedFingerprint, ExpiryMs(now, c.cookieExpiryDays));
      document.cookie := CookieString(write, toUTCString);
      written := Some(write);
    }
    r := Ok(hashedFingerprint);
  }
}
