/**
 * The caller's partial options, the default table, and the merge that turns
 * them into the effective configuration used by the composer.
 */
module Options {
  import opened Wrappers

  /**
   * `Partial<FingerprintOptions>` as a caller passes it. `None` means the key is
   * absent or holds `undefined`. An absent key takes the table value through
   * the spread; an explicit `undefined` survives the spread and takes the
   * destructuring default. The two tables agree, so both get the same value.
   * `userIP` is `string | null`: `Some(None)` is an explicit `null`.
   */
  datatype FingerprintOptions = FingerprintOptions(
    saveToCookie: Option<bool>,
    cookieExpiryDays: Option<nat>,
    useUserAgent: Option<bool>,
    useLanguage: Option<bool>,
    useScreenResolution: Option<bool>,
    usePlatform: Option<bool>,
    useConcurrency: Option<bool>,
    useIP: Option<bool>,
    userIP: Option<Option<string>>)

  /** The effective configuration after the merge: every field has a value. */
  datatype Config = Config(
    saveToCookie: bool,
    cookieExpiryDays: nat,
    useUserAgent: bool,
    useLanguage: bool,
    useScreenResolution: bool,
    usePlatform: bool,
    useConcurrency: bool,
    useIP: bool,
    userIP: Option<string>)

  /** The `options = {}` default parameter. */
  function NoOptions(): FingerprintOptions {
    FingerprintOptions(None, None, None, None, None, None, None, None, None)
  }

  /** `defaultFingerprintOptions()`: every feature on, a week-long cookie, no IP. */
  function DefaultFingerprintOptions(): (d: FingerprintOptions)
    ensures d.saveToCookie == Some(true) && d.cookieExpiryDays == Some(7)
    ensures d.useUserAgent == d.useLanguage == d.useScreenResolution == Some(true)
    ensures d.usePlatform == d.useConcurrency == d.useIP == Some(true)
    ensures d.userIP == Some(None)
  {
    FingerprintOptions(Some(true), Some(7), Some(true), Some(true), Some(true),
                       Some(true), Some(true), Some(true), Some(None))
  }

  /**
   * `{ ...base, ...over }`: a key present in `over` replaces the one in `base`.
   * An explicit `undefined` in `over` is treated here as an absent key.
   */
  function Spread(base: FingerprintOptions, over: FingerprintOptions): FingerprintOptions {
    FingerprintOptions(
      if over.saveToCookie.Some? then over.saveToCookie else base.saveToCookie,
      if over.cookieExpiryDays.Some? then over.cookieExpiryDays else base.cookieExpiryDays,
      if over.useUserAgent.Some? then over.useUserAgent else base.useUserAgent,
      if over.useLanguage.Some? then over.useLanguage else base.useLanguage,
      if over.useScreenResolution.Some? then over.useScreenResolution else base.useScreenResolution,
      if over.usePlatform.Some? then over.usePlatform else base.usePlatform,
      if over.useConcurrency.Some? then over.useConcurrency else base.useConcurrency,
      if over.useIP.Some? then over.useIP else base.useIP,
      if over.userIP.Some? then over.userIP else base.userIP)
  }

  /** The destructuring `const { saveToCookie = true, … }` with its own defaults. */
  function Destructure(o: FingerprintOptions): Config {
    Config(
      o.saveToCookie.GetOr(true),
      o.cookieExpiryDays.GetOr(7),
      o.useUserAgent.GetOr(true),
      o.useLanguage.GetOr(true),
      o.useScreenResolution.GetOr(true),
      o.usePlatform.GetOr(true),
      o.useConcurrency.GetOr(true),
      o.useIP.GetOr(true),
      o.userIP.GetOr(None))
  }

  /**
   * The effective configuration: a supplied option wins, an omitted one takes
   * its default (every toggle on, a cookie for 7 days, no explicit IP).
   */
  function Merge(options: FingerprintOptions): (c: Config)
    ensures options.saveToCookie.Some? ==> c.saveToCookie == options.saveToCookie.value
    ensures options.saveToCookie.None? ==> c.saveToCookie
    ensures options.cookieExpiryDays.Some? ==> c.cookieExpiryDays == options.cookieExpiryDays.value
    ensures options.cookieExpiryDays.None? ==> c.cookieExpiryDays == 7
    ensures options.useUserAgent.Some? ==> c.useUserAgent == options.useUserAgent.value
    ensures options.useUserAgent.None? ==> c.useUserAgent
    ensures options.useLanguage.Some? ==> c.useLanguage == options.useLanguage.value
    ensures options.useLanguage.None? ==> c.useLanguage
    ensures options.useScreenResolution.Some? ==> c.useScreenResolution == options.useScreenResolution.value
    ensures options.useScreenResolution.None? ==> c.useScreenResolution
    ensures options.usePlatform.Some? ==> c.usePlatform == options.usePlatform.value
    ensures options.usePlatform.None? ==> c.usePlatform
    ensures options.useConcurrency.Some? ==> c.useConcurrency == options.useConcurrency.value
    ensures options.useConcurrency.None? ==> c.useConcurrency
    ensures options.useIP.Some? ==> c.useIP == options.useIP.value
    ensures options.useIP.None? ==> c.useIP
    ensures options.userIP.Some? ==> c.userIP == options.userIP.value
    ensures options.userIP.None? ==> c.userIP.None?
  {
    Destructure(Spread(DefaultFingerprintOptions(), options))
  }

  /**
   * In the model the spread over the default table fills every key. In
   * JavaScript an explicit `undefined` survives the spread and the
   * destructuring default fires for it; the two default tables agree, so that
   * key gets the same value as the model gives it.
   */
  lemma DefaultTablesAgree(options: FingerprintOptions)
    ensures var s := Spread(DefaultFingerprintOptions(), options);
      s.saveToCookie.Some? && s.cookieExpiryDays.Some? && s.useUserAgent.Some?
      && s.useLanguage.Some? && s.useScreenResolution.Some? && s.usePlatform.Some?
      && s.useConcurrency.Some? && s.useIP.Some? && s.userIP.Some?
    ensures Destructure(DefaultFingerprintOptions()) == Destructure(NoOptions())
  {
  }
}
