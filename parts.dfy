/**
 * Which attributes the composer collects, and in what order: the list that
 * `generateHashedFingerprint` builds with its conditional pushes.
 */
module Attributes {
  import opened Wrappers
  import opened Options
  import opened Environment

  /** One toggle per attribute group; `ScreenResolution` covers two parts. */
  datatype Toggle = UserAgent | Language | ScreenResolution | Platform | Concurrency | IP

  /** The fixed collection order. */
  const Order: seq<Toggle> := [UserAgent, Language, ScreenResolution, Platform, Concurrency, IP]

  predicate Enabled(c: Config, t: Toggle) {
    match t
    case UserAgent => c.useUserAgent
    case Language => c.useLanguage
    case ScreenResolution => c.useScreenResolution
    case Platform => c.usePlatform
    case Concurrency => c.useConcurrency
    case IP => c.useIP
  }

  /** The configuration with one toggle switched off and everything else kept. */
  function Disable(c: Config, t: Toggle): (d: Config)
    ensures !Enabled(d, t)
    ensures forall u :: u != t ==> Enabled(d, u) == Enabled(c, u)
    ensures d.userIP == c.userIP && d.saveToCookie == c.saveToCookie
    ensures d.cookieExpiryDays == c.cookieExpiryDays
  {
    match t
    case UserAgent => c.(useUserAgent := false)
    case Language => c.(useLanguage := false)
    case ScreenResolution => c.(useScreenResolution := false)
    case Platform => c.(usePlatform := false)
    case Concurrency => c.(useConcurrency := false)
    case IP => c.(useIP := false)
  }

  /** JavaScript truthiness of a `string | null`: only a non-empty string is true. */
  predicate Truthy(v: Option<string>) { v.Some? && v.value != "" }

  /** The external IP lookup runs when the IP is wanted and no usable `userIP` was given. */
  predicate ConsultsLookup(c: Config) { c.useIP && !Truthy(c.userIP) }

  /**
   * The IP attribute, if one is added: the explicit `userIP` when truthy, else
   * the lookup's answer when truthy, else nothing.
   */
  function IPPart(c: Config, fetched: Option<string>): Option<string> {
    if !c.useIP then None
    else if Truthy(c.userIP) then c.userIP
    else if Truthy(fetched) then fetched
    else None
  }

  /**
   * What one enabled toggle pushes, or the name of the undefined global that
   * reading its attribute throws a `ReferenceError` for.
   */
  function Contribution(t: Toggle, c: Config, env: Env, fetched: Option<string>): Result<seq<string>, string> {
    match t
    case UserAgent =>
      if env.navigator.None? then Err("navigator") else Ok([env.navigator.value.userAgent])
    case Language =>
      if env.navigator.None? then Err("navigator") else Ok([env.navigator.value.language])
    case ScreenResolution =>
      if env.screen.None? then Err("screen")
      else Ok([ResolutionPart(env.screen.value), ColorDepthPart(env.screen.value)])
    case Platform =>
      if env.navigator.None? then Err("navigator") else Ok([env.navigator.value.platform])
    case Concurrency =>
      if env.navigator.None? then Err("navigator") else Ok([ConcurrencyPart(env.navigator.value)])
    case IP =>
      match IPPart(c, fetched)
      case Some(ip) => Ok([ip])
      case None => Ok([])
  }

  /** One step of the collection: a disabled toggle pushes nothing. */
  function Step(t: Toggle, c: Config, env: Env, fetched: Option<string>): Result<seq<string>, string> {
    if Enabled(c, t) then Contribution(t, c, env, fetched) else Ok([])
  }

  /** Sequencing of two steps: the first failure wins, otherwise the pushes concatenate. */
  function Then(first: Result<seq<string>, string>, rest: Result<seq<string>, string>): Result<seq<string>, string> {
    if first.Err? then first else if rest.Err? then rest else Ok(first.value + rest.value)
  }

  function Collect(ts: seq<Toggle>, c: Config, env: Env, fetched: Option<string>): Result<seq<string>, string> {
    if ts == [] then Ok([]) else Then(Step(ts[0], c, env, fetched), Collect(ts[1..], c, env, fetched))
  }

  /** The attribute list of a configuration, or the global whose absence aborts it. */
  function Parts(c: Config, env: Env, fetched: Option<string>): Result<seq<string>, string> {
    Collect(Order, c, env, fetched)
  }

  /** The first undefined global an enabled attribute reads, in reading order. */
  function MissingGlobal(c: Config, env: Env): Option<string> {
    if (c.useUserAgent || c.useLanguage) && env.navigator.None? then Some("navigator")
    else if c.useScreenResolution && env.screen.None? then Some("screen")
    else if (c.usePlatform || c.useConcurrency) && env.navigator.None? then Some("navigator")
    else None
  }

  function CountIf(b: bool): nat { if b then 1 else 0 }

  /** Position of each toggle in the fixed order. */
  function Rank(t: Toggle): (k: nat)
    ensures k < |Order| && Order[k] == t
    ensures t !in Order[..k] && t !in Order[k + 1..]
  {
    match t
    case UserAgent => 0
    case Language => 1
    case ScreenResolution => 2
    case Platform => 3
    case Concurrency => 4
    case IP => 5
  }

  lemma CollectCons(t: Toggle, ts: seq<Toggle>, c: Config, env: Env, f: Option<string>)
    ensures Collect([t] + ts, c, env, f) == Then(Step(t, c, env, f), Collect(ts, c, env, f))
  {
    assert ([t] + ts)[0] == t && ([t] + ts)[1..] == ts;
  }

  lemma PartsUnfold(c: Config, env: Env, f: Option<string>)
    ensures Parts(c, env, f) ==
      Then(Step(UserAgent, c, env, f),
      Then(Step(Language, c, env, f),
      Then(Step(ScreenResolution, c, env, f),
      Then(Step(Platform, c, env, f),
      Then(Step(Concurrency, c, env, f),
      Then(Step(IP, c, env, f), Ok([])))))))
  {
    var o := Order;
    assert o == [UserAgent] + ([Language] + ([ScreenResolution] + ([Platform] + ([Concurrency] + ([IP] + [])))));
    CollectCons(UserAgent, o[1..], c, env, f);
    CollectCons(Language, o[2..], c, env, f);
    CollectCons(ScreenResolution, o[3..], c, env, f);
    CollectCons(Platform, o[4..], c, env, f);
    CollectCons(Concurrency, o[5..], c, env, f);
    CollectCons(IP, [], c, env, f);
  }

  /**
   * Collection fails exactly when an enabled attribute reads an undefined
   * global, and it fails on the first such global in reading order.
   */
  lemma PartsFailure(c: Config, env: Env, f: Option<string>)
    ensures Parts(c, env, f).Err? <==> MissingGlobal(c, env).Some?
    ensures Parts(c, env, f).Err? ==> Parts(c, env, f).error == MissingGlobal(c, env).value
  {
    PartsUnfold(c, env, f);
  }

  /**
   * When every global it reads is defined, the list holds exactly the enabled
   * attributes, in the order user-agent, language, `WxH`, `N-bit`, platform,
   * `N cores`, IP.
   */
  lemma PartsInFixedOrder(c: Config, env: Env, f: Option<string>)
    requires MissingGlobal(c, env).None?
    ensures Parts(c, env, f) == Ok(
      (if c.useUserAgent then [env.navigator.value.userAgent] else [])
      + (if c.useLanguage then [env.navigator.value.language] else [])
      + (if c.useScreenResolution
         then [ResolutionPart(env.screen.value), ColorDepthPart(env.screen.value)] else [])
      + (if c.usePlatform then [env.navigator.value.platform] else [])
      + (if c.useConcurrency then [ConcurrencyPart(env.navigator.value)] else [])
      + (if IPPart(c, f).Some? then [IPPart(c, f).value] else []))
  {
    PartsUnfold(c, env, f);
    var p1 := if c.useUserAgent then [env.navigator.value.userAgent] else [];
    var p2 := if c.useLanguage then [env.navigator.value.language] else [];
    var p3 := if c.useScreenResolution
              then [ResolutionPart(env.screen.value), ColorDepthPart(env.screen.value)] else [];
    var p4 := if c.usePlatform then [env.navigator.value.platform] else [];
    var p5 := if c.useConcurrency then [ConcurrencyPart(env.navigator.value)] else [];
    var p6 := if IPPart(c, f).Some? then [IPPart(c, f).value] else [];
    assert Step(UserAgent, c, env, f) == Ok(p1);
    assert Step(Language, c, env, f) == Ok(p2);
    assert Step(ScreenResolution, c, env, f) == Ok(p3);
    assert Step(Platform, c, env, f) == Ok(p4);
    assert Step(Concurrency, c, env, f) == Ok(p5);
    assert Step(IP, c, env, f) == Ok(p6);
    assert p6 + [] == p6;
    var t6 := Then(Step(IP, c, env, f), Ok([]));
    assert t6 == Ok(p6);
    var t5 := Then(Step(Concurrency, c, env, f), t6);
    assert t5 == Ok(p5 + p6);
    var t4 := Then(Step(Platform, c, env, f), t5);
    assert t4 == Ok(p4 + (p5 + p6));
    var t3 := Then(Step(ScreenResolution, c, env, f), t4);
    assert t3 == Ok(p3 + (p4 + (p5 + p6)));
    var t2 := Then(Step(Language, c, env, f), t3);
    assert t2 == Ok(p2 + (p3 + (p4 + (p5 + p6))));
    assert Parts(c, env, f) == Then(Step(UserAgent, c, env, f), t2);
    ConcatAssoc(p4, p5, p6);
    ConcatAssoc(p3, p4 + p5, p6);
    ConcatAssoc(p2, p3 + p4 + p5, p6);
    ConcatAssoc(p1, p2 + p3 + p4 + p5, p6);
    ConcatAssoc(p3, p4, p5);
    ConcatAssoc(p2, p3 + p4, p5);
    ConcatAssoc(p1, p2 + p3 + p4, p5);
    ConcatAssoc(p2, p3, p4);
    ConcatAssoc(p1, p2 + p3, p4);
    ConcatAssoc(p1, p2, p3);
  }

  /**
   * One part per enabled toggle, two for the screen resolution, and one more
   * if an IP was found.
   */
  lemma PartCount(c: Config, env: Env, f: Option<string>)
    ensures Parts(c, env, f).Ok? ==>
      |Parts(c, env, f).value| == CountIf(c.useUserAgent) + CountIf(c.useLanguage) + 2 * CountIf(c.useScreenResolution)
                                  + CountIf(c.usePlatform) + CountIf(c.useConcurrency) + CountIf(IPPart(c, f).Some?)
  {
    PartsFailure(c, env, f);
    if MissingGlobal(c, env).None? {
      PartsInFixedOrder(c, env, f);
    }
  }

  lemma ConcatAssoc(a: seq<string>, b: seq<string>, c: seq<string>)
    ensures a + (b + c) == a + b + c
  {
  }

  lemma ThenAssociative(x: Result<seq<string>, string>, y: Result<seq<string>, string>, z: Result<seq<string>, string>)
    ensures Then(Then(x, y), z) == Then(x, Then(y, z))
  {
    if x.Ok? && y.Ok? && z.Ok? {
      assert (x.value + y.value) + z.value == x.value + (y.value + z.value);
    }
  }

  lemma {:induction false} CollectAppend(xs: seq<Toggle>, ys: seq<Toggle>, c: Config, env: Env, f: Option<string>)
    ensures Collect(xs + ys, c, env, f) == Then(Collect(xs, c, env, f), Collect(ys, c, env, f))
  {
    if xs == [] {
      assert xs + ys == ys;
      var r := Collect(ys, c, env, f);
      if r.Ok? { assert [] + r.value == r.value; }
    } else {
      assert (xs + ys)[0] == xs[0] && (xs + ys)[1..] == xs[1..] + ys;
      CollectAppend(xs[1..], ys, c, env, f);
      ThenAssociative(Step(xs[0], c, env, f), Collect(xs[1..], c, env, f), Collect(ys, c, env, f));
    }
  }

  lemma {:induction false} CollectIgnoresDisabled(ts: seq<Toggle>, c: Config, t: Toggle, env: Env, f: Option<string>)
    requires t !in ts
    ensures Collect(ts, Disable(c, t), env, f) == Collect(ts, c, env, f)
  {
    if ts != [] {
      StepIgnoresDisabled(ts[0], c, t, env, f);
      assert forall u :: u in ts[1..] ==> u in ts;
      CollectIgnoresDisabled(ts[1..], c, t, env, f);
    }
  }

  lemma StepIgnoresDisabled(u: Toggle, c: Config, t: Toggle, env: Env, f: Option<string>)
    requires u != t
    ensures Step(u, Disable(c, t), env, f) == Step(u, c, env, f)
  {
    var d := Disable(c, t);
    assert Enabled(d, u) == Enabled(c, u);
    if u == IP {
      assert d.useIP == c.useIP;
      assert IPPart(d, f) == IPPart(c, f);
    }
  }

  /**
   * Switching a toggle off removes exactly that toggle's own parts: what comes
   * before and after it stays, in the same order; and it cannot turn a
   * successful collection into a failing one.
   */
  lemma DisableRemovesOwnParts(c: Config, env: Env, f: Option<string>, t: Toggle)
    requires Parts(c, env, f).Ok?
    ensures var k := Rank(t);
      var before, own, after := Collect(Order[..k], c, env, f), Step(t, c, env, f), Collect(Order[k + 1..], c, env, f);
      before.Ok? && own.Ok? && after.Ok?
      && Parts(c, env, f).value == before.value + own.value + after.value
      && Parts(Disable(c, t), env, f) == Ok(before.value + after.value)
  {
    var k := Rank(t);
    assert Order == Order[..k] + [t] + Order[k + 1..];
    RemoveOwnParts(Order[..k], t, Order[k + 1..], c, env, f);
  }

  lemma RemoveOwnParts(pre: seq<Toggle>, t: Toggle, post: seq<Toggle>, c: Config, env: Env, f: Option<string>)
    requires t !in pre && t !in post
    requires Collect(pre + [t] + post, c, env, f).Ok?
    ensures var before, own, after := Collect(pre, c, env, f), Step(t, c, env, f), Collect(post, c, env, f);
      before.Ok? && own.Ok? && after.Ok?
      && Collect(pre + [t] + post, c, env, f).value == before.value + own.value + after.value
      && Collect(pre + [t] + post, Disable(c, t), env, f) == Ok(before.value + after.value)
  {
    var d := Disable(c, t);
    CollectAround(pre, t, post, c, env, f);
    CollectAround(pre, t, post, d, env, f);
    CollectIgnoresDisabled(pre, c, t, env, f);
    CollectIgnoresDisabled(post, c, t, env, f);
    var after := Collect(post, c, env, f);
    assert Step(t, d, env, f) == Ok([]);
    if after.Ok? {
      assert [] + after.value == after.value;
    }
  }

  lemma CollectAround(pre: seq<Toggle>, t: Toggle, post: seq<Toggle>, c: Config, env: Env, f: Option<string>)
    ensures var before, own, after := Collect(pre, c, env, f), Step(t, c, env, f), Collect(post, c, env, f);
      Collect(pre + [t] + post, c, env, f) == Then(before, Then(own, after))
      && (before.Ok? && own.Ok? && after.Ok? ==>
            Collect(pre + [t] + post, c, env, f) == Ok(before.value + own.value + after.value))
  {
    assert pre + [t] + post == pre + ([t] + post);
    CollectAppend(pre, [t] + post, c, env, f);
    CollectCons(t, post, c, env, f);
    var before, own, after := Collect(pre, c, env, f), Step(t, c, env, f), Collect(post, c, env, f);
    if before.Ok? && own.Ok? && after.Ok? {
      ConcatAssoc(before.value, own.value, after.value);
    }
  }

  /**
   * An explicit non-empty `userIP` is the last part, and the lookup is not
   * consulted: its answer cannot change the list.
   */
  lemma ExplicitIP(c: Config, env: Env, f: Option<string>)
    requires c.useIP && Truthy(c.userIP)
    ensures !ConsultsLookup(c)
    ensures Parts(c, env, f) == Parts(c, env, None)
    ensures Parts(c, env, f).Ok? ==>
      |Parts(c, env, f).value| >= 1 && Parts(c, env, f).value[|Parts(c, env, f).value| - 1] == c.userIP.value
  {
    PartsFailure(c, env, f);
    PartsFailure(c, env, None);
    if MissingGlobal(c, env).None? {
      PartsInFixedOrder(c, env, f);
      PartsInFixedOrder(c, env, None);
    }
  }

  /**
   * With `useIP` off there is no IP part, the lookup is not consulted, and
   * neither `userIP` nor the lookup's answer matters.
   */
  lemma IPDisabled(c: Config, env: Env, f: Option<string>, otherIP: Option<string>, otherAnswer: Option<string>)
    requires !c.useIP
    ensures !ConsultsLookup(c) && IPPart(c, f).None?
    ensures Parts(c, env, f) == Parts(c.(userIP := otherIP), env, otherAnswer)
  {
    PartsUnfold(c, env, f);
    PartsUnfold(c.(userIP := otherIP), env, otherAnswer);
  }

  /**
   * When the lookup runs and answers nothing usable, composition still
   * succeeds or fails exactly as it would with `useIP` off, with the same list.
   * When it answers a non-empty string, that string is the last part.
   */
  lemma LookupFallback(c: Config, env: Env, f: Option<string>)
    requires ConsultsLookup(c)
    ensures !Truthy(f) ==> Parts(c, env, f) == Parts(c.(useIP := false), env, f)
    ensures Truthy(f) && Parts(c, env, f).Ok? ==>
      |Parts(c, env, f).value| >= 1 && Parts(c, env, f).value[|Parts(c, env, f).value| - 1] == f.value
  {
    PartsUnfold(c, env, f);
    PartsUnfold(c.(useIP := false), env, f);
    PartsFailure(c, env, f);
    if MissingGlobal(c, env).None? {
      PartsInFixedOrder(c, env, f);
    }
  }
}
