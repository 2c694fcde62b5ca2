/**
 * The host snapshot the composer reads (`navigator` and `screen`), and the
 * renderings of its numeric fields used by the template strings.
 */
module Environment {
  import opened Wrappers

  datatype Navigator = Navigator(
    userAgent: string,
    language: string,
    platform: string,
    hardwareConcurrency: nat)

  datatype Screen = Screen(width: nat, height: nat, colorDepth: nat)

  /** A global that is not defined in the host (a server, say) is `None`. */
  datatype Env = Env(navigator: Option<Navigator>, screen: Option<Screen>)

  predicate IsDigit(ch: char) { '0' <= ch <= '9' }

  predicate AllDigits(s: string) { forall i :: 0 <= i < |s| ==> IsDigit(s[i]) }

  function DigitChar(d: nat): (ch: char)
    requires d < 10
    ensures IsDigit(ch) && ch as int - '0' as int == d
  {
    ['0', '1', '2', '3', '4', '5', '6', '7', '8', '9'][d]
  }

  /** A number in a template string: its shortest decimal form. */
  function NatToString(n: nat): (s: string)
    ensures |s| >= 1 && AllDigits(s)
    ensures s[0] == '0' ==> n == 0 && s == "0"
  {
    if n < 10 then [DigitChar(n)] else NatToString(n / 10) + [DigitChar(n % 10)]
  }

  /** Reads a string of decimal digits back as a number. */
  function ParseNat(s: string): nat
    requires AllDigits(s)
  {
    if s == [] then 0
    else ParseNat(s[..|s| - 1]) * 10 + (s[|s| - 1] as int - '0' as int)
  }

  /** Reading back the rendering gives the number: the rendering loses nothing. */
  lemma {:induction false} ParseNatToString(n: nat)
    ensures ParseNat(NatToString(n)) == n
  {
    var s := NatToString(n);
    if n >= 10 {
      ParseNatToString(n / 10);
      assert s[..|s| - 1] == NatToString(n / 10);
    } else {
      assert s[..|s| - 1] == [];
    }
  }

  lemma NatToStringInjective(m: nat, n: nat)
    requires NatToString(m) == NatToString(n)
    ensures m == n
  {
    ParseNatToString(m);
    ParseNatToString(n);
  }

  /** `${screen.width}x${screen.height}` */
  function ResolutionPart(s: Screen): string {
    NatToString(s.width) + "x" + NatToString(s.height)
  }

  /** `${screen.colorDepth}-bit` */
  function ColorDepthPart(s: Screen): string {
    NatToString(s.colorDepth) + "-bit"
  }

  /** `${navigator.hardwareConcurrency} cores` */
  function ConcurrencyPart(n: Navigator): string {
    NatToString(n.hardwareConcurrency) + " cores"
  }

  /** Two digit strings followed by the same non-digit must be equal. */
  lemma DigitsThenSeparator(a: string, b: string, sep: char, x: string, y: string)
    requires AllDigits(a) && AllDigits(b) && !IsDigit(sep)
    requires a + [sep] + x == b + [sep] + y
    ensures a == b && x == y
  {
    var l, r := a + [sep] + x, b + [sep] + y;
    assert forall i :: 0 <= i < |a| ==> IsDigit(l[i]);
    assert forall i :: 0 <= i < |b| ==> IsDigit(r[i]);
    assert l[|a|] == sep && r[|b|] == sep;
    assert |a| == |b|;
    assert a == l[..|a|] && b == r[..|b|];
    assert x == l[|a| + 1..] && y == r[|b| + 1..];
  }

  /**
   * The two screen attributes determine the screen: different width, height or
   * colour depth always give different attribute strings.
   */
  lemma ScreenPartsDetermineScreen(s: Screen, t: Screen)
    requires ResolutionPart(s) == ResolutionPart(t) && ColorDepthPart(s) == ColorDepthPart(t)
    ensures s == t
  {
    DigitsThenSeparator(NatToString(s.width), NatToString(t.width), 'x',
                        NatToString(s.height), NatToString(t.height));
    assert ColorDepthPart(s) == NatToString(s.colorDepth) + ['-'] + "bit";
    assert ColorDepthPart(t) == NatToString(t.colorDepth) + ['-'] + "bit";
    DigitsThenSeparator(NatToString(s.colorDepth), NatToString(t.colorDepth), '-', "bit", "bit");
    NatToStringInjective(s.width, t.width);
    NatToStringInjective(s.height, t.height);
    NatToStringInjective(s.colorDepth, t.colorDepth);
  }
}
