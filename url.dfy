/**
 * The client's base URL, `https://<host>:<port>/api2/json`, as `makeLocation`
 * formats it, and its inverse: the base URL determines host and port, and
 * its scheme is always `https`.
 */
module Url {
  import opened Wrappers

  const Scheme: string := "https://"
  const ApiRoot: string := "/api2/json"

  predicate IsDigit(c: char) {
    '0' <= c <= '9'
  }

  predicate IsDigits(s: string) {
    forall i :: 0 <= i < |s| ==> IsDigit(s[i])
  }

  function DigitChar(d: nat): (c: char)
    requires d < 10
    ensures IsDigit(c) && (c as int) - ('0' as int) == d
  {
    (('0' as int) + d) as char
  }

  /** The decimal rendering of a port number, as `sprintf("%s", $port)` gives it for an integer: no leading zero. */
  function Decimal(n: nat): (s: string)
    ensures |s| >= 1 && IsDigits(s)
    ensures s[0] == '0' <==> n == 0
    decreases n
  {
    if n < 10 then [DigitChar(n)] else Decimal(n / 10) + [DigitChar(n % 10)]
  }

  /** Reads a string of decimal digits back as a number. */
  function ParseDecimal(s: string): nat
    requires IsDigits(s)
    decreases |s|
  {
    if s == [] then 0
    else 10 * ParseDecimal(s[..|s| - 1]) + ((s[|s| - 1] as int) - ('0' as int))
  }

  lemma {:induction false} ParseDecimalOfDecimal(n: nat)
    ensures ParseDecimal(Decimal(n)) == n
    decreases n
  {
    var s := Decimal(n);
    if n >= 10 {
      ParseDecimalOfDecimal(n / 10);
      assert s[..|s| - 1] == Decimal(n / 10);
    }
  }

  /** `makeLocation`: the scheme is fixed, whatever the caller configured. */
  function MakeLocation(host: string, port: nat): string {
    Scheme + host + ":" + Decimal(port) + ApiRoot
  }

  /** The position of the last occurrence of `c` in `s`. */
  function LastIndexOf(s: string, c: char): (r: Option<nat>)
    ensures r.Some? ==> r.value < |s| && s[r.value] == c
    ensures r.Some? ==> forall j :: r.value < j < |s| ==> s[j] != c
    ensures r.None? ==> forall j :: 0 <= j < |s| ==> s[j] != c
    decreases |s|
  {
    if s == [] then None
    else if s[|s| - 1] == c then Some(|s| - 1)
    else LastIndexOf(s[..|s| - 1], c)
  }

  /**
   * Splits an API base URL into host and port: the port is what follows the
   * last colon (so IPv6 hosts survive), and only `https` URLs are accepted.
   */
  function ParseLocation(url: string): Option<(string, nat)> {
    if |url| < |Scheme| + |ApiRoot| || url[..|Scheme|] != Scheme || url[|url| - |ApiRoot|..] != ApiRoot then None
    else
      var authority := url[|Scheme|..|url| - |ApiRoot|];
      match LastIndexOf(authority, ':')
      case None => None
      case Some(i) =>
        var digits := authority[i + 1..];
        if digits != [] && IsDigits(digits) then Some((authority[..i], ParseDecimal(digits))) else None
  }

  /**
   * Every base URL `makeLocation` builds names exactly its host and port, and
   * since `ParseLocation` accepts only `https://` URLs, it is always `https`,
   * whatever scheme the caller configured.
   */
  /** In `host:digits`, the last colon is the one after the host. */
  lemma LastColonAfterHost(host: string, digits: string)
    requires IsDigits(digits)
    ensures LastIndexOf(host + ":" + digits, ':') == Some(|host|)
  {
    var authority := host + ":" + digits;
    assert authority[|host|] == ':';
    assert forall j :: |host| < j < |authority| ==> authority[j] == digits[j - |host| - 1];
  }

  /** The authority part of `Scheme + authority + ApiRoot` is found where `ParseLocation` looks for it. */
  lemma SplitUrl(authority: string)
    ensures var url := Scheme + authority + ApiRoot;
      && |url| >= |Scheme| + |ApiRoot|
      && url[..|Scheme|] == Scheme
      && url[|url| - |ApiRoot|..] == ApiRoot
      && url[|Scheme|..|url| - |ApiRoot|] == authority
  {
  }

  lemma {:induction false} ParseMakeLocation(host: string, port: nat)
    ensures ParseLocation(MakeLocation(host, port)) == Some((host, port))
  {
    var d := Decimal(port);
    var authority := host + ":" + d;
    assert MakeLocation(host, port) == Scheme + authority + ApiRoot;
    SplitUrl(authority);
    LastColonAfterHost(host, d);
    assert authority[|host| + 1..] == d;
    assert authority[..|host|] == host;
    ParseDecimalOfDecimal(port);
  }
}
