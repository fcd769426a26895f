/**
 * `parseUserAgent` in `frontend/src/lib/utils.ts`: a friendly
 * "<browser> on <os>" label for a session's user agent, each half being
 * the first rule in priority order whose pattern occurs in the string.
 */
module UserAgent {
  import opened Wrappers
  import opened Strings

  /** A rule: the label it gives when one of its literal patterns occurs. */
  datatype Rule = Rule(patterns: seq<string>, name: string)

  predicate Matches(r: Rule, ua: string) {
    exists p | p in r.patterns :: Contains(ua, p)
  }

  const UNKNOWN_DEVICE := "Unknown device"
  const UNKNOWN_BROWSER := "Unknown Browser"
  const UNKNOWN_OS := "Unknown OS"

  /** The operating-system rules, highest priority first (`/iPhone|iPad/` is one rule with two patterns). */
  const OS_RULES: seq<Rule> := [
    Rule(["Windows NT 10.0"], "Windows 10/11"),
    Rule(["Windows NT"], "Windows"),
    Rule(["Mac OS X"], "macOS"),
    Rule(["Linux"], "Linux"),
    Rule(["Android"], "Android"),
    Rule(["iPhone", "iPad"], "iOS")
  ]

  /** The browser rules, highest priority first. */
  const BROWSER_RULES: seq<Rule> := [
    Rule(["Edg/"], "Edge"),
    Rule(["OPR/"], "Opera"),
    Rule(["Chrome/"], "Chrome"),
    Rule(["Firefox/"], "Firefox"),
    Rule(["Safari/"], "Safari")
  ]

  /** The name of the first rule from index `k` on that matches, or `default`. */
  function FirstLabelFrom(rules: seq<Rule>, ua: string, k: nat, default: string): (r: string)
    requires k <= |rules|
    decreases |rules| - k
    ensures r == default || exists i | k <= i < |rules| :: r == rules[i].name
  {
    if k == |rules| then default
    else if Matches(rules[k], ua) then rules[k].name
    else FirstLabelFrom(rules, ua, k + 1, default)
  }

  function FirstLabel(rules: seq<Rule>, ua: string, default: string): string {
    FirstLabelFrom(rules, ua, 0, default)
  }

  function OsLabel(ua: string): string { FirstLabel(OS_RULES, ua, UNKNOWN_OS) }

  function BrowserLabel(ua: string): string { FirstLabel(BROWSER_RULES, ua, UNKNOWN_BROWSER) }

  /** What `parseUserAgent` returns. */
  function DeviceLabel(ua: Option<string>): string {
    if ua.None? || ua.value == "" then UNKNOWN_DEVICE
    else BrowserLabel(ua.value) + " on " + OsLabel(ua.value)
  }

  lemma {:induction false} FirstLabelFromIsFirstMatch(rules: seq<Rule>, ua: string, default: string, m: nat, k: nat)
    requires m <= k < |rules| && Matches(rules[k], ua)
    requires forall j | m <= j < k :: !Matches(rules[j], ua)
    decreases k - m
    ensures FirstLabelFrom(rules, ua, m, default) == rules[k].name
  {
    if m < k {
      FirstLabelFromIsFirstMatch(rules, ua, default, m + 1, k);
    }
  }

  /** The label is that of the first matching rule. */
  lemma FirstLabelIsFirstMatch(rules: seq<Rule>, ua: string, default: string, k: nat)
    requires k < |rules| && Matches(rules[k], ua)
    requires forall j | 0 <= j < k :: !Matches(rules[j], ua)
    ensures FirstLabel(rules, ua, default) == rules[k].name
  {
    FirstLabelFromIsFirstMatch(rules, ua, default, 0, k);
  }

  lemma {:induction false} NoMatchFromGivesDefault(rules: seq<Rule>, ua: string, default: string, m: nat)
    requires m <= |rules|
    requires forall j | m <= j < |rules| :: !Matches(rules[j], ua)
    decreases |rules| - m
    ensures FirstLabelFrom(rules, ua, m, default) == default
  {
    if m < |rules| {
      NoMatchFromGivesDefault(rules, ua, default, m + 1);
    }
  }

  /** With no matching rule the label is the default. */
  lemma NoMatchGivesDefault(rules: seq<Rule>, ua: string, default: string)
    requires forall j | 0 <= j < |rules| :: !Matches(rules[j], ua)
    ensures FirstLabel(rules, ua, default) == default
  {
    NoMatchFromGivesDefault(rules, ua, default, 0);
  }

  lemma MatchesOne(r: Rule, ua: string, p: string)
    requires r.patterns == [p]
    ensures Matches(r, ua) <==> Contains(ua, p)
  {
    if Contains(ua, p) {
      assert p in r.patterns;
    }
  }

  lemma MatchesTwo(r: Rule, ua: string, p: string, q: string)
    requires r.patterns == [p, q]
    ensures Matches(r, ua) <==> Contains(ua, p) || Contains(ua, q)
  {
    if Contains(ua, p) {
      assert p in r.patterns;
    }
    if Contains(ua, q) {
      assert q in r.patterns;
    }
  }

  /** Each rule of the two tables matches exactly when one of its patterns occurs. */
  lemma RuleMatches(ua: string)
    ensures Matches(OS_RULES[0], ua) <==> Contains(ua, "Windows NT 10.0")
    ensures Matches(OS_RULES[1], ua) <==> Contains(ua, "Windows NT")
    ensures Matches(OS_RULES[2], ua) <==> Contains(ua, "Mac OS X")
    ensures Matches(OS_RULES[3], ua) <==> Contains(ua, "Linux")
    ensures Matches(OS_RULES[4], ua) <==> Contains(ua, "Android")
    ensures Matches(OS_RULES[5], ua) <==> Contains(ua, "iPhone") || Contains(ua, "iPad")
    ensures Matches(BROWSER_RULES[0], ua) <==> Contains(ua, "Edg/")
    ensures Matches(BROWSER_RULES[1], ua) <==> Contains(ua, "OPR/")
    ensures Matches(BROWSER_RULES[2], ua) <==> Contains(ua, "Chrome/")
    ensures Matches(BROWSER_RULES[3], ua) <==> Contains(ua, "Firefox/")
    ensures Matches(BROWSER_RULES[4], ua) <==> Contains(ua, "Safari/")
  {
    MatchesOne(OS_RULES[0], ua, "Windows NT 10.0");
    MatchesOne(OS_RULES[1], ua, "Windows NT");
    MatchesOne(OS_RULES[2], ua, "Mac OS X");
    MatchesOne(OS_RULES[3], ua, "Linux");
    MatchesOne(OS_RULES[4], ua, "Android");
    MatchesTwo(OS_RULES[5], ua, "iPhone", "iPad");
    MatchesOne(BROWSER_RULES[0], ua, "Edg/");
    MatchesOne(BROWSER_RULES[1], ua, "OPR/");
    MatchesOne(BROWSER_RULES[2], ua, "Chrome/");
    MatchesOne(BROWSER_RULES[3], ua, "Firefox/");
    MatchesOne(BROWSER_RULES[4], ua, "Safari/");
  }

  /** `parseUserAgent`: `os` and `browser` start at their defaults and are reassigned by two priority chains. */
  method ParseUserAgent(ua: Option<string>) returns (r: string)
    ensures r == DeviceLabel(ua)
  {
    if ua.None? || ua.value == "" {
      return UNKNOWN_DEVICE;
    }
    var s := ua.value;
    RuleMatches(s);
    var browser := UNKNOWN_BROWSER;
    var os := UNKNOWN_OS;

    if Contains(s, "Windows NT 10.0") {
      os := "Windows 10/11";
      FirstLabelIsFirstMatch(OS_RULES, s, UNKNOWN_OS, 0);
    } else if Contains(s, "Windows NT") {
      os := "Windows";
      FirstLabelIsFirstMatch(OS_RULES, s, UNKNOWN_OS, 1);
    } else if Contains(s, "Mac OS X") {
      os := "macOS";
      FirstLabelIsFirstMatch(OS_RULES, s, UNKNOWN_OS, 2);
    } else if Contains(s, "Linux") {
      os := "Linux";
      FirstLabelIsFirstMatch(OS_RULES, s, UNKNOWN_OS, 3);
    } else if Contains(s, "Android") {
      os := "Android";
      FirstLabelIsFirstMatch(OS_RULES, s, UNKNOWN_OS, 4);
    } else if Contains(s, "iPhone") || Contains(s, "iPad") {
      os := "iOS";
      FirstLabelIsFirstMatch(OS_RULES, s, UNKNOWN_OS, 5);
    } else {
      NoMatchGivesDefault(OS_RULES, s, UNKNOWN_OS);
    }

    if Contains(s, "Edg/") {
      browser := "Edge";
      FirstLabelIsFirstMatch(BROWSER_RULES, s, UNKNOWN_BROWSER, 0);
    } else if Contains(s, "OPR/") {
      browser := "Opera";
      FirstLabelIsFirstMatch(BROWSER_RULES, s, UNKNOWN_BROWSER, 1);
    } else if Contains(s, "Chrome/") {
      browser := "Chrome";
      FirstLabelIsFirstMatch(BROWSER_RULES, s, UNKNOWN_BROWSER, 2);
    } else if Contains(s, "Firefox/") {
      browser := "Firefox";
      FirstLabelIsFirstMatch(BROWSER_RULES, s, UNKNOWN_BROWSER, 3);
    } else if Contains(s, "Safari/") {
      browser := "Safari";
      FirstLabelIsFirstMatch(BROWSER_RULES, s, UNKNOWN_BROWSER, 4);
    } else {
      NoMatchGivesDefault(BROWSER_RULES, s, UNKNOWN_BROWSER);
    }

    return browser + " on " + os;
  }

  /** An absent or empty user agent is an unknown device; any other is "<browser> on <os>" from the two tables. */
  lemma LabelShape(ua: Option<string>)
    ensures ua.None? || ua == Some("") ==> DeviceLabel(ua) == UNKNOWN_DEVICE
    ensures ua.Some? && ua.value != "" ==>
      exists b, o ::
        && DeviceLabel(ua) == b + " on " + o
        && (b == UNKNOWN_BROWSER || exists i | 0 <= i < |BROWSER_RULES| :: b == BROWSER_RULES[i].name)
        && (o == UNKNOWN_OS || exists i | 0 <= i < |OS_RULES| :: o == OS_RULES[i].name)
  {
    if ua.Some? && ua.value != "" {
      var b, o := BrowserLabel(ua.value), OsLabel(ua.value);
      assert DeviceLabel(ua) == b + " on " + o;
    }
  }

  /** "Windows NT 10.0" is reported as Windows 10/11, not as generic Windows, though it also contains "Windows NT". */
  lemma WindowsTenFirst(ua: string)
    requires Contains(ua, "Windows NT 10.0")
    ensures OsLabel(ua) == "Windows 10/11"
  {
    RuleMatches(ua);
    FirstLabelIsFirstMatch(OS_RULES, ua, UNKNOWN_OS, 0);
  }

  /**
   * A user agent with "Linux" and no Windows or Mac marker is labelled
   * Linux whether or not it also names Android; likewise one with
   * "Mac OS X" and no Windows marker is labelled macOS even when it names
   * an iPhone or iPad.
   */
  lemma DesktopMarkersShadowMobile(ua: string)
    ensures !Contains(ua, "Windows NT") && !Contains(ua, "Mac OS X") && Contains(ua, "Linux") ==> OsLabel(ua) == "Linux"
    ensures !Contains(ua, "Windows NT") && Contains(ua, "Mac OS X") ==> OsLabel(ua) == "macOS"
  {
    RuleMatches(ua);
    assert OccursAt("Windows NT 10.0", "Windows NT", 0);
    if Contains(ua, "Windows NT 10.0") {
      ContainsTransitive(ua, "Windows NT 10.0", "Windows NT");
    }
    if !Contains(ua, "Windows NT") && Contains(ua, "Mac OS X") {
      FirstLabelIsFirstMatch(OS_RULES, ua, UNKNOWN_OS, 2);
    } else if !Contains(ua, "Windows NT") && !Contains(ua, "Mac OS X") && Contains(ua, "Linux") {
      FirstLabelIsFirstMatch(OS_RULES, ua, UNKNOWN_OS, 3);
    }
  }

  /** The browser priority: Edge before Opera before Chrome before Firefox before Safari. */
  lemma BrowserPriority(ua: string)
    ensures Contains(ua, "Edg/") ==> BrowserLabel(ua) == "Edge"
    ensures !Contains(ua, "Edg/") && Contains(ua, "OPR/") ==> BrowserLabel(ua) == "Opera"
    ensures !Contains(ua, "Edg/") && !Contains(ua, "OPR/") && Contains(ua, "Chrome/") ==> BrowserLabel(ua) == "Chrome"
    ensures !Contains(ua, "Edg/") && !Contains(ua, "OPR/") && !Contains(ua, "Chrome/") && Contains(ua, "Firefox/") ==>
      BrowserLabel(ua) == "Firefox"
    ensures !Contains(ua, "Edg/") && !Contains(ua, "OPR/") && !Contains(ua, "Chrome/") && !Contains(ua, "Firefox/")
      ==> (BrowserLabel(ua) == "Safari" <==> Contains(ua, "Safari/"))
  {
    RuleMatches(ua);
    if Contains(ua, "Edg/") {
      FirstLabelIsFirstMatch(BROWSER_RULES, ua, UNKNOWN_BROWSER, 0);
    } else if Contains(ua, "OPR/") {
      FirstLabelIsFirstMatch(BROWSER_RULES, ua, UNKNOWN_BROWSER, 1);
    } else if Contains(ua, "Chrome/") {
      FirstLabelIsFirstMatch(BROWSER_RULES, ua, UNKNOWN_BROWSER, 2);
    } else if Contains(ua, "Firefox/") {
      FirstLabelIsFirstMatch(BROWSER_RULES, ua, UNKNOWN_BROWSER, 3);
    } else if Contains(ua, "Safari/") {
      FirstLabelIsFirstMatch(BROWSER_RULES, ua, UNKNOWN_BROWSER, 4);
    } else {
      NoMatchGivesDefault(BROWSER_RULES, ua, UNKNOWN_BROWSER);
    }
  }
}
