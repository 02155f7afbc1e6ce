/** Page-view tracking: every route change inserts one `page_views` row with
    the path, a visitor id kept in local storage, the referrer cut down to
    origin and path, and the user agent reduced to `browser/os/device`. */
module PageTracking {
  import opened Wrappers
  import opened Text

  // ---------------------------------------------------------------------
  // parseUserAgent
  // ---------------------------------------------------------------------

  datatype Browser = Firefox | Edge | Chrome | Safari | Opera | UnknownBrowser
  datatype Os = Windows | MacOs | Linux | Android | Ios | UnknownOs
  datatype Device = Desktop | Mobile | Tablet

  function BrowserName(b: Browser): string {
    match b
    case Firefox => "Firefox"
    case Edge => "Edge"
    case Chrome => "Chrome"
    case Safari => "Safari"
    case Opera => "Opera"
    case UnknownBrowser => "Unknown"
  }

  function OsName(o: Os): string {
    match o
    case Windows => "Windows"
    case MacOs => "macOS"
    case Linux => "Linux"
    case Android => "Android"
    case Ios => "iOS"
    case UnknownOs => "Unknown"
  }

  function DeviceName(d: Device): string {
    match d
    case Desktop => "Desktop"
    case Mobile => "Mobile"
    case Tablet => "Tablet"
  }

  /** The browser family: the first of the `includes` tests that holds. */
  function BrowserOf(ua: string): Browser {
    if Contains(ua, "Firefox") then Firefox
    else if Contains(ua, "Edg") then Edge
    else if Contains(ua, "Chrome") then Chrome
    else if Contains(ua, "Safari") then Safari
    else if Contains(ua, "Opera") || Contains(ua, "OPR") then Opera
    else UnknownBrowser
  }

  /** The operating-system family: the first of the `includes` tests that
      holds. */
  function OsOf(ua: string): Os {
    if Contains(ua, "Windows") then Windows
    else if Contains(ua, "Mac OS") then MacOs
    else if Contains(ua, "Linux") then Linux
    else if Contains(ua, "Android") then Android
    else if Contains(ua, "iPhone") || Contains(ua, "iPad") then Ios
    else UnknownOs
  }

  /** `/word/i.test(ua)` for a lower-case ASCII word; case is folded on
      ASCII letters only. */
  predicate MatchesIgnoringCase(ua: string, word: string) {
    Contains(ToLower(ua), word)
  }

  /** The device type: tablet for an iPad, mobile for any other mobile
      marker, desktop otherwise. */
  function DeviceOf(ua: string): Device {
    if MatchesIgnoringCase(ua, "mobile") || MatchesIgnoringCase(ua, "android")
       || MatchesIgnoringCase(ua, "iphone") || MatchesIgnoringCase(ua, "ipad")
       || MatchesIgnoringCase(ua, "ipod")
    then (if MatchesIgnoringCase(ua, "ipad") then Tablet else Mobile)
    else Desktop
  }

  /** `parseUserAgent`. */
  function ParseUserAgent(ua: string): string {
    BrowserName(BrowserOf(ua)) + "/" + OsName(OsOf(ua)) + "/" + DeviceName(DeviceOf(ua))
  }

  // The first-match rule as a reference definition: an ordered list of
  // markers with the family each one names.

  datatype Rule<T> = Rule(markers: seq<string>, family: T)

  /** The family of the first rule one of whose markers occurs in `ua`. */
  function FirstMatch<T>(rules: seq<Rule<T>>, ua: string, fallback: T): T
    decreases |rules|
  {
    if rules == [] then fallback
    else if exists k :: 0 <= k < |rules[0].markers| && Contains(ua, rules[0].markers[k]) then rules[0].family
    else FirstMatch(rules[1..], ua, fallback)
  }

  const BROWSER_RULES: seq<Rule<Browser>> := [
    Rule(["Firefox"], Firefox), Rule(["Edg"], Edge), Rule(["Chrome"], Chrome),
    Rule(["Safari"], Safari), Rule(["Opera", "OPR"], Opera)]

  const OS_RULES: seq<Rule<Os>> := [
    Rule(["Windows"], Windows), Rule(["Mac OS"], MacOs), Rule(["Linux"], Linux),
    Rule(["Android"], Android), Rule(["iPhone", "iPad"], Ios)]

  /** A rule with one marker fires exactly when that marker occurs. */
  lemma OneMarker<T>(r: Rule<T>, ua: string)
    requires |r.markers| == 1
    ensures (exists k :: 0 <= k < |r.markers| && Contains(ua, r.markers[k])) <==> Contains(ua, r.markers[0])
  {
  }

  /** A rule with two markers fires exactly when either occurs. */
  lemma TwoMarkers<T>(r: Rule<T>, ua: string)
    requires |r.markers| == 2
    ensures (exists k :: 0 <= k < |r.markers| && Contains(ua, r.markers[k]))
            <==> Contains(ua, r.markers[0]) || Contains(ua, r.markers[1])
  {
  }

  /** The rule list with its head rule looked at. */
  lemma FirstMatchStep<T>(rules: seq<Rule<T>>, ua: string, fallback: T)
    requires rules != []
    ensures FirstMatch(rules, ua, fallback) ==
      if exists k :: 0 <= k < |rules[0].markers| && Contains(ua, rules[0].markers[k]) then rules[0].family
      else FirstMatch(rules[1..], ua, fallback)
  {
  }

  /** The browser is the family of the first browser rule that fires. */
  lemma BrowserIsFirstMatch(ua: string)
    ensures BrowserOf(ua) == FirstMatch(BROWSER_RULES, ua, UnknownBrowser)
  {
    var rs := BROWSER_RULES;
    OneMarker(rs[0], ua); OneMarker(rs[1], ua); OneMarker(rs[2], ua); OneMarker(rs[3], ua);
    TwoMarkers(rs[4], ua);
    FirstMatchStep(rs, ua, UnknownBrowser);
    FirstMatchStep(rs[1..], ua, UnknownBrowser);
    FirstMatchStep(rs[2..], ua, UnknownBrowser);
    FirstMatchStep(rs[3..], ua, UnknownBrowser);
    FirstMatchStep(rs[4..], ua, UnknownBrowser);
    assert rs[1..][1..] == rs[2..] && rs[2..][1..] == rs[3..] && rs[3..][1..] == rs[4..] && rs[4..][1..] == [];
  }

  /** The operating system is the family of the first OS rule that fires. */
  lemma OsIsFirstMatch(ua: string)
    ensures OsOf(ua) == FirstMatch(OS_RULES, ua, UnknownOs)
  {
    var rs := OS_RULES;
    OneMarker(rs[0], ua); OneMarker(rs[1], ua); OneMarker(rs[2], ua); OneMarker(rs[3], ua);
    TwoMarkers(rs[4], ua);
    FirstMatchStep(rs, ua, UnknownOs);
    FirstMatchStep(rs[1..], ua, UnknownOs);
    FirstMatchStep(rs[2..], ua, UnknownOs);
    FirstMatchStep(rs[3..], ua, UnknownOs);
    FirstMatchStep(rs[4..], ua, UnknownOs);
    assert rs[1..][1..] == rs[2..] && rs[2..][1..] == rs[3..] && rs[3..][1..] == rs[4..] && rs[4..][1..] == [];
  }

  /** A user agent naming both Chrome and Safari, as Chrome's own does, is
      read as Chrome unless it also names Firefox or Edge. */
  lemma ChromeBeforeSafari(ua: string)
    requires Contains(ua, "Chrome") && Contains(ua, "Safari")
    ensures BrowserOf(ua) == Chrome <==> !Contains(ua, "Firefox") && !Contains(ua, "Edg")
  {
  }

  /** Android is reported only for a user agent without "Linux", and iOS
      only for one without "Mac OS"; the user agents of Android and iPhone
      browsers carry those words, so they are read as Linux and macOS. */
  lemma ShadowedSystems(ua: string)
    ensures OsOf(ua) == Android ==> Contains(ua, "Android") && !Contains(ua, "Linux")
    ensures OsOf(ua) == Ios ==> !Contains(ua, "Mac OS") && !Contains(ua, "Windows")
    ensures Contains(ua, "Linux") && !Contains(ua, "Windows") && !Contains(ua, "Mac OS") ==> OsOf(ua) == Linux
  {
  }

  /** Tablet exactly for an iPad, mobile for the other mobile markers, and
      desktop when none occurs, whatever the letter case. */
  lemma DeviceCases(ua: string)
    ensures DeviceOf(ua) == Tablet <==> MatchesIgnoringCase(ua, "ipad")
    ensures DeviceOf(ua) == Mobile <==>
      (!MatchesIgnoringCase(ua, "ipad") &&
       (MatchesIgnoringCase(ua, "mobile") || MatchesIgnoringCase(ua, "android")
        || MatchesIgnoringCase(ua, "iphone") || MatchesIgnoringCase(ua, "ipod")))
  {
  }

  /** The parsed user agent reads back as its three parts: splitting it at
      `/` gives the browser, the system and the device names. */
  lemma ParseUserAgentParts(ua: string)
    ensures Split(ParseUserAgent(ua), '/') == [BrowserName(BrowserOf(ua)), OsName(OsOf(ua)), DeviceName(DeviceOf(ua))]
    ensures BrowserName(BrowserOf(ua)) in {"Firefox", "Edge", "Chrome", "Safari", "Opera", "Unknown"}
  {
    var b, o, d := BrowserName(BrowserOf(ua)), OsName(OsOf(ua)), DeviceName(DeviceOf(ua));
    NamesHaveNoSlash(BrowserOf(ua), OsOf(ua), DeviceOf(ua));
    assert [b, o, d][1..] == [o, d] && [o, d][1..] == [d];
    assert Join([d], "/") == d;
    assert Join([o, d], "/") == o + "/" + d;
    assert Join([b, o, d], "/") == b + "/" + (o + "/" + d);
    assert Join([b, o, d], "/") == ParseUserAgent(ua);
    SplitJoin([b, o, d], '/');
  }

  lemma NamesHaveNoSlash(b: Browser, o: Os, d: Device)
    ensures '/' !in BrowserName(b) && '/' !in OsName(o) && '/' !in DeviceName(d)
  {
  }

  // ---------------------------------------------------------------------
  // sanitizeReferrer
  // ---------------------------------------------------------------------

  /** `sanitizeReferrer`: nothing for a missing or empty referrer; otherwise
      what `originAndPath` makes of it, the origin and path of the parsed
      URL, or nothing when it does not parse. */
  function SanitizeReferrer(referrer: Option<string>, originAndPath: string -> Option<string>): (r: Option<string>)
    ensures referrer.None? || referrer.value == "" ==> r.None?
    ensures referrer.Some? && referrer.value != "" ==> r == originAndPath(referrer.value)
  {
    if referrer.None? || referrer.value == "" then None else originAndPath(referrer.value)
  }

  // ---------------------------------------------------------------------
  // The tracker
  // ---------------------------------------------------------------------

  const VISITOR_KEY := "visitor_id"

  /** The visitor id kept in local storage, when there is a non-empty one. */
  function StoredVisitorId(storage: map<string, string>): Option<string> {
    if VISITOR_KEY in storage && storage[VISITOR_KEY] != "" then Some(storage[VISITOR_KEY]) else None
  }

  /** A row of `page_views`. */
  datatype PageView = PageView(pagePath: string, visitorId: string, referrer: Option<string>, userAgent: string)

  /** The browser's local storage and the rows inserted into `page_views`. */
  class PageTracker {
    var localStorage: map<string, string>
    var pageViews: seq<PageView>

    constructor (localStorage: map<string, string>)
      ensures this.localStorage == localStorage && pageViews == []
    {
      this.localStorage := localStorage;
      pageViews := [];
    }

    /** `getVisitorId`: the stored id, or `newId` (a fresh `randomUUID`),
        stored first. Afterwards the id is stored, so a second call
        returns the same id. */
    method GetVisitorId(newId: string) returns (id: string)
      requires newId != ""
      modifies this`localStorage
      ensures StoredVisitorId(old(localStorage)).Some? ==>
                id == StoredVisitorId(old(localStorage)).value && localStorage == old(localStorage)
      ensures StoredVisitorId(old(localStorage)).None? ==>
                id == newId && localStorage == old(localStorage)[VISITOR_KEY := newId]
      ensures StoredVisitorId(localStorage) == Some(id)
    {
      if VISITOR_KEY in localStorage && localStorage[VISITOR_KEY] != "" {
        id := localStorage[VISITOR_KEY];
      } else {
        id := newId;
        localStorage := localStorage[VISITOR_KEY := id];
      }
    }

    /** `trackPageView`: builds the row, which reads the visitor id, and
        inserts it; a failed insert is ignored. */
    method TrackPageView(path: string, documentReferrer: string, userAgent: string, newId: string,
                         originAndPath: string -> Option<string>, insertFails: bool)
      requires newId != ""
      modifies this`localStorage, this`pageViews
      ensures StoredVisitorId(localStorage).Some?
      ensures StoredVisitorId(old(localStorage)).Some? ==>
                localStorage == old(localStorage)
                && StoredVisitorId(localStorage) == StoredVisitorId(old(localStorage))
      ensures StoredVisitorId(old(localStorage)).None? ==>
                localStorage == old(localStorage)[VISITOR_KEY := newId]
                && StoredVisitorId(localStorage) == Some(newId)
      ensures var row := PageView(path, StoredVisitorId(localStorage).value,
                                  SanitizeReferrer(Some(documentReferrer), originAndPath), ParseUserAgent(userAgent));
              pageViews == if insertFails then old(pageViews) else old(pageViews) + [row]
    {
      var visitorId := GetVisitorId(newId);
      var row := PageView(path, visitorId, SanitizeReferrer(Some(documentReferrer), originAndPath), ParseUserAgent(userAgent));
      if !insertFails {
        pageViews := pageViews + [row];
      }
    }
  }
}
