/** src/pages/Dashboard.tsx: the alert lists derived from the disaster feed,
    the thousands-separator rendering of counts, the sidebar truncation and
    the page state (selected disaster, active tab, theme). */
module Dashboard {
  import opened Wrappers
  import opened Types
  import opened Seqs
  import opened NumberText

  /** `criticalAlerts`: the critical events, in feed order. */
  predicate IsCritical(e: DisasterEvent) {
    e.severity == Critical
  }

  function CriticalAlerts(disasters: seq<DisasterEvent>): (r: seq<DisasterEvent>)
    ensures IsSubseq(r, disasters)
    ensures forall e :: e in r <==> e in disasters && e.severity == Critical
    ensures forall e :: e in r ==> multiset(r)[e] == multiset(disasters)[e]
  {
    FilterCounts(disasters, IsCritical);
    Filter(disasters, IsCritical)
  }

  /** 24 hours in milliseconds. */
  const OneDayMs := 86400000

  /** The test `alert.timestamp > oneDayAgo` at time `now`. */
  function RecentAt(now: int): DisasterEvent -> bool {
    (e: DisasterEvent) => e.timestamp > now - OneDayMs
  }

  /** `recentAlerts`: the events of the last 24 hours at time `now`
      (`Date.now()`), in feed order; the cutoff is strict. */
  function RecentAlerts(disasters: seq<DisasterEvent>, now: int): (r: seq<DisasterEvent>)
    ensures IsSubseq(r, disasters)
    ensures forall e :: e in r <==> e in disasters && e.timestamp > now - OneDayMs
    ensures forall e :: e in r ==> multiset(r)[e] == multiset(disasters)[e]
  {
    FilterCounts(disasters, RecentAt(now));
    Filter(disasters, RecentAt(now))
  }

  /** An event exactly 24 hours old is not recent; one a millisecond younger is. */
  lemma RecentCutoffIsStrict(e: DisasterEvent, now: int)
    ensures e.timestamp == now - OneDayMs ==> RecentAlerts([e], now) == []
    ensures e.timestamp == now - OneDayMs + 1 ==> RecentAlerts([e], now) == [e]
  {
  }

  /** Recomputing the list later keeps only events that were already recent:
      the list at `later` is the list at `now` filtered again. */
  lemma RecentAlertsShrink(disasters: seq<DisasterEvent>, now: int, later: int)
    requires now <= later
    ensures RecentAlerts(RecentAlerts(disasters, now), later) == RecentAlerts(disasters, later)
  {
    FilterAgainStronger(disasters, RecentAt(now), RecentAt(later));
  }

  /** The two filters commute: the critical recent events are the recent
      critical events. */
  lemma CriticalRecentCommute(disasters: seq<DisasterEvent>, now: int)
    ensures CriticalAlerts(RecentAlerts(disasters, now)) == RecentAlerts(CriticalAlerts(disasters), now)
  {
    FilterCommute(disasters, RecentAt(now), IsCritical);
  }

  // Thousands separators: `num.toString().replace(/\B(?=(\d{3})+(?!\d))/g, ",")`.

  /** Where the pattern matches in a digit string `s`: `\B` holds strictly
      between two digits, and the look-ahead needs a positive multiple of three
      digits running to the end of the string. */
  predicate CommaBefore(s: string, i: int) {
    0 < i < |s| && (|s| - i) % 3 == 0
  }

  /** The global replace, scanning `s` from index `i`. */
  function InsertCommas(s: string, i: nat): string
    requires i <= |s|
    decreases |s| - i
  {
    if i == |s| then ""
    else (if CommaBefore(s, i) then "," else "") + [s[i]] + InsertCommas(s, i + 1)
  }

  /** `formatNumber` on a natural number (the pages pass list lengths). */
  function FormatNumber(n: nat): string {
    InsertCommas(DecimalString(n), 0)
  }

  /** Reference definition: split off the last three digits, recursively. */
  function Grouped(s: string): string
    decreases |s|
  {
    if |s| <= 3 then s else Grouped(s[..|s| - 3]) + "," + s[|s| - 3..]
  }

  /** The separator text: groups of digits joined by commas, the first group
      of one to three digits and every later group of exactly three. */
  predicate WellGrouped(f: string)
    decreases |f|
  {
    if |f| <= 3 then 1 <= |f| && AllDigits(f)
    else f[|f| - 4] == ',' && AllDigits(f[|f| - 3..]) && WellGrouped(f[..|f| - 4])
  }

  predicate NotComma(c: char) {
    c != ','
  }

  /** The digits of a formatted text. */
  function RemoveCommas(f: string): string {
    Filter(f, NotComma)
  }

  /** One step of the scan. */
  lemma InsertCommasStep(s: string, i: nat)
    requires i < |s|
    ensures InsertCommas(s, i) == (if CommaBefore(s, i) then "," else "") + [s[i]] + InsertCommas(s, i + 1)
  {
  }

  /** Appending a group of three digits keeps every earlier match position. */
  lemma CommaBeforeAppend(t: string, u: string, i: nat)
    requires |u| == 3 && i < |t|
    ensures CommaBefore(t + u, i) == CommaBefore(t, i)
  {
    assert (|t| + 3 - i) % 3 == (|t| - i) % 3;
  }

  /** The scan of an appended group of three: a comma and the three digits. */
  lemma LastGroup(t: string, u: string)
    requires 1 <= |t| && |u| == 3
    ensures InsertCommas(t + u, |t|) == "," + u
  {
    var s, k := t + u, |t|;
    InsertCommasStep(s, k);
    InsertCommasStep(s, k + 1);
    InsertCommasStep(s, k + 2);
    assert u == [s[k], s[k + 1], s[k + 2]];
  }

  /** Scanning `t` followed by a group of three digits inserts what scanning
      `t` alone inserts, and the group follows its comma. */
  lemma {:induction false} InsertCommasAppend(t: string, u: string, i: nat)
    requires 1 <= |t| && |u| == 3 && i <= |t|
    ensures InsertCommas(t + u, i) == InsertCommas(t, i) + "," + u
    decreases |t| - i
  {
    if i == |t| {
      LastGroup(t, u);
    } else {
      InsertCommasAppend(t, u, i + 1);
      CommaBeforeAppend(t, u, i);
      InsertCommasStep(t + u, i);
      InsertCommasStep(t, i);
      var c := if CommaBefore(t, i) then "," else "";
      var rest := InsertCommas(t, i + 1);
      assert c + [t[i]] + (rest + "," + u) == (c + [t[i]] + rest) + "," + u;
    }
  }

  /** The regular-expression replace agrees with the reference grouping. */
  lemma {:induction false} InsertCommasIsGrouped(s: string)
    ensures InsertCommas(s, 0) == Grouped(s)
    decreases |s|
  {
    if |s| <= 3 {
      InsertCommasUnchanged(s, 0);
    } else {
      var t, u := s[..|s| - 3], s[|s| - 3..];
      assert s == t + u;
      InsertCommasAppend(t, u, 0);
      InsertCommasIsGrouped(s[..|s| - 3]);
    }
  }

  /** No comma is inserted into a string of at most three digits. */
  lemma {:induction false} InsertCommasUnchanged(s: string, i: nat)
    requires |s| <= 3 && i <= |s|
    ensures InsertCommas(s, i) == s[i..]
    decreases |s| - i
  {
    if i < |s| {
      InsertCommasUnchanged(s, i + 1);
      assert s[i..] == [s[i]] + s[i + 1..];
    }
  }

  /** Removing the commas around a joining comma. */
  lemma RemoveCommasJoin(g: string, u: string)
    ensures RemoveCommas(g + "," + u) == RemoveCommas(g) + RemoveCommas(u)
  {
    var cu := [','] + u;
    assert g + "," + u == g + cu;
    FilterConcat(g, cu, NotComma);
    assert cu[1..] == u;
  }

  /** A digit string has no commas to remove. */
  lemma RemoveCommasOfDigits(s: string)
    requires AllDigits(s)
    ensures RemoveCommas(s) == s
  {
    FilterKeepsAll(s, NotComma);
  }

  lemma {:induction false} GroupedRemoveCommas(s: string)
    requires AllDigits(s)
    ensures RemoveCommas(Grouped(s)) == s
    decreases |s|
  {
    if |s| <= 3 {
      RemoveCommasOfDigits(s);
    } else {
      var k := |s| - 3;
      GroupedRemoveCommas(s[..k]);
      RemoveCommasJoin(Grouped(s[..k]), s[k..]);
      RemoveCommasOfDigits(s[k..]);
      assert s[..k] + s[k..] == s;
    }
  }

  lemma {:induction false} GroupedIsWellGrouped(s: string)
    requires 1 <= |s| && AllDigits(s)
    ensures WellGrouped(Grouped(s))
    decreases |s|
  {
    if |s| > 3 {
      var k := |s| - 3;
      GroupedIsWellGrouped(s[..k]);
      var f := Grouped(s);
      assert f[..|f| - 4] == Grouped(s[..k]);
      assert f[|f| - 3..] == s[k..];
    }
  }

  /** A well-grouped text longer than one group ends in a comma and three
      digits after a well-grouped text. */
  lemma WellGroupedUnfold(f: string)
    requires WellGrouped(f) && |f| > 3
    ensures f[|f| - 4] == ',' && AllDigits(f[|f| - 3..]) && WellGrouped(f[..|f| - 4])
  {
  }

  lemma WellGroupedNonEmpty(f: string)
    requires WellGrouped(f)
    ensures 1 <= |f|
  {
  }

  /** A text with a comma four places from its end is what precedes it, the
      comma, and the last three characters. */
  lemma SplitAtComma(f: string)
    requires |f| > 3 && f[|f| - 4] == ','
    ensures f == f[..|f| - 4] + "," + f[|f| - 3..]
  {
    assert f == f[..|f| - 4] + [f[|f| - 4]] + f[|f| - 3..];
  }

  /** The digits of a well-grouped text and the text without its last group. */
  lemma RemoveCommasParts(g: string, u: string)
    requires AllDigits(u)
    ensures RemoveCommas(g + "," + u) == RemoveCommas(g) + u
  {
    RemoveCommasJoin(g, u);
    RemoveCommasOfDigits(u);
  }

  /** The grouping is determined by the digits: a well-grouped text is the
      grouping of the digits it contains. */
  lemma {:induction false} WellGroupedIsGrouped(f: string)
    requires WellGrouped(f)
    ensures AllDigits(RemoveCommas(f))
    ensures f == Grouped(RemoveCommas(f))
    decreases |f|
  {
    if |f| <= 3 {
      RemoveCommasOfDigits(f);
    } else {
      var g, u := f[..|f| - 4], f[|f| - 3..];
      WellGroupedUnfold(f);
      WellGroupedNonEmpty(g);
      SplitAtComma(f);
      WellGroupedIsGrouped(g);
      var d := RemoveCommas(g);
      RemoveCommasParts(g, u);
      assert RemoveCommas(f) == d + u;
      assert 1 <= |d|;
      DigitsAppend(d, u);
      GroupedAppend(d, u);
    }
  }

  lemma DigitsAppend(d: string, u: string)
    requires AllDigits(d) && AllDigits(u)
    ensures AllDigits(d + u)
  {
    var du := d + u;
    assert forall i :: 0 <= i < |d| ==> du[i] == d[i];
    assert forall i :: |d| <= i < |du| ==> du[i] == u[i - |d|];
  }

  /** Appending three digits to at least one digit appends one group. */
  lemma GroupedAppend(d: string, u: string)
    requires 1 <= |d| && |u| == 3
    ensures Grouped(d + u) == Grouped(d) + "," + u
  {
    var du := d + u;
    assert du[..|du| - 3] == d;
    assert du[|du| - 3..] == u;
  }

  /** Removing the commas gives `n.toString()`. */
  lemma FormatNumberDigits(n: nat)
    ensures RemoveCommas(FormatNumber(n)) == DecimalString(n)
  {
    InsertCommasIsGrouped(DecimalString(n));
    GroupedRemoveCommas(DecimalString(n));
  }

  /** The first group has one to three digits and every later group three. */
  lemma FormatNumberWellGrouped(n: nat)
    ensures WellGrouped(FormatNumber(n))
  {
    InsertCommasIsGrouped(DecimalString(n));
    GroupedIsWellGrouped(DecimalString(n));
  }

  /** Below 1000 the text is `n.toString()` unchanged. */
  lemma FormatNumberSmall(n: nat)
    requires n < 1000
    ensures FormatNumber(n) == DecimalString(n)
  {
    ShortDecimal(n);
    InsertCommasUnchanged(DecimalString(n), 0);
  }

  lemma DecimalExample()
    ensures DecimalString(1234567) == "1234567"
  {
    assert DecimalString(1) == "1";
    assert DecimalString(12) == "12";
    assert DecimalString(123) == "123";
    assert DecimalString(1234) == "1234";
    assert DecimalString(12345) == "12345";
    assert DecimalString(123456) == "123456";
  }

  lemma FormatNumberExample()
    ensures FormatNumber(1234567) == "1,234,567"
  {
    DecimalExample();
    InsertCommasIsGrouped("1234567");
    assert "1234567" == "1234" + "567";
    GroupedAppend("1234", "567");
    assert "1234" == "1" + "234";
    GroupedAppend("1", "234");
    assert Grouped("1") == "1";
  }

  /** `toggleTheme`: dark becomes light, any other theme becomes dark. */
  function ToggledTheme(theme: string): (r: string)
    ensures r == "light" || r == "dark"
    ensures r == "light" <==> theme == "dark"
  {
    if theme == "dark" then "light" else "dark"
  }

  /** Between the two themes the toggle is an involution. */
  lemma ToggleTwice(theme: string)
    requires theme == "dark" || theme == "light"
    ensures ToggledTheme(ToggledTheme(theme)) == theme
  {
  }

  /** From any other theme (such as "system") two toggles end on "light". */
  lemma ToggleTwiceFromOther(theme: string)
    requires theme != "dark" && theme != "light"
    ensures ToggledTheme(ToggledTheme(theme)) == "light" != theme
  {
  }

  /** The sidebar lists `recentAlerts.slice(0, 5)`. */
  const SidebarSize := 5

  function SidebarAlerts(recent: seq<DisasterEvent>): (r: seq<DisasterEvent>)
    ensures |r| == if |recent| <= SidebarSize then |recent| else SidebarSize
    ensures r == recent[..|r|]
    ensures |recent| <= SidebarSize <==> r == recent
  {
    Prefix(recent, SidebarSize)
  }

  /** The "Show All" button appears when more than five recent alerts exist. */
  predicate ShowAll(recent: seq<DisasterEvent>) {
    |recent| > SidebarSize
  }

  /** "Show All" appears exactly when the sidebar hides some alert. */
  lemma ShowAllIffTruncated(recent: seq<DisasterEvent>)
    ensures ShowAll(recent) <==> |SidebarAlerts(recent)| < |recent|
  {
  }

  /** The page state: the selected disaster, the active tab and the theme
      (held by the theme context, which the page sets). */
  class DashboardPage {
    var selectedDisaster: Option<DisasterEvent>
    var activeTab: string
    var theme: string

    /** The page opens on the map tab with nothing selected. */
    constructor (initialTheme: string)
      ensures selectedDisaster == None && activeTab == "map" && theme == initialTheme
    {
      selectedDisaster := None;
      activeTab := "map";
      theme := initialTheme;
    }

    /** `handleSelectDisaster`: select `d` and switch to the map tab. */
    method SelectDisaster(d: DisasterEvent)
      modifies this
      ensures selectedDisaster == Some(d)
      ensures activeTab == "map"
      ensures theme == old(theme)
    {
      selectedDisaster := Some(d);
      if activeTab != "map" {
        activeTab := "map";
      }
    }

    /** `setActiveTab`, as the tab list and the "View" and "Show All"
        buttons call it. */
    method SetActiveTab(tab: string)
      modifies this
      ensures activeTab == tab
      ensures selectedDisaster == old(selectedDisaster) && theme == old(theme)
    {
      activeTab := tab;
    }

    method ToggleTheme()
      modifies this
      ensures theme == ToggledTheme(old(theme))
      ensures selectedDisaster == old(selectedDisaster) && activeTab == old(activeTab)
    {
      theme := ToggledTheme(theme);
    }
  }
}
