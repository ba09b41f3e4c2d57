/**
 * The vote page: the tab buttons are the enabled tabs of the vote content in
 * their key order, a panel renders when the selected tab names it and it is
 * enabled, important dates are marked upcoming from the current instant, and
 * a help contact's value is shown one line per `\n`-separated piece.
 */
module Vote {
  import opened Seqs
  import opened JsStrings
  import opened CivilDates
  import opened SiteSchema
  import opened SiteDefaults

  // ------------------------------------------------------------------
  // tabs

  /** The keys of `voteContent.tabs`, in their declaration order. */
  datatype TabKey = Registration | Locations | Dates | Candidates

  const TabOrder: seq<TabKey> := [Registration, Locations, Dates, Candidates]

  /** The position of a key in the key order. */
  function Position(k: TabKey): (n: int)
    ensures 0 <= n < 4 && TabOrder[n] == k
  {
    match k
    case Registration => 0
    case Locations => 1
    case Dates => 2
    case Candidates => 3
  }

  /** The property name of a key, the value `selectedTab` holds. */
  function KeyName(k: TabKey): string {
    match k
    case Registration => "registration"
    case Locations => "locations"
    case Dates => "dates"
    case Candidates => "candidates"
  }

  /** Distinct keys have distinct names, so one selected name stands for at most one tab. */
  lemma KeyNameInjective(k1: TabKey, k2: TabKey)
    ensures KeyName(k1) == KeyName(k2) ==> k1 == k2
  {
    if k1 != k2 {
      assert KeyName(k1)[0] != KeyName(k2)[0];
    }
  }

  lemma KeyNamesDistinct()
    ensures forall k1, k2 :: KeyName(k1) == KeyName(k2) ==> k1 == k2
  {
    forall k1, k2 ensures KeyName(k1) == KeyName(k2) ==> k1 == k2 {
      KeyNameInjective(k1, k2);
    }
  }

  /** `tab.enabled` of the tab under a key. */
  predicate TabEnabled(tabs: VoteTabs, k: TabKey) {
    match k
    case Registration => tabs.registration.enabled
    case Locations => tabs.locations.enabled
    case Dates => tabs.dates.enabled
    case Candidates => tabs.candidates.enabled
  }

  /** `tab.label` of the tab under a key. */
  function TabLabel(tabs: VoteTabs, k: TabKey): string {
    match k
    case Registration => tabs.registration.labelText
    case Locations => tabs.locations.labelText
    case Dates => tabs.dates.labelText
    case Candidates => tabs.candidates.labelText
  }

  function EnabledIn(tabs: VoteTabs): TabKey -> bool {
    k => TabEnabled(tabs, k)
  }

  /**
   * `Object.entries(voteContent.tabs).filter(([_, tab]) => tab.enabled)`:
   * exactly the enabled tabs, each once, in key order.
   */
  function EnabledTabs(tabs: VoteTabs): (r: seq<TabKey>)
    ensures forall k :: k in r <==> TabEnabled(tabs, k)
    ensures forall i, j :: 0 <= i < j < |r| ==> Position(r[i]) < Position(r[j])
  {
    EnabledFilter(tabs);
    Filter(TabOrder, EnabledIn(tabs))
  }

  /** The keys that pass the enabled test are the enabled tabs, in key order. */
  lemma EnabledFilter(tabs: VoteTabs)
    ensures var r := Filter(TabOrder, EnabledIn(tabs));
      (forall k :: k in r <==> TabEnabled(tabs, k))
      && (forall i, j :: 0 <= i < j < |r| ==> Position(r[i]) < Position(r[j]))
  {
    KeyFilter(EnabledIn(tabs));
  }

  /** The keys are listed in position order. */
  lemma TabOrderIncreasing()
    ensures forall i, j :: 0 <= i < j < |TabOrder| ==> Position(TabOrder[i]) < Position(TabOrder[j])
  {
  }

  /** Filtering the keys keeps exactly those passing the test, in key order. */
  lemma KeyFilter(p: TabKey -> bool)
    ensures forall k :: k in Filter(TabOrder, p) <==> p(k)
    ensures var r := Filter(TabOrder, p); forall i, j :: 0 <= i < j < |r| ==> Position(r[i]) < Position(r[j])
  {
    TabOrderIncreasing();
    FilterKeepsOrder(TabOrder, p, Position);
    forall k | p(k)
      ensures k in Filter(TabOrder, p)
    {
      assert TabOrder[Position(k)] == k;
    }
  }

  /** With every tab enabled, all four buttons show, in key order. */
  lemma AllEnabledTabs(tabs: VoteTabs)
    requires forall k :: TabEnabled(tabs, k)
    ensures EnabledTabs(tabs) == TabOrder
  {
    FilterAll(TabOrder, EnabledIn(tabs));
  }

  /** The four tabs of the default content are enabled, so the default page shows all four buttons. */
  lemma DefaultTabsEnabled()
    ensures EnabledTabs(DefaultSiteContent.vote.tabs) == TabOrder
  {
    AllEnabledTabs(DefaultSiteContent.vote.tabs);
  }

  /** A tab button: its key, its label, and whether it is drawn as the selected one. */
  datatype TabButton = TabButton(key: TabKey, labelText: string, highlighted: bool)

  /** `enabledTabs.map(...)`: one button per enabled tab, the one named by `selectedTab` highlighted. */
  function TabButtons(tabs: VoteTabs, selectedTab: string): (r: seq<TabButton>)
    ensures |r| == |EnabledTabs(tabs)|
    ensures forall i :: 0 <= i < |r| ==>
      r[i].key == EnabledTabs(tabs)[i] && r[i].labelText == TabLabel(tabs, r[i].key)
      && (r[i].highlighted <==> selectedTab == KeyName(r[i].key))
  {
    var keys := EnabledTabs(tabs);
    seq(|keys|, i requires 0 <= i < |keys| =>
      TabButton(keys[i], TabLabel(tabs, keys[i]), selectedTab == KeyName(keys[i])))
  }

  /** At most one button is highlighted, whatever `selectedTab` holds. */
  lemma OneHighlightedButton(tabs: VoteTabs, selectedTab: string, i: int, j: int)
    requires 0 <= i < |TabButtons(tabs, selectedTab)| && 0 <= j < |TabButtons(tabs, selectedTab)|
    requires TabButtons(tabs, selectedTab)[i].highlighted && TabButtons(tabs, selectedTab)[j].highlighted
    ensures i == j
  {
    var r := TabButtons(tabs, selectedTab);
    KeyNameInjective(r[i].key, r[j].key);
  }

  // ------------------------------------------------------------------
  // panels

  /** `useState('registration')`. */
  const InitialSelectedTab: string := "registration"

  /** `selectedTab === key && voteContent.tabs[key].enabled`: the condition in front of each panel. */
  predicate ShowsPanel(tabs: VoteTabs, selectedTab: string, k: TabKey) {
    selectedTab == KeyName(k) && TabEnabled(tabs, k)
  }

  function ShownBy(tabs: VoteTabs, selectedTab: string): TabKey -> bool {
    k => ShowsPanel(tabs, selectedTab, k)
  }

  /**
   * The four conditional panels in page order: a panel renders exactly when
   * its tab is selected and enabled, so never more than one renders.
   */
  function VisiblePanels(tabs: VoteTabs, selectedTab: string): (r: seq<TabKey>)
    ensures forall k :: k in r <==> ShowsPanel(tabs, selectedTab, k)
    ensures |r| <= 1
  {
    KeyFilter(ShownBy(tabs, selectedTab));
    KeyNamesDistinct();
    Filter(TabOrder, ShownBy(tabs, selectedTab))
  }

  /** A disabled tab never shows its panel, even when `selectedTab` names it. */
  lemma DisabledTabShowsNoPanel(tabs: VoteTabs, selectedTab: string, k: TabKey)
    requires !TabEnabled(tabs, k)
    ensures k !in VisiblePanels(tabs, selectedTab)
  {
  }

  /** Clicking an enabled tab's button shows that tab's panel and no other. */
  lemma ClickShowsItsPanel(tabs: VoteTabs, k: TabKey)
    requires k in EnabledTabs(tabs)
    ensures VisiblePanels(tabs, KeyName(k)) == [k]
  {
    var r := VisiblePanels(tabs, KeyName(k));
    assert k in r;
  }

  /**
   * On first render the registration panel shows when registration is
   * enabled; when stored content disables it, no panel shows at all until
   * another tab is clicked.
   */
  lemma InitialPanel(tabs: VoteTabs)
    ensures VisiblePanels(tabs, InitialSelectedTab) == if tabs.registration.enabled then [Registration] else []
  {
    var r := VisiblePanels(tabs, InitialSelectedTab);
    if tabs.registration.enabled {
      ClickShowsItsPanel(tabs, Registration);
    } else {
      forall k ensures k !in r {
        KeyNameInjective(k, Registration);
      }
    }
  }

  // ------------------------------------------------------------------
  // important dates

  /** `isUpcoming(dateInfo.date)` for every important date, in list order. */
  function UpcomingFlags(dates: seq<ImportantDate>, now: int): (r: seq<bool>)
    ensures |r| == |dates|
    ensures forall i :: 0 <= i < |dates| ==> (r[i] <==> IsUpcomingText(dates[i].date, now))
  {
    seq(|dates|, i requires 0 <= i < |dates| => IsUpcomingText(dates[i].date, now))
  }

  /** An ISO date is upcoming exactly when its midnight (UTC) is at or after now. */
  lemma IsoDateUpcoming(y: nat, m: nat, d: nat, now: int)
    requires y <= 9999 && 1 <= m <= 12 && 1 <= d <= DaysInMonth(y, m)
    ensures IsUpcomingText(IsoDate(y, m, d), now) <==> DayKey(y, m, d) * MsPerDay >= now
  {
    ParseIsoDateOfIsoDate(y, m, d);
  }

  /** Once a date is upcoming it stays upcoming for every earlier instant, and once past it stays past. */
  lemma UpcomingMonotone(text: string, now: int, later: int)
    requires now <= later
    ensures IsUpcomingText(text, later) ==> IsUpcomingText(text, now)
  {
  }

  /** A text the date parser rejects is never marked upcoming, like an invalid `Date`. */
  lemma UnparseableNeverUpcoming(text: string, now: int)
    requires |text| != 10
    ensures !IsUpcomingText(text, now)
  {
  }

  // ------------------------------------------------------------------
  // contact lines

  /** `contact.value.split('\n')`: at least one line, none holding a newline, joining back to the value. */
  function ContactLines(value: string): (r: seq<string>)
    ensures |r| > 0
    ensures forall i :: 0 <= i < |r| ==> '\n' !in r[i]
    ensures Join(r, "\n") == value
  {
    JoinSplit(value, '\n');
    Split(value, '\n')
  }

  /** A value without a newline is shown as a single line. */
  lemma SingleLineContact(value: string)
    requires '\n' !in value
    ensures ContactLines(value) == [value]
  {
    SplitWithout(value, '\n');
  }

  /** Lines free of newlines, joined with `\n`, are shown back as exactly those lines. */
  lemma ContactLinesOfJoin(lines: seq<string>)
    requires |lines| > 0
    requires forall i :: 0 <= i < |lines| ==> '\n' !in lines[i]
    ensures ContactLines(Join(lines, "\n")) == lines
  {
    SplitJoin(lines, '\n');
  }

  /** A value with one line break, such as the default Town Hall contact, is shown as two lines. */
  lemma TwoLineContact(first: string, second: string)
    requires '\n' !in first && '\n' !in second
    ensures ContactLines(first + "\n" + second) == [first, second]
  {
    var lines := [first, second];
    assert Join(lines, "\n") == first + "\n" + second by {
      assert lines[1..] == [second];
    }
    ContactLinesOfJoin(lines);
  }

  /** Election day of the default content, "2024-11-05", is upcoming until midnight UTC at its start has passed. */
  lemma ElectionDayUpcoming(now: int)
    ensures IsUpcomingText("2024-11-05", now) <==> DayKey(2024, 11, 5) * MsPerDay >= now
  {
    ElectionDayParses();
  }

  /** The default election-day text parses as November 5, 2024. */
  lemma ElectionDayParses()
    ensures ParseIsoDate("2024-11-05") == Wrappers.Some(DayKey(2024, 11, 5))
  {
    var t := "2024-11-05";
    assert t[..4] == "2024";
    assert t[5..7] == "11";
    assert t[8..] == "05";
    assert DigitsValue("2024") == 2024 by {
      assert "2024"[..3] == "202" && "202"[..2] == "20" && "20"[..1] == "2" && "2"[..0] == "";
    }
    assert DigitsValue("11") == 11 by {
      assert "11"[..1] == "1" && "1"[..0] == "";
    }
    assert DigitsValue("05") == 5 by {
      assert "05"[..1] == "0" && "0"[..0] == "";
    }
  }
}
