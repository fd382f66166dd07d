/**
 * The meeting-intelligence view: a row of six icon tabs selecting one content
 * pane, a recording page that replaces the whole view while it is open, and a
 * back-to-top button shown once the window has scrolled past 200 pixels.
 */
module MeetingIntelligence {
  import opened Options

  /** An entry of the `tabs` table (the `label` text as `caption`; the icon is not modelled). */
  datatype Tab = Tab(id: string, caption: string)

  const Tabs: seq<Tab> := [
    Tab("transcript", "Transcript"),
    Tab("summary", "Meeting Summary"),
    Tab("followup", "Follow-up Letter"),
    Tab("analytics", "Analytics"),
    Tab("coaching", "Coaching"),
    Tab("asksam", "Ask SAM")
  ]

  /** True iff `id` is the id of some entry of the table. */
  predicate IsTabId(id: string)
  {
    exists i :: 0 <= i < |Tabs| && Tabs[i].id == id
  }

  /** The table has six entries with pairwise distinct ids. */
  lemma TabIdsDistinct()
    ensures |Tabs| == 6
    ensures forall i, j :: 0 <= i < j < |Tabs| ==> Tabs[i].id != Tabs[j].id
  {
  }

  /** The content component each tab id renders. */
  datatype Pane = TranscriptPane | SummaryPane | FollowUpPane | AnalyticsPane | CoachingPane | AskSamPane

  /** `renderTabContent`: one pane per table id; any other id renders nothing. */
  function RenderTabContent(activeTab: string): (r: Option<Pane>)
    ensures r.Some? <==> IsTabId(activeTab)
  {
    assert Tabs[0].id == "transcript" && Tabs[1].id == "summary" && Tabs[2].id == "followup";
    assert Tabs[3].id == "analytics" && Tabs[4].id == "coaching" && Tabs[5].id == "asksam";
    if activeTab == "transcript" then Some(TranscriptPane)
    else if activeTab == "summary" then Some(SummaryPane)
    else if activeTab == "followup" then Some(FollowUpPane)
    else if activeTab == "analytics" then Some(AnalyticsPane)
    else if activeTab == "coaching" then Some(CoachingPane)
    else if activeTab == "asksam" then Some(AskSamPane)
    else None
  }

  /** Distinct table entries render distinct panes. */
  lemma RenderTabContentInjective(i: nat, j: nat)
    requires i < |Tabs| && j < |Tabs|
    ensures RenderTabContent(Tabs[i].id) == RenderTabContent(Tabs[j].id) <==> i == j
  {
  }

  /** How a tab button is drawn. */
  datatype Highlight = Plain | Purple | Orange

  /** The tab button's style: highlighted when selected, orange for "asksam" and purple otherwise. */
  function ButtonStyle(activeTab: string, id: string): Highlight
  {
    if activeTab == id then (if id == "asksam" then Orange else Purple) else Plain
  }

  /** When the selected id is in the table, exactly one button is highlighted: the selected one. */
  lemma ExactlyOneHighlighted(activeTab: string)
    requires IsTabId(activeTab)
    ensures exists i :: 0 <= i < |Tabs| && ButtonStyle(activeTab, Tabs[i].id) != Plain
    ensures forall i :: 0 <= i < |Tabs| && ButtonStyle(activeTab, Tabs[i].id) != Plain ==> Tabs[i].id == activeTab
    ensures forall i, j ::
              0 <= i < |Tabs| && 0 <= j < |Tabs| &&
              ButtonStyle(activeTab, Tabs[i].id) != Plain && ButtonStyle(activeTab, Tabs[j].id) != Plain
              ==> i == j
  {
    TabIdsDistinct();
  }

  /** The highlight colour is orange exactly when the selected tab is "asksam". */
  lemma HighlightColour(activeTab: string)
    ensures ButtonStyle(activeTab, activeTab) == Orange <==> activeTab == "asksam"
    ensures ButtonStyle(activeTab, activeTab) == Purple <==> activeTab != "asksam"
  {
  }

  /** `showBackToTop` after a scroll event: strictly beyond 200 pixels. */
  function BackToTopVisible(scrollY: int): bool
  {
    scrollY > 200
  }

  lemma BackToTopThreshold(scrollY: int)
    ensures !BackToTopVisible(200) && BackToTopVisible(201)
    ensures BackToTopVisible(scrollY) <==> scrollY >= 201
  {
  }

  /** The view's local state. */
  datatype Router = Router(activeTab: string, showRecordingPage: bool, showActionMenu: bool, showBackToTop: bool)

  const Initial := Router("transcript", false, false, false)

  /** What the component renders. */
  datatype Screen = RecordingScreen | TabScreen(pane: Option<Pane>, backToTop: bool)

  /** The recording page, while open, replaces the whole view; otherwise the active tab's pane. */
  function Render(s: Router): Screen
  {
    if s.showRecordingPage then RecordingScreen else TabScreen(RenderTabContent(s.activeTab), s.showBackToTop)
  }

  /** Clicking tab `i` of the table. */
  function ClickTab(s: Router, i: nat): Router
    requires i < |Tabs|
  {
    s.(activeTab := Tabs[i].id)
  }

  /** The `onRecordClick` callback handed to the transcript tab. */
  function OpenRecording(s: Router): Router
  {
    s.(showRecordingPage := true)
  }

  /** The recording page's `onBack` callback. */
  function CloseRecording(s: Router): Router
  {
    s.(showRecordingPage := false)
  }

  /** The window's scroll listener. */
  function Scroll(s: Router, scrollY: int): Router
  {
    s.(showBackToTop := BackToTopVisible(scrollY))
  }

  /** User events: a tab click, the transcript tab's Record button, the recording page's Back button, a scroll. */
  datatype Event = TabClick(index: nat) | RecordClick | BackClick | ScrollTo(scrollY: int)

  /**
   * Which handler each control is wired to. `AsWritten`: the transcript tab's
   * Record button has no click handler and the tab never calls the
   * `onRecordClick` it is handed. `Intended`: the Record button calls it.
   */
  datatype Wiring = AsWritten | Intended

  /** Whether an event has any effect: the control exists on screen and is wired. */
  predicate Handled(w: Wiring, s: Router, e: Event)
  {
    match e
    case TabClick(i) => !s.showRecordingPage && i < |Tabs|
    case RecordClick => w == Intended && !s.showRecordingPage && s.activeTab == "transcript"
    case BackClick => s.showRecordingPage
    case ScrollTo(_) => true
  }

  function Step(w: Wiring, s: Router, e: Event): Router
  {
    if !Handled(w, s, e) then s
    else match e
      case TabClick(i) => ClickTab(s, i)
      case RecordClick => OpenRecording(s)
      case BackClick => CloseRecording(s)
      case ScrollTo(y) => Scroll(s, y)
  }

  /** The state after the events `es`, in order. */
  function Run(w: Wiring, s: Router, es: seq<Event>): Router
    decreases |es|
  {
    if es == [] then s else Run(w, Step(w, s, es[0]), es[1..])
  }

  /** The reachable-state invariant: the active tab is a table id and the action menu stays closed. */
  predicate Inv(s: Router)
  {
    IsTabId(s.activeTab) && !s.showActionMenu
  }

  lemma InitialRouter()
    ensures Inv(Initial)
    ensures Render(Initial) == TabScreen(Some(TranscriptPane), false)
  {
    assert Tabs[0].id == "transcript";
  }

  /** Clicking a tab selects exactly that tab: afterwards only its button is highlighted. */
  lemma ClickTabHighlights(s: Router, i: nat)
    requires i < |Tabs|
    ensures ClickTab(s, i).activeTab == Tabs[i].id
    ensures forall j :: 0 <= j < |Tabs| ==> (ButtonStyle(ClickTab(s, i).activeTab, Tabs[j].id) != Plain <==> j == i)
  {
    TabIdsDistinct();
  }

  /** While the recording page is open it is all that is shown, whatever tab is active. */
  lemma RecordingOverrides(s: Router)
    ensures s.showRecordingPage <==> Render(s) == RecordingScreen
  {
  }

  /** Back closes the recording page and preserves the active tab. */
  lemma BackPreservesTab(w: Wiring, s: Router)
    requires s.showRecordingPage
    ensures !Step(w, s, BackClick).showRecordingPage
    ensures Step(w, s, BackClick).activeTab == s.activeTab
  {
  }

  lemma {:induction false} RunKeepsInv(w: Wiring, s: Router, es: seq<Event>)
    requires Inv(s)
    ensures Inv(Run(w, s, es))
    decreases |es|
  {
    if es != [] {
      var t := Step(w, s, es[0]);
      if Handled(w, s, es[0]) && es[0].TabClick? {
        assert Tabs[es[0].index].id == t.activeTab;
      }
      RunKeepsInv(w, t, es[1..]);
    }
  }

  /**
   * In every reachable state the active tab renders a pane (the `default`
   * branch of `renderTabContent` is dead) and the action menu is closed.
   */
  lemma ReachableRendersPane(w: Wiring, es: seq<Event>)
    ensures Inv(Run(w, Initial, es))
    ensures !Run(w, Initial, es).showRecordingPage ==> Render(Run(w, Initial, es)).pane.Some?
  {
    InitialRouter();
    RunKeepsInv(w, Initial, es);
  }

  /** As written, the recording page is never shown, whatever the user does. */
  lemma {:induction false} RecordingUnreachableAsWritten(s: Router, es: seq<Event>)
    requires !s.showRecordingPage
    ensures !Run(AsWritten, s, es).showRecordingPage
    decreases |es|
  {
    if es != [] {
      RecordingUnreachableAsWritten(Step(AsWritten, s, es[0]), es[1..]);
    }
  }

  /**
   * With the Record button wired, pressing it on the transcript tab opens the
   * recording page, and Back returns to exactly the state before.
   */
  lemma RecordThenBackIntended(s: Router)
    requires !s.showRecordingPage && s.activeTab == "transcript"
    ensures Render(Step(Intended, s, RecordClick)) == RecordingScreen
    ensures Step(Intended, Step(Intended, s, RecordClick), BackClick) == s
  {
  }

  /** The `MeetingIntelligence` component: its state hooks as fields, its handlers as methods. */
  class MeetingIntelligenceView {
    var activeTab: string
    var showRecordingPage: bool
    var showActionMenu: bool
    var showBackToTop: bool

    function Snapshot(): Router
      reads this
    {
      Router(activeTab, showRecordingPage, showActionMenu, showBackToTop)
    }

    ghost predicate Valid()
      reads this
    {
      Inv(Snapshot())
    }

    constructor ()
      ensures activeTab == "transcript" && !showRecordingPage && !showActionMenu && !showBackToTop
      ensures Snapshot() == Initial && Valid()
    {
      activeTab := "transcript";
      showRecordingPage := false;
      showActionMenu := false;
      showBackToTop := false;
      InitialRouter();
    }

    /** The click handler of tab button `i`. */
    method SelectTab(i: nat)
      requires i < |Tabs|
      modifies this
      ensures activeTab == Tabs[i].id
      ensures showRecordingPage == old(showRecordingPage) && showActionMenu == old(showActionMenu)
      ensures showBackToTop == old(showBackToTop)
      ensures Snapshot() == ClickTab(old(Snapshot()), i)
      ensures old(Valid()) ==> Valid()
    {
      activeTab := Tabs[i].id;
      assert IsTabId(activeTab);
    }

    /** The `onRecordClick` callback. */
    method OnRecordClick()
      modifies this
      ensures showRecordingPage
      ensures activeTab == old(activeTab) && showActionMenu == old(showActionMenu) && showBackToTop == old(showBackToTop)
      ensures Snapshot() == OpenRecording(old(Snapshot()))
    {
      showRecordingPage := true;
    }

    /** The recording page's `onBack` callback. */
    method OnRecordingBack()
      modifies this
      ensures !showRecordingPage
      ensures activeTab == old(activeTab) && showActionMenu == old(showActionMenu) && showBackToTop == old(showBackToTop)
      ensures Snapshot() == CloseRecording(old(Snapshot()))
    {
      showRecordingPage := false;
    }

    /** `handleScroll`, given the window's vertical scroll offset. */
    method HandleScroll(scrollY: int)
      modifies this
      ensures showBackToTop == (scrollY > 200)
      ensures activeTab == old(activeTab) && showRecordingPage == old(showRecordingPage)
      ensures showActionMenu == old(showActionMenu)
      ensures Snapshot() == Scroll(old(Snapshot()), scrollY)
    {
      showBackToTop := scrollY > 200;
    }

    /**
     * A user event, dispatched to its handler when the control is on screen
     * and wired under `w` (`AsWritten`: the Record button does nothing).
     */
    method Dispatch(w: Wiring, e: Event)
      modifies this
      ensures Snapshot() == Step(w, old(Snapshot()), e)
      ensures old(Valid()) ==> Valid()
      ensures w == AsWritten && !old(showRecordingPage) ==> !showRecordingPage
    {
      if Handled(w, Snapshot(), e) {
        match e {
          case TabClick(i) => SelectTab(i);
          case RecordClick => OnRecordClick();
          case BackClick => OnRecordingBack();
          case ScrollTo(y) => HandleScroll(y);
        }
      }
    }
  }
}
