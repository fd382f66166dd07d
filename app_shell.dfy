/**
 * The application shell: a header titled after the active view, the active
 * view's content, a bottom navigation bar of five buttons and an overflow
 * ("More") menu that the last button opens and closes.
 */
module AppShell {
  import opened Options

  /** `activeView`: one of four string literals in the source's union type. */
  datatype View = DashboardView | MeetingIntelligenceView | TranscriptView | RecordingView

  /** `getPageTitle`: the header text for each view. */
  function PageTitle(v: View): string
  {
    match v
    case DashboardView => "Dashboard"
    case MeetingIntelligenceView => "Meeting Intelligence"
    case TranscriptView => "Transcript"
    case RecordingView => "Recording"
  }

  /** The view a header title stands for; the inverse of `PageTitle`. */
  function ViewOfTitle(t: string): (r: Option<View>)
    ensures r.Some? ==> PageTitle(r.value) == t
  {
    if t == "Dashboard" then Some(DashboardView)
    else if t == "Meeting Intelligence" then Some(MeetingIntelligenceView)
    else if t == "Transcript" then Some(TranscriptView)
    else if t == "Recording" then Some(RecordingView)
    else None
  }

  /** Every view has a title, and the title identifies the view: titles are pairwise distinct. */
  lemma TitleRoundTrip(v: View)
    ensures ViewOfTitle(PageTitle(v)) == Some(v)
  {
  }

  lemma TitlesDistinct(v: View, w: View)
    requires PageTitle(v) == PageTitle(w)
    ensures v == w
  {
    TitleRoundTrip(v);
    TitleRoundTrip(w);
  }

  /** What `renderContent` puts in the main area. */
  datatype Content = DashboardPage | MeetingIntelligencePage | TranscriptPlaceholder | RecordingPane

  function RenderContent(v: View): Content
  {
    match v
    case DashboardView => DashboardPage
    case MeetingIntelligenceView => MeetingIntelligencePage
    case TranscriptView => TranscriptPlaceholder
    case RecordingView => RecordingPane
  }

  /** Every view renders one pane of its own: distinct views render distinct panes. */
  lemma RenderContentInjective(v: View, w: View)
    ensures RenderContent(v) == RenderContent(w) <==> v == w
  {
  }

  /** The header's info and warning icons are drawn only on the meeting-intelligence view. */
  predicate ShowsStatusIcons(v: View)
  {
    v == MeetingIntelligenceView
  }

  /** The icons sit exactly beside the "Meeting Intelligence" title. */
  lemma StatusIconsBesideTitle(v: View)
    ensures ShowsStatusIcons(v) <==> PageTitle(v) == "Meeting Intelligence"
  {
  }

  /** The buttons of the bottom bar, left to right ("Create" opens the recording view). */
  datatype NavButton = HomeButton | TranscriptButton | CreateButton | MeetingsButton | MoreButton

  /** The view a bar button selects; "More" selects none (it toggles the menu). */
  function Target(b: NavButton): Option<View>
  {
    match b
    case HomeButton => Some(DashboardView)
    case TranscriptButton => Some(TranscriptView)
    case CreateButton => Some(RecordingView)
    case MeetingsButton => Some(MeetingIntelligenceView)
    case MoreButton => None
  }

  /** Whether a bar button is drawn in the highlight colour; "Create" and "More" have a fixed colour. */
  predicate Highlighted(v: View, b: NavButton)
  {
    match b
    case HomeButton => v == DashboardView
    case TranscriptButton => v == TranscriptView
    case CreateButton => false
    case MeetingsButton => v == MeetingIntelligenceView
    case MoreButton => false
  }

  /** A button is highlighted iff it selects the active view and is not "Create". */
  lemma HighlightRule(v: View, b: NavButton)
    ensures Highlighted(v, b) <==> b != CreateButton && Target(b) == Some(v)
  {
  }

  /** On the recording view no button is highlighted; on every other view exactly one is. */
  lemma HighlightCount(v: View)
    ensures v == RecordingView ==> forall b :: !Highlighted(v, b)
    ensures v != RecordingView ==> exists b :: Highlighted(v, b)
    ensures forall b, c :: Highlighted(v, b) && Highlighted(v, c) ==> b == c
  {
    match v
    case DashboardView => assert Highlighted(v, HomeButton);
    case TranscriptView => assert Highlighted(v, TranscriptButton);
    case MeetingIntelligenceView => assert Highlighted(v, MeetingsButton);
    case RecordingView =>
  }

  /** The entries of the "More" menu. */
  datatype MenuItem = MeetingList | MeetingPreparation | Tasks

  /** The shell's local state. */
  datatype Shell = Shell(activeView: View, showMoreMenu: bool)

  const Initial := Shell(MeetingIntelligenceView, false)

  /** A bar button press: a view button sets the view, "More" flips the menu. */
  function PressNav(s: Shell, b: NavButton): Shell
  {
    match Target(b)
    case Some(v) => s.(activeView := v)
    case None => s.(showMoreMenu := !s.showMoreMenu)
  }

  /** `handleMoreMenuClick(item)`: every entry closes the menu. */
  function ChooseMenuItem(s: Shell, item: MenuItem): Shell
  {
    s.(showMoreMenu := false)
  }

  /** The recording page's back callback. */
  function RecordingBack(s: Shell): Shell
  {
    s.(activeView := DashboardView)
  }

  lemma InitialShell()
    ensures Initial.activeView == MeetingIntelligenceView && !Initial.showMoreMenu
    ensures PageTitle(Initial.activeView) == "Meeting Intelligence" && ShowsStatusIcons(Initial.activeView)
  {
  }

  /** A view button selects exactly its view and leaves the menu as it was. */
  lemma NavSelectsView(s: Shell, b: NavButton)
    requires b != MoreButton
    ensures PressNav(s, b).activeView == Target(b).value
    ensures PressNav(s, b).showMoreMenu == s.showMoreMenu
  {
  }

  /** "More" toggles: it flips the menu, keeps the view, and two presses cancel out. */
  lemma MoreToggles(s: Shell)
    ensures PressNav(s, MoreButton).showMoreMenu == !s.showMoreMenu
    ensures PressNav(s, MoreButton).activeView == s.activeView
    ensures PressNav(PressNav(s, MoreButton), MoreButton) == s
  {
  }

  /** Any menu entry closes the menu and leaves the view alone. */
  lemma MenuItemCloses(s: Shell, item: MenuItem)
    ensures ChooseMenuItem(s, item) == Shell(s.activeView, false)
  {
  }

  /** Back from the recording page lands on the dashboard without touching the menu. */
  lemma BackToDashboard(s: Shell)
    ensures RecordingBack(s) == Shell(DashboardView, s.showMoreMenu)
    ensures PageTitle(RecordingBack(s).activeView) == "Dashboard"
  {
  }

  /** User events: a bar button, a "More" menu entry, the recording page's Back button. */
  datatype Event = NavClick(button: NavButton) | MenuClick(item: MenuItem) | BackClick

  /**
   * Whether the control of an event is on screen: menu entries only while the
   * menu is open, the recording page's Back only on the recording view.
   */
  predicate Offered(s: Shell, e: Event)
  {
    match e
    case NavClick(_) => true
    case MenuClick(_) => s.showMoreMenu
    case BackClick => s.activeView == RecordingView
  }

  /** An event runs its handler if its control is on screen; otherwise nothing happens. */
  function Step(s: Shell, e: Event): Shell
  {
    if !Offered(s, e) then s
    else match e
      case NavClick(b) => PressNav(s, b)
      case MenuClick(item) => ChooseMenuItem(s, item)
      case BackClick => RecordingBack(s)
  }

  /** The state after the events `es`, in order. */
  function Run(s: Shell, es: seq<Event>): Shell
    decreases |es|
  {
    if es == [] then s else Run(Step(s, es[0]), es[1..])
  }

  /** The number of "More" presses among `es`. */
  function MorePresses(es: seq<Event>): nat
    decreases |es|
  {
    if es == [] then 0 else (if es[0] == NavClick(MoreButton) then 1 else 0) + MorePresses(es[1..])
  }

  /** Whether some event of `es` is a menu entry click. */
  predicate HasMenuClick(es: seq<Event>)
  {
    exists i :: 0 <= i < |es| && es[i].MenuClick?
  }

  /** A menu entry click leaves the menu closed, whether or not it was open (and so on screen). */
  lemma MenuClickCloses(s: Shell, item: MenuItem)
    ensures !Step(s, MenuClick(item)).showMoreMenu
    ensures Step(s, MenuClick(item)).activeView == s.activeView
  {
  }

  /**
   * "More" is a toggle, not an idempotent open: without menu entry clicks, the
   * menu ends open iff it started open xor the number of "More" presses is odd;
   * no other event touches it.
   */
  lemma {:induction false} MenuParity(s: Shell, es: seq<Event>)
    requires !HasMenuClick(es)
    ensures Run(s, es).showMoreMenu == (s.showMoreMenu != (MorePresses(es) % 2 == 1))
    decreases |es|
  {
    if es != [] {
      assert !HasMenuClick(es[1..]) by {
        forall i | 0 <= i < |es[1..]| ensures !es[1..][i].MenuClick? {
          assert es[1..][i] == es[i + 1];
        }
      }
      assert !es[0].MenuClick? by {
        assert es[0] == es[0 + 0];
      }
      MenuParity(Step(s, es[0]), es[1..]);
    }
  }

  /** In every state reached from the start without menu entry clicks, the menu is open iff "More" was pressed an odd number of times. */
  lemma ReachableMenu(es: seq<Event>)
    requires !HasMenuClick(es)
    ensures Run(Initial, es).showMoreMenu <==> MorePresses(es) % 2 == 1
  {
    MenuParity(Initial, es);
  }

  /** After any events ending in a menu entry click, the menu is closed. */
  lemma {:induction false} ReachableMenuClosedAfterEntry(s: Shell, es: seq<Event>, item: MenuItem)
    ensures !Run(s, es + [MenuClick(item)]).showMoreMenu
    decreases |es|
  {
    if es == [] {
      assert es + [MenuClick(item)] == [MenuClick(item)];
      MenuClickCloses(s, item);
    } else {
      assert (es + [MenuClick(item)])[1..] == es[1..] + [MenuClick(item)];
      ReachableMenuClosedAfterEntry(Step(s, es[0]), es[1..], item);
    }
  }

  /** The `App` component: its state hooks as fields, its click handlers as methods. */
  class App {
    var activeView: View
    var showMoreMenu: bool

    function Snapshot(): Shell
      reads this
    {
      Shell(activeView, showMoreMenu)
    }

    constructor ()
      ensures activeView == MeetingIntelligenceView && !showMoreMenu
      ensures Snapshot() == Initial
    {
      activeView := MeetingIntelligenceView;
      showMoreMenu := false;
    }

    /** The header title for the current state. */
    function Title(): (t: string)
      reads this
      ensures ViewOfTitle(t) == Some(activeView)
    {
      TitleRoundTrip(activeView);
      PageTitle(activeView)
    }

    /** One of the five bottom-bar buttons. */
    method ClickNav(b: NavButton)
      modifies this
      ensures b != MoreButton ==> activeView == Target(b).value && showMoreMenu == old(showMoreMenu)
      ensures b == MoreButton ==> activeView == old(activeView) && showMoreMenu == !old(showMoreMenu)
      ensures Snapshot() == PressNav(old(Snapshot()), b)
    {
      match Target(b) {
        case Some(v) => activeView := v;
        case None => showMoreMenu := !showMoreMenu;
      }
    }

    method HandleMoreMenuClick(item: MenuItem)
      modifies this
      ensures activeView == old(activeView) && !showMoreMenu
      ensures Snapshot() == ChooseMenuItem(old(Snapshot()), item)
    {
      showMoreMenu := false;
    }

    /** The `onBack` callback handed to the recording page. */
    method OnRecordingBack()
      modifies this
      ensures activeView == DashboardView && showMoreMenu == old(showMoreMenu)
      ensures Snapshot() == RecordingBack(old(Snapshot()))
    {
      activeView := DashboardView;
    }

    /** A user event, sent to its handler when its control is on screen. */
    method Dispatch(e: Event)
      modifies this
      ensures Snapshot() == Step(old(Snapshot()), e)
      ensures e.MenuClick? ==> !showMoreMenu
      ensures e.BackClick? && old(activeView) != RecordingView ==> Snapshot() == old(Snapshot())
    {
      if Offered(Snapshot(), e) {
        match e {
          case NavClick(b) => ClickNav(b);
          case MenuClick(item) => HandleMoreMenuClick(item);
          case BackClick => OnRecordingBack();
        }
      }
    }
  }
}
