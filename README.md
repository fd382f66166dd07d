# Meeting-intelligence web interface: state model

A Dafny model of the interactive logic of a single-page web interface for a
meeting-intelligence product (React, TypeScript). The interface is almost all
presentation. Four components hold local state that event handlers change, and
that state is modelled here:

- **Recording page** (`RecordingPage`, `TimeFormat`). There is a consent question whose answer `hasAgreed` is `null`, `true` or `false`. A record button flips `isRecording`. A `recordingTime` counter is declared but never changed. The `formatTime` helper renders seconds as zero-padded `mm:ss`.
- **Application shell** (`AppShell`). It holds the active top-level view, the page-title lookup, the content dispatch, the bottom navigation bar with its highlight rule, and the "More" menu toggle.
- **Transcript upload intake** (`TranscriptTab`). It holds a drop-zone "drag active" flag and a single slot for the chosen file. The Upload button is enabled only when a file is held. Nothing checks the file's type or size.
- **Meeting-intelligence tab router** (`MeetingIntelligence`). It has a table of six tabs, the active tab and its highlight, a recording page that replaces the whole view while it is open, and a back-to-top flag set by a strict scroll threshold.

Each component follows the same layout:

- A value datatype holds the component's state.
- Pure functions give each handler's effect.
- A class has the component's state hooks as fields and its handlers as methods. Each method's contract gives every field's new value and ties the new `Snapshot()` to the pure function.
- A `Step`/`Run` pair replays sequences of user events. A control can only be pressed while it is on screen.
- Inductive lemmas prove invariants of every reachable state.

Some things the code does not have:

- The recording page has no paused state and no running timer.
- "Stop" is the same toggle as "start".
- "More" is a plain toggle.
- There are no drag or swipe gestures anywhere.

## Model

| member | source | states |
|---|---|---|
| `TimeFormat.DecimalString` | src/components/RecordingPage/RecordingPage.tsx:29 | `toString` of a whole number is a non-empty digit string, "0" for zero, with no leading zero otherwise |
| `TimeFormat.PadStart` | src/components/RecordingPage/RecordingPage.tsx:29 | `padStart(width, fill)` keeps the string as its suffix, fills the rest with `fill`, and has length max(length, width) |
| `TimeFormat.DecimalRoundTrip` | src/components/RecordingPage/RecordingPage.tsx:29 | parsing the decimal form of `n` gives back `n` |
| `TimeFormat.DecimalWidth` | src/components/RecordingPage/RecordingPage.tsx:29 | the decimal form has at most two characters iff `n < 100`, and exactly one below 10 |
| `TimeFormat.ParseLeadingZeros` | src/components/RecordingPage/RecordingPage.tsx:29 | zero padding on the left does not change the value a digit string denotes |
| `TimeFormat.PaddedField` | src/components/RecordingPage/RecordingPage.tsx:29 | a padded field is all digits, denotes its number, and is exactly 2 wide below 100 and never truncated above |
| `TimeFormat.FormatTime` | src/components/RecordingPage/RecordingPage.tsx:26-30 | the display is at least 5 characters with a colon third from the end |
| `TimeFormat.FormatTimeFields` | src/components/RecordingPage/RecordingPage.tsx:26-30 | minutes field: at least 2 digits denoting `s / 60`; seconds field: exactly 2 digits denoting `s % 60 < 60`; together `mins*60 + secs == s` |
| `TimeFormat.ParseFormatRoundTrip` | src/components/RecordingPage/RecordingPage.tsx:26-30 | `ParseTime(FormatTime(s)) == Some(s)` for every natural `s` |
| `TimeFormat.FormatTimeInjective` | src/components/RecordingPage/RecordingPage.tsx:26-30 | different durations give different displays |
| `TimeFormat.FormatTimeLength` | src/components/RecordingPage/RecordingPage.tsx:26-30 | the display is exactly 5 characters iff `s < 6000` |
| `TimeFormat.FormatTimeZero` | src/components/RecordingPage/RecordingPage.tsx:26-30 | `formatTime(0)` is "00:00" |
| `RecordingPage.PanelShown` | src/components/RecordingPage/RecordingPage.tsx:56-97 | for each consent value exactly one of the question, denied and recorder panels is rendered |
| `RecordingPage.InitialIsValid` | src/components/RecordingPage/RecordingPage.tsx:9-11 | the initial state (unanswered, not recording, time 0) satisfies the invariant and shows the question |
| `RecordingPage.AnswerOutcomes` | src/components/RecordingPage/RecordingPage.tsx:13-20 | from the question, "No" gives Denied without recording and "Yes" gives Granted with recording on |
| `RecordingPage.RetryOnlyFromDenied` | src/components/RecordingPage/RecordingPage.tsx:79-92 | "Try Again" is on screen iff consent is Denied; it returns to Unanswered and keeps `isRecording` |
| `RecordingPage.ToggleInvolution` | src/components/RecordingPage/RecordingPage.tsx:22-24 | the toggle flips `isRecording`, keeps consent, and two toggles restore the state |
| `RecordingPage.GrantedIsFinal` | src/components/RecordingPage/RecordingPage.tsx:56-145 | once Granted, no sequence of presses leaves Granted |
| `RecordingPage.StepKeepsInv` | src/components/RecordingPage/RecordingPage.tsx:13-24 | each button press preserves "recording implies Granted" and `recordingTime == 0` |
| `RecordingPage.ReachableInv` | src/components/RecordingPage/RecordingPage.tsx:9-24 | the invariant holds after any sequence of presses, so `recordingTime` stays 0 |
| `RecordingPage.TimerAtZero` | src/components/RecordingPage/RecordingPage.tsx:112-118 | under the invariant the timer is shown iff recording, and then reads "00:00" |
| `RecordingPage.TimerStaysAtZero` | src/components/RecordingPage/RecordingPage.tsx:112-118 | in every reachable state the timer is shown iff recording and reads "00:00" |
| `RecordingPage.RecordingSession.constructor` | src/components/RecordingPage/RecordingPage.tsx:9-11 | starts unanswered, not recording, at time 0 |
| `RecordingPage.RecordingSession.HandleAgreement` | src/components/RecordingPage/RecordingPage.tsx:13-20 | stores the answer; "Yes" sets `isRecording`, "No" leaves it; the timer is untouched |
| `RecordingPage.RecordingSession.ToggleRecording` | src/components/RecordingPage/RecordingPage.tsx:22-24 | flips `isRecording` and nothing else |
| `RecordingPage.RecordingSession.TryAgain` | src/components/RecordingPage/RecordingPage.tsx:88 | sets consent back to unanswered and nothing else |
| `RecordingPage.RecordingSession.Press` | src/components/RecordingPage/RecordingPage.tsx:62-124 | a press runs the handler of a button that is on screen; it preserves the invariant and never leaves Granted |
| `AppShell.ViewOfTitle` | src/App.tsx:27-40 | the inverse lookup: any view it returns has the given title |
| `AppShell.TitleRoundTrip` | src/App.tsx:27-40 | every view has a title, and the title identifies the view |
| `AppShell.TitlesDistinct` | src/App.tsx:27-40 | the four titles are pairwise distinct |
| `AppShell.RenderContentInjective` | src/App.tsx:12-25 | each view renders one pane, and distinct views render distinct panes |
| `AppShell.StatusIconsBesideTitle` | src/App.tsx:53-58 | the info and warning icons are shown iff the title is "Meeting Intelligence" (the meeting-intelligence view) |
| `AppShell.HighlightRule` | src/App.tsx:94-132 | a bar button is highlighted iff it selects the active view and is not "Create" |
| `AppShell.HighlightCount` | src/App.tsx:94-132 | no button is highlighted on the recording view; on every other view exactly one is |
| `AppShell.InitialShell` | src/App.tsx:9-10 | the app starts on the meeting-intelligence view with the menu closed |
| `AppShell.NavSelectsView` | src/App.tsx:95-127 | a view button sets exactly its view and leaves the menu unchanged |
| `AppShell.MoreToggles` | src/App.tsx:139 | "More" flips the menu, keeps the view, and two presses restore the state |
| `AppShell.MenuItemCloses` | src/App.tsx:42-45 | every menu entry closes the menu and leaves the view |
| `AppShell.BackToDashboard` | src/App.tsx:21 | the recording page's back callback selects the dashboard |
| `AppShell.MenuClickCloses` | src/App.tsx:42-45 | a menu-entry event leaves the menu closed and the view unchanged, whether or not the menu was open |
| `AppShell.MenuParity` | src/App.tsx:139 | with no menu-entry clicks, the menu ends open iff it started open xor the number of "More" presses is odd; no other event touches it |
| `AppShell.ReachableMenu` | src/App.tsx:9-10 | from the initial state, with no menu-entry clicks, the menu is open iff "More" was pressed an odd number of times |
| `AppShell.ReachableMenuClosedAfterEntry` | src/App.tsx:42-45 | after any event sequence that ends in a menu-entry click, the menu is closed |
| `AppShell.App.constructor` | src/App.tsx:9-10 | the initial fields are the meeting-intelligence view and a closed menu |
| `AppShell.App.Title` | src/App.tsx:27-40 | the header title names the active view |
| `AppShell.App.ClickNav` | src/App.tsx:94-139 | a view button sets the view; "More" flips the menu; nothing else changes |
| `AppShell.App.HandleMoreMenuClick` | src/App.tsx:42-45 | closes the menu and keeps the view |
| `AppShell.App.OnRecordingBack` | src/App.tsx:21 | sets the view to the dashboard and keeps the menu |
| `AppShell.App.Dispatch` | src/App.tsx:70-139 | runs the handler of an on-screen control: menu entries only while the menu is open, Back only on the recording view |
| `TranscriptTab.FirstFile` | src/components/MeetingIntelligenceTab/TranscriptTab.tsx:24-25 | a file is taken iff the list exists and is non-empty, and it is element 0 |
| `TranscriptTab.DragRule` | src/components/MeetingIntelligenceTab/TranscriptTab.tsx:9-17 | dragenter and dragover set the flag, dragleave clears it, any other type leaves it |
| `TranscriptTab.HandlersFrame` | src/components/MeetingIntelligenceTab/TranscriptTab.tsx:9-35 | drag events never change the slot, picking never changes the flag, and a drop always clears the flag |
| `TranscriptTab.StoreReplaces` | src/components/MeetingIntelligenceTab/TranscriptTab.tsx:19-35 | a non-empty drop or pick stores exactly its first file, replacing any earlier one; an empty or missing list keeps the slot |
| `TranscriptTab.SlotHoldsLatest` | src/components/MeetingIntelligenceTab/TranscriptTab.tsx:19-35 | after any event sequence the slot holds the first file of the latest non-empty drop or pick |
| `TranscriptTab.UploadEnabledIffFileOffered` | src/components/MeetingIntelligenceTab/TranscriptTab.tsx:116-123 | Upload is enabled, and the file name shown, iff some drop or pick so far carried a file |
| `TranscriptTab.TranscriptIntake.constructor` | src/components/MeetingIntelligenceTab/TranscriptTab.tsx:5-6 | starts with no file and the flag off |
| `TranscriptTab.TranscriptIntake.HandleDrag` | src/components/MeetingIntelligenceTab/TranscriptTab.tsx:9-17 | updates the flag by event type; the slot is untouched |
| `TranscriptTab.TranscriptIntake.HandleDrop` | src/components/MeetingIntelligenceTab/TranscriptTab.tsx:19-28 | clears the flag; stores element 0 of a non-empty list, otherwise keeps the slot |
| `TranscriptTab.TranscriptIntake.HandleFileSelect` | src/components/MeetingIntelligenceTab/TranscriptTab.tsx:30-35 | stores element 0 of a non-empty list, otherwise keeps the slot; the flag is untouched |
| `TranscriptTab.TranscriptIntake.HandleUpload` | src/components/MeetingIntelligenceTab/TranscriptTab.tsx:41-46 | changes nothing; reports the stored file, and reports one iff Upload is enabled |
| `MeetingIntelligence.TabIdsDistinct` | src/components/MeetingIntelligence/MeetingIntelligence.tsx:54-61 | the table has six entries with pairwise distinct ids |
| `MeetingIntelligence.RenderTabContent` | src/components/MeetingIntelligence/MeetingIntelligence.tsx:63-80 | a pane is rendered iff the active id is in the table; any other id renders nothing |
| `MeetingIntelligence.RenderTabContentInjective` | src/components/MeetingIntelligence/MeetingIntelligence.tsx:63-80 | each table entry has its own render case |
| `MeetingIntelligence.ExactlyOneHighlighted` | src/components/MeetingIntelligence/MeetingIntelligence.tsx:92-104 | for a table id, exactly one tab button is highlighted, and it is the selected one |
| `MeetingIntelligence.HighlightColour` | src/components/MeetingIntelligence/MeetingIntelligence.tsx:99-103 | the highlight is orange iff the selected tab is "asksam", and purple otherwise |
| `MeetingIntelligence.BackToTopThreshold` | src/components/MeetingIntelligence/MeetingIntelligence.tsx:47 | the button shows iff `scrollY > 200`: hidden at 200, shown at 201 |
| `MeetingIntelligence.InitialRouter` | src/components/MeetingIntelligence/MeetingIntelligence.tsx:36-39 | starts on "transcript" with the recording page, action menu and back-to-top button hidden |
| `MeetingIntelligence.ClickTabHighlights` | src/components/MeetingIntelligence/MeetingIntelligence.tsx:97-104 | clicking a tab selects its id, and afterwards exactly that button is highlighted |
| `MeetingIntelligence.RecordingOverrides` | src/components/MeetingIntelligence/MeetingIntelligence.tsx:82-84 | the whole view is the recording page iff the flag is set, whatever the active tab |
| `MeetingIntelligence.BackPreservesTab` | src/components/MeetingIntelligence/MeetingIntelligence.tsx:83 | Back closes the recording page and keeps the active tab |
| `MeetingIntelligence.RunKeepsInv` | src/components/MeetingIntelligence/MeetingIntelligence.tsx:36-97 | after any event sequence the active tab is a table id and `showActionMenu` is still false |
| `MeetingIntelligence.ReachableRendersPane` | src/components/MeetingIntelligence/MeetingIntelligence.tsx:63-80 | in every reachable state the tab view renders a pane: the `default` branch is dead |
| `MeetingIntelligence.RecordingUnreachableAsWritten` | src/components/MeetingIntelligence/MeetingIntelligence.tsx:66 | with the wiring as written, no event sequence ever shows the recording page |
| `MeetingIntelligence.RecordThenBackIntended` | src/components/MeetingIntelligence/MeetingIntelligence.tsx:82-84 | with Record wired, Record on the transcript tab shows the recording page, and Back restores the exact prior state |
| `MeetingIntelligence.MeetingIntelligenceView.constructor` | src/components/MeetingIntelligence/MeetingIntelligence.tsx:36-39 | the initial fields, which satisfy the invariant |
| `MeetingIntelligence.MeetingIntelligenceView.SelectTab` | src/components/MeetingIntelligence/MeetingIntelligence.tsx:97 | sets the active tab to that entry's id and nothing else |
| `MeetingIntelligence.MeetingIntelligenceView.OnRecordClick` | src/components/MeetingIntelligence/MeetingIntelligence.tsx:66 | opens the recording page and nothing else |
| `MeetingIntelligence.MeetingIntelligenceView.OnRecordingBack` | src/components/MeetingIntelligence/MeetingIntelligence.tsx:83 | closes the recording page and nothing else |
| `MeetingIntelligence.MeetingIntelligenceView.HandleScroll` | src/components/MeetingIntelligence/MeetingIntelligence.tsx:46-48 | sets `showBackToTop` to `scrollY > 200` and nothing else |
| `MeetingIntelligence.MeetingIntelligenceView.Dispatch` | src/components/MeetingIntelligence/MeetingIntelligence.tsx:66-97 | runs the handler of an on-screen control under the given wiring and preserves the invariant; as written, the recording page never opens |

## Left out

- Markup, CSS class strings, icons and layout. Only the "which panel / which highlight / which button is enabled" conditions are modelled.
- `console.log` in the More-menu handler (src/App.tsx:43) and in `handleUpload` (src/components/MeetingIntelligenceTab/TranscriptTab.tsx:44). These are output only. `HandleUpload` returns the file it would log.
- DOM plumbing is left out. This covers `preventDefault` and `stopPropagation`, the drop zone's `handleClick` that forwards a click to the hidden file input, `scrollToTop` (`window.scrollTo`), and registering and removing the scroll listener.
- The scroll offset is an integer in the model. The browser's value may be fractional.
- A `File` is an opaque handle. Its name, size and content are not modelled. The input's `accept` attribute, the listed extensions and the "1GB" limit are display text that nothing enforces.
- `TimeFormat.FormatTime` covers natural numbers only. The source's `Math.floor` and `%` on negative or fractional numbers follow floating-point rules, and `recordingTime` is never anything but 0. The model matches the source only for `seconds <= 2^53`, the range where a JavaScript `Number` holds every integer exactly. Above that, the division by 60 rounds and `toString` prints rounded digits, so the display no longer reads back as the input; at 10^21 minutes and beyond, `toString` also switches to exponent notation. The model keeps exact digits for every natural number.
- The trial-quota text and progress bar of the recording page are fixed literals.
- The `default` branches of `renderContent` and `getPageTitle` are not modelled. `View` is a closed type, as the source's union type makes it, so those branches cannot be reached.
- The recording page's header Back button calls its parent's `onBack`. It is modelled at the parents: `AppShell.App.OnRecordingBack` and `MeetingIntelligence.MeetingIntelligenceView.OnRecordingBack`.
- Components are modelled one by one, not composed. React discards a component's state when it unmounts. For example, leaving the meeting-intelligence view resets its tab, and reopening the recording page asks for consent again.
- Each handler is modelled as an atomic update. React's batching of updates within one render is left out.
- The follow-up and assistant ("Ask SAM") tab bodies are purely presentational and are not part of this model. The dashboard, summary, analytics and coaching components are not part of this model either; they appear only as render targets.

## Findings

| source | as written | input that shows it | evidently intended | confidence | as-written member | corrected member |
|---|---|---|---|---|---|---|
| src/components/MeetingIntelligenceTab/TranscriptTab.tsx:52-55 | The transcript tab's Record button has no click handler. The tab declares no props, so the `onRecordClick` callback handed to it (src/components/MeetingIntelligence/MeetingIntelligence.tsx:66) is never called, and `showRecordingPage` never becomes true | On the transcript tab, press Record: nothing changes | Record calls `onRecordClick`, which opens the recording page; Back returns to the transcript tab | medium, not executed | `MeetingIntelligence.RecordingUnreachableAsWritten` | `MeetingIntelligence.RecordThenBackIntended` |
