/** The projects section and its modal together (components/sections/Projects.tsx
    mounts components/ui/ProjectModal.tsx once and passes it the selection),
    driven by the user's clicks and the scheduled clears.

    Which clicks can happen depends on what is on top: while the modal shows,
    its full-window backdrop covers the cards; while the fullscreen viewer
    shows, its full-window layer covers the modal's close button and backdrop
    and the gallery; while the modal plays its exit animation, its backdrop
    still covers the cards and its fading gallery still takes clicks. A click on something that is covered or not
    rendered changes nothing. Animation timing is not modelled beyond that. */
module Page {
  import opened Types
  import P = Projects
  import M = ProjectModal
  import Data
  import Numerals

  datatype Event =
    | ClickCard(project: Project)   // a project card
    | CloseModal                    // the modal's close button or backdrop
    | ClearFires                    // a scheduled clear runs
    | ClickImage(index: int)        // a gallery image, also while it fades out
    | CloseViewer                   // the viewer's close button
    | PreviousImage                 // the viewer's left arrow
    | NextImage                     // the viewer's right arrow

  /** The section's cells and the modal's viewer cell. */
  datatype PageState = PageState(section: P.SectionState, viewer: Option<int>)

  function Start(): PageState {
    PageState(P.Initial(), None)
  }

  /** What the modal renders in state `s`. */
  function Shown(s: PageState): Option<M.ModalView> {
    M.Render(s.section.selected, s.section.isOpen, s.viewer)
  }

  predicate ModalShown(s: PageState) {
    Shown(s).Some?
  }

  predicate ViewerShown(s: PageState) {
    ModalShown(s) && Shown(s).value.viewer.Some?
  }

  /** The images of the project on screen (none when no modal shows). */
  function ShownImages(s: PageState): Option<seq<string>> {
    if ModalShown(s) then s.section.selected.value.images else None
  }

  /** The modal is closing: it is closed but still holds its project, so
      the exit animation keeps the backdrop and the close button mounted.
      The modal's spring exit (half a second) outlasts the 300 ms clear, so
      this phase ends only when a scheduled clear drops the project. */
  predicate Exiting(s: PageState) {
    s.section.selected.Some? && !s.section.isOpen
  }

  /** Whether `e` can reach its handler in state `s`. The cards take clicks
      exactly when the modal holds no project; the modal's controls take
      them only while it holds one, and nothing under the viewer does. The
      fading modal was last drawn without the viewer (the close control is
      covered while the viewer shows), so during the exit its backdrop and
      its gallery images take clicks. */
  predicate Enabled(s: PageState, e: Event)
    ensures e.ClickCard? ==> (Enabled(s, e) <==> s.section.selected.None?)
    ensures e.CloseModal? && Enabled(s, e) ==> s.section.selected.Some? && !ViewerShown(s)
    ensures !e.ClickCard? && !e.ClearFires? && Enabled(s, e) ==> s.section.selected.Some?
    ensures (e.CloseViewer? || e.PreviousImage? || e.NextImage?) && Enabled(s, e) ==> ViewerShown(s)
    ensures e.ClickImage? && Enabled(s, e) ==>
      (ModalShown(s) || Exiting(s)) && s.section.selected.value.images.Some?
      && 0 <= e.index < |s.section.selected.value.images.value|
  {
    match e
    case ClickCard(_) => !ModalShown(s) && !Exiting(s)
    case CloseModal => (ModalShown(s) && !ViewerShown(s)) || Exiting(s)
    case ClearFires => s.section.pendingClears > 0
    case ClickImage(i) =>
      || (ModalShown(s) && !ViewerShown(s) && ShownImages(s).Some? && 0 <= i < |ShownImages(s).value|)
      || (Exiting(s) && s.section.selected.value.images.Some? && 0 <= i < |s.section.selected.value.images.value|)
    case CloseViewer => ViewerShown(s)
    case PreviousImage => ViewerShown(s) && |ShownImages(s).value| > 1
    case NextImage => ViewerShown(s) && |ShownImages(s).value| > 1
  }

  /** One event, with the section's handlers as written: a click on a card
      does not cancel a scheduled clear. A click that cannot reach its
      handler changes nothing; the section's events leave the viewer cell
      alone and the viewer's events leave the section alone. */
  function Step(s: PageState, e: Event): (r: PageState)
    ensures !Enabled(s, e) ==> r == s
    ensures e.ClickCard? || e.CloseModal? || e.ClearFires? ==> r.viewer == s.viewer
    ensures !(e.ClickCard? || e.CloseModal? || e.ClearFires?) ==> r.section == s.section
    ensures Enabled(s, e) && e.ClickCard? ==> r.section == P.Open(s.section, e.project)
    ensures Enabled(s, e) && e.CloseModal? ==> r.section == P.Close(s.section)
  {
    if !Enabled(s, e) then s
    else match e
      case ClickCard(p) => PageState(P.Open(s.section, p), s.viewer)
      case CloseModal => PageState(P.Close(s.section), s.viewer)
      case ClearFires => PageState(P.FireClear(s.section), s.viewer)
      case ClickImage(i) => PageState(s.section, Some(i))
      case CloseViewer => PageState(s.section, None)
      case PreviousImage => PageState(s.section, M.Previous(s.viewer, ShownImages(s)))
      case NextImage => PageState(s.section, M.Next(s.viewer, ShownImages(s)))
  }

  function Run(s: PageState, events: seq<Event>): PageState
    decreases |events|
  {
    if events == [] then s else Run(Step(s, events[0]), events[1..])
  }

  /** Right after closing, the fading backdrop covers the cards: a click
      aimed at a card does not reach it and opens nothing, and the click on
      the backdrop closes the modal a second time, scheduling a second
      clear. */
  lemma ClickDuringExitCloses(a: Project, b: Project)
    ensures Run(Start(), [ClickCard(a), CloseModal, ClickCard(b)]) == PageState(P.SectionState(Some(a), false, 1), None)
    ensures Run(Start(), [ClickCard(a), CloseModal, CloseModal]) == PageState(P.SectionState(Some(a), false, 2), None)
  {
    var e1 := [ClickCard(a), CloseModal, ClickCard(b)];
    var e2 := [ClickCard(a), CloseModal, CloseModal];
    var s1 := Step(Start(), ClickCard(a));
    var s2 := Step(s1, CloseModal);
    assert e1[1..][1..][1..] == [] && e2[1..][1..][1..] == [];
    assert Run(Start(), e1) == Run(s1, e1[1..]) == Run(s2, e1[1..][1..]) == Run(Step(s2, ClickCard(b)), []);
    assert Run(Start(), e2) == Run(s1, e2[1..]) == Run(s2, e2[1..][1..]) == Run(Step(s2, CloseModal), []);
  }

  /** Running two event sequences one after the other is running their
      concatenation. */
  lemma {:induction false} RunConcat(s: PageState, x: seq<Event>, y: seq<Event>)
    ensures Run(s, x + y) == Run(Run(s, x), y)
    decreases |x|
  {
    if x != [] {
      assert (x + y)[0] == x[0] && (x + y)[1..] == x[1..] + y;
      RunConcat(Step(s, x[0]), x[1..], y);
    } else {
      assert x + y == y;
    }
  }

  /** Open a project and close it twice during its exit, then let the first
      clear run: the cards take clicks again while one clear is still
      pending. */
  lemma DoubleCloseThenClear(a: Project)
    ensures Run(Start(), [ClickCard(a), CloseModal, CloseModal, ClearFires])
            == PageState(P.SectionState(None, false, 1), None)
  {
    var events := [ClickCard(a), CloseModal, CloseModal, ClearFires];
    var s1 := Step(Start(), events[0]);
    var s2 := Step(s1, events[1]);
    var s3 := Step(s2, events[2]);
    var s4 := Step(s3, events[3]);
    assert events[1..][1..][1..][1..] == [];
    assert Run(Start(), events) == Run(s1, events[1..]) == Run(s2, events[1..][1..])
        == Run(s3, events[1..][1..][1..]) == Run(s4, events[1..][1..][1..][1..]) == s4;
  }

  /** Close twice during the exit, let the first clear run and open a card
      before the second one runs: the second clear empties the selection
      while the modal is meant to be open, so nothing is shown. */
  lemma StaleClearHidesReopenedModal(a: Project, b: Project)
    ensures var s := Run(Start(), [ClickCard(a), CloseModal, CloseModal, ClearFires, ClickCard(b), ClearFires]);
      s.section.isOpen && s.section.selected == None && !ModalShown(s)
  {
    var prefix, rest := [ClickCard(a), CloseModal, CloseModal, ClearFires], [ClickCard(b), ClearFires];
    assert prefix + rest == [ClickCard(a), CloseModal, CloseModal, ClearFires, ClickCard(b), ClearFires];
    DoubleCloseThenClear(a);
    RunConcat(Start(), prefix, rest);
    var s4 := Run(Start(), prefix);
    var s5 := Step(s4, rest[0]);
    var s6 := Step(s5, rest[1]);
    assert rest[1..][1..] == [];
    assert Run(s4, rest) == Run(s5, rest[1..]) == Run(s6, rest[1..][1..]) == s6;
  }

  /** The same race with the viewer open on the last image of the reopened
      project: the viewer keeps its index while the selection is emptied,
      and the next project opened shows it even when that project has fewer
      images, with a counter past the total and no image. "Next" then moves
      further out instead of wrapping. */
  lemma StaleViewerOutOfRange(a: Project, b: Project)
    requires a.images.Some? && b.images.Some? && 1 < |b.images.value| < |a.images.value|
    ensures var i := |a.images.value| - 1;
      var s := Run(Start(), [ClickCard(a), CloseModal, CloseModal, ClearFires,
                             ClickCard(a), ClickImage(i), ClearFires, ClickCard(b)]);
      ViewerShown(s) && s.viewer == Some(i) && !M.InRange(s.viewer, b.images)
      && Shown(s).value.viewer.value.counter == M.Counter(i, |b.images.value|)
      && Shown(s).value.viewer.value.src == None
      && Step(s, NextImage).viewer == Some(i + 1)
  {
    var i := |a.images.value| - 1;
    var prefix := [ClickCard(a), CloseModal, CloseModal, ClearFires, ClickCard(a), ClickImage(i), ClearFires];
    assert prefix + [ClickCard(b)] == [ClickCard(a), CloseModal, CloseModal, ClearFires,
                                       ClickCard(a), ClickImage(i), ClearFires, ClickCard(b)];
    StaleViewerKept(a, i);
    RunConcat(Start(), prefix, [ClickCard(b)]);
    var s7 := PageState(P.SectionState(None, true, 0), Some(i));
    var s8 := Step(s7, ClickCard(b));
    assert [ClickCard(b)][1..] == [];
    assert Run(s7, [ClickCard(b)]) == Run(s8, []) == s8;
    assert s8 == PageState(P.SectionState(Some(b), true, 0), Some(i));
  }

  /** Reopening the project during the race and opening its viewer: the
      second clear empties the selection and leaves the viewer's index. */
  lemma StaleViewerKept(a: Project, i: int)
    requires a.images.Some? && 0 <= i < |a.images.value|
    ensures Run(Start(), [ClickCard(a), CloseModal, CloseModal, ClearFires, ClickCard(a), ClickImage(i), ClearFires])
            == PageState(P.SectionState(None, true, 0), Some(i))
  {
    var prefix, rest := [ClickCard(a), CloseModal, CloseModal, ClearFires], [ClickCard(a), ClickImage(i), ClearFires];
    assert prefix + rest == [ClickCard(a), CloseModal, CloseModal, ClearFires, ClickCard(a), ClickImage(i), ClearFires];
    DoubleCloseThenClear(a);
    RunConcat(Start(), prefix, rest);
    var s4 := PageState(P.SectionState(None, false, 1), None);
    var s5 := Step(s4, rest[0]);
    var s6 := Step(s5, rest[1]);
    var s7 := Step(s6, rest[2]);
    assert rest[1..][1..][1..] == [];
    assert Run(s4, rest) == Run(s5, rest[1..]) == Run(s6, rest[1..][1..]) == Run(s7, rest[1..][1..][1..]) == s7;
  }

  /** The shorter path to a stale index: close the modal, click its last
      image in the fading gallery, let the clear run and open a project with
      fewer images. The viewer opens at the clicked index, with a counter
      past the total and no image, and "next" moves further out. */
  lemma ExitClickViewerOutOfRange(a: Project, b: Project)
    requires a.images.Some? && b.images.Some? && 1 < |b.images.value| < |a.images.value|
    ensures var i := |a.images.value| - 1;
      var s := Run(Start(), [ClickCard(a), CloseModal, ClickImage(i), ClearFires, ClickCard(b)]);
      ViewerShown(s) && s.viewer == Some(i) && !M.InRange(s.viewer, b.images)
      && Shown(s).value.viewer.value.counter == M.Counter(i, |b.images.value|)
      && Shown(s).value.viewer.value.src == None
      && Step(s, NextImage).viewer == Some(i + 1)
  {
    var i := |a.images.value| - 1;
    var events := [ClickCard(a), CloseModal, ClickImage(i), ClearFires, ClickCard(b)];
    var s1 := Step(Start(), events[0]);
    var s2 := Step(s1, events[1]);
    var s3 := Step(s2, events[2]);
    var s4 := Step(s3, events[3]);
    var s5 := Step(s4, events[4]);
    var t := events[1..][1..];
    assert t[1..][1..][1..] == [];
    assert Run(Start(), events) == Run(s1, events[1..]) == Run(s2, t) == Run(s3, t[1..])
        == Run(s4, t[1..][1..]) == Run(s5, t[1..][1..][1..]) == s5;
    assert s5 == PageState(P.SectionState(Some(b), true, 0), Some(i));
  }

  /** On the published projects, whatever their prose: open the one with
      nine images, close it, click its last image while it fades out, and
      once the clear has run open the one with seven: "9 / 7". */
  lemma PublishedStaleCounter(e: Data.Prose, t: Data.Prose)
    ensures var s := Run(Start(), [ClickCard(Data.Temperature(t)), CloseModal, ClickImage(8), ClearFires,
                                   ClickCard(Data.Educadia(e))]);
      ViewerShown(s) && Shown(s).value.viewer.value.counter == "9 / 7"
  {
    Data.PublishedShapes(e, t);
    ExitClickViewerOutOfRange(Data.Temperature(t), Data.Educadia(e));
    assert M.Counter(8, 7) == "9 / 7" by {
      assert Numerals.DigitChar(9) == '9' && Numerals.DigitChar(7) == '7';
    }
  }

  // ---------------------------------------------------------------------
  // The handlers as evidently intended: opening cancels scheduled clears
  // and starts with the viewer closed.

  /** `handleProjectClick` that also cancels any clear still scheduled, as a
      kept timer handle would allow. */
  function OpenCancelling(s: P.SectionState, p: Project): (r: P.SectionState)
    ensures r.isOpen && r.selected == Some(p) && r.pendingClears == 0
  {
    P.SectionState(Some(p), true, 0)
  }

  /** One event with the cancelling open, which also closes the viewer;
      everything else as written. */
  function StepCancelling(s: PageState, e: Event): PageState {
    if !Enabled(s, e) then s
    else match e
      case ClickCard(p) => PageState(OpenCancelling(s.section, p), None)
      case _ => Step(s, e)
  }

  function RunCancelling(s: PageState, events: seq<Event>): PageState
    decreases |events|
  {
    if events == [] then s else RunCancelling(StepCancelling(s, events[0]), events[1..])
  }

  /** The race of `StaleClearHidesReopenedModal` with the cancelling open:
      the reopened project stays on screen. */
  lemma CancellingKeepsReopenedModal(a: Project, b: Project)
    ensures var s := RunCancelling(Start(), [ClickCard(a), CloseModal, CloseModal, ClearFires, ClickCard(b), ClearFires]);
      s.section.isOpen && s.section.selected == Some(b) && ModalShown(s)
  {
    var events := [ClickCard(a), CloseModal, CloseModal, ClearFires, ClickCard(b), ClearFires];
    var s1 := StepCancelling(Start(), events[0]);
    var s2 := StepCancelling(s1, events[1]);
    var s3 := StepCancelling(s2, events[2]);
    var s4 := StepCancelling(s3, events[3]);
    var s5 := StepCancelling(s4, events[4]);
    var s6 := StepCancelling(s5, events[5]);
    var t := events[1..][1..][1..];
    assert t[1..][1..][1..] == [];
    assert RunCancelling(Start(), events) == RunCancelling(s1, events[1..]) == RunCancelling(s2, events[1..][1..])
        == RunCancelling(s3, t) == RunCancelling(s4, t[1..]) == RunCancelling(s5, t[1..][1..])
        == RunCancelling(s6, t[1..][1..][1..]) == s6;
  }

  /** The page's intended invariant: an open modal has a project and no clear
      waiting to empty it, and while it is open the viewer is closed or on
      one of its images. A closed modal may leave anything in the viewer
      cell: a click on the fading gallery sets it after the close. */
  predicate Consistent(s: PageState) {
    && (s.section.isOpen ==> s.section.selected.Some? && s.section.pendingClears == 0)
    && (s.section.isOpen && s.viewer.Some? ==> M.InRange(s.viewer, s.section.selected.value.images))
  }

  /** Every event keeps the invariant under the cancelling open. */
  lemma StepCancellingConsistent(s: PageState, e: Event)
    requires Consistent(s)
    ensures Consistent(StepCancelling(s, e))
  {
    if Enabled(s, e) {
      match e
      case ClickCard(p) =>
      case CloseModal =>
      case ClearFires =>
      case ClickImage(i) =>
      case CloseViewer =>
      case PreviousImage =>
      case NextImage =>
    }
  }

  /** Whatever the user does, the page stays consistent. */
  lemma {:induction false} RunCancellingConsistent(s: PageState, events: seq<Event>)
    requires Consistent(s)
    ensures Consistent(RunCancelling(s, events))
    decreases |events|
  {
    if events != [] {
      StepCancellingConsistent(s, events[0]);
      RunCancellingConsistent(StepCancelling(s, events[0]), events[1..]);
    }
  }

  /** With the cancelling open, an open modal is always on screen, and a
      shown viewer always has its image and a counter within the total. */
  lemma CancellingViewerInRange(events: seq<Event>)
    ensures var s := RunCancelling(Start(), events);
      (s.section.isOpen ==> ModalShown(s))
      && (ViewerShown(s) ==> Shown(s).value.viewer.value.src.Some?
                             && 0 <= s.viewer.value < |s.section.selected.value.images.value|)
  {
    RunCancellingConsistent(Start(), events);
  }
}
