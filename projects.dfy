/** The projects section (components/sections/Projects.tsx): the modal's
    open/close lifecycle with its deferred clear, and the summary each project
    card shows. */
module Projects {
  import opened Types
  import Numerals
  import Data

  // ---------------------------------------------------------------------
  // The modal lifecycle.

  /** The section's two state cells, and how many deferred clears of
      `selectedProject` have been scheduled and not yet run. The clears all
      do the same thing, so their count is all that matters; the 300 ms delay
      itself is not modelled, only that a clear runs at some later event. */
  datatype SectionState = SectionState(selected: Option<Project>, isOpen: bool, pendingClears: nat)

  /** Nothing selected, modal closed, no clear scheduled. */
  function Initial(): (r: SectionState)
    ensures r.selected.None? && !r.isOpen && r.pendingClears == 0
  {
    SectionState(None, false, 0)
  }

  /** `handleProjectClick(p)`: from any state the modal ends up open on the
      clicked project. Scheduled clears stay scheduled: no timer handle was
      kept to cancel them with. */
  function Open(s: SectionState, p: Project): (r: SectionState)
    ensures r.isOpen && r.selected == Some(p)
    ensures r.pendingClears == s.pendingClears
  {
    SectionState(Some(p), true, s.pendingClears)
  }

  /** `handleCloseModal()`: the modal is hidden at once, the project is kept
      for the exit animation, and exactly one clear is scheduled. */
  function Close(s: SectionState): (r: SectionState)
    ensures !r.isOpen && r.selected == s.selected
    ensures r.pendingClears == s.pendingClears + 1
  {
    SectionState(s.selected, false, s.pendingClears + 1)
  }

  /** One scheduled clear runs: the selection is dropped, whatever it is now,
      and the open flag is left as it is. */
  function FireClear(s: SectionState): (r: SectionState)
    requires s.pendingClears > 0
    ensures r.selected.None? && r.isOpen == s.isOpen
    ensures r.pendingClears == s.pendingClears - 1
  {
    SectionState(None, s.isOpen, s.pendingClears - 1)
  }

  /** A clear that was scheduled before a reopen still runs after it and
      drops the newly selected project while the modal is open. */
  lemma ReopenDoesNotCancelClear(s: SectionState, p: Project)
    ensures Open(Close(s), p).pendingClears > 0
    ensures var t := FireClear(Open(Close(s), p)); t.isOpen && t.selected == None
  {
  }

  /** The section component's state cells. */
  class Section {
    var selectedProject: Option<Project>
    var isModalOpen: bool
    var pendingClears: nat

    function State(): SectionState
      reads this
    {
      SectionState(selectedProject, isModalOpen, pendingClears)
    }

    constructor ()
      ensures State() == Initial()
    {
      selectedProject := None;
      isModalOpen := false;
      pendingClears := 0;
    }

    method HandleProjectClick(project: Project)
      modifies this
      ensures State() == Open(old(State()), project)
    {
      selectedProject := Some(project);
      isModalOpen := true;
    }

    method HandleCloseModal()
      modifies this
      ensures State() == Close(old(State()))
    {
      isModalOpen := false;
      pendingClears := pendingClears + 1;
    }

    /** The event loop runs one of the scheduled `setTimeout` callbacks. */
    method RunScheduledClear()
      requires pendingClears > 0
      modifies this
      ensures State() == FireClear(old(State()))
    {
      selectedProject := None;
      pendingClears := pendingClears - 1;
    }
  }

  // ---------------------------------------------------------------------
  // Project cards.

  /** How many technology tags a card shows. */
  const ShownTags: nat := 3

  /** `technologies.slice(0, 3)`: the first three tags, or all when fewer. */
  function CardTags(technologies: seq<string>): (r: seq<string>)
    ensures |r| == if |technologies| < ShownTags then |technologies| else ShownTags
    ensures forall i :: 0 <= i < |r| ==> r[i] == technologies[i]
  {
    if |technologies| < ShownTags then technologies else technologies[..ShownTags]
  }

  /** The number on the "+k" badge, present only when tags were left out. */
  function OverflowCount(technologies: seq<string>): (r: Option<nat>)
    ensures r.Some? <==> |technologies| > ShownTags
    ensures r.Some? ==> r.value > 0 && r.value == |technologies| - |CardTags(technologies)|
  {
    if |technologies| > ShownTags then Some(|technologies| - ShownTags) else None
  }

  /** Shown tags and the badge's count together account for every tag. */
  lemma TagsAccountForAll(technologies: seq<string>)
    ensures |CardTags(technologies)| + (if OverflowCount(technologies).Some? then OverflowCount(technologies).value else 0)
            == |technologies|
  {
  }

  /** The translated words a card uses. Message lookup is outside the model. */
  datatype Captions = Captions(client: string, personal: string, empty: string)

  /** The client line: the client when present and non-empty, otherwise the
      "personal project" wording. */
  function ClientLine(client: Option<string>, captions: Captions): (r: string)
    ensures Truthy(client) ==> r == captions.client + ": " + client.value
    ensures !Truthy(client) ==> r == captions.client + ": " + captions.personal
  {
    captions.client + ": " + (if Truthy(client) then client.value else captions.personal)
  }

  datatype Card = Card(
    id: string,
    title: string,
    description: string,
    image: string,
    clientLine: string,
    tags: seq<string>,
    badge: Option<string>)

  function RenderCard(p: Project, captions: Captions): (r: Card)
    ensures r.id == p.id && r.tags == CardTags(p.technologies)
    ensures r.badge.Some? <==> |p.technologies| > ShownTags
    ensures r.badge.Some? ==> r.badge.value == "+" + Numerals.NatToDecimal(|p.technologies| - ShownTags)
  {
    Card(p.id, p.title, p.description, p.image, ClientLine(p.client, captions), CardTags(p.technologies),
      match OverflowCount(p.technologies)
      case None => None
      case Some(k) => Some("+" + Numerals.NatToDecimal(k)))
  }

  /** The card strip, or the empty-list message instead of any card. */
  datatype ListView = Cards(cards: seq<Card>) | EmptyMessage(text: string)

  function RenderList(projects: seq<Project>, captions: Captions): (r: ListView)
    ensures r.EmptyMessage? <==> projects == []
    ensures r.EmptyMessage? ==> r.text == captions.empty
    ensures r.Cards? ==> |r.cards| == |projects|
    ensures r.Cards? ==> forall i :: 0 <= i < |projects| ==> r.cards[i] == RenderCard(projects[i], captions)
  {
    if |projects| > 0 then
      Cards(seq(|projects|, i requires 0 <= i < |projects| => RenderCard(projects[i], captions)))
    else
      EmptyMessage(captions.empty)
  }

  /** The published cards, whatever their prose: three tags each, then "+6"
      and "+5". */
  lemma PublishedCards(captions: Captions, e: Data.Prose, t: Data.Prose)
    ensures RenderCard(Data.Educadia(e), captions).tags == ["TypeScript", "JavaScript", "React"]
    ensures RenderCard(Data.Educadia(e), captions).badge == Some("+6")
    ensures RenderCard(Data.Temperature(t), captions).badge == Some("+5")
  {
    Data.PublishedShapes(e, t);
    assert Numerals.NatToDecimal(6) == "6" && Numerals.NatToDecimal(5) == "5";
    assert "+" + "6" == "+6" && "+" + "5" == "+5";
  }

  /** The published list renders as two cards, in the order of the data:
      the first with tags TypeScript, JavaScript and React and badge "+6",
      the second with badge "+5". `Data.projects` is this list at the
      published prose. */
  lemma PublishedList(captions: Captions, e: Data.Prose, t: Data.Prose)
    ensures var v := RenderList(Data.Published(e, t), captions);
      v.Cards? && |v.cards| == 2
      && v.cards[0].tags == ["TypeScript", "JavaScript", "React"]
      && v.cards[0].badge == Some("+6") && v.cards[1].badge == Some("+5")
  {
    PublishedCards(captions, e, t);
  }
}
