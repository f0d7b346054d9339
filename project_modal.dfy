/** The project modal (components/ui/ProjectModal.tsx): what it renders for
    a project, and its one state cell, the index of the image shown in the
    fullscreen viewer (or none). */
module ProjectModal {
  import opened Types
  import Numerals

  // ---------------------------------------------------------------------
  // Wrap-around navigation over N images.

  /** The index after `i` among `n` images, as the handler's ternary computes
      it: the last index wraps to the first. */
  function NextIndex(i: int, n: int): (r: int)
    ensures 1 <= n && 0 <= i < n ==> 0 <= r < n && r == (i + 1) % n
  {
    if i == n - 1 then
      RemainderOf(i + 1, n, 1, 0); 0
    else
      RemainderOf(i + 1, n, 0, i + 1); i + 1
  }

  /** The index before `i` among `n` images: the first wraps to the last. */
  function PreviousIndex(i: int, n: int): (r: int)
    ensures 1 <= n && 0 <= i < n ==> 0 <= r < n && r == (i - 1 + n) % n
  {
    if i == 0 then
      RemainderOf(i - 1 + n, n, 0, n - 1); n - 1
    else
      RemainderOf(i - 1 + n, n, 1, i - 1); i - 1
  }

  /** The two steps undo each other on every valid index. */
  lemma NextPreviousInverse(i: int, n: int)
    requires 1 <= n && 0 <= i < n
    ensures PreviousIndex(NextIndex(i, n), n) == i
    ensures NextIndex(PreviousIndex(i, n), n) == i
  {
  }

  /** `k` presses of "next" from `i`. */
  function NextTimes(i: int, n: int, k: nat): int {
    if k == 0 then i else NextIndex(NextTimes(i, n, k - 1), n)
  }

  /** Pressing "next" `k` times moves `k` places around the circle. */
  lemma {:induction false} NextTimesModular(i: int, n: int, k: nat)
    requires 1 <= n && 0 <= i < n
    ensures NextTimes(i, n, k) == (i + k) % n
  {
    if k > 0 {
      NextTimesModular(i, n, k - 1);
      ModSuccessor(i + k - 1, n);
    }
  }

  /** Euclidean division has one quotient and one remainder. */
  lemma UniqueDivision(n: int, q1: int, r1: int, q2: int, r2: int)
    requires 1 <= n && 0 <= r1 < n && 0 <= r2 < n
    requires q1 * n + r1 == q2 * n + r2
    ensures q1 == q2 && r1 == r2
  {
    var d := q1 - q2;
    assert d * n == r2 - r1 by {
      assert q1 * n - q2 * n == (q1 - q2) * n;
    }
    ProductBound(d, n);
  }

  /** A value written as `q * n + r` with `0 <= r < n` has remainder `r`. */
  lemma RemainderOf(a: int, n: int, q: int, r: int)
    ensures 1 <= n && 0 <= r < n && a == q * n + r ==> a % n == r
  {
    if 1 <= n && 0 <= r < n && a == q * n + r {
      UniqueDivision(n, a / n, a % n, q, r);
    }
  }

  /** A non-zero multiple of `n` is at least `n` away from zero. */
  lemma ProductBound(d: int, n: int)
    requires 1 <= n
    ensures d >= 1 ==> d * n >= n
    ensures d <= -1 ==> d * n <= -n
  {
    if d >= 1 {
      assert (d - 1) * n >= 0;
    } else if d <= -1 {
      assert (-d - 1) * n >= 0;
    }
  }

  /** Taking the remainder before or after adding one makes no difference. */
  lemma ModSuccessor(a: nat, n: int)
    requires 1 <= n
    ensures NextIndex(a % n, n) == (a + 1) % n
  {
    var q, r := a / n, a % n;
    var q', r' := (a + 1) / n, (a + 1) % n;
    if r == n - 1 {
      UniqueDivision(n, q', r', q + 1, 0);
    } else {
      UniqueDivision(n, q', r', q, r + 1);
    }
  }

  /** N presses of "next" come back to where they started. */
  lemma FullCycle(i: int, n: int)
    requires 1 <= n && 0 <= i < n
    ensures NextTimes(i, n, n) == i
  {
    NextTimesModular(i, n, n);
    RemainderOf(i + n, n, 1, i);
  }

  // ---------------------------------------------------------------------
  // The viewer's state cell and its handlers.

  /** The number of images `project.images` holds (none when absent). */
  function ImageCount(images: Option<seq<string>>): nat {
    if images.Some? then |images.value| else 0
  }

  /** `index` is a position in `images`. */
  predicate InRange(index: Option<int>, images: Option<seq<string>>) {
    index.Some? && images.Some? && 0 <= index.value < |images.value|
  }

  /** What the "previous" handler leaves in the cell: it acts only when an
      image is shown and `images` is present (an empty list counts as
      present). */
  function Previous(index: Option<int>, images: Option<seq<string>>): (r: Option<int>)
    ensures index.None? || images.None? ==> r == index
    ensures InRange(index, images) ==>
      InRange(r, images) && r.value == (index.value - 1 + |images.value|) % |images.value|
  {
    if index.Some? && images.Some? then Some(PreviousIndex(index.value, |images.value|)) else index
  }

  /** What the "next" handler leaves in the cell. */
  function Next(index: Option<int>, images: Option<seq<string>>): (r: Option<int>)
    ensures index.None? || images.None? ==> r == index
    ensures InRange(index, images) ==>
      InRange(r, images) && r.value == (index.value + 1) % |images.value|
  {
    if index.Some? && images.Some? then Some(NextIndex(index.value, |images.value|)) else index
  }

  /** The handlers undo each other on a shown image. */
  lemma NextThenPrevious(index: Option<int>, images: Option<seq<string>>)
    requires InRange(index, images)
    ensures Previous(Next(index, images), images) == index
    ensures Next(Previous(index, images), images) == index
  {
    NextPreviousInverse(index.value, |images.value|);
  }

  /** The modal's `fullscreenImage` cell. It belongs to a component that stays
      mounted while projects come and go, so nothing here ties it to the
      current project; the handlers read the project they are rendered with. */
  class Viewer {
    var fullscreenImage: Option<int>

    constructor ()
      ensures fullscreenImage == None
    {
      fullscreenImage := None;
    }

    /** Clicking gallery image `index` opens it in the viewer. */
    method HandleImageClick(index: int)
      modifies this
      ensures fullscreenImage == Some(index)
    {
      fullscreenImage := Some(index);
    }

    /** The close button closes the viewer. */
    method HandleCloseFullscreen()
      modifies this
      ensures fullscreenImage == None
    {
      fullscreenImage := None;
    }

    method HandlePreviousImage(project: Project)
      modifies this
      ensures fullscreenImage == Previous(old(fullscreenImage), project.images)
    {
      if fullscreenImage.Some? && project.images.Some? {
        var n := |project.images.value|;
        fullscreenImage := Some(if fullscreenImage.value == 0 then n - 1 else fullscreenImage.value - 1);
      }
    }

    method HandleNextImage(project: Project)
      modifies this
      ensures fullscreenImage == Next(old(fullscreenImage), project.images)
    {
      if fullscreenImage.Some? && project.images.Some? {
        var n := |project.images.value|;
        fullscreenImage := Some(if fullscreenImage.value == n - 1 then 0 else fullscreenImage.value + 1);
      }
    }
  }

  // ---------------------------------------------------------------------
  // What the modal renders.

  /** One entry of the gallery strip. */
  datatype GalleryItem = Picture(index: nat, src: string) | Clip(src: string)

  datatype Gallery = Gallery(heading: string, items: seq<GalleryItem>)

  /** The fullscreen viewer: counter text, the image (`None` is JavaScript's
      `undefined`, an index outside the list) and the two arrow buttons. */
  datatype ViewerView = ViewerView(counter: string, src: Option<string>, hasPrevious: bool, hasNext: bool)

  datatype ModalView = ModalView(
    title: string,
    client: Option<string>,
    fullDescription: Option<string>,
    technologies: seq<string>,
    gallery: Option<Gallery>,
    viewer: Option<ViewerView>)

  /** The images in order, each clickable by its position, then the video. */
  function GalleryItems(p: Project): (r: seq<GalleryItem>)
    ensures |r| == ImageCount(p.images) + (if Truthy(p.video) then 1 else 0)
    ensures forall i :: 0 <= i < ImageCount(p.images) ==> r[i] == Picture(i, p.images.value[i])
    ensures Truthy(p.video) ==> r[|r| - 1] == Clip(p.video.value)
  {
    var pictures := if p.images.Some? then seq(|p.images.value|, i requires 0 <= i < |p.images.value| => Picture(i, p.images.value[i])) else [];
    pictures + (if Truthy(p.video) then [Clip(p.video.value)] else [])
  }

  /** The gallery section: present when there is an image or a video. */
  function RenderGallery(p: Project): (r: Option<Gallery>)
    ensures r.Some? <==> GalleryItems(p) != []
    ensures r.Some? ==> r.value.items == GalleryItems(p)
    ensures r.Some? ==> (r.value.heading == "Galería y Video" <==> Truthy(p.video))
  {
    if (p.images.Some? && |p.images.value| > 0) || Truthy(p.video) then
      Some(Gallery(if Truthy(p.video) then "Galería y Video" else "Galería", GalleryItems(p)))
    else
      None
  }

  /** The counter text "{i+1} / {N}": the 1-based position, the separator
      and the total. An index below -1 prints with a minus sign. */
  function Counter(i: int, n: nat): (r: string)
    ensures -1 <= i ==>
      var k := |Numerals.NatToDecimal(i + 1)|;
      |r| == k + 3 + |Numerals.NatToDecimal(n)|
      && r[..k] == Numerals.NatToDecimal(i + 1) && r[k..k + 3] == " / " && r[k + 3..] == Numerals.NatToDecimal(n)
    ensures i < -1 ==> |r| > 3 && r[0] == '-'
  {
    Numerals.IntToDecimal(i + 1) + " / " + Numerals.NatToDecimal(n)
  }

  /** The counter shows the 1-based position and the total, and both can be
      read back from it. */
  lemma CounterReadsBack(i: int, n: nat)
    requires 0 <= i
    ensures var c := Counter(i, n);
      var k := |Numerals.NatToDecimal(i + 1)|;
      c[..k] == Numerals.NatToDecimal(i + 1) && c[k..k + 3] == " / " && c[k + 3..] == Numerals.NatToDecimal(n)
      && Numerals.DecimalValue(c[..k]) == i + 1 && Numerals.DecimalValue(c[k + 3..]) == n
  {
    Numerals.DecimalRoundTrip(i + 1);
    Numerals.DecimalRoundTrip(n);
  }

  /** The viewer layer: shown whenever the cell holds an index and `images`
      is present, whether or not the index is inside the list. */
  function RenderViewer(p: Project, index: Option<int>): (r: Option<ViewerView>)
    ensures r.Some? <==> index.Some? && p.images.Some?
    ensures r.Some? ==> r.value.counter == Counter(index.value, |p.images.value|)
    ensures r.Some? ==> (r.value.hasPrevious <==> |p.images.value| > 1) && (r.value.hasNext <==> |p.images.value| > 1)
    ensures r.Some? ==> (r.value.src.Some? <==> InRange(index, p.images))
    ensures r.Some? && InRange(index, p.images) ==> r.value.src == Some(p.images.value[index.value])
  {
    if index.Some? && p.images.Some? then
      var images, i := p.images.value, index.value;
      Some(ViewerView(
        Counter(i, |images|),
        if 0 <= i < |images| then Some(images[i]) else None,
        |images| > 1,
        |images| > 1))
    else
      None
  }

  /** The whole modal: nothing without a project, whatever `isOpen` says;
      nothing while closed; otherwise the project's details, its gallery and
      the viewer layer. */
  function Render(project: Option<Project>, isOpen: bool, index: Option<int>): (r: Option<ModalView>)
    ensures r.Some? <==> project.Some? && isOpen
    ensures r.Some? ==> r.value.title == project.value.title && r.value.technologies == project.value.technologies
    ensures r.Some? ==> r.value.gallery == RenderGallery(project.value)
    ensures r.Some? ==> r.value.viewer == RenderViewer(project.value, index)
    ensures r.Some? ==> (r.value.client.Some? <==> Truthy(project.value.client))
  {
    match project
    case None => None
    case Some(p) =>
      if !isOpen then
        None
      else
        Some(ModalView(
          p.title,
          if Truthy(p.client) then p.client else None,
          if Truthy(p.fullDescription) then p.fullDescription else None,
          p.technologies,
          RenderGallery(p),
          RenderViewer(p, index)))
  }

  /** Three images: open the first, step back, step forward twice. */
  lemma ThreeImageTour(p: Project)
    requires p.images == Some(["a", "b", "c"])
    ensures RenderViewer(p, Some(0)).value.counter == "1 / 3"
    ensures Previous(Some(0), p.images) == Some(2)
    ensures RenderViewer(p, Some(2)).value.counter == "3 / 3"
    ensures Next(Next(Some(2), p.images), p.images) == Some(1)
    ensures RenderViewer(p, Some(1)).value.counter == "2 / 3"
  {
  }

  /** A project with a video and an empty image list: the gallery holds just
      the video, and there is no image to click. */
  lemma VideoOnlyGallery(p: Project)
    requires p.images == Some([]) && p.video == Some("v.mp4")
    ensures RenderGallery(p) == Some(Gallery("Galería y Video", [Clip("v.mp4")]))
    ensures forall item :: item in GalleryItems(p) ==> !item.Picture?
  {
    assert GalleryItems(p) == [Clip("v.mp4")];
  }
}
