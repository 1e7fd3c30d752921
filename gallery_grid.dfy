/** The gallery page's viewer state: `selectedIndex`, null while the grid is
    shown and the position of the open image while the lightbox is shown. */
module GalleryGrid {
  import opened Wrappers
  import opened ImageTypes
  import opened GalleryModal

  /** The invariant the viewer keeps: grid view, or a position inside the list. */
  predicate InRange(selected: Option<int>, imageCount: nat) {
    selected.None? || 0 <= selected.value < imageCount
  }

  /** A user event on the gallery page. */
  datatype Event = GridClick(index: int) | KeyPress(key: Key) | ModalClick(target: Target)

  /** The state after the lightbox's callback runs: `onClose` sets null,
      `onNavigate` sets the index it is given, as it is. */
  function Apply(selected: Option<int>, action: Action): (next: Option<int>)
    ensures action == Close ==> next == None
    ensures action.Navigate? ==> next == Some(action.index)
    ensures action == NoAction ==> next == selected
    ensures forall imageCount: nat ::
              InRange(selected, imageCount) && (action.Navigate? ==> 0 <= action.index < imageCount)
              ==> InRange(next, imageCount)
  {
    match action
    case Close => None
    case Navigate(j) => Some(j)
    case NoAction => selected
  }

  /** The state after one event. The grid has one clickable item per image;
      the key listener and the lightbox exist only while an image is open,
      so in grid view keys and lightbox clicks change nothing. */
  function Step(selected: Option<int>, event: Event, imageCount: nat): (next: Option<int>)
    ensures InRange(selected, imageCount) ==> InRange(next, imageCount)
    ensures event.GridClick? && 0 <= event.index < imageCount ==> next == Some(event.index)
    ensures selected.Some? && event == KeyPress(Escape) ==> next == None
    ensures selected.Some? && (event == ModalClick(Backdrop) || event == ModalClick(CloseButton)) ==> next == None
    ensures selected.None? && !event.GridClick? ==> next == None
  {
    match event
    case GridClick(i) => if 0 <= i < imageCount then Some(i) else selected
    case KeyPress(key) =>
      if selected.None? then selected else Apply(selected, HandleKeyDown(key, selected.value, imageCount))
    case ModalClick(target) =>
      if selected.None? then selected else Apply(selected, HandleClick(target, selected.value, imageCount))
  }

  /** The state after a series of events. Whatever came before, a series
      that ends in a close (Escape, the backdrop or the close button) ends in
      grid view. */
  function Run(selected: Option<int>, events: seq<Event>, imageCount: nat): (final: Option<int>)
    ensures events != [] && events[|events| - 1] in {KeyPress(Escape), ModalClick(Backdrop), ModalClick(CloseButton)}
            ==> final == None
    decreases |events|
  {
    if events == [] then selected else Run(Step(selected, events[0], imageCount), events[1..], imageCount)
  }

  /** From any state inside the image list (grid view included), no series
      of clicks and key presses ever leaves the selected index outside it. */
  lemma {:induction false} RunStaysInRange(selected: Option<int>, events: seq<Event>, imageCount: nat)
    requires InRange(selected, imageCount)
    ensures InRange(Run(selected, events, imageCount), imageCount)
    decreases |events|
  {
    if events != [] {
      RunStaysInRange(Step(selected, events[0], imageCount), events[1..], imageCount);
    }
  }

  /** Next moves one image forward and stops at the last one; previous moves
      one back and stops at the first; a thumbnail jumps anywhere. */
  lemma NavigationSteps(i: int, j: int, imageCount: nat)
    requires 0 <= i < imageCount
    ensures Step(Some(i), KeyPress(ArrowRight), imageCount) == if i + 1 < imageCount then Some(i + 1) else Some(i)
    ensures Step(Some(i), ModalClick(NextButton), imageCount) == if i + 1 < imageCount then Some(i + 1) else Some(i)
    ensures Step(Some(i), KeyPress(ArrowLeft), imageCount) == if i > 0 then Some(i - 1) else Some(i)
    ensures Step(Some(i), ModalClick(PreviousButton), imageCount) == if i > 0 then Some(i - 1) else Some(i)
    ensures 0 <= j < imageCount ==> Step(Some(i), ModalClick(Thumbnail(j)), imageCount) == Some(j)
  {
  }

  /** The gallery grid component with its one piece of state. The two
      flags stand for what the open lightbox does to the page: it listens
      for key presses and it turns off page scrolling. */
  class Viewer {
    const images: seq<GalleryImage>
    var selectedIndex: Option<int>
    var keyListenerAttached: bool
    var pageScrollLocked: bool

    ghost predicate Valid()
      reads this
    {
      && InRange(selectedIndex, |images|)
      && keyListenerAttached == selectedIndex.Some?
      && pageScrollLocked == selectedIndex.Some?
    }

    /** A freshly mounted gallery shows the grid. */
    constructor (images: seq<GalleryImage>)
      ensures this.images == images
      ensures selectedIndex == None && !ModalShown()
      ensures Valid()
    {
      this.images := images;
      selectedIndex := None;
      keyListenerAttached := false;
      pageScrollLocked := false;
    }

    /** The lightbox is rendered exactly when an image is selected. */
    predicate ModalShown()
      reads this
    {
      selectedIndex.Some?
    }

    /** The image and position handed to the lightbox, when it is rendered. */
    function ModalProps(): (props: Option<(GalleryImage, int)>)
      reads this
      requires InRange(selectedIndex, |images|)
      ensures props.Some? <==> ModalShown()
      ensures props.Some? ==> props.value.1 == selectedIndex.value
                              && 0 <= props.value.1 < |images| && props.value.0 == images[props.value.1]
    {
      match selectedIndex
      case None => None
      case Some(i) => Some((images[i], i))
    }

    /** `onNavigate`: sets the selection to whatever index it is given; the
        state stays valid exactly when that index is inside the list. */
    method Navigate(index: int)
      requires Valid() && ModalShown()
      modifies this
      ensures selectedIndex == Some(index)
      ensures keyListenerAttached && pageScrollLocked
      ensures Valid() <==> 0 <= index < |images|
    {
      selectedIndex := Some(index);
    }

    /** `onClose`: back to the grid; the page scrolls again and keys are no
        longer heard. */
    method Close()
      requires Valid()
      modifies this
      ensures selectedIndex == None && !keyListenerAttached && !pageScrollLocked
      ensures Valid()
    {
      selectedIndex := None;
      keyListenerAttached := false;
      pageScrollLocked := false;
    }

    /** Runs the callback the lightbox fired. */
    method Dispatch(action: Action)
      requires Valid() && ModalShown()
      requires action.Navigate? ==> 0 <= action.index < |images|
      modifies this
      ensures selectedIndex == Apply(old(selectedIndex), action)
      ensures Valid()
    {
      match action
      case Close => Close();
      case Navigate(j) => Navigate(j);
      case NoAction =>
    }

    /** A click on grid item `index`: opens the lightbox there, whatever was
        selected before. */
    method SelectGridItem(index: int)
      requires Valid()
      modifies this
      ensures selectedIndex == Step(old(selectedIndex), GridClick(index), |images|)
      ensures Valid()
    {
      if 0 <= index < |images| {
        selectedIndex := Some(index);
        keyListenerAttached := true;
        pageScrollLocked := true;
      }
    }

    /** A key press anywhere on the page. */
    method KeyDown(key: Key)
      requires Valid()
      modifies this
      ensures selectedIndex == Step(old(selectedIndex), KeyPress(key), |images|)
      ensures Valid()
    {
      if keyListenerAttached {
        Dispatch(HandleKeyDown(key, selectedIndex.value, |images|));
      }
    }

    /** A click inside the open lightbox. */
    method ClickModal(target: Target)
      requires Valid()
      modifies this
      ensures selectedIndex == Step(old(selectedIndex), ModalClick(target), |images|)
      ensures Valid()
    {
      if selectedIndex.Some? {
        Dispatch(HandleClick(target, selectedIndex.value, |images|));
      }
    }
  }

  /** Three images: open the second, go right twice (the second press is
      ignored at the last image), then close with Escape. */
  method ThreeImageWalkthrough(a: GalleryImage, b: GalleryImage, c: GalleryImage)
  {
    var viewer := new Viewer([a, b, c]);
    viewer.SelectGridItem(1);
    assert viewer.selectedIndex == Some(1) && viewer.pageScrollLocked;
    viewer.KeyDown(ArrowRight);
    assert viewer.selectedIndex == Some(2);
    viewer.KeyDown(ArrowRight);
    assert viewer.selectedIndex == Some(2);
    viewer.KeyDown(Escape);
    assert viewer.selectedIndex == None && !viewer.pageScrollLocked;
  }
}
