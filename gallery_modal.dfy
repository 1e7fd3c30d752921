/** The lightbox: what each key press and each click inside it asks the
    gallery to do, which navigation buttons it shows, and its preview strip.
    The lightbox holds no navigation state of its own; it reports every
    decision through the `onClose` and `onNavigate(index)` callbacks. */
module GalleryModal {
  import opened ImageTypes
  import ModalUrls

  datatype Key = Escape | ArrowLeft | ArrowRight | Other

  /** The callback an event fires: `onClose()`, `onNavigate(index)`, or none. */
  datatype Action = Close | Navigate(index: int) | NoAction

  /** The callbacks one key press fires, in order. The key handler is three
      independent `if` statements, so this is the concatenation of what each
      of them fires. */
  function KeyCallbacks(key: Key, currentIndex: int, imageCount: nat): (fired: seq<Action>)
    ensures |fired| <= 1 && NoAction !in fired
  {
    (if key == Escape then [Close] else [])
    + (if key == ArrowLeft && currentIndex > 0 then [Navigate(currentIndex - 1)] else [])
    + (if key == ArrowRight && currentIndex < imageCount - 1 then [Navigate(currentIndex + 1)] else [])
  }

  /** The single callback a key press fires, if any. */
  function HandleKeyDown(key: Key, currentIndex: int, imageCount: nat): (a: Action)
    ensures a == Close <==> key == Escape
    ensures a == Navigate(currentIndex - 1) <==> key == ArrowLeft && currentIndex > 0
    ensures a == Navigate(currentIndex + 1) <==> key == ArrowRight && currentIndex < imageCount - 1
    ensures a.Navigate? ==> a == Navigate(currentIndex - 1) || a == Navigate(currentIndex + 1)
    ensures 0 <= currentIndex < imageCount && a.Navigate? ==> 0 <= a.index < imageCount
  {
    var fired := KeyCallbacks(key, currentIndex, imageCount);
    if fired == [] then NoAction else fired[0]
  }

  /** The previous-image button is rendered only past the first image. */
  predicate PreviousShown(currentIndex: int): (shown: bool)
    ensures forall imageCount: nat :: shown <==> HandleKeyDown(ArrowLeft, currentIndex, imageCount).Navigate?
  {
    currentIndex > 0
  }

  /** The next-image button is rendered only before the last image. */
  predicate NextShown(currentIndex: int, imageCount: nat): (shown: bool)
    ensures shown <==> HandleKeyDown(ArrowRight, currentIndex, imageCount).Navigate?
  {
    currentIndex < imageCount - 1
  }

  /** Where a click lands. `Backdrop` is the scrim around the content,
      `Content` any part of the content that is not a button. */
  datatype Target = Backdrop | CloseButton | PreviousButton | NextButton | Thumbnail(position: int) | Content

  /** The callback a click fires. The content area stops propagation, so a
      click on it, or where a button is not rendered, fires nothing; the
      close button's click is stopped there too, so it fires `onClose` once. */
  function HandleClick(target: Target, currentIndex: int, imageCount: nat): (a: Action)
    ensures a == Close <==> target == Backdrop || target == CloseButton
    ensures target == PreviousButton ==>
              (a.Navigate? <==> PreviousShown(currentIndex)) && (a.Navigate? ==> a.index == currentIndex - 1)
    ensures target == NextButton ==>
              (a.Navigate? <==> NextShown(currentIndex, imageCount)) && (a.Navigate? ==> a.index == currentIndex + 1)
    ensures target.Thumbnail? && 0 <= target.position < imageCount ==> a == Navigate(target.position)
    ensures target == Content ==> a == NoAction
    ensures 0 <= currentIndex < imageCount && a.Navigate? ==> 0 <= a.index < imageCount
  {
    match target
    case Backdrop => Close
    case CloseButton => Close
    case PreviousButton => if PreviousShown(currentIndex) then Navigate(currentIndex - 1) else NoAction
    case NextButton => if NextShown(currentIndex, imageCount) then Navigate(currentIndex + 1) else NoAction
    case Thumbnail(k) => if 0 <= k < imageCount then Navigate(k) else NoAction
    case Content => NoAction
  }

  /** The buttons and the arrow keys agree: each button is shown exactly when
      its key does something, and then both move to the same image. */
  lemma ButtonsMatchArrowKeys(currentIndex: int, imageCount: nat)
    ensures HandleClick(PreviousButton, currentIndex, imageCount) == HandleKeyDown(ArrowLeft, currentIndex, imageCount)
    ensures HandleClick(NextButton, currentIndex, imageCount) == HandleKeyDown(ArrowRight, currentIndex, imageCount)
    ensures PreviousShown(currentIndex) <==> HandleKeyDown(ArrowLeft, currentIndex, imageCount) != NoAction
    ensures NextShown(currentIndex, imageCount) <==> HandleKeyDown(ArrowRight, currentIndex, imageCount) != NoAction
  {
  }

  /** The header's position counter, `currentIndex + 1` of `images.length`. */
  function PositionCounter(currentIndex: int, imageCount: nat): (counter: (int, nat))
    ensures counter.1 == imageCount
    ensures 0 <= currentIndex < imageCount ==> 1 <= counter.0 <= counter.1
  {
    (currentIndex + 1, imageCount)
  }

  /** One button of the preview strip: its list key, its image address and
      whether it is drawn as the selected one. */
  datatype Thumb = Thumb(key: nat, url: string, selected: bool)

  /** The preview strip: one thumbnail per image, in catalog order, the one at
      `currentIndex` marked selected. */
  function PreviewStrip(cloudName: string, images: seq<GalleryImage>, currentIndex: int): (strip: seq<Thumb>)
    ensures |strip| == |images|
    ensures forall k :: 0 <= k < |strip| ==>
              strip[k].selected == (k == currentIndex) && strip[k].key == images[k].id
              && strip[k].url == ModalUrls.PreviewUrl(cloudName, images[k])
  {
    seq(|images|, k requires 0 <= k < |images| =>
      Thumb(images[k].id, ModalUrls.PreviewUrl(cloudName, images[k]), k == currentIndex))
  }

  /** How many thumbnails of a strip are marked selected. */
  function SelectedCount(strip: seq<Thumb>): nat {
    if strip == [] then 0
    else SelectedCount(strip[..|strip| - 1]) + (if strip[|strip| - 1].selected then 1 else 0)
  }

  lemma {:induction false} SelectedCountOfMarking(strip: seq<Thumb>, currentIndex: int)
    requires forall k :: 0 <= k < |strip| ==> strip[k].selected == (k == currentIndex)
    ensures SelectedCount(strip) == if 0 <= currentIndex < |strip| then 1 else 0
  {
    if strip != [] {
      SelectedCountOfMarking(strip[..|strip| - 1], currentIndex);
    }
  }

  /** While the lightbox shows a valid position, exactly one thumbnail, the
      one at that position, is marked selected. */
  lemma ExactlyOneThumbnailSelected(cloudName: string, images: seq<GalleryImage>, currentIndex: int)
    requires 0 <= currentIndex < |images|
    ensures SelectedCount(PreviewStrip(cloudName, images, currentIndex)) == 1
    ensures PreviewStrip(cloudName, images, currentIndex)[currentIndex].selected
  {
    SelectedCountOfMarking(PreviewStrip(cloudName, images, currentIndex), currentIndex);
  }

  /** The header counter and the preview strip agree: the counter's total is
      the number of thumbnails, and its position names the selected one
      (counting from one). */
  lemma CounterMatchesStrip(cloudName: string, images: seq<GalleryImage>, currentIndex: int)
    requires 0 <= currentIndex < |images|
    ensures var counter := PositionCounter(currentIndex, |images|);
            var strip := PreviewStrip(cloudName, images, currentIndex);
            counter.1 == |strip| && 1 <= counter.0 <= |strip|
            && strip[counter.0 - 1].selected
            && forall k :: 0 <= k < |strip| && strip[k].selected ==> k == counter.0 - 1
  {
  }
}
