# Club photo gallery: lightbox navigation, image addresses and catalog loading

This project models the photo gallery of a university baseball club's
website, in Dafny.

- **Catalog loader** (`GalleryPage`, from `src/app/gallery/page.tsx`).
  `getImages` searches the image host and builds one record per returned
  resource. A counter supplies each record's `id`, so the `id` is its position.
  The other fields are copied. The loader then waits for a blurred placeholder
  for every resource and writes the i-th placeholder into record i. If the
  search or any placeholder derivation throws, the `catch` block returns `[]`.
  On success the body ends without a `return`, so the promise resolves to
  `undefined` (see Findings).
- **Lightbox** (`GalleryModal`, from `src/views/gallery/GalleryModal.tsx`).
  The key handler (Escape, ArrowLeft, ArrowRight) and the click handlers
  (backdrop, close, previous/next buttons, thumbnails) decide which callback
  to fire: `onClose`, `onNavigate(index)` or none. The module also models
  when the previous and next buttons are shown, the position counter, and the
  preview strip with its single selected thumbnail.
- **Image addresses** (`ModalUrls`, same file). These are the three template
  strings for the full-size image, its blurred backdrop and the 200-pixel
  thumbnail. They name the asset by the record's `id`. Because the loader sets
  `id` to the catalog position, the path holds that position, not the host's
  `public_id`. The model follows the code here. `Decimal` models how the
  template renders a number as a decimal string.
- **Viewer state** (`GalleryGrid`, from `src/views/gallery/GalleryGrid.tsx`).
  `selectedIndex` is null in grid view and the open image's position in the
  lightbox. The class `GalleryGrid.Viewer` holds it and changes it in place on
  grid clicks, key presses and lightbox clicks. Two flags stand for what an
  open lightbox does to the page: it listens for keys and it stops page
  scrolling. The pure `Step`/`Run` functions give the same transitions as
  values. The main invariant is that the selection is always null or a
  position inside the image list.

The configured cloud name is a parameter. The host's search response and the
placeholder results are inputs.

## Model

| member | source | states |
|---|---|---|
| `GalleryModal.KeyCallbacks` | src/views/gallery/GalleryModal.tsx:22-27 | Each key press fires at most one callback, and every callback it fires is a real one (close or navigate). |
| `GalleryModal.HandleKeyDown` | src/views/gallery/GalleryModal.tsx:24-26 | Escape closes, and only Escape does. ArrowLeft goes to `currentIndex-1` exactly when `currentIndex > 0`. ArrowRight goes to `currentIndex+1` exactly when `currentIndex < length-1`. Any other key does nothing. From a valid position every target is in `[0, length)`. |
| `GalleryModal.HandleClick` | src/views/gallery/GalleryModal.tsx:63-139 | Only the backdrop and the close button close the lightbox. The previous button navigates, by exactly -1, iff it is shown (`currentIndex > 0`). The next button navigates, by exactly +1, iff it is shown (`currentIndex < length-1`). Thumbnail k navigates to exactly k. The content area does nothing. From a valid position every target is in range. |
| `GalleryModal.ButtonsMatchArrowKeys` | src/views/gallery/GalleryModal.tsx:88-118 | Each button is shown exactly when its arrow key does something, and both fire the same callback. |
| `GalleryModal.PreviousShown` | src/views/gallery/GalleryModal.tsx:88 | For every list length, the previous button is rendered exactly when ArrowLeft would navigate. |
| `GalleryModal.NextShown` | src/views/gallery/GalleryModal.tsx:106 | The next button is rendered exactly when ArrowRight would navigate. |
| `GalleryModal.PositionCounter` | src/views/gallery/GalleryModal.tsx:76-78 | The counter's total is `images.length`. For a valid position its first number lies in `1..length`. |
| `GalleryModal.CounterMatchesStrip` | src/views/gallery/GalleryModal.tsx:76-78 | For a valid position the counter's total is the number of thumbnails, and its first number (counting from one) names the selected thumbnail and no other. |
| `GalleryModal.PreviewStrip` | src/views/gallery/GalleryModal.tsx:128-143 | One thumbnail per image, in order. Each is keyed by the image's `id`, addressed by its preview URL, and marked selected iff its position is `currentIndex`. |
| `GalleryModal.ExactlyOneThumbnailSelected` | src/views/gallery/GalleryModal.tsx:130-142 | For a valid `currentIndex` exactly one thumbnail is selected, the one at `currentIndex`. |
| `ModalUrls.DisplayUrl` | src/views/gallery/GalleryModal.tsx:59 | The display URL starts with the host's upload path and scale transformation for the cloud name, and ends in `/<id>.<format>`. |
| `ModalUrls.BlurUrl` | src/views/gallery/GalleryModal.tsx:60 | The backdrop URL starts with the same upload path and scale transformation and ends in `/<id>.<format>`. |
| `ModalUrls.PreviewUrl` | src/views/gallery/GalleryModal.tsx:129 | The thumbnail URL starts with the same upload path and scale transformation and ends in `/<id>.<format>`. |
| `ModalUrls.DisplayUrlRoundTrip` | src/views/gallery/GalleryModal.tsx:59 | The display URL parses back to the image's width, no blur, its `id` and its format. |
| `ModalUrls.BlurUrlRoundTrip` | src/views/gallery/GalleryModal.tsx:60 | The backdrop URL parses back to the image's width, blur, its `id` and its format. |
| `ModalUrls.PreviewUrlRoundTrip` | src/views/gallery/GalleryModal.tsx:129 | The thumbnail URL parses back to width 200, no blur, the image's `id` and its format. |
| `ModalUrls.PreviewIsDisplayAtWidth200` | src/views/gallery/GalleryModal.tsx:129 | The thumbnail URL is the display URL of the same image at the fixed width 200. |
| `ModalUrls.BlurUrlInsertsEffect` | src/views/gallery/GalleryModal.tsx:59-60 | The backdrop URL is the display URL with `,e_blur:1000` inserted right after `w_<width>`. |
| `ModalUrls.DisplayAndBlurDiffer` | src/views/gallery/GalleryModal.tsx:59-60 | The display and backdrop URLs of an image are never equal. |
| `ModalUrls.PreviewUrlInjective` | src/views/gallery/GalleryModal.tsx:129-134 | Two images with the same thumbnail URL have the same `id` and format. |
| `Decimal.NatToDecimal` | src/views/gallery/GalleryModal.tsx:59 | The text a template gives a non-negative integer is a non-empty string of decimal digits, with no leading zero unless the number is 0. |
| `Decimal.ParseDecimalRoundTrip` | src/views/gallery/GalleryModal.tsx:59 | The decimal text that the template gives a width or id reads back as the same number. |
| `GalleryGrid.Apply` | src/views/gallery/GalleryGrid.tsx:36-37 | `onClose` sets the selection to null. `onNavigate(j)` sets it to exactly `j`. Firing no callback leaves it unchanged. For every list length, a selection inside the list stays inside it when any navigation target is in range. |
| `GalleryGrid.Step` | src/views/gallery/GalleryGrid.tsx:23-39 | One event keeps the selection null or in range. A grid click on item i selects i whatever was selected before. Escape, the backdrop and the close button close an open lightbox. In grid view nothing but a grid click changes the state. |
| `GalleryGrid.Run` | src/views/gallery/GalleryGrid.tsx:14-37 | Any series of events that ends in Escape, a backdrop click or a close-button click ends in grid view, whatever came before. |
| `GalleryGrid.RunStaysInRange` | src/views/gallery/GalleryGrid.tsx:14-37 | After any series of clicks and key presses from a valid state, the selection is still null or a position inside the image list. |
| `GalleryGrid.NavigationSteps` | src/views/gallery/GalleryModal.tsx:25-139 | From `Lightbox(i)`, next (key or button) moves to `i+1`, or stays at the last image. Previous moves to `i-1`, or stays at the first. Thumbnail j jumps to `j` from any i. |
| `GalleryGrid.Viewer.constructor` | src/views/gallery/GalleryGrid.tsx:14 | A new gallery shows the grid: no selection and no lightbox. |
| `GalleryGrid.Viewer.ModalProps` | src/views/gallery/GalleryGrid.tsx:31-35 | The lightbox is rendered iff an image is selected. Its `currentImage` is `images[selectedIndex]` and its `currentIndex` is `selectedIndex`. |
| `GalleryGrid.Viewer.Navigate` | src/views/gallery/GalleryGrid.tsx:37 | `onNavigate(j)` sets the selection to `j` with no adjacency check. The state stays valid iff `j` is in range. |
| `GalleryGrid.Viewer.Close` | src/views/gallery/GalleryGrid.tsx:36 | `onClose` returns to grid view from any state. Keys are no longer heard and page scrolling comes back. |
| `GalleryGrid.Viewer.Dispatch` | src/views/gallery/GalleryGrid.tsx:36-37 | Running a lightbox callback moves the selection as `Apply` says and keeps the viewer valid. |
| `GalleryGrid.Viewer.SelectGridItem` | src/views/gallery/GalleryGrid.tsx:23-27 | A click on grid item `index` performs `Step` and keeps the viewer valid. |
| `GalleryGrid.Viewer.KeyDown` | src/views/gallery/GalleryModal.tsx:49-57 | A key press performs `Step`. It is heard only while the lightbox is open. It keeps the viewer valid. |
| `GalleryGrid.Viewer.ClickModal` | src/views/gallery/GalleryGrid.tsx:31-39 | A click in the open lightbox performs `Step` and keeps the viewer valid. |
| `GalleryPage.BuildRecords` | src/app/gallery/page.tsx:23-36 | One record per resource, in response order. Record i has `id == i`. Its height, width, public_id and format are copied from resource i. It has no placeholder. |
| `GalleryPage.JoinAll` | src/app/gallery/page.tsx:38-42 | Waiting for all derivations succeeds iff every one succeeds. It then gives exactly one data URL per derivation, in request order. |
| `GalleryPage.AttachBlurDataUrls` | src/app/gallery/page.tsx:44-46 | Record i gets the i-th placeholder. No other field of any record changes. |
| `GalleryPage.GetImages` | src/app/gallery/page.tsx:14-52 | A failed search returns `[]`. A failed placeholder derivation returns `[]`, after the records were built. On success the full catalog is built but the function returns `undefined`. |
| `GalleryPage.MissingReturnExample` | src/app/gallery/page.tsx:44-52 | An empty search response makes the loader return `undefined` instead of the empty list. |
| `GalleryPage.MissingReturnWithOneImage` | src/app/gallery/page.tsx:44-52 | One resource with a good placeholder gives a one-record catalog with its placeholder, while the loader returns `undefined`. |
| `GalleryPage.GetImagesFixed` | src/app/gallery/page.tsx:14-52 | With the missing `return` added, the caller always gets a list. On success it is the full catalog with its placeholders in order. On any failure it is `[]`. |
| `GalleryPage.CatalogIdsArePositions` | src/app/gallery/page.tsx:25-35 | The ids of a built catalog are pairwise distinct and are exactly `0..N-1`. |
| `GalleryPage.CatalogPreviewUrlsDistinct` | src/views/gallery/GalleryModal.tsx:128-134 | No two thumbnails of a built catalog share a URL, because their ids are their positions. |
| `GalleryPage.GalleryPageView` | src/app/gallery/page.tsx:54-58 | The page mounts the grid in grid view on the catalog the corrected loader returns. |

## Left out

- The host's search call and its configuration (`src/app/gallery/page.tsx:7-21`) are network I/O through a foreign SDK. The search response is an input, `SearchResponse`. The 200-result cap is applied by the host and is not modelled.
- `getBase64ImageUrl` is not part of this model. `page.tsx` calls it at line 39 but neither imports nor defines it. As the file stands, any non-empty response would raise a `ReferenceError` inside the `try`, and `getImages` would return `[]` from the catch (line 50). The model assumes the function is defined elsewhere and takes each call's outcome as an input, `BlurResult`.
- `Promise.all` is modelled only by what it yields: all results in request order, or a rejection if any derivation fails (`JoinAll`). Timing and concurrency are not modelled.
- `reducedResults` is a JavaScript array updated in place. The model holds it as a sequence value that each loop reassigns. Nothing else refers to it, so no aliasing is lost.
- The centring of the selected thumbnail (`GalleryModal.tsx:32-47`) is left out. It is DOM measurement with floating-point division and smooth scrolling.
- Attaching the key listener and setting `overflow: hidden` on the page body (`GalleryModal.tsx:49-57`) are modelled only as the two flags of `GalleryGrid.Viewer`. They are set when the lightbox opens and cleared when it closes.
- Rendering, styling and image loading (`next/image`) are left out, as are the other pages and components of the site.
- `Decimal.NatToDecimal`: models `${n}` only for non-negative integers. The exponent form JavaScript uses from 10^21 upward is not modelled. Image widths are far below that.
- The `catch` block's `console.error` call (`page.tsx:48`) is logging only. The model keeps only the `[]` the catch returns.
- The cloud name comes from the environment in the source. Here it is a parameter, so the case where it is unset (the text `undefined`) is just one possible argument.
- `GalleryModal.HandleClick`: treats the backdrop as clickable. The content layer (`GalleryModal.tsx:73`) fills the lightbox and stops propagation, so whether a pointer can ever reach the outer `onClick` (line 63) depends on layout, which the model does not decide.
- `GalleryPage.GalleryPageView`: the page renders `Gallery` from `@views/gallery/index`, which is not part of this model. The model assumes it mounts the gallery grid on the list it is given.
- The `GalleryImage` type (`@/types/imageTypes`) is not part of this model. The record's fields are the ones `getImages` writes.

## Findings

| source | as written | input that shows it | evidently intended | confidence | as-written member | corrected member |
|---|---|---|---|---|---|---|
| src/app/gallery/page.tsx:44-52 | The `try` block ends after the placeholder loop with no `return`, so on success `getImages` resolves to `undefined` and the page passes `undefined` to the gallery. | The empty search response: `Found([])`, with no placeholders to derive. | Return `reducedResults` after the second loop. | high; not executed | `GalleryPage.MissingReturnExample` | `GalleryPage.GetImagesFixed` |
