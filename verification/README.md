# This Week in Past — slideshow driver and image orientation, modelled in Dafny

This project models the two pieces of "This Week in Past" that carry logic of their own:

- **The browser slideshow** (`static/script.js`). The page keeps this week's list of photo
  resources, a cursor `currentIndex` and `maxIndex`. `startSlideshow` takes the list, ticks once and
  schedules a repeating tick. Each tick hands the resource under the cursor to `setImage` and
  moves the cursor on, wrapping to 0. With an empty list it hands over a random resource instead.
  `setImage` builds the image URL for the available screen size. It then fades three page elements
  (background, image, metadata) out and back in by adding and removing the `fade-out` and `fade-in`
  classes. Two configuration queries fall back to defaults when the status is not 200: the
  slideshow interval (30 s) and the Home Assistant switch (off).
- **The server's image adjustment** (`src/image_processor.rs`, `adjust_image`). It decodes the
  stored bytes, or gives no image when decoding fails. It always resizes to the display, then
  applies the EXIF orientation (a rotation by 90, 180 or 270 degrees, then an optional vertical
  flip), and encodes the result as PNG.

Files (one module each):

| file | module | models |
|---|---|---|
| `wrappers.dfy` | `Wrappers` | `Option` |
| `decimal.dfy` | `Decimal` | integers written into a template literal, and plain numerals read back |
| `status_queries.dfy` | `StatusQueries` | `getSlideshowInterval`, `isHomeAssistantEnabled`, the timer delay |
| `image_url.dfy` | `ResourceUrl` | the image URL of `setImage` and a reader that recovers its parts |
| `presenter.dfy` | `Presenter` | the fade-class protocol of `setImage`: pure rules, plus class lists updated in place |
| `slideshow.dfy` | `Slideshow` | `slideshowTick`, `startSlideshow` and the page-load chain, with the cycle properties |
| `image_processor.dfy` | `ImageProcessor` | `ImageOrientation` and `adjust_image` |

The slideshow state is a class, `Slideshow.Driver`, whose fields are updated in place as the script's
module-level variables are. Each of its methods is tied to the pure specification `TickStep`. The
cycle properties are lemmas about `TickTrace` and `CursorAfter`, which iterate `TickStep`. The
three page elements are `Presenter.ClassList` objects changed by `Add` and `Remove`. Each event
method is tied to the pure rule `AfterEvent`. `adjust_image` is a pure function. An image is the
decoded bitmap plus the list of library operations applied to it, so the ordering rule can be
stated and proved without the pixel operations themselves.

Two behaviours of the code are worth knowing, and the model keeps both:

- `slideshowTick` returns early on an empty list, but `startSlideshow` still schedules the repeating
  tick timer (`static/script.js:136-139`, `static/script.js:165-171`). `Driver.StartSlideshow`
  records the timer unconditionally, and every later tick on an empty list presents a random
  resource (`EmptyListTicks`).
- `startSlideshow` never resets `currentIndex`; it is 0 only because the script has just loaded.
  `StartSlideshow` keeps the cursor it finds, and `PageLoad` shows that the first tick after load
  presents the head of the list.

## Model

| member | source | states |
|---|---|---|
| `Decimal.NumeralRoundTrip` | static/script.js:77 | the numeral written for a screen dimension reads back as the same number |
| `StatusQueries.SlideshowInterval` | static/script.js:150-158 | the interval is the response text exactly when the status is 200, and 30 seconds otherwise |
| `StatusQueries.HomeAssistantEnabled` | static/script.js:53-62 | enabled if and only if the status is 200 and the body is exactly "true" |
| `StatusQueries.TimerDelayMs` | static/script.js:171 | the default interval gives `30 * 1000`; a response text gives a value exactly when it is a plain numeral, and then its value times 1000 |
| `StatusQueries.TimerDelayFromResponse` | static/script.js:150-171 | a configured interval of n seconds hands n*1000 to setInterval; a failed query hands it 30000 |
| `ResourceUrl.ImageUrl` | static/script.js:77 | the URL `base + api/resources/ + id + / + width + / + height` yields back the resource id, width and height, for any id (one containing '/' included) |
| `ResourceUrl.ImageUrlInjective` | static/script.js:77 | two different requests (id, width, height) never share an image URL |
| `Presenter.AfterEvent` | static/script.js:84-109 | Start adds fade-out; ImageLoaded adds fade-in and removes fade-out; Settle removes fade-in; no other class changes |
| `Presenter.ReplayAppend` | static/script.js:84-109 | replaying two histories one after the other is replaying their concatenation |
| `Presenter.CompleteTransitionIsNeutral` | static/script.js:84-109 | after Start, ImageLoaded, Settle, an element has neither fade class, whatever came before, and keeps its other classes |
| `Presenter.FadeOutPersistsWithoutLoad` | static/script.js:90-110 | if the image never loads, fade-out is never removed |
| `Presenter.OverlappingStartLeavesFadeOut` | static/script.js:84-109 | a new Start between the fade-in and its Settle leaves the element faded out after that Settle |
| `Presenter.ClassList.constructor` | static/script.js:80-82 | a class list holds the classes it is created with |
| `Presenter.ClassList.Add` | static/script.js:85-87 | `classList.add` inserts the class and nothing else |
| `Presenter.ClassList.Remove` | static/script.js:96 | `classList.remove` deletes the class and nothing else |
| `Presenter.Elements.constructor` | static/script.js:80-82 | the three elements are distinct objects with the given classes |
| `Presenter.Elements.SetImage` | static/script.js:75-87 | returns the image URL for the available screen size, and each element's classes follow the Start rule |
| `Presenter.Elements.OnImageLoaded` | static/script.js:93-102 | each element's classes follow the ImageLoaded rule, so none carries fade-out |
| `Presenter.Elements.OnFadeInEnd` | static/script.js:105-109 | each element's classes follow the Settle rule, so none carries fade-in |
| `Presenter.PresentToEnd` | static/script.js:75-110 | a presentation that runs to its end leaves all three elements with neither fade class and their other classes unchanged |
| `Slideshow.Lookup` | static/script.js:141 | `resources[i]` is the element at i inside the list and undefined outside it |
| `Slideshow.TickStep` | static/script.js:135-147 | empty list: a random resource and an unchanged cursor; otherwise the resource under the old cursor, the cursor moving up by one or back to 0 past maxIndex, and staying in [0, maxIndex] |
| `Slideshow.TickAdvancesModulo` | static/script.js:143-146 | on a non-empty list the cursor moves to (cursor + 1) mod length |
| `Slideshow.TickTraceSplit` | static/script.js:135-147 | a ticks then b ticks present and leave the same as a + b ticks |
| `Slideshow.TickTraceWithin` | static/script.js:141-146 | ticks that stop at the end of the list present consecutive resources, and the cursor wraps to 0 exactly at the end |
| `Slideshow.TicksToEnd` | static/script.js:141-146 | ticking from the cursor to the end presents the list's tail and leaves the cursor at 0 |
| `Slideshow.TicksFromStart` | static/script.js:141-146 | ticking from 0 presents the list's head up to the cursor |
| `Slideshow.FullCycle` | static/script.js:141-146 | N ticks over a list of length N present the list rotated to the starting cursor, and return the cursor to its start |
| `Slideshow.FirstCycleInOrder` | static/script.js:141-146 | from cursor 0, N ticks present the list exactly in order and end at 0 |
| `Slideshow.FullCyclePresentsEachOnce` | static/script.js:141-146 | N ticks from any valid cursor present every position of the list exactly once (as multisets) |
| `Slideshow.EmptyListTicks` | static/script.js:136-139 | on an empty list every tick presents a random resource and the cursor never moves |
| `Slideshow.Driver.constructor` | static/script.js:1-3 | the script starts with cursor 0, maxIndex 0, no list and no timer |
| `Slideshow.Driver.Tick` | static/script.js:135-147 | follows TickStep: an empty list presents a random resource with the cursor unchanged; otherwise it presents `resources[old cursor]`; the cursor stays in [0, maxIndex] |
| `Slideshow.Driver.StartSlideshow` | static/script.js:161-172 | takes the list, sets maxIndex to its length minus 1, ticks exactly once, and appends one repeating timer with the queried interval, even for an empty list |
| `Slideshow.PageLoad` | static/script.js:174-182 | after load the first tick presents the list's first resource (or a random one for an empty list), and exactly one repeating tick timer is scheduled |
| `ImageProcessor.Rotate` | src/image_processor.rs:46-51 | 90, 180 and 270 append one rotation by exactly that angle and keep the earlier operations; any other value leaves the image unchanged |
| `ImageProcessor.AdjustOps` | src/image_processor.rs:40-60 | a rotation can appear only right after the resize, and then it turns by the angle the orientation asks for |
| `ImageProcessor.AdjustImage` | src/image_processor.rs:22-68 | no result exactly when decoding fails; otherwise the PNG of the decoded bitmap after resize, rotation and flip, in that order |
| `ImageProcessor.ResizedOnceFirst` | src/image_processor.rs:40-45 | a decoded image is resized exactly once, to the display size, before any other operation; at most three operations in all |
| `ImageProcessor.NoOrientationOnlyResized` | src/image_processor.rs:45-60 | without an orientation the image is only resized |
| `ImageProcessor.RotationDispatch` | src/image_processor.rs:46-51 | 90, 180 and 270 apply exactly the matching rotation right after the resize and no other rotation; any other value, 0 included, applies none |
| `ImageProcessor.FlipIffMirrored` | src/image_processor.rs:53-57 | the vertical flip is applied if and only if the mirror flag is set, and then as the last operation |

## Left out

- Network requests are not modelled (`fetch`, `XMLHttpRequest`, synchronous or not, and JSON parsing). A response is a parameter: a status code and a body text, or the list of resource ids.
- Tick timers are kept only as the order of events: `setInterval` and `sleep`, including the two one-second waits. A scheduled tick timer is recorded with its interval, and each firing is one `Driver.Tick`. Durations and overlapping ticks in real time are not modelled.
- The hourly page reload that `window.onload` starts (`setInterval(() => location.reload(), 3600000)`, static/script.js:11) is not modelled in any form: `PageLoad` records only the tick timer.
- `StatusQueries.TimerDelayFromResponse`: states the value `intervalInSeconds * 1000` handed to `setInterval`, not the delay the browser then uses. Browsers convert that delay to a 32-bit signed integer (so 2147484 seconds or more wraps or becomes 0). JavaScript's string-to-number conversion also loses precision for numerals beyond 2^53. Neither is modelled.
- The random fallback of the empty list (`getRandomResource`, static/script.js:125-132) is the tag `Random`. The fetched id, and the `undefined` a non-200 answer gives, are not modelled.
- `StatusQueries.TimerDelayMs`: gives a delay only for the default interval and for a response text that is a plain decimal numeral. JavaScript's coercion of any other text by `* 1000` (whitespace, decimals, hexadecimal, NaN) is not modelled.
- `Slideshow.Driver.constructor`: `resources` starts as the empty list, whereas the script leaves it `undefined`. No tick runs before `startSlideshow` assigns it, so no behaviour depends on this.
- `maxIndex` is the list's length minus 1. `Object.keys(resources).length` equals the length for the arrays the backend returns.
- DOM writes other than the fade classes are not modelled: the image `src`, the background image style, the metadata text and its description request (static/script.js:113-120).
- The weather display is not part of this model: `loadWeatherInformation`, `loadCurrentWeather`, `showCurrentWeather` and `getCurrentTemperatureDataFromHomeAssistant`. It is network I/O, DOM writes, floating-point rounding (`Math.round`) and an external icon URL. Only its Home Assistant switch is modelled.
- Screen dimensions are non-negative integers. A resource id is the text that interpolation gives it.
- The pixel work of `adjust_image` belongs to the image library and is not modelled: decoding, Triangle-filter resizing, rotation, flipping and PNG encoding. Decoding is a function parameter, each operation is a tag, and the PNG is a wrapper around the adjusted image. The `error!` log line is not modelled either. The `.unwrap()` calls on format guessing and on PNG writing (src/image_processor.rs:31, src/image_processor.rs:66) are library panics and are not modelled.
