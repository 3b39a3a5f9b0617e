# OverFunction: the site's small logic core in Dafny

OverFunction is a small personal website: a home page, an image gallery, a
post and an OKLCH colour-picker demo, plus a theme button and an audio button.
Almost all of it is React markup. This project models the few pieces that
follow rules, and proves those rules:

- **Carousel paging** (`HorizontalGallery`). The current slide is derived from
  the scroll offset as `round(scrollLeft / max(1, slideW))`. ArrowRight and
  ArrowLeft move one slide, clamped to `[0, n-1]` with no wrap-around, and
  scroll to `idx * slideW`. The swipe hint starts visible and is hidden by a
  scroll event or by the dwell timer. Nothing shows it again. Module
  `Carousel`, file `carousel.dfy`.
- **Image list** (`Gallery`). The fetched manifest becomes the list of image
  URLs. Names starting with `http` are kept. Other names lose one leading `/`
  and go under `/images/`. A manifest that is not a non-empty array is
  replaced by three default names. A failed request gives a fixed six-entry
  list. Module `ImageList`, file `image_list.dfy`.
- **Theme controller** (`theme.js`). `setTheme` and `initTheme` change the
  document's `data-theme` attribute and the stored `theme` value. The class
  `ThemeController` does this in place. Each method is proved equal to a pure
  transition (`AfterSetTheme`, `AfterInitTheme`), and the lemmas are about
  those transitions. Module `Theme`, file `theme.dfy`.
- **Theme button** (`ThemeToggle`). It starts from the document attribute or
  the colour-scheme preference. Each click switches between dark and light and
  calls `setTheme`. Module `ThemeSwitch`, file `theme_toggle.dfy`.
- **OKLCH number inputs**. Each input stores
  `Math.max(lo, Math.min(hi, Number(v)))` with bounds `[0,100]`, `[0,1]` and
  `[0,360]`. A JavaScript number is modelled as a real, an infinity or NaN.
  Module `Oklch`, file `oklch.dfy`.

`wrappers.dfy` holds the `Option` type.

Modelling choices:

- Pixels are integers. `Math.round(a / b)` with `b >= 1` is `(2a + b) div 2b`.
  This is `floor(a/b + 1/2)`, and it rounds halves up for negative offsets
  too, as JavaScript's `Math.round` does.
- `slideW` is `el.clientWidth || window.innerWidth`. The divisor is
  `max(1, slideW)`, but the scroll target is `idx * slideW`, so a zero width
  scrolls to 0.
- Scroll position, element width, window width, storage failures and the
  colour-scheme preference are inputs. They are parameters or boolean flags.
- The derived current slide itself is not clamped; only the target index is
  (cra/src/App.js:125-127). An offset before the first slide or past the last
  derives an out-of-range slide, and a paging key then lands on that end.
- The keydown handler accepts an empty list and picks index 0
  (`Carousel.ClampIndex`).

## Model

| member | source | states |
|---|---|---|
| `Carousel.RoundDiv` | cra/src/App.js:125 | the result `r` is the nearest integer to `num/den`, with halves rounded up: `2r·den <= 2num + den < 2(r+1)·den` |
| `Carousel.SlideWidth` | cra/src/App.js:124 | the slide width is the element width unless that is 0, in which case it is the window width; it is 0 only when both are |
| `Carousel.Divisor` | cra/src/App.js:125 | the divisor is at least 1, and it equals the slide width whenever that width is at least 1 |
| `Carousel.CurrentSlide` | cra/src/App.js:125 | for a width of at least 1 the derived slide is the nearest whole number of widths to the offset, halves rounded up; for width 0 the divisor is 1 and the slide is the offset itself |
| `Carousel.ClampIndex` | cra/src/App.js:127 | for n >= 1 the index is in `[0, n-1]`: an in-range index is unchanged, a negative one goes to 0 and one at or past n goes to n-1 (no wrap-around); for n = 0 it is 0 |
| `Carousel.OnKey` | cra/src/App.js:122-128 | only ArrowRight and ArrowLeft are handled (no scroll otherwise); from a derived current slide `c` in range the key picks `c+1` (ArrowRight) or `c-1` (ArrowLeft), staying put at the last or first slide; from an offset before the first slide it picks 0 and past the last it picks n-1; the index is always in `[0, n-1]` and the target is that index times the slide width |
| `Carousel.CurrentSlideAtOffset` | cra/src/App.js:125 | an offset of exactly `i` slide widths derives slide `i` |
| `Carousel.CurrentSlideRoundsToNearest` | cra/src/App.js:125 | a manual scroll to 1.6 slide widths gives slide 2; 1.5 rounds up to 2; 1.4 gives 1 |
| `Carousel.PagingRoundTrip` | cra/src/App.js:124-128 | when the width is at least 1, the offset a paging key scrolls to derives back to the index it chose |
| `Carousel.ArrowRightFrom` | cra/src/App.js:125-128 | from any offset that derives slide `i`, whole or part of a swipe, ArrowRight goes to `i+1` and scrolls to `(i+1)·w`; on the last slide it stays put (no wrap-around) |
| `Carousel.ArrowLeftFrom` | cra/src/App.js:125-128 | from any offset that derives slide `i`, ArrowLeft goes to `i-1` and scrolls to `(i-1)·w`; on slide 0 it stays put (no wrap-around) |
| `Carousel.PagingFromPartialSwipe` | cra/src/App.js:125-128 | on four slides, from a swipe that stopped at 1.6 widths (slide 2) ArrowRight goes to slide 3 and ArrowLeft to slide 1 |
| `Carousel.SingleSlideNeverPages` | cra/src/App.js:127 | with one image, every paging key keeps slide 0 and scrolls to 0, whatever the offset |
| `Carousel.ThreeSlideWalk` | cra/src/App.js:122-128 | on three slides, right, right, right, left visits 1, 2, 2 and 1 |
| `Carousel.HintVisible` | cra/src/App.js:112-133 | the hint is visible after a sequence of events exactly when none of them was a scroll or a timeout |
| `Carousel.HintStaysHidden` | cra/src/App.js:121-133 | once the hint is hidden, no further events show it again |
| `Carousel.HorizontalGallery.constructor` | cra/src/App.js:110-112 | a fresh mount has an empty event history and the hint visible |
| `Carousel.HorizontalGallery.OnScroll` | cra/src/App.js:132 | a scroll event hides the hint and is added to the history |
| `Carousel.HorizontalGallery.OnTimeout` | cra/src/App.js:133 | the dwell timer firing hides the hint and is added to the history |
| `Carousel.HorizontalGallery.OnKeyDown` | cra/src/App.js:122-131 | a key press returns the handler's paging result and leaves the hint as it was |
| `ImageList.NormalizeName` | cra/src/App.js:169 | an `http` name is unchanged; any other name becomes `/images/` followed by the name with at most one leading `/` removed, and the slash is removed exactly when there was one |
| `ImageList.StripLeadingSlash` | cra/src/App.js:169 | the result is the name or the name without its first `/`, and it is the name unchanged exactly when the name does not start with `/` |
| `ImageList.NormalizeAll` | cra/src/App.js:169 | the map succeeds exactly when every element is a string; then the length is kept and each URL is that name normalised |
| `ImageList.ManifestNames` | cra/src/App.js:168 | the names used are never empty: the manifest when it is a non-empty array, otherwise the three default names |
| `ImageList.LoadImages` | cra/src/App.js:164-178 | whatever the request's outcome, the carousel receives a non-empty list |
| `ImageList.Normalized` | cra/src/App.js:166-171 | the success path also always yields a non-empty list |
| `ImageList.DefaultsWhenNoManifest` | cra/src/App.js:165-169 | a non-ok response, or JSON that is not a non-empty array, gives the three default images |
| `ImageList.DefaultNamesNormalized` | cra/src/App.js:168-169 | the three default names normalise to `/images/elephantdanielfirman.jpg`, `/images/hefti.webp`, `/images/fishman.jpg` |
| `ImageList.LocalNameNormalized` | cra/src/App.js:169 | a name that is not absolute and has no leading slash is just prefixed with `/images/` |
| `ImageList.FallbackOnFailure` | cra/src/App.js:164-178 | a failed request, or a body that is not JSON, gives the fixed six-entry list |
| `ImageList.ManifestUsed` | cra/src/App.js:168-169 | a non-empty manifest of strings is used, normalised name by name, with the same length |
| `ImageList.NonStringEntryFallsBack` | cra/src/App.js:169-178 | a manifest element that is not a string makes the map throw, and the six-entry list is shown |
| `ImageList.NormalizeNestsRoot` | cra/src/App.js:169 | normalising is not idempotent: `/images/a.jpg` becomes `/images/images/a.jpg` |
| `ImageList.HttpPrefixedLocalName` | cra/src/App.js:169 | a local file named `httpd.png` is kept bare, not put under `/images/` |
| `Theme.StoredFor` | cra/src/theme.js:15-21 | the value `setTheme` writes is always light, dark or system, and a mode that is already one of those is written as itself |
| `Theme.AfterSetTheme` | cra/src/theme.js:13-22 | the attribute is never set to anything but light or dark; after a successful write the attribute and the stored value agree (light/dark set explicitly, system with no attribute); a failed write leaves storage as it was |
| `Theme.AfterInitTheme` | cra/src/theme.js:2-11 | on a read error, a missing value or a value other than light, dark or system nothing changes; otherwise the stored value is kept and the attribute is brought into agreement with it, even when the rewrite fails |
| `Theme.SetThemeAttribute` | cra/src/theme.js:15-20 | the attribute becomes the mode exactly for light and dark, and is removed exactly for anything else |
| `Theme.SetThemeStored` | cra/src/theme.js:15-21 | a successful write stores the mode for light and dark and `system` otherwise, so the stored value is always one `initTheme` accepts; a failed write leaves storage unchanged |
| `Theme.WriteFailureKeepsAttribute` | cra/src/theme.js:16-21 | a storage failure is swallowed; the attribute update is the same as with a successful write |
| `Theme.SetThemeIdempotent` | cra/src/theme.js:13-22 | two calls with the same mode equal one call, and that call writes if either of the two did |
| `Theme.UnknownModeIsSystem` | cra/src/theme.js:18-21 | `system` and any invalid string have the same effect |
| `Theme.ReloadRestoresTheme` | cra/src/theme.js:2-22 | after a stored `setTheme(mode)`, a fresh document running `initTheme` gets the same attribute |
| `Theme.ThemeController.SetTheme` | cra/src/theme.js:13-22 | the new attribute and storage are `AfterSetTheme` of the old ones |
| `Theme.ThemeController.InitTheme` | cra/src/theme.js:2-11 | the new attribute and storage are `AfterInitTheme` of the old ones |
| `ThemeSwitch.NextMode` | cra/src/App.js:71 | a click always gives dark or light, and from dark or light it gives the other one |
| `ThemeSwitch.ToggleTwice` | cra/src/App.js:71 | toggling twice returns the original mode exactly when it was dark or light |
| `ThemeSwitch.InitialMode` | cra/src/App.js:60-68 | the button starts on dark or light: on the document attribute whenever that is dark or light, and otherwise on dark exactly when the colour-scheme preference is dark |
| `ThemeSwitch.ButtonStartsOnSavedMode` | cra/src/App.js:60-62 | after `initTheme` has read a saved light or dark, the button starts on that mode whatever the colour-scheme preference |
| `ThemeSwitch.ThemeToggle.constructor` | cra/src/App.js:59-68 | the button's mode is `InitialMode`, and it matches the document when the attribute is dark or light |
| `ThemeSwitch.ThemeToggle.Toggle` | cra/src/App.js:70-74 | a click switches the mode, applies `setTheme` to the new mode, and leaves the button and the document attribute in agreement |
| `Oklch.Clamp` | cra/src/App.js:253 | NaN in gives NaN out; any other number gives a finite value in `[lo, hi]`; a value already inside is kept; values below or above go to the nearer bound |
| `Oklch.Min` | cra/src/App.js:253 | `Math.min`: NaN exactly when an argument is NaN; otherwise one of the arguments and no greater than either |
| `Oklch.Max` | cra/src/App.js:253 | `Math.max`: NaN exactly when an argument is NaN; otherwise one of the arguments and no less than either |
| `Oklch.SetLightness` | cra/src/App.js:253 | the L input stores NaN exactly for NaN, otherwise a value in `[0,100]`; a value already in range is unchanged |
| `Oklch.SetChroma` | cra/src/App.js:261 | the C input stores NaN exactly for NaN, otherwise a value in `[0,1]`; a value already in range is unchanged |
| `Oklch.SetHue` | cra/src/App.js:268 | the h input stores NaN exactly for NaN, otherwise a value in `[0,360]`; a value already in range is unchanged |
| `Oklch.ClampIdempotent` | cra/src/App.js:253 | clamping twice is the same as clamping once |

## Left out

- Oklch.SetLightness, Oklch.SetChroma, Oklch.SetHue: the bounds hold only for inputs that are not NaN. `Math.min` and `Math.max` pass NaN through, so a NaN input would be stored. A number input's value is sanitised by the browser to a number string or the empty string (`Number("")` is 0), so NaN should not reach the clamp.
- The range sliders (cra/src/App.js:250-251, 258-259, 265-266) store `Number(value)` without clamping, because the browser constrains a range input's value. They are not modelled. The chroma slider stops at 0.4, while the number input accepts up to 1.
- Routing, page markup and styling (cra/src/App.js:6-16, 86-108, 141-157, 182-222, 242-305) are presentation only.
- The audio button (cra/src/App.js:18-57) is media I/O with an asynchronous `play()`.
- The `fetch` of `/images/images.json` and its `cancelled` flag (cra/src/App.js:160-180, 182) are network and lifecycle. The request's outcome is the input of `ImageList.LoadImages`. The loading placeholder is not modelled. The empty-list placeholder is unreachable once loading ends, because `LoadImages` is never empty.
- Registering and removing listeners, `setTimeout`/`clearTimeout`, and smooth versus instant `scrollTo` (cra/src/App.js:128-138) are browser plumbing. Scroll, timer and key events are method calls on `HorizontalGallery`. When a paging key's `scrollTo` moves the viewport, the browser fires a scroll event; the model treats that as a separate `OnScroll` call. The final offset is taken to be the target.
- Fractional scroll offsets and widths are not modelled, because pixels are integers. Double-precision rounding of numbers is not modelled, because a finite JavaScript number is a Dafny `real`.
- `matchMedia` and `CSS.supports` (cra/src/App.js:63-66, 113-116, 229-231) are environment queries. The colour-scheme preference is the `prefersDark` parameter. Reduced motion affects only the scroll animation, which is not modelled.
- The clipboard copy, the OKLCH colour string and the tint strip (cra/src/App.js:228-240) are cosmetic string building and a foreign call.
- The button glyph and label (cra/src/App.js:76-77) are presentation.
- app.js and cra/src/index.js only build and mount the React tree. index.js calls `initTheme` once before rendering, which is the situation `ThemeSwitch.ButtonStartsOnSavedMode` describes.
- The JSON manifest is modelled only as far as the list step distinguishes values: strings, arrays and everything else.
