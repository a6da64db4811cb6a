# SelfieSelfie capture guard and about overlay, in Dafny

This project models two small state machines of the SelfieSelfie app.

- `selfie_app.dfy`, module `Selfie`, models the photo capture in `SelfieSelfieApp`.
  A touch begins and its id is tracked. If the same touch ends in under 160 ms, a save
  request (`doSaveImage`) is latched. The next frame with no save in flight consumes the
  request and puts one pending save in `saveActions`. The background save's completion
  (`saveComplete`) empties the list again. The module also has the screen-size bucket
  (`determineSizeIndicator`) and the lazy creation of the experience in `showLandscape`.
- `about_page.dfy`, module `About`, models `AboutPage`. The overlay switches between a
  collapsed tab (`showIcon`) and an expanded description (`showAbout`). `show` and `hide`
  set the visibility flag that gates `draw`, and both reset the overlay to the tab.

Each module has three layers:

- Pure functions (`AfterTouchesEnded`, `AfterShowAbout`, …) give the state after one handler.
- `Run` and `ApplyAll` feed a whole sequence of events through those functions. The
  lemmas about sequences use them.
- The classes `SelfieSelfieApp` and `AboutPage` hold the same state in fields. Their
  methods update those fields in place, and each method is proved to end in the state
  that the matching function computes.

In `About`, the touch areas (`TouchArea`) and images (`Image`) are objects of their own.
The page calls `SetEnabled` and `SetAlpha` on them, as the source does.

The touch timer's reading is passed in as whole milliseconds (`elapsedMs`). A touch counts
as a tap when `elapsedMs < 160`, so a touch of exactly 160 ms is not a tap. The window
size for the size bucket is passed in as pixel width and height.

Behaviour of the code that the model keeps:

- The save request is latched. A tap that ends while a save is in flight sets
  `doSaveImage`, and the guard at SelfieSelfieApp.cpp:159 leaves it set until a frame
  finds `saveActions` empty; that is the first frame after `saveComplete`
  (`NoSecondSaveWhilePending`, `LatchedRequestFiresAfterCompletion`).
- The render and the hand-off to the background save both happen inside one `draw`, so
  the only capture state is whether `saveActions` is empty.
- `touchId` starts at 0 (SelfieSelfieApp.cpp:56), and `touchesEnded` compares the event's
  last id with it (SelfieSelfieApp.cpp:80). A touch end with id 0 and no earlier touch
  begin therefore matches.

## Model

| member | source | states |
|---|---|---|
| `Selfie.AfterTouchesBegan` | SelfieSelfie/src/SelfieSelfieApp.cpp:72-76 | the tracked id becomes the id of the event's last touch; the request and the pending saves are unchanged |
| `Selfie.AfterTouchesEnded` | SelfieSelfie/src/SelfieSelfieApp.cpp:78-87 | the request is raised after the call iff it was already raised, or the last touch's id matches the tracked id and it lasted under 160 ms; a mismatched id or a touch of 160 ms or more changes nothing; a raised request is never cleared here |
| `Selfie.AfterDraw` | SelfieSelfie/src/SelfieSelfieApp.cpp:159-176 | with a request raised and no save in flight, the frame clears the request and leaves exactly one pending save; with a save in flight, or no request, nothing changes, so a request stays latched |
| `Selfie.AfterSaveComplete` | SelfieSelfie/src/SelfieSelfieApp.cpp:188-191 | no save is in flight afterwards; the tracked id and the request are unchanged |
| `Selfie.RunKeepsAtMostOneSave` | SelfieSelfie/src/SelfieSelfieApp.cpp:159-191 | over any sequence of touch begins, touch ends, frames and completions, at most one save is in flight |
| `Selfie.NoSecondSaveWhilePending` | SelfieSelfie/src/SelfieSelfieApp.cpp:159-176 | until a completion arrives, events leave the pending saves unchanged, and a raised request stays raised |
| `Selfie.TouchesKeepRequest` | SelfieSelfie/src/SelfieSelfieApp.cpp:72-87 | any sequence of touch begins and ends leaves the pending saves unchanged and never lowers a raised request |
| `Selfie.LatchedRequestFiresAfterCompletion` | SelfieSelfie/src/SelfieSelfieApp.cpp:159-191 | a request raised while a save is in flight survives any events before the completion and any touch events after it; the first frame after the completion starts exactly one new save and clears the request |
| `Selfie.TapCaptureLifecycle` | SelfieSelfie/src/SelfieSelfieApp.cpp:72-191 | on an app with no save in flight, a touch that begins and ends within 160 ms, then one frame, leaves exactly one pending save and no request; after the completion, no save is in flight |
| `Selfie.SizeIndicatorFor` | SelfieSelfie/src/SelfieSelfieApp.cpp:121-129 | the bucket is always one of "xhdpi", "xxhdpi", "xxxhdpi"; it is "xhdpi" iff the long side is at most 1280, "xxhdpi" iff it is in 1281..1920, and "xxxhdpi" iff it is above 1920 |
| `Selfie.SizeIndicatorMonotone` | SelfieSelfie/src/SelfieSelfieApp.cpp:121-129 | a longer screen side never gets a lower-density bucket |
| `Selfie.SelfieSelfieApp.constructor` | SelfieSelfie/src/SelfieSelfieApp.cpp:53-58 | a new app has tracked id 0, no request, no pending saves, the "xhdpi" bucket and no experience; at most one save is in flight and the bucket is one of the three, and every method keeps both |
| `Selfie.SelfieSelfieApp.TouchesBegan` | SelfieSelfie/src/SelfieSelfieApp.cpp:72-76 | updates the tracked id in place to the state `AfterTouchesBegan` gives |
| `Selfie.SelfieSelfieApp.TouchesEnded` | SelfieSelfie/src/SelfieSelfieApp.cpp:78-87 | updates the request in place to the state `AfterTouchesEnded` gives |
| `Selfie.SelfieSelfieApp.Draw` | SelfieSelfie/src/SelfieSelfieApp.cpp:159-176 | runs the save guard in place, ending in the state `AfterDraw` gives and keeping at most one save in flight; the save branch requires the experience to exist, because it is dereferenced without a check |
| `Selfie.SelfieSelfieApp.SaveComplete` | SelfieSelfie/src/SelfieSelfieApp.cpp:188-191 | empties the pending saves in place |
| `Selfie.SelfieSelfieApp.DetermineSizeIndicator` | SelfieSelfie/src/SelfieSelfieApp.cpp:117-132 | sets the bucket to `SizeIndicatorFor` of the longer of the two window sides, so it stays one of the three buckets |
| `Selfie.SelfieSelfieApp.ShowLandscape` | SelfieSelfie/src/SelfieSelfieApp.cpp:193-200 | afterwards the experience exists and shows the landscape; an existing experience is kept, and a missing one is created with the path "img/" + bucket |
| `About.AfterShowAbout` | SelfieSelfie/src/AboutPage.cpp:71-79 | the open area is disabled, the close and link areas are enabled, the icon alpha is 0 and the description alpha is 1; visibility is unchanged |
| `About.AfterShowIcon` | SelfieSelfie/src/AboutPage.cpp:81-89 | the open area is enabled, the close and link areas are disabled, the icon alpha is 1 and the description alpha is 0; visibility is unchanged |
| `About.AfterShow` | SelfieSelfie/src/AboutPage.cpp:48-52 | from any state, the page is visible and in the collapsed configuration |
| `About.AfterHide` | SelfieSelfie/src/AboutPage.cpp:54-58 | from any state, the page is hidden and in the collapsed configuration |
| `About.ApplyAllKeepsButtonsExclusive` | SelfieSelfie/src/AboutPage.cpp:48-94 | after any sequence of show, hide, showAbout, showIcon and openLink calls, the open area is enabled iff close is disabled iff link is disabled, so open and close are never both enabled |
| `About.ApplyAllVisibility` | SelfieSelfie/src/AboutPage.cpp:48-94 | calls other than show and hide never change visibility |
| `About.LastShowOrHideDecidesVisibility` | SelfieSelfie/src/AboutPage.cpp:48-58 | after a show followed by calls with no show or hide, the page is visible; after a hide followed by such calls, it is hidden |
| `About.ShowAboutIdempotent` | SelfieSelfie/src/AboutPage.cpp:71-79 | calling showAbout n ≥ 1 times gives the same state as calling it once |
| `About.ShowIconIdempotent` | SelfieSelfie/src/AboutPage.cpp:81-89 | calling showIcon n ≥ 1 times gives the same state as calling it once |
| `About.AboutPage.Setup` | SelfieSelfie/src/AboutPage.cpp:15-40 | after setup the close and link areas are disabled and the description alpha is 0; the open area is enabled and the icon alpha is 1, so the page starts collapsed and keeps the exclusivity invariant |
| `About.AboutPage.ShowAbout` | SelfieSelfie/src/AboutPage.cpp:71-79 | sets the three areas and two images in place to the state `AfterShowAbout` gives |
| `About.AboutPage.ShowIcon` | SelfieSelfie/src/AboutPage.cpp:81-89 | sets the three areas and two images in place to the state `AfterShowIcon` gives |
| `About.AboutPage.Show` | SelfieSelfie/src/AboutPage.cpp:48-52 | sets visibility and then collapses, ending in the state `AfterShow` gives |
| `About.AboutPage.Hide` | SelfieSelfie/src/AboutPage.cpp:54-58 | clears visibility and then collapses, ending in the state `AfterHide` gives |
| `About.AboutPage.Draw` | SelfieSelfie/src/AboutPage.cpp:60-69 | draws nothing while hidden; while visible, draws the icon and then the description, each at its current alpha; no state changes |
| `About.AboutPage.OpenLink` | SelfieSelfie/src/AboutPage.cpp:91-94 | hands "http://sosolimited.com/?referrer=selfieselfie" to the browser and changes no flag, alpha or visibility |

## Left out

- Rendering: the frame buffer, `gl::clear`, the experience's own drawing, texture readback and `createSource`. `SelfieExperience.DrawScene` stands for the render only so that the save branch dereferences the experience.
- Threads and the photo album: `std::async`, `writeToSavedPhotosAlbum` and `dispatchAsync`. A pending save is the token `PendingSave`, and its completion is the explicit `SaveComplete` event.
- `Selfie.SelfieSelfieApp.TouchesEnded`: the timer's float seconds are abstracted to whole milliseconds with a strict `< 160` threshold. The float comparison itself is not modelled.
- `Selfie.SelfieSelfieApp.DetermineSizeIndicator`: `toPixels` is not modelled. The window size comes in pixels, which gives the same long side because the scaling is monotone.
- `setup`, `update` and the posted creation of the experience, the focus callbacks, `IntroSequence`, and the internals of `SelfieExperience`. These are event-loop plumbing and classes that are not part of this model. A `SelfieExperience` keeps only its image path and a landscape flag.
- `About.AboutPage.Setup`: image loading, positions, the scaled touch rectangles, tint and backing colours are not modelled. The initial value of `visible` is declared in AboutPage.h, which is not part of this model, so it is a parameter. A new touch area is taken to start enabled and a new image to start at alpha 1; both defaults live in classes that are not part of this model.
- Hit-testing of `TouchArea`: its class is not part of this model. Only the enabled flags are modelled.
- `AboutPage::update`: the timeline step and its timer are animation.
- `About.AboutPage.OpenLink`: launching the browser is an external call. The method returns the address it would open.
- Logging.
