# Infinite-loop camera: page control layer and video binder

This project models the logic core of a camera page. A live camera stream
is bound to one shared, muted video element. A scheduler tick composites
the current video frame onto a canvas: black background, optional
horizontal mirror, then a title and a two-line timestamp. The user can
toggle the mirror, pick another camera, and download the canvas as
`Download.png`.

The browser objects are abstracted:

- A stream is an identity plus its intrinsic frame size (`Media.Stream`).
- The video element is a class with its source, its can-play-through
  handler, its playing and muted flags, its display size and a log of what
  was done to it (`VideoHook.VideoElement`).
- The 2D context is a class with the canvas size, the fill style, the font
  and the ordered log of drawing calls (`Canvas.Context2D`). `Canvas.Replay`
  gives the meaning of save, restore, translate and scale in that log.
- React renders and effects become explicit method calls.
  - `VideoHook.VideoEffect.Render` runs the previous cleanup and then the
    new effect when the dependencies `[mediaStream, onPlay]` changed.
  - `CameraPage.Page.Commit` is what React runs after a render of the page.
  - The scheduler tick (`Page.RenderTick`) and the element's can-play-through
    event (`Page.CanPlayThrough`) are calls made by the environment.

Files:

- `media.dfy`: shared values.
- `video_hook.dfy`: src/hooks/useVideo.ts.
- `canvas.dfy`: the context and the transform semantics.
- `camera_page.dfy`: src/pages/index.tsx.

Modelling notes:

- The page's onPlay is an inline arrow function, so it is a new closure at
  every render. The video effect's dependencies therefore change at every
  render: every commit runs the pending cleanup (a pause), and every commit
  with a current camera binds that camera's stream again and installs a
  fresh handler. The model keeps this: `Callback(render)` numbers the closures, and
  `Closures.captured` holds the `context` each closure captured.
- Sizing is over `real` with exact division. JavaScript's non-finite
  results (a zero intrinsic width) are written out: `Infinity` and `NaN`,
  `Math.min` on them, and their conversion to 0 when assigned to a `width`
  or `height` attribute.
- `drawImage(video, 0, 0)` is recorded with the stream the element shows.
  A call with three arguments draws the frame at the video's intrinsic
  size, not at the canvas size; the drawn size is not modelled.
- Every commit with a current camera installs a fresh handler, as
  described above, so onPlay can run once per such render, not once per
  stream. A commit without a camera leaves the source and the earlier
  handler in place.
- Assigning `srcObject` runs the media element load algorithm, which
  pauses an element that is playing; `VideoEffect.Bind` records that pause.
- Assigning `canvas.width` or `canvas.height` resets the 2D context: the
  bitmap is cleared, the transform and the save stack are reset, and the
  fill style and font go back to their defaults. `Context2D.SetWidth` and
  `Context2D.SetHeight` record this as a `Reset` call.
- The onPlay closures live in a table (`CameraPage.Closures`) shared by
  successive pages, because a handler left on the module's element outlives
  the page that installed it.

## Model

| member | source | states |
|---|---|---|
| `VideoHook.VideoModule.Load` | src/hooks/useVideo.ts:6-15 | the element exists exactly when running in a browser; it is fresh, muted, paused, with no source, no handler and no history; `video` is a constant, so every render gets this one element |
| `VideoHook.VideoModule.DispatchCanPlayThrough` | src/hooks/useVideo.ts:35-42 | with a handler installed: the element plays, then the handler's onPlay (if any) is handed back to be called with the element; source, handler, muted flag and size are unchanged; without an element or a handler nothing happens |
| `VideoHook.VideoEffect.Bind` | src/hooks/useVideo.ts:24-42 | a cleanup is registered exactly when the element exists and the stream is defined; then a playing element is paused (the load that assigning the source runs), the source becomes the stream, the handler is replaced with one holding this onPlay, and the element is not playing; otherwise the element is untouched |
| `VideoHook.VideoEffect.Cleanup` | src/hooks/useVideo.ts:44-50 | pauses the element and changes nothing else; it does nothing without an element |
| `VideoHook.VideoEffect.Render` | src/hooks/useVideo.ts:20-53 | returns the one shared element on every call; with unchanged dependencies nothing happens; otherwise the pending cleanup runs before the effect, so the log gains the pause of the old source, then (for a defined stream) the load's pause if the element still played and the attach of the new stream; the handler becomes the new onPlay's, and a render without a stream keeps the old handler and source |
| `VideoHook.VideoEffect.Unmount` | src/hooks/useVideo.ts:44-50 | the pending cleanup runs (a pause of the current source) and none remains; source, handler, muted flag and size are unchanged |
| `VideoHook.VideoEffect.constructor` | src/hooks/useVideo.ts:20-24 | a new call site starts with no dependencies and no pending cleanup over the module's element, which an earlier, cleaned-up call site may have used |
| `VideoHook.PausedBetweenAttaches` | src/hooks/useVideo.ts:44-51 | in any history that the cleanup-then-bind discipline produces, the element was paused between any two attaches, while it still held the earlier stream |
| `VideoHook.NotPlayingAtAttach` | src/hooks/useVideo.ts:29-33 | in any disciplined history the element is not playing at the moment a stream is attached |
| `VideoHook.PlaysOnlyLatest` | src/hooks/useVideo.ts:35-42 | in any disciplined history every play between an attach and the next one plays the stream attached, so the old and the new stream never play at once |
| `VideoHook.LastAttached` | src/hooks/useVideo.ts:33 | the source recorded is a stream that was attached, and no source means nothing was ever attached |
| `VideoHook.RebindScenario` | src/hooks/useVideo.ts:33-51 | binding A, playing it, then rendering with B yields exactly attach A, play A, pause A, attach B, and the installed handler holds B's onPlay |
| `VideoHook.StaleHandlerScenario` | src/hooks/useVideo.ts:29-42 | after a render without a stream, the previous handler stays installed and a can-play-through calls the superseded onPlay and plays the old stream; binding the next stream pauses it before the attach, and the element is then not playing |
| `VideoHook.NoBrowserScenario` | src/hooks/useVideo.ts:25-27 | outside a browser the hook returns null, registers no cleanup, and a dispatch calls no onPlay |
| `CameraPage.CurrentCamera` | src/pages/index.tsx:32-35 | the current camera is `cameras[i]` exactly when `0 <= i < |cameras|`, and undefined otherwise |
| `CameraPage.Page.FlipEffect` | src/pages/index.tsx:100-107 | with a current camera the flip becomes `type != "Back"`; without one the flip is unchanged |
| `CameraPage.Page.Commit` | src/pages/index.tsx:37-107 | the flip is derived again exactly when the current camera changed since the last commit, and is kept otherwise; a cleanup is pending afterwards exactly when there is an element and a current camera; the element's history gains the pending cleanup's pause, then, with a camera, the load's pause if it still played and the attach of the camera's stream, with this render's onPlay installed, which captured the current context; without a camera the source and the earlier handler stay; the element plays afterwards only if it played, no cleanup was pending and there is no camera; muted flag and size are unchanged |
| `CameraPage.Page.Unmount` | src/hooks/useVideo.ts:44-51 | removing the page runs the pending cleanup (a pause) and leaves the element's source, handler, muted flag and size in place, in a state over which a new page can be built |
| `CameraPage.Page.constructor` | src/pages/index.tsx:26-35 | the flip starts false (`useState(false)`), the cameras, index and context are the collaborators', nothing has been committed or downloaded, and the page shares the module's element and the closure table |
| `CameraPage.RemountScenario` | src/pages/index.tsx:37-49 | after a page is unmounted and a new one mounted, a can-play-through before the new page commits runs the old page's onPlay: the old context becomes 768×768 and the new context keeps its 300×150 size |
| `CameraPage.Page.HandleFlipCamera` | src/pages/index.tsx:109-111 | the flip is negated and nothing else changes |
| `CameraPage.Page.HandleSelectCamera` | src/pages/index.tsx:121-123 | the index is handed to the device collaborator and nothing else changes |
| `CameraPage.FlipScenario` | src/pages/index.tsx:100-111 | Front camera: flip true; toggle: false; a render that keeps the camera keeps false; switch to a Back camera: false |
| `CameraPage.OverrideClearedScenario` | src/pages/index.tsx:100-111 | a toggle made on a Back camera (true) is overwritten by the next camera change (false) |
| `CameraPage.PlaySizing` | src/pages/index.tsx:42-48 | the video width becomes 1024; the video height keeps the stream's aspect ratio; the canvas side is the smaller of the two, so the square fits inside the scaled video; with a zero intrinsic width the JavaScript non-finite results become 0 (or 1024 for the canvas when the height is positive) |
| `CameraPage.PlaySizingExample` | src/pages/index.tsx:42-48 | a 2048×1536 stream gives a 1024×768 video and a 768×768 canvas |
| `CameraPage.OnPlay` | src/pages/index.tsx:37-49 | with a null captured context nothing changes; otherwise the video's display size and the canvas size are set from `PlaySizing` of the intrinsic size, and each of the two canvas assignments resets the context (two `Reset` calls, default fill style and font) |
| `Canvas.Context2D.SetWidth` | src/pages/index.tsx:46 | assigning the canvas width sets it, keeps the height, and resets the context: a `Reset` call, the default fill style and the default font |
| `Canvas.Context2D.SetHeight` | src/pages/index.tsx:47 | assigning the canvas height sets it, keeps the width, and resets the context in the same way |
| `Canvas.ResetForgetsHistory` | src/pages/index.tsx:46-47 | after a reset, the transform state no longer depends on the calls made before it: they replay from the initial state |
| `CameraPage.Page.CanPlayThrough` | src/pages/index.tsx:37-49 | without an element or a handler nothing changes; with a handler the element plays (source and handler kept) and the onPlay it holds runs: with a null captured context the video size is kept, otherwise the video and that context are sized by `PlaySizing` and the context is reset; every other captured context is unchanged |
| `CameraPage.SizingScenario` | src/pages/index.tsx:37-49 | a page with one 2048×1536 camera shows the video at height 768 and a 768×768 canvas once the element can play through |
| `CameraPage.TickOps` | src/pages/index.tsx:51-58 | a tick emits no canvas call exactly when the context is null or there is no video element; otherwise it emits one whole frame |
| `CameraPage.TickOpsAsWritten` | src/pages/index.tsx:51-98 | the tick as written emits nothing exactly when the context is null or the element is `undefined`, a value useVideo never returns |
| `CameraPage.Page.RenderTick` | src/pages/index.tsx:51-98 | the context's log grows by exactly `TickOps` of the current context, element, canvas size and flip; the canvas size is unchanged; a tick without an element leaves the context untouched |
| `CameraPage.DrawFrame` | src/pages/index.tsx:60-97 | drawing a frame appends exactly the frame's calls and leaves the fill style white and the title font set |
| `CameraPage.DrawVideoLayer` | src/pages/index.tsx:60-73 | appends the black fill, save, the mirror when flipped, the video draw, and restore |
| `CameraPage.DrawOverlay` | src/pages/index.tsx:75-97 | appends the title and the two timestamp lines in white in the title font |
| `CameraPage.FrameOrder` | src/pages/index.tsx:60-97 | the first call is a black `fillRect(0,0,w,h)`; `save` comes before `drawImage(video,0,0)` and `restore` right after it; `translate(w,0)` and `scale(-1,1)` appear, between them, exactly when flipped; every `fillText` comes after `restore`; the date and time lines are at x = 20, y = h−80 and h−40 |
| `CameraPage.FrameTransforms` | src/pages/index.tsx:65-73 | the video is drawn mirrored exactly when the flip is on; all text is drawn in the transform the frame started with; a frame leaves the transform state as it found it, so mirroring never accumulates over ticks |
| `CameraPage.MirrorReflects` | src/pages/index.tsx:67-70 | translate by the width then scale x by −1 maps x to width − x |
| `CameraPage.NullSinkSlipsThroughGuard` | src/pages/index.tsx:56-58 | with a context and a null element, the tick as written draws a partial frame and leaves a save without a restore, with the mirror still in effect; the guarded tick draws nothing |
| `CameraPage.GuardsAgreeOtherwise` | src/pages/index.tsx:51-58 | for every element value other than null, the written guard and the corrected guard emit the same calls |
| `CameraPage.Page.HandleCaptureCamera` | src/pages/index.tsx:113-119 | with a null context there is no download; otherwise exactly one download is triggered, named `Download.png`, whose href is the rewritten data URL |
| `CameraPage.DownloadCanvas` | src/pages/index.tsx:12-24 | the clicked link carries the file name and the rewritten href, and the PNG data URL can be recovered from that href |
| `CameraPage.DownloadHref` | src/pages/index.tsx:18-21 | a data URL that starts with `data:image/png` gets `data:application/octet-stream` in place of that prefix and keeps the rest; any other URL is unchanged (its round trip and idempotence are the two lemmas below) |
| `CameraPage.DownloadHrefRoundTrip` | src/pages/index.tsx:18-21 | replacing a leading `data:image/png` with `data:application/octet-stream` keeps the rest of the URL: putting the PNG media type back returns the original data URL |
| `CameraPage.DownloadHrefIdempotent` | src/pages/index.tsx:18-21 | the rewritten URL either has no PNG prefix or is the input unchanged, so rewriting twice is the same as rewriting once |
| `CameraPage.Decimal` | src/pages/index.tsx:130 | the rendered number is a non-empty string of decimal digits that starts with `0` only for zero, as JavaScript writes numbers |
| `CameraPage.DecimalRoundTrip` | src/pages/index.tsx:130 | the digits rendered for a number read back as that number |
| `CameraPage.CameraLabelRoundTrip` | src/pages/index.tsx:130 | the label `Camera <i+1> (Type: <type>)` names its camera: its number is exactly the decimal digits of `i + 1`, reads back as `i`, and its type part reads back as the camera's type |
| `CameraPage.CameraNames` | src/pages/index.tsx:129-131 | there is one label per camera; the label at index `i` starts with `Camera ` followed by exactly the digits of `i + 1` (no leading zero), reads back as index `i`, and reads back as the type of camera `i` |
| `CameraPage.CameraNamesDistinct` | src/pages/index.tsx:129-131 | no two cameras get the same label |
| `Canvas.ReplayAppend` | src/pages/index.tsx:65-73 | replaying two runs of canvas calls one after the other is replaying their concatenation (used to prove that a reset forgets the history) |

## Findings

| source | as written | input that shows it | evidently intended | confidence | as-written member | corrected member |
|---|---|---|---|---|---|---|
| src/pages/index.tsx:56-58 | the tick skips drawing when `typeof video === "undefined"`, but `useVideo` returns the element or `null`, never `undefined`, so the guard never fires | a non-null context and a null element (the hook's module evaluated outside a browser): `drawImage(null, 0, 0)` throws after the black fill, the save and the mirror, leaving the save unmatched and the mirror in effect | skip the tick when there is no element, so a tick never draws part of a frame | high that the guard never fires; low that a null element meets a non-null context in a browser; not executed | `CameraPage.NullSinkSlipsThroughGuard` | `CameraPage.TickOps` |

## Left out

- JSX rendering, the `Container` styling and the `Video` and `Controls` templates: user interface only.
- The `useCamera`, `useCanvas` and `useAnimation` hooks are not part of this model. Their outputs are inputs here: the camera list, the index, the context, and a tick as a method call. The 15 ms cadence is not modelled.
- `getTimeStrings` and `getTime` are not part of this model. The formatted time strings are an input (`TimeStrings`).
- The title font size (`16 / titleWidth * width * 0.4`) and `measureText` are left out: font metrics and floating point. The title's measured width is an input, and the fonts are three named values.
- `toDataURL` PNG encoding, `document.createElement("a")` and `link.click()` are browser I/O. The data URL is an input, the link is a value, and a click appends it to `Page.downloads`.
- The pixels that `drawImage` draws, and the size it draws them at, are left out.
- The promise that `video.play()` returns is left out. Play sets `playing`.
- `isBrowser` is a parameter of `VideoModule.Load`. `dLog` (logging) is left out.
- Timing races between ticks and can-play-through events are left out: the model fixes the order by explicit calls. The model lets the can-play-through event fire whenever a handler is installed, which is more often than a browser fires it; the load's pause in `VideoEffect.Bind` keeps the old and the new stream from playing at once even then.
- CameraPage.PlaySizing: assigning to `width` and `height` converts a finite value to an unsigned integer (truncation and wrap-around). This is not modelled: finite results stay exact reals. Only non-finite results becoming 0 is modelled.
- `restore` also restores the fill style and font. The model records the style in effect with each drawing call and does not restore it. The page never changes the style between its `save` and `restore`, so nothing observable is lost.
- The bitmap that a canvas reset clears is not modelled beyond the `Reset` call in the log.
- The media element load algorithm is modelled only by its pause of a playing element; its events, ready states and rejected play promises are left out.
- React compares the current camera by object identity. The model compares camera values, and each camera has its own stream.
- A handler reads `flipCamera` as of its render. The model applies each handler to the current state, one handler between commits.
- The discipline invariant (`VideoEffect.Valid`) assumes one `useVideo` call site at a time per element, as in the page; successive pages over the same element are modelled, two pages mounted at once are not.
