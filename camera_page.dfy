/** Model of the camera page (src/pages/index.tsx): which camera is current,
    the flip flag it derives and the user's toggle, the sizing done when the
    video starts playing, the frame drawn at every scheduler tick, the
    capture download and the camera labels.

    React's renders and effects are explicit calls: `Page.Commit` is what
    React runs after a render, handlers are methods, and the scheduler tick
    and the video's can-play-through event are methods the environment
    calls. */
module CameraPage {
  import opened Media
  import opened VideoHook
  import opened Canvas

  // ---------------------------------------------------------------------
  // Camera selection and flip policy

  /** `currentCameraIndex < cameras.length ? cameras[currentCameraIndex]
      : undefined`; a negative index reads `undefined` from the array. */
  function CurrentCamera(cameras: seq<Camera>, index: int): (camera: Option<Camera>)
    ensures camera.Some? <==> 0 <= index < |cameras|
    ensures camera.Some? ==> camera.value == cameras[index]
  {
    if index < |cameras| then
      if 0 <= index then Some(cameras[index]) else None
    else None
  }

  /** `currentCamera?.mediaStream` */
  function StreamOf(camera: Option<Camera>): Option<Stream>
  {
    if camera.Some? then Some(camera.value.mediaStream) else None
  }

  /** The flip a camera gets when it becomes current: mirrored unless it
      faces back. */
  function DerivedFlip(camera: Camera): bool
  {
    camera.kind != "Back"
  }

  // ---------------------------------------------------------------------
  // Sizing when playback starts

  /** A JavaScript number as far as the sizing needs one. */
  datatype JsNumber = Finite(value: real) | Infinity(negative: bool) | NaN

  /** JavaScript's `/`. */
  function Divide(n: real, d: real): JsNumber
  {
    if d != 0.0 then Finite(n / d)
    else if n > 0.0 then Infinity(false)
    else if n < 0.0 then Infinity(true)
    else NaN
  }

  /** `Math.min(a, x)` for a finite `a`. */
  function MinWith(a: real, x: JsNumber): JsNumber
  {
    match x
      case Finite(v) => Finite(if v < a then v else a)
      case Infinity(negative) => if negative then x else Finite(a)
      case NaN => NaN
  }

  /** Assigning a number to a `width` or `height` attribute: a value that
      is not finite becomes 0. */
  function ToDimension(x: JsNumber): real
  {
    if x.Finite? then x.value else 0.0
  }

  const TargetWidth: real := 1024.0

  /** The video's display size and the side of the square canvas. */
  datatype Sizing = Sizing(videoWidth: real, videoHeight: real, canvasSide: real)

  /** The onPlay arithmetic: the video is scaled to width 1024 keeping its
      aspect ratio, and the canvas is the square of the smaller side. */
  function PlaySizing(intrinsicWidth: nat, intrinsicHeight: nat): (s: Sizing)
    ensures s.videoWidth == TargetWidth
    ensures intrinsicWidth > 0 ==>
      s.videoHeight * (intrinsicWidth as real) == (intrinsicHeight as real) * TargetWidth
    ensures intrinsicWidth > 0 ==>
      && s.canvasSide <= s.videoWidth && s.canvasSide <= s.videoHeight
      && (s.canvasSide == s.videoWidth || s.canvasSide == s.videoHeight)
    ensures intrinsicWidth == 0 ==>
      s.videoHeight == 0.0 && s.canvasSide == (if intrinsicHeight > 0 then TargetWidth else 0.0)
  {
    var height := Divide(intrinsicHeight as real, intrinsicWidth as real / TargetWidth);
    var side := MinWith(TargetWidth, height);
    assert intrinsicWidth > 0 ==>
      height.value * (intrinsicWidth as real / TargetWidth) == intrinsicHeight as real;
    Sizing(TargetWidth, ToDimension(height), ToDimension(side))
  }

  lemma PlaySizingExample()
    ensures PlaySizing(2048, 1536) == Sizing(1024.0, 768.0, 768.0)
  {
  }

  /** The onPlay closure of one render, which captured that render's
      `context`: without a context it does nothing; otherwise it sizes the
      video and the canvas from the video's intrinsic size. Each of the two
      canvas assignments resets the context. */
  method OnPlay(captured: Context2D?, video: VideoElement)
    modifies video`width, video`height, captured
    ensures captured == null ==> video.width == old(video.width) && video.height == old(video.height)
    ensures captured != null ==>
      var s := PlaySizing(video.VideoWidth(), video.VideoHeight());
      && video.width == s.videoWidth && video.height == s.videoHeight
      && captured.canvasWidth == s.canvasSide && captured.canvasHeight == s.canvasSide
      && captured.ops == old(captured.ops) + [Reset, Reset]
      && captured.fillStyle == DefaultFillStyle && captured.font == DefaultFont
  {
    if captured == null {
      return;
    }
    var s := PlaySizing(video.VideoWidth(), video.VideoHeight());
    video.width := s.videoWidth;
    video.height := s.videoHeight;
    captured.SetWidth(s.canvasSide);
    captured.SetHeight(s.canvasSide);
  }

  // ---------------------------------------------------------------------
  // The frame drawn at each tick

  const Black: string := "#000000"
  const White: string := "white"
  const Title: string := "\U{221E} Infinite loop coding"

  /** The display strings of the time-formatting collaborator. */
  datatype TimeStrings = TimeStrings(
    year: string, month: string, monthDay: string, weekDay: string,
    hour: string, minute: string, ampm: string)

  function DateLine(t: TimeStrings): string
  {
    t.year + "." + t.month + "." + t.monthDay + " (" + t.weekDay + ")"
  }

  function TimeLine(t: TimeStrings): string
  {
    t.hour + ":" + t.minute + " " + t.ampm
  }

  function MirrorOps(width: real, flip: bool): seq<CanvasOp>
  {
    if flip then [Translate(width, 0.0), Scale(-1.0, 1.0)] else []
  }

  /** The background, then the video frame between a save and a restore,
      mirrored when `flip` holds. */
  function VideoLayerOps(width: real, height: real, flip: bool, source: Option<Stream>): seq<CanvasOp>
  {
    [FillRect(0.0, 0.0, width, height, Black), Save]
    + MirrorOps(width, flip)
    + [DrawImage(source, 0.0, 0.0), Restore]
  }

  /** The title at the top right, then the date and the time at the bottom
      left. `titleWidth` is the title's measured width in the title font. */
  function OverlayOps(width: real, height: real, titleWidth: real, now: TimeStrings): seq<CanvasOp>
  {
    [FillText(Title, width - titleWidth - 20.0, 50.0, White, GaeguTitle),
     FillText(DateLine(now), 20.0, height - 80.0, White, GaeguTitle),
     FillText(TimeLine(now), 20.0, height - 40.0, White, GaeguTitle)]
  }

  /** The calls of one complete frame. */
  function FrameOps(width: real, height: real, flip: bool, source: Option<Stream>,
                    titleWidth: real, now: TimeStrings): seq<CanvasOp>
  {
    VideoLayerOps(width, height, flip, source) + OverlayOps(width, height, titleWidth, now)
  }

  /** Where the video is drawn in a frame. */
  function DrawIndex(flip: bool): nat
  {
    if flip then 4 else 2
  }

  lemma FrameOrder(width: real, height: real, flip: bool, source: Option<Stream>,
                   titleWidth: real, now: TimeStrings)
    ensures var ops := FrameOps(width, height, flip, source, titleWidth, now);
      var d := DrawIndex(flip);
      && |ops| == d + 5
      && ops[0] == FillRect(0.0, 0.0, width, height, Black)
      && ops[1] == Save && ops[d] == DrawImage(source, 0.0, 0.0) && ops[d + 1] == Restore
      && (flip ==> ops[2] == Translate(width, 0.0) && ops[3] == Scale(-1.0, 1.0))
      && (forall i | 0 <= i < |ops| :: ops[i].Translate? || ops[i].Scale? ==> flip && 1 < i < d)
      && (forall i | 0 <= i < |ops| :: ops[i].FillText? <==> d + 1 < i)
      && ops[d + 3] == FillText(DateLine(now), 20.0, height - 80.0, White, GaeguTitle)
      && ops[d + 4] == FillText(TimeLine(now), 20.0, height - 40.0, White, GaeguTitle)
  {
  }

  /** The transform `t` followed by the page's mirror: translate by the
      width, then scale x by -1. */
  function Mirrored(t: Affine, width: real): Affine
  {
    Affine(-t.sx, t.sy, t.sx * width + t.tx, t.ty)
  }

  lemma MirrorReflects(width: real, x: real, y: real)
    ensures Apply(Mirrored(Identity, width), x, y) == (width - x, y)
  {
    assert Mirrored(Identity, width) == Affine(-1.0, 1.0, width, 0.0);
  }

  /** What a frame means for the transform state: the video is drawn
      mirrored exactly when `flip` holds, the text is drawn in the transform
      the frame started with, and the frame leaves the transform state as it
      found it, so flips never accumulate from one tick to the next. */
  lemma {:induction false} FrameTransforms(width: real, height: real, flip: bool, source: Option<Stream>,
                                           titleWidth: real, now: TimeStrings, st: DrawState)
    ensures var ops := FrameOps(width, height, flip, source, titleWidth, now);
      && TransformAt(ops, DrawIndex(flip), st) == (if flip then Mirrored(st.current, width) else st.current)
      && (forall i | 0 <= i < |ops| && ops[i].FillText? :: TransformAt(ops, i, st) == st.current)
      && Replay(ops, st) == st
  {
    var ops := FrameOps(width, height, flip, source, titleWidth, now);
    var d := DrawIndex(flip);
    FrameOrder(width, height, flip, source, titleWidth, now);
    var t := st.current;
    var saved := DrawState(t, st.saved + [t]);
    var drawn := if flip then DrawState(Mirrored(t, width), st.saved + [t]) else saved;
    assert ops[..0] == [];
    assert ops[..1][..0] == ops[..0];
    assert Replay(ops[..1], st) == st;
    assert ops[..2][..1] == ops[..1];
    assert Replay(ops[..2], st) == saved;
    if flip {
      assert ops[..3][..2] == ops[..2];
      assert Replay(ops[..3], st) == DrawState(Affine(t.sx, t.sy, t.sx * width + t.tx, t.sy * 0.0 + t.ty), st.saved + [t]);
      assert ops[..4][..3] == ops[..3];
      assert Replay(ops[..4], st) == drawn;
    }
    assert Replay(ops[..d], st) == drawn;
    assert ops[..d + 1][..d] == ops[..d];
    assert Replay(ops[..d + 1], st) == drawn;
    assert ops[..d + 2][..d + 1] == ops[..d + 1];
    assert Replay(ops[..d + 2], st) == st;
    assert ops[..d + 3][..d + 2] == ops[..d + 2];
    assert Replay(ops[..d + 3], st) == st;
    assert ops[..d + 4][..d + 3] == ops[..d + 3];
    assert Replay(ops[..d + 4], st) == st;
    assert ops[..d + 5][..d + 4] == ops[..d + 4];
    assert ops[..d + 5] == ops;
  }

  /** The steps of a tick once both guards have passed: the frame is drawn
      in the canvas's current size. */
  method DrawFrame(ctx: Context2D, flip: bool, source: Option<Stream>, titleWidth: real, now: TimeStrings)
    modifies ctx`ops, ctx`fillStyle, ctx`font
    ensures ctx.ops == old(ctx.ops) + FrameOps(ctx.canvasWidth, ctx.canvasHeight, flip, source, titleWidth, now)
    ensures ctx.fillStyle == White && ctx.font == GaeguTitle
  {
    DrawVideoLayer(ctx, flip, source);
    DrawOverlay(ctx, titleWidth, now);
  }

  method DrawVideoLayer(ctx: Context2D, flip: bool, source: Option<Stream>)
    modifies ctx`ops, ctx`fillStyle
    ensures ctx.ops == old(ctx.ops) + VideoLayerOps(ctx.canvasWidth, ctx.canvasHeight, flip, source)
    ensures ctx.fillStyle == Black
  {
    var width := ctx.canvasWidth;
    var height := ctx.canvasHeight;
    ctx.fillStyle := Black;
    ctx.FillRect(0.0, 0.0, width, height);
    ctx.Save();
    if flip {
      ctx.Translate(width, 0.0);
      ctx.Scale(-1.0, 1.0);
    }
    ctx.DrawImage(source, 0.0, 0.0);
    ctx.Restore();
  }

  method DrawOverlay(ctx: Context2D, titleWidth: real, now: TimeStrings)
    modifies ctx`ops, ctx`fillStyle, ctx`font
    ensures ctx.ops == old(ctx.ops) + OverlayOps(ctx.canvasWidth, ctx.canvasHeight, titleWidth, now)
    ensures ctx.fillStyle == White && ctx.font == GaeguTitle
  {
    var width := ctx.canvasWidth;
    var height := ctx.canvasHeight;
    ctx.fillStyle := White;
    ctx.font := Gaegu16;
    ctx.font := GaeguTitle;
    ctx.FillText(Title, width - titleWidth - 20.0, 50.0);
    ctx.FillText(DateLine(now), 20.0, height - 80.0);
    ctx.FillText(TimeLine(now), 20.0, height - 40.0);
  }

  /** The value `video` holds in the page: useVideo returns the element or
      null. */
  datatype VideoValue = Undefined | Null | Element(source: Option<Stream>)

  function VideoValueOf(video: VideoElement?): VideoValue
    reads video
  {
    if video == null then Null else Element(video.srcObject)
  }

  /** The calls one tick makes: nothing without a context or without a
      video element, one complete frame otherwise. */
  function TickOps(contextPresent: bool, video: VideoValue, width: real, height: real, flip: bool,
                   titleWidth: real, now: TimeStrings): (ops: seq<CanvasOp>)
    ensures ops == [] <==> !contextPresent || !video.Element?
  {
    if contextPresent && video.Element? then
      FrameOps(width, height, flip, video.source, titleWidth, now)
    else []
  }

  /** The tick as written: the second guard tests for `undefined`, which
      useVideo never returns, so a null element gets through and
      `drawImage(null, 0, 0)` throws after the fill, the save and the
      mirror have been made. */
  function TickOpsAsWritten(contextPresent: bool, video: VideoValue, width: real, height: real, flip: bool,
                            titleWidth: real, now: TimeStrings): (ops: seq<CanvasOp>)
    ensures ops == [] <==> !contextPresent || video.Undefined?
  {
    if !contextPresent || video.Undefined? then []
    else if video.Null? then [FillRect(0.0, 0.0, width, height, Black), Save] + MirrorOps(width, flip)
    else FrameOps(width, height, flip, video.source, titleWidth, now)
  }

  /** With a context and a null element, the tick as written draws part of
      a frame and leaves a save without its restore, with the mirror still
      in effect; the guarded tick draws nothing. */
  lemma {:induction false} NullSinkSlipsThroughGuard(width: real, height: real, titleWidth: real, now: TimeStrings)
    ensures var ops := TickOpsAsWritten(true, Null, width, height, true, titleWidth, now);
      && ops != [] && Restore !in ops
      && Replay(ops, DrawState(Identity, [])) == DrawState(Mirrored(Identity, width), [Identity])
    ensures TickOps(true, Null, width, height, true, titleWidth, now) == []
  {
    var ops := TickOpsAsWritten(true, Null, width, height, true, titleWidth, now);
    var st := DrawState(Identity, []);
    assert ops == [FillRect(0.0, 0.0, width, height, Black), Save, Translate(width, 0.0), Scale(-1.0, 1.0)];
    assert ops[..0] == [];
    assert ops[..1][..0] == ops[..0];
    assert Replay(ops[..1], st) == st;
    assert ops[..2][..1] == ops[..1];
    assert Replay(ops[..2], st) == DrawState(Identity, [Identity]);
    assert ops[..3][..2] == ops[..2];
    assert Replay(ops[..3], st) == DrawState(Affine(1.0, 1.0, width, 0.0), [Identity]);
    assert ops[..4][..3] == ops[..3];
    assert ops[..4] == ops;
  }

  /** For every other value of `video` the two guards agree. */
  lemma GuardsAgreeOtherwise(contextPresent: bool, video: VideoValue, width: real, height: real, flip: bool,
                             titleWidth: real, now: TimeStrings)
    requires video != Null
    ensures TickOpsAsWritten(contextPresent, video, width, height, flip, titleWidth, now)
         == TickOps(contextPresent, video, width, height, flip, titleWidth, now)
  {
  }

  // ---------------------------------------------------------------------
  // Capture

  const PngPrefix: string := "data:image/png"
  const OctetPrefix: string := "data:application/octet-stream"
  const CaptureFileName: string := "Download.png"

  /** `dataURL.replace(/^data:image\/png/, "data:application/octet-stream")` */
  function DownloadHref(dataUrl: string): (href: string)
    ensures PngPrefix <= dataUrl ==> href == OctetPrefix + dataUrl[|PngPrefix|..]
    ensures !(PngPrefix <= dataUrl) ==> href == dataUrl
  {
    if PngPrefix <= dataUrl then OctetPrefix + dataUrl[|PngPrefix|..] else dataUrl
  }

  /** Putting the PNG media type back. */
  function RestorePng(href: string): string
  {
    if OctetPrefix <= href then PngPrefix + href[|OctetPrefix|..] else href
  }

  /** The rewrite keeps the payload: a PNG data URL comes back from its
      download link. */
  lemma {:induction false} DownloadHrefRoundTrip(dataUrl: string)
    requires PngPrefix <= dataUrl
    ensures RestorePng(DownloadHref(dataUrl)) == dataUrl
  {
    var rest := dataUrl[|PngPrefix|..];
    var href := OctetPrefix + rest;
    assert OctetPrefix <= href;
    assert href[|OctetPrefix|..] == rest;
    assert PngPrefix + rest == dataUrl;
  }

  /** A rewritten link no longer starts with the PNG media type, so the
      rewrite applied twice is the rewrite applied once. */
  lemma {:induction false} DownloadHrefIdempotent(dataUrl: string)
    ensures !(PngPrefix <= DownloadHref(dataUrl)) || DownloadHref(dataUrl) == dataUrl
    ensures DownloadHref(DownloadHref(dataUrl)) == DownloadHref(dataUrl)
  {
    var href := DownloadHref(dataUrl);
    if PngPrefix <= dataUrl {
      assert href[5] == 'a' != PngPrefix[5];
    }
  }

  /** The anchor element downloadCanvas creates and clicks. */
  datatype Anchor = Anchor(download: string, href: string)

  /** downloadCanvas: a link named `fileName` whose href is the canvas's
      PNG data URL with the media type rewritten. */
  method DownloadCanvas(fileName: string, dataUrl: string) returns (clicked: Anchor)
    ensures clicked.download == fileName
    ensures clicked.href == DownloadHref(dataUrl)
    ensures PngPrefix <= dataUrl ==> RestorePng(clicked.href) == dataUrl
  {
    var link := Anchor("", "");
    link := link.(download := fileName);
    link := link.(href := DownloadHref(dataUrl));
    if PngPrefix <= dataUrl {
      DownloadHrefRoundTrip(dataUrl);
    }
    clicked := link;
  }

  // ---------------------------------------------------------------------
  // Camera labels

  predicate IsDigit(c: char)
  {
    '0' <= c <= '9'
  }

  function DigitChar(d: nat): (c: char)
    requires d < 10
    ensures IsDigit(c)
  {
    (d + 48) as char
  }

  /** `${n}` for a natural number. */
  function Decimal(n: nat): (s: string)
    ensures |s| >= 1 && forall i | 0 <= i < |s| :: IsDigit(s[i])
    ensures s[0] == '0' <==> n == 0
  {
    if n < 10 then [DigitChar(n)] else Decimal(n / 10) + [DigitChar(n % 10)]
  }

  /** The number a string of digits denotes. */
  function DecimalValue(s: string): nat
  {
    if s == [] then 0
    else
      var d := s[|s| - 1] as int - 48;
      10 * DecimalValue(s[..|s| - 1]) + (if 0 <= d then d else 0)
  }

  lemma {:induction false} DecimalRoundTrip(n: nat)
    ensures DecimalValue(Decimal(n)) == n
  {
    if n >= 10 {
      DecimalRoundTrip(n / 10);
      var s := Decimal(n);
      assert s[..|s| - 1] == Decimal(n / 10);
    }
  }

  /** The digits a string starts with. */
  function LeadingDigits(s: string): (digits: string)
    ensures digits <= s
  {
    if s != [] && IsDigit(s[0]) then [s[0]] + LeadingDigits(s[1..]) else []
  }

  lemma {:induction false} LeadingDigitsOf(digits: string, rest: string)
    requires forall i | 0 <= i < |digits| :: IsDigit(digits[i])
    requires rest == [] || !IsDigit(rest[0])
    ensures LeadingDigits(digits + rest) == digits
  {
    if digits == [] {
      assert digits + rest == rest;
    } else {
      assert (digits + rest)[1..] == digits[1..] + rest;
      LeadingDigitsOf(digits[1..], rest);
    }
  }

  const LabelPrefix: string := "Camera "
  const TypeMarker: string := " (Type: "

  /** `Camera ${index + 1} (Type: ${camera.type})` */
  function CameraLabel(index: nat, camera: Camera): string
  {
    LabelPrefix + Decimal(index + 1) + TypeMarker + camera.kind + ")"
  }

  /** The camera a label names, read back from its number. */
  function LabelIndex(name: string): int
  {
    if LabelPrefix <= name then DecimalValue(LeadingDigits(name[|LabelPrefix|..])) - 1 else -1
  }

  /** The camera type a label names, read back from the text between the
      type marker and the closing parenthesis. */
  function LabelType(name: string): string
  {
    if LabelPrefix <= name then
      var rest := name[|LabelPrefix|..];
      var after := rest[|LeadingDigits(rest)|..];
      if TypeMarker <= after && |TypeMarker| < |after| && after[|after| - 1] == ')'
      then after[|TypeMarker|..|after| - 1]
      else ""
    else ""
  }

  /** A camera's label names that camera: its number reads back as the
      index and its type part as the camera's type. */
  lemma {:induction false} CameraLabelRoundTrip(index: nat, camera: Camera)
    ensures LabelIndex(CameraLabel(index, camera)) == index
    ensures LabelType(CameraLabel(index, camera)) == camera.kind
    ensures var name := CameraLabel(index, camera);
      LabelPrefix <= name && LeadingDigits(name[|LabelPrefix|..]) == Decimal(index + 1)
  {
    var name := CameraLabel(index, camera);
    var digits := Decimal(index + 1);
    var rest := TypeMarker + camera.kind + ")";
    assert name == LabelPrefix + (digits + rest);
    assert name[|LabelPrefix|..] == digits + rest;
    LeadingDigitsOf(digits, rest);
    DecimalRoundTrip(index + 1);
    assert (digits + rest)[|digits|..] == rest;
    assert rest[|TypeMarker|..|rest| - 1] == camera.kind;
  }

  /** `cameras.map((camera, index) => ...)`: one label per camera, in order,
      naming that camera. */
  function CameraNames(cameras: seq<Camera>): (names: seq<string>)
    ensures |names| == |cameras|
    ensures forall i | 0 <= i < |names| :: LabelIndex(names[i]) == i && LabelType(names[i]) == cameras[i].kind
    ensures forall i | 0 <= i < |names| ::
      LabelPrefix <= names[i] && LeadingDigits(names[i][|LabelPrefix|..]) == Decimal(i + 1)
  {
    var names := seq(|cameras|, i requires 0 <= i < |cameras| => CameraLabel(i, cameras[i]));
    assert forall i | 0 <= i < |names| :: names[i] == CameraLabel(i, cameras[i]);
    forall i | 0 <= i < |names|
      ensures LabelIndex(names[i]) == i && LabelType(names[i]) == cameras[i].kind
      ensures LabelPrefix <= names[i] && LeadingDigits(names[i][|LabelPrefix|..]) == Decimal(i + 1)
    {
      CameraLabelRoundTrip(i, cameras[i]);
    }
    names
  }

  lemma CameraNamesDistinct(cameras: seq<Camera>, i: nat, j: nat)
    requires i < j < |cameras|
    ensures CameraNames(cameras)[i] != CameraNames(cameras)[j]
  {
  }

  // ---------------------------------------------------------------------
  // The page

  /** The onPlay closures created so far, numbered by render, each with the
      `context` it captured. A closure outlives the page that created it:
      a handler left on the shared element can still call it. */
  class Closures {
    var captured: seq<Context2D?>

    constructor ()
      ensures captured == []
    {
      captured := [];
    }
  }

  /** The handler on the shared element, if any, calls a known closure. */
  ghost predicate HandlerKnown(videos: VideoModule, closures: Closures)
    reads videos, videos.video, closures
  {
    videos.video != null && videos.video.onCanPlayThrough.Some? ==>
      var h := videos.video.onCanPlayThrough.value;
      h.onPlay.Some? && h.onPlay.value.render < |closures.captured|
  }

  class Page {
    var cameras: seq<Camera>
    var currentCameraIndex: int
    var context: Context2D?
    var flipCamera: bool
    var downloads: seq<Anchor>
    /** The current camera at the last commit; None before the first. */
    var committedCamera: Option<Option<Camera>>
    const closures: Closures
    const videos: VideoModule
    const videoEffect: VideoEffect

    ghost predicate Valid()
      reads this, videos, videos.video, videoEffect, closures
    {
      && videoEffect.host == videos
      && videoEffect.Valid()
      && (videoEffect.deps.Some? ==>
            videoEffect.deps.value.onPlay.Some? && videoEffect.deps.value.onPlay.value.render < |closures.captured|)
      && HandlerKnown(videos, closures)
    }

    function Current(): Option<Camera>
      reads this
    {
      CurrentCamera(cameras, currentCameraIndex)
    }

    /** The first render's state: `useState(false)` for the flip, the
        collaborators' cameras, index and context, and the module's shared
        element, which an earlier page may have used and cleaned up. */
    constructor (cameras: seq<Camera>, index: int, context: Context2D?, videos: VideoModule, closures: Closures)
      requires Bound(videos, false)
      requires HandlerKnown(videos, closures)
      ensures Valid()
      ensures this.cameras == cameras && currentCameraIndex == index && this.context == context
      ensures !flipCamera && downloads == [] && committedCamera == None
      ensures this.videos == videos && this.closures == closures && fresh(videoEffect)
    {
      this.cameras := cameras;
      currentCameraIndex := index;
      this.context := context;
      flipCamera := false;
      downloads := [];
      committedCamera := None;
      this.closures := closures;
      this.videos := videos;
      videoEffect := new VideoEffect(videos);
    }

    /** The effect on `[currentCamera]`: derive the flip from the camera,
        or do nothing when there is none. */
    method FlipEffect()
      modifies this`flipCamera
      ensures Current().None? ==> flipCamera == old(flipCamera)
      ensures Current().Some? ==> flipCamera == DerivedFlip(Current().value)
    {
      var camera := CurrentCamera(cameras, currentCameraIndex);
      if camera.None? {
        return;
      }
      flipCamera := camera.value.kind != "Back";
    }

    /** What React runs after a render. The onPlay closure is new at every
        render, so the video effect's cleanup and body run every time; the
        flip effect runs when the current camera changed. */
    method Commit()
      requires Valid()
      modifies this, videoEffect, videos.video, closures
      ensures Valid()
      ensures cameras == old(cameras) && currentCameraIndex == old(currentCameraIndex)
      ensures context == old(context) && downloads == old(downloads)
      ensures committedCamera == Some(Current())
      ensures closures.captured == old(closures.captured) + [context]
      ensures old(committedCamera) != Some(Current()) && Current().Some? ==>
        flipCamera == DerivedFlip(Current().value)
      ensures old(committedCamera) == Some(Current()) || Current().None? ==>
        flipCamera == old(flipCamera)
      ensures videoEffect.cleanupPending == (videos.video != null && Current().Some?)
      ensures videos.video != null ==>
        var stillPlaying := old(videos.video.playing) && !old(videoEffect.cleanupPending);
        && videos.video.events == old(videos.video.events)
             + (if old(videoEffect.cleanupPending) then [Paused(old(videos.video.srcObject))] else [])
             + (if Current().None? then []
                else (if stillPlaying then [Paused(old(videos.video.srcObject))] else [])
                     + [Attached(Current().value.mediaStream)])
        && videos.video.playing == (stillPlaying && Current().None?)
        && videos.video.srcObject ==
             (if Current().Some? then Some(Current().value.mediaStream) else old(videos.video.srcObject))
        && videos.video.onCanPlayThrough ==
             (if Current().Some? then Some(PlayThenNotify(Some(Callback(|old(closures.captured)|))))
              else old(videos.video.onCanPlayThrough))
        && videos.video.muted == old(videos.video.muted)
        && videos.video.width == old(videos.video.width) && videos.video.height == old(videos.video.height)
    {
      var camera := CurrentCamera(cameras, currentCameraIndex);
      var onPlay := Callback(|closures.captured|);
      closures.captured := closures.captured + [context];
      var _ := videoEffect.Render(StreamOf(camera), Some(onPlay));
      if committedCamera != Some(camera) {
        FlipEffect();
      }
      committedCamera := Some(camera);
    }

    /** The page is removed: the video effect's pending cleanup runs. The
        element keeps its source and its handler. */
    method Unmount()
      requires Valid()
      modifies videoEffect, videos.video
      ensures Valid() && !videoEffect.cleanupPending
      ensures Bound(videos, false) && HandlerKnown(videos, closures)
      ensures videos.video != null ==>
        && videos.video.events == old(videos.video.events)
             + (if old(videoEffect.cleanupPending) then [Paused(old(videos.video.srcObject))] else [])
        && videos.video.playing == (old(videos.video.playing) && !old(videoEffect.cleanupPending))
        && videos.video.srcObject == old(videos.video.srcObject)
        && videos.video.onCanPlayThrough == old(videos.video.onCanPlayThrough)
        && videos.video.muted == old(videos.video.muted)
        && videos.video.width == old(videos.video.width) && videos.video.height == old(videos.video.height)
    {
      videoEffect.Unmount();
    }

    /** handleFlipCamera */
    method HandleFlipCamera()
      requires Valid()
      modifies this`flipCamera
      ensures Valid()
      ensures flipCamera == !old(flipCamera)
    {
      flipCamera := !flipCamera;
    }

    /** handleSelectCamera: the index goes to the device collaborator. */
    method HandleSelectCamera(index: int)
      requires Valid()
      modifies this`currentCameraIndex
      ensures Valid()
      ensures currentCameraIndex == index
    {
      currentCameraIndex := index;
    }

    /** handleCaptureCamera, given the PNG data URL the canvas encodes to. */
    method HandleCaptureCamera(dataUrl: string)
      modifies this`downloads
      ensures context == null ==> downloads == old(downloads)
      ensures context != null ==> downloads == old(downloads) + [Anchor(CaptureFileName, DownloadHref(dataUrl))]
    {
      if context == null {
        return;
      }
      var link := DownloadCanvas(CaptureFileName, dataUrl);
      downloads := downloads + [link];
    }

    /** One scheduler tick of the render callback. `titleWidth` is the
        title's measured width in the title font. */
    method RenderTick(titleWidth: real, now: TimeStrings)
      modifies context
      ensures context != null ==>
        && context.canvasWidth == old(context.canvasWidth) && context.canvasHeight == old(context.canvasHeight)
        && context.ops == old(context.ops) + TickOps(true, VideoValueOf(videos.video), context.canvasWidth,
                                                     context.canvasHeight, flipCamera, titleWidth, now)
      ensures context != null && videos.video == null ==> unchanged(context)
      ensures context != null && videos.video != null ==> context.fillStyle == White && context.font == GaeguTitle
    {
      var ctx := context;
      if ctx == null {
        return;
      }
      var video := videos.video;
      if video == null {
        return;
      }
      DrawFrame(ctx, flipCamera, video.srcObject, titleWidth, now);
    }

    /** The contexts the closures captured. */
    ghost function Captured(): set<Context2D>
      reads this, closures
    {
      set c: Context2D | c in closures.captured
    }

    /** The element can play through: the handler plays it and calls the
        onPlay closure it holds, which sizes the context that closure
        captured (possibly an earlier render's, or an earlier page's). */
    method CanPlayThrough()
      requires Valid()
      modifies videos.video, Captured()
      ensures Valid()
      ensures videos.video == null ==> unchanged(Captured())
      ensures videos.video != null && old(videos.video.onCanPlayThrough).None? ==>
        unchanged(videos.video) && unchanged(Captured())
      ensures videos.video != null && old(videos.video.onCanPlayThrough).Some? ==>
        var captured := closures.captured[old(videos.video.onCanPlayThrough).value.onPlay.value.render];
        var s := PlaySizing(videos.video.VideoWidth(), videos.video.VideoHeight());
        && videos.video.playing
        && videos.video.events == old(videos.video.events) + [Played(videos.video.srcObject)]
        && videos.video.srcObject == old(videos.video.srcObject)
        && videos.video.onCanPlayThrough == old(videos.video.onCanPlayThrough)
        && (captured == null ==>
              videos.video.width == old(videos.video.width) && videos.video.height == old(videos.video.height))
        && (captured != null ==>
              && videos.video.width == s.videoWidth && videos.video.height == s.videoHeight
              && captured.canvasWidth == s.canvasSide && captured.canvasHeight == s.canvasSide
              && captured.ops == old(captured.ops) + [Reset, Reset]
              && captured.fillStyle == DefaultFillStyle && captured.font == DefaultFont)
        && (forall c | c in Captured() && c != captured :: unchanged(c))
    {
      var notify := videos.DispatchCanPlayThrough();
      if notify.Some? {
        OnPlay(closures.captured[notify.value.render], videos.video);
      }
    }
  }

  /** A front camera derives a mirrored view; the user's toggle turns it off
      and survives a render that keeps the camera; a change to a back camera
      derives the flip again. */
  method FlipScenario() returns (flips: seq<bool>)
    ensures flips == [true, false, false, false]
  {
    var videos := new VideoModule.Load(false);
    var closures := new Closures();
    var cameras := [Camera("Back", Stream(0, 640, 480)), Camera("Front", Stream(1, 640, 480)),
                    Camera("Back", Stream(2, 640, 480))];
    var page := new Page(cameras, 1, null, videos, closures);
    page.Commit();
    assert page.Current() == Some(cameras[1]);
    flips := [page.flipCamera];
    page.HandleFlipCamera();
    flips := flips + [page.flipCamera];
    page.Commit();
    flips := flips + [page.flipCamera];
    page.HandleSelectCamera(2);
    assert page.Current() == Some(cameras[2]);
    page.Commit();
    flips := flips + [page.flipCamera];
  }

  /** A toggle made on a back camera is overwritten by the next camera
      change, even when the new camera derives the same value the old one
      did. */
  method OverrideClearedScenario() returns (flips: seq<bool>)
    ensures flips == [false, true, false]
  {
    var videos := new VideoModule.Load(false);
    var closures := new Closures();
    var cameras := [Camera("Back", Stream(0, 640, 480)), Camera("Back", Stream(2, 640, 480))];
    var page := new Page(cameras, 1, null, videos, closures);
    page.Commit();
    assert page.Current() == Some(cameras[1]);
    flips := [page.flipCamera];
    page.HandleFlipCamera();
    flips := flips + [page.flipCamera];
    page.HandleSelectCamera(0);
    assert page.Current() == Some(cameras[0]);
    page.Commit();
    flips := flips + [page.flipCamera];
  }

  /** A 2048x1536 camera: once it can play through, the video is shown at
      1024x768 and the canvas becomes 768x768. */
  method SizingScenario() returns (videoHeight: real, canvasWidth: real, canvasHeight: real)
    ensures videoHeight == 768.0 && canvasWidth == 768.0 && canvasHeight == 768.0
  {
    var videos := new VideoModule.Load(true);
    var closures := new Closures();
    var context := new Context2D(300.0, 150.0);
    var page := new Page([Camera("Front", Stream(7, 2048, 1536))], 0, context, videos, closures);
    page.Commit();
    page.CanPlayThrough();
    PlaySizingExample();
    videoHeight := videos.video.height;
    canvasWidth, canvasHeight := context.canvasWidth, context.canvasHeight;
  }

  /** A page over one 2048x1536 camera commits and is unmounted; its
      handler stays on the element. */
  method UnmountedPage() returns (videos: VideoModule, closures: Closures, first: Context2D)
    ensures Bound(videos, false) && HandlerKnown(videos, closures)
    ensures videos.video != null && videos.video.srcObject == Some(Stream(7, 2048, 1536))
    ensures videos.video.onCanPlayThrough == Some(PlayThenNotify(Some(Callback(0))))
    ensures closures.captured == [first] && first.canvasWidth == 300.0 && first.canvasHeight == 150.0
    ensures fresh(videos) && fresh(videos.video) && fresh(first)
  {
    videos := new VideoModule.Load(true);
    closures := new Closures();
    first := new Context2D(300.0, 150.0);
    var page := new Page([Camera("Front", Stream(7, 2048, 1536))], 0, first, videos, closures);
    page.Commit();
    page.Unmount();
  }

  /** A page is unmounted and a new one mounted over the same element.
      Until the new page commits, the element still holds the old page's
      handler, so a can-play-through sizes the old page's context and
      leaves the new page's context as it was. */
  method RemountScenario() returns (oldWidth: real, oldHeight: real, newWidth: real, newHeight: real)
    ensures oldWidth == 768.0 && oldHeight == 768.0
    ensures newWidth == 300.0 && newHeight == 150.0
  {
    var videos, closures, first := UnmountedPage();
    var second := new Context2D(300.0, 150.0);
    var again := new Page([], 0, second, videos, closures);
    PlaySizingExample();
    again.CanPlayThrough();
    oldWidth, oldHeight := first.canvasWidth, first.canvasHeight;
    newWidth, newHeight := second.canvasWidth, second.canvasHeight;
  }
}
