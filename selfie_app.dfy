/** The capture pipeline of the app: a quick tap on the screen requests a
    photo, the next frame renders the scene off screen and hands the image to
    a background save, and no second save starts until the first reports that
    it is complete.

    The pure part states each handler as a function on a `Capture` value and
    runs sequences of events through them; the class `SelfieSelfieApp` keeps
    the same fields and updates them in place, each method proved to end in
    the state the matching function computes. Rendering, the background thread
    and the photo album are outside the model: a pending save is a token in
    `saveActions`, and its completion is the explicit `SaveComplete` event. */
module Selfie {

  /** Touch identifiers are unsigned 32-bit integers. */
  newtype uint32 = x: int | 0 <= x < 0x1_0000_0000

  /** One touch of a touch event; only its identifier matters here. */
  datatype Touch = Touch(id: uint32)

  /** A touch that ends in less than this many milliseconds is a tap. */
  const TapThresholdMs: nat := 160

  /** A save started by `draw` and not yet reported complete. */
  datatype SaveAction = PendingSave

  /** The state the touch handlers, the save guard and the completion touch. */
  datatype Capture = Capture(touchId: uint32, doSaveImage: bool, saveActions: seq<SaveAction>)
  {
    predicate SaveInFlight() {
      saveActions != []
    }

    /** At most one save is ever in flight. */
    predicate AtMostOneSave() {
      |saveActions| <= 1
    }
  }

  /** The state of a freshly constructed app. */
  const InitialCapture: Capture := Capture(0, false, [])

  /** The handlers look only at the last touch of an event. */
  function LastTouchId(touches: seq<Touch>): uint32
    requires |touches| > 0
  {
    touches[|touches| - 1].id
  }

  /** A touch begins: its identifier becomes the tracked one (and its timer starts). */
  function AfterTouchesBegan(c: Capture, touches: seq<Touch>): (r: Capture)
    requires |touches| > 0
    ensures r.touchId == touches[|touches| - 1].id
    ensures r.doSaveImage == c.doSaveImage && r.saveActions == c.saveActions
  {
    c.(touchId := LastTouchId(touches))
  }

  /** A touch ends; `elapsedMs` is the touch timer's reading, in milliseconds.
      A matching, quick touch raises the save request; nothing ever lowers it here. */
  function AfterTouchesEnded(c: Capture, touches: seq<Touch>, elapsedMs: nat): (r: Capture)
    requires |touches| > 0
    ensures r.touchId == c.touchId && r.saveActions == c.saveActions
    ensures r.doSaveImage <==>
              c.doSaveImage || (touches[|touches| - 1].id == c.touchId && elapsedMs < TapThresholdMs)
    ensures touches[|touches| - 1].id != c.touchId ==> r == c
    ensures elapsedMs >= TapThresholdMs ==> r == c
  {
    if c.touchId == LastTouchId(touches) && elapsedMs < TapThresholdMs
    then c.(doSaveImage := true)
    else c
  }

  /** The save guard of one frame: a pending request starts a save only when
      none is in flight, and is consumed by it; otherwise it stays latched. */
  function AfterDraw(c: Capture): (r: Capture)
    ensures r.touchId == c.touchId
    ensures c.doSaveImage && !c.SaveInFlight() ==> !r.doSaveImage && r.saveActions == [PendingSave]
    ensures c.SaveInFlight() ==> r == c
    ensures !c.doSaveImage ==> r == c
  {
    if c.doSaveImage && c.saveActions == []
    then c.(doSaveImage := false, saveActions := c.saveActions + [PendingSave])
    else c
  }

  /** The background save reports back: nothing is in flight any more. */
  function AfterSaveComplete(c: Capture): (r: Capture)
    ensures !r.SaveInFlight()
    ensures r.touchId == c.touchId && r.doSaveImage == c.doSaveImage
  {
    c.(saveActions := [])
  }

  /** The events that reach the capture state, in the order the main loop
      delivers them. */
  datatype Event =
    | TouchesBegan(touches: seq<Touch>)
    | TouchesEnded(touches: seq<Touch>, elapsedMs: nat)
    | Draw
    | SaveComplete
  {
    /** A touch event always carries at least one touch. */
    predicate WellFormed() {
      (TouchesBegan? || TouchesEnded?) ==> |touches| > 0
    }
  }

  predicate AllWellFormed(es: seq<Event>) {
    forall i :: 0 <= i < |es| ==> es[i].WellFormed()
  }

  function Step(c: Capture, e: Event): Capture
    requires e.WellFormed()
  {
    match e
    case TouchesBegan(touches) => AfterTouchesBegan(c, touches)
    case TouchesEnded(touches, elapsedMs) => AfterTouchesEnded(c, touches, elapsedMs)
    case Draw => AfterDraw(c)
    case SaveComplete => AfterSaveComplete(c)
  }

  /** The state after the events in `es`, in order. */
  function Run(c: Capture, es: seq<Event>): Capture
    requires AllWellFormed(es)
    decreases |es|
  {
    if es == [] then c else Run(Step(c, es[0]), es[1..])
  }

  /** Running two sequences one after the other is running their concatenation. */
  lemma {:induction false} RunAppend(c: Capture, es: seq<Event>, fs: seq<Event>)
    requires AllWellFormed(es) && AllWellFormed(fs)
    ensures AllWellFormed(es + fs)
    ensures Run(c, es + fs) == Run(Run(c, es), fs)
    decreases |es|
  {
    if es == [] {
      assert es + fs == fs;
    } else {
      assert (es + fs)[0] == es[0];
      assert (es + fs)[1..] == es[1..] + fs;
      RunAppend(Step(c, es[0]), es[1..], fs);
    }
  }

  /** Whatever touches, frames and completions arrive, at most one save is in flight. */
  lemma {:induction false} RunKeepsAtMostOneSave(c: Capture, es: seq<Event>)
    requires AllWellFormed(es)
    requires c.AtMostOneSave()
    ensures Run(c, es).AtMostOneSave()
    decreases |es|
  {
    if es != [] {
      RunKeepsAtMostOneSave(Step(c, es[0]), es[1..]);
    }
  }

  /** Until the save in flight completes, no other save starts and a raised
      request is not lost: taps during a save are latched, not dropped. */
  lemma {:induction false} NoSecondSaveWhilePending(c: Capture, es: seq<Event>)
    requires AllWellFormed(es)
    requires c.SaveInFlight()
    requires forall i :: 0 <= i < |es| ==> !es[i].SaveComplete?
    ensures Run(c, es).saveActions == c.saveActions
    ensures c.doSaveImage ==> Run(c, es).doSaveImage
    decreases |es|
  {
    if es != [] {
      NoSecondSaveWhilePending(Step(c, es[0]), es[1..]);
    }
  }

  /** Touch events never touch the pending saves and never lower the request. */
  lemma {:induction false} TouchesKeepRequest(c: Capture, ts: seq<Event>)
    requires AllWellFormed(ts)
    requires forall i :: 0 <= i < |ts| ==> ts[i].TouchesBegan? || ts[i].TouchesEnded?
    ensures Run(c, ts).saveActions == c.saveActions
    ensures c.doSaveImage ==> Run(c, ts).doSaveImage
    decreases |ts|
  {
    if ts != [] {
      TouchesKeepRequest(Step(c, ts[0]), ts[1..]);
    }
  }

  /** A request raised while a save is in flight starts a new save on the
      first frame after the completion, whatever touches arrive in between. */
  lemma LatchedRequestFiresAfterCompletion(c: Capture, es: seq<Event>, ts: seq<Event>)
    requires AllWellFormed(es) && AllWellFormed(ts)
    requires c.SaveInFlight() && c.doSaveImage
    requires forall i :: 0 <= i < |es| ==> !es[i].SaveComplete?
    requires forall i :: 0 <= i < |ts| ==> ts[i].TouchesBegan? || ts[i].TouchesEnded?
    ensures AllWellFormed(es + [SaveComplete] + ts + [Draw])
    ensures Run(c, es + [SaveComplete] + ts + [Draw]).saveActions == [PendingSave]
    ensures !Run(c, es + [SaveComplete] + ts + [Draw]).doSaveImage
  {
    NoSecondSaveWhilePending(c, es);
    var pending := Run(c, es);
    RunAppend(c, es, [SaveComplete]);
    var completed := Run(c, es + [SaveComplete]);
    assert completed == AfterSaveComplete(pending) by {
      assert [SaveComplete][1..] == [];
    }
    TouchesKeepRequest(completed, ts);
    RunAppend(c, es + [SaveComplete], ts);
    var touched := Run(c, es + [SaveComplete] + ts);
    RunAppend(c, es + [SaveComplete] + ts, [Draw]);
    assert Run(touched, [Draw]) == AfterDraw(touched) by {
      assert [Draw][1..] == [];
    }
  }

  /** A quick tap on an idle app starts exactly one save on the next frame,
      and once that save completes the app is idle again. */
  lemma TapCaptureLifecycle(c: Capture, t: Touch, elapsedMs: nat)
    requires !c.SaveInFlight()
    requires elapsedMs < TapThresholdMs
    ensures Run(c, [TouchesBegan([t]), TouchesEnded([t], elapsedMs), Draw]).saveActions == [PendingSave]
    ensures !Run(c, [TouchesBegan([t]), TouchesEnded([t], elapsedMs), Draw]).doSaveImage
    ensures !Run(c, [TouchesBegan([t]), TouchesEnded([t], elapsedMs), Draw, SaveComplete]).SaveInFlight()
  {
    var began := AfterTouchesBegan(c, [t]);
    var tapped := AfterTouchesEnded(began, [t], elapsedMs);
    var drawn := AfterDraw(tapped);
    var tap := [TouchesBegan([t]), TouchesEnded([t], elapsedMs), Draw];
    assert tap[1..] == [TouchesEnded([t], elapsedMs), Draw];
    assert tap[1..][1..] == [Draw];
    calc {
      Run(c, tap);
      Run(began, tap[1..]);
      Run(tapped, [Draw]);
      { assert [Draw][1..] == []; }
      Run(drawn, []);
    }
    RunAppend(c, tap, [SaveComplete]);
    assert tap + [SaveComplete] == [TouchesBegan([t]), TouchesEnded([t], elapsedMs), Draw, SaveComplete];
  }

  /** The asset density bucket for the long side of the screen, in pixels. */
  function SizeIndicatorFor(largeSide: int): (r: string)
    ensures r == "xhdpi" || r == "xxhdpi" || r == "xxxhdpi"
    ensures r == "xhdpi" <==> largeSide <= 1280
    ensures r == "xxhdpi" <==> 1280 < largeSide <= 1920
    ensures r == "xxxhdpi" <==> 1920 < largeSide
  {
    if largeSide <= 1280 then "xhdpi"
    else if largeSide <= 1920 then "xxhdpi"
    else "xxxhdpi"
  }

  /** Position of a bucket from the lowest to the highest density. */
  function Density(indicator: string): nat
  {
    if indicator == "xhdpi" then 0 else if indicator == "xxhdpi" then 1 else 2
  }

  /** A larger screen never gets a lower-density bucket. */
  lemma SizeIndicatorMonotone(a: int, b: int)
    requires a <= b
    ensures Density(SizeIndicatorFor(a)) <= Density(SizeIndicatorFor(b))
  {
  }

  /** The scene the app shows once the intro is over; only whether it is
      showing the landscape view is modelled. */
  class SelfieExperience {
    const imagePath: string
    var landscapeShown: bool

    constructor (imagePath: string)
      ensures this.imagePath == imagePath && !landscapeShown
    {
      this.imagePath := imagePath;
      landscapeShown := false;
    }

    /** Renders the scene into the current target; drawing is not modelled. */
    method DrawScene()
    {
    }

    method ShowLandscape()
      modifies this
      ensures landscapeShown
    {
      landscapeShown := true;
    }
  }

  class SelfieSelfieApp {
    var selfieExperience: SelfieExperience?
    var sizeIndicator: string
    var touchId: uint32
    var doSaveImage: bool
    var saveActions: seq<SaveAction>

    function CaptureState(): Capture
      reads this
    {
      Capture(touchId, doSaveImage, saveActions)
    }

    /** At most one save is in flight, and the bucket is one of the three. */
    ghost predicate Valid()
      reads this
    {
      CaptureState().AtMostOneSave() &&
      sizeIndicator in {"xhdpi", "xxhdpi", "xxxhdpi"}
    }

    constructor ()
      ensures Valid()
      ensures CaptureState() == InitialCapture
      ensures sizeIndicator == "xhdpi" && selfieExperience == null
    {
      selfieExperience := null;
      sizeIndicator := "xhdpi";
      touchId := 0;
      doSaveImage := false;
      saveActions := [];
    }

    method TouchesBegan(touches: seq<Touch>)
      requires Valid()
      requires |touches| > 0
      modifies this`touchId
      ensures Valid()
      ensures CaptureState() == AfterTouchesBegan(old(CaptureState()), touches)
    {
      touchId := touches[|touches| - 1].id;
    }

    method TouchesEnded(touches: seq<Touch>, elapsedMs: nat)
      requires Valid()
      requires |touches| > 0
      modifies this`doSaveImage
      ensures Valid()
      ensures CaptureState() == AfterTouchesEnded(old(CaptureState()), touches, elapsedMs)
    {
      if touchId == touches[|touches| - 1].id {
        if elapsedMs < TapThresholdMs {
          doSaveImage := true;
        }
      }
    }

    /** The save guard of `draw`. The save branch renders through the
        experience without checking that it exists, so the branch requires it. */
    method Draw()
      requires Valid()
      requires doSaveImage && saveActions == [] ==> selfieExperience != null
      modifies this`doSaveImage, this`saveActions
      ensures Valid()
      ensures CaptureState() == AfterDraw(old(CaptureState()))
    {
      if doSaveImage && |saveActions| == 0 {
        doSaveImage := false;
        selfieExperience.DrawScene();
        saveActions := saveActions + [PendingSave];
      }
    }

    method SaveComplete()
      requires Valid()
      modifies this`saveActions
      ensures Valid()
      ensures CaptureState() == AfterSaveComplete(old(CaptureState()))
    {
      saveActions := [];
    }

    /** Picks the asset bucket from the window size in pixels. */
    method DetermineSizeIndicator(widthPx: int, heightPx: int)
      requires Valid()
      modifies this`sizeIndicator
      ensures Valid()
      ensures sizeIndicator == SizeIndicatorFor(if widthPx >= heightPx then widthPx else heightPx)
    {
      var largeSide := if widthPx >= heightPx then widthPx else heightPx;
      if largeSide <= 1280 {
        sizeIndicator := "xhdpi";
      } else if largeSide <= 1920 {
        sizeIndicator := "xxhdpi";
      } else {
        sizeIndicator := "xxxhdpi";
      }
    }

    /** Creates the experience on first use only, then shows its landscape view. */
    method ShowLandscape()
      requires Valid()
      modifies this`selfieExperience, selfieExperience
      ensures Valid()
      ensures selfieExperience != null && selfieExperience.landscapeShown
      ensures old(selfieExperience) != null ==> selfieExperience == old(selfieExperience)
      ensures old(selfieExperience) == null ==>
                fresh(selfieExperience) && selfieExperience.imagePath == "img/" + sizeIndicator
    {
      if selfieExperience == null {
        selfieExperience := new SelfieExperience("img/" + sizeIndicator);
      }
      selfieExperience.ShowLandscape();
    }
  }
}
