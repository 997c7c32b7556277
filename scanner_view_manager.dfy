/** The prop setters of the Android view manager
    (android/src/main/java/com/scanner/ScannerViewManager.kt).

    Each setter reads its prop and forwards the result to the scanner view.
    The view is modelled as an object that records, in order, the setter
    calls it receives. The values React Native hands over are modelled
    abstractly: a read from a `ReadableMap` either returns a value or
    raises, and a `Dynamic` is its type together with what reading it
    returns. A raised exception ends the setter; the calls made before it
    stay made. */
module ScannerViewManager {
  import opened BridgeValues
  import Models

  /** The sealed class `FrameSize`: sizes in whole points. */
  datatype FrameSize = Square(size: int) | Rectangle(width: int, height: int)

  /** A setter call received by the scanner view. */
  datatype ViewCall =
    | SetFocusAreaEnabled(enabled: bool)
    | SetEnableFrame(show: bool)
    | SetBorderColor(borderColor: string)
    | SetTintColor(tintColor: string)
    | SetPosition(x: real, y: real)
    | SetFrameSize(frameSize: FrameSize)
    | SetBarcodeFramesEnabled(framesEnabled: bool)
    | SetShowBarcodeFramesOnlyInFrame(onlyInFrame: bool)
    | SetBarcodeFramesColor(color: string)
    | SetTorch(torch: bool)
    | SetZoom(zoom: real)
    | PauseScanning
    | ResumeScanning
    | SetBarcodeScanStrategy(strategy: string)
    | SetKeepScreenOnEnabled(keepOn: bool)
    | SetBarcodeEmissionInterval(interval: real)

  /** The result of one read from a `ReadableMap`: a value, or an exception. */
  datatype Read<+T> = Got(v: T) | Raises

  /** A `Dynamic` read with `getDynamic`: its type and, for a number or a
      map, what `asInt()` or `getInt("width")`/`getInt("height")` return.
      `DynUnreadable` is an entry whose type cannot be read (reading
      `type` raises). */
  datatype Dynamic =
    | DynUnreadable
    | DynNull
    | DynBoolean
    | DynNumber(asInt: Read<int>)
    | DynString
    | DynMap(width: Read<int>, height: Read<int>)
    | DynArray

  datatype ReadablePosition = ReadablePosition(x: Read<real>, y: Read<real>)

  /** The `focusArea` map, as its six reads return. */
  datatype ReadableFocusArea = ReadableFocusArea(
    enabled: Read<bool>,
    showOverlay: Read<bool>,
    borderColor: Read<Option<string>>,
    tintColor: Read<Option<string>>,
    size: Dynamic,
    position: Read<Option<ReadablePosition>>)

  /** The `barcodeFrames` map, as its three reads return. */
  datatype ReadableBarcodeFrames = ReadableBarcodeFrames(
    enabled: Read<bool>,
    color: Read<Option<string>>,
    onlyInFocusArea: Read<bool>)

  /** What a setter does to the view: the calls it makes, in order, and
      whether it ends by raising. */
  datatype Effect = Effect(calls: seq<ViewCall>, raised: bool)

  /** The scanner view, seen through the setter calls it receives. */
  class ScannerView {
    var calls: seq<ViewCall>

    constructor ()
      ensures calls == []
    {
      calls := [];
    }

    method Receive(c: ViewCall)
      modifies this
      ensures calls == old(calls) + [c]
    {
      calls := calls + [c];
    }
  }

  /** `view?.setter(...)`: the call reaches the view only when there is one. */
  method Call(view: ScannerView?, c: ViewCall)
    modifies view
    ensures view != null ==> view.calls == old(view.calls) + [c]
  {
    if view != null {
      view.Receive(c);
    }
  }

  // ---------------------------------------------------------------------
  // Emission interval
  // ---------------------------------------------------------------------

  /** The interval forwarded for a requested one: negative becomes 0.0,
      anything else (0.0 included) passes through. */
  function ClampEmissionInterval(interval: real): (r: real)
    ensures r >= 0.0
    ensures interval >= 0.0 ==> r == interval
    ensures interval < 0.0 ==> r == 0.0
  {
    if interval < 0.0 then 0.0 else interval
  }

  /** Clamping a forwarded interval again changes nothing. */
  lemma ClampIsIdempotent(interval: real)
    ensures ClampEmissionInterval(ClampEmissionInterval(interval)) == ClampEmissionInterval(interval)
  {
  }

  method SetBarcodeEmissionIntervalProp(view: ScannerView?, interval: real)
    modifies view
    ensures view != null ==> view.calls == old(view.calls) + [SetBarcodeEmissionInterval(ClampEmissionInterval(interval))]
  {
    var actualInterval := ClampEmissionInterval(interval);
    Call(view, SetBarcodeEmissionInterval(actualInterval));
  }

  // ---------------------------------------------------------------------
  // Scan strategy, pause, torch, zoom, keep-screen-on
  // ---------------------------------------------------------------------

  /** `strategy ?: "ALL"`. */
  function StrategyOrDefault(strategy: Option<string>): (s: string)
    ensures strategy.None? ==> s == "ALL"
    ensures strategy.Some? ==> s == strategy.value
  {
    if strategy.Some? then strategy.value else "ALL"
  }

  /** A missing strategy on Android is the iOS default strategy. */
  lemma MissingStrategyIsIosDefault()
    ensures Models.StrategyFromRawValue(StrategyOrDefault(None)) == Some(Models.DefaultStrategy())
  {
  }

  method SetBarcodeScanStrategyProp(view: ScannerView?, strategy: Option<string>)
    modifies view
    ensures view != null ==> view.calls == old(view.calls) + [SetBarcodeScanStrategy(StrategyOrDefault(strategy))]
  {
    Call(view, SetBarcodeScanStrategy(StrategyOrDefault(strategy)));
  }

  /** `true` pauses and `false` resumes; nothing else is called. */
  method SetPauseScanningProp(view: ScannerView, value: bool)
    modifies view
    ensures view.calls == old(view.calls) + [if value then PauseScanning else ResumeScanning]
  {
    if value {
      view.Receive(PauseScanning);
    } else {
      view.Receive(ResumeScanning);
    }
  }

  method SetTorchProp(view: ScannerView, value: bool)
    modifies view
    ensures view.calls == old(view.calls) + [SetTorch(value)]
  {
    view.Receive(SetTorch(value));
  }

  method SetZoomProp(view: ScannerView?, zoom: real)
    modifies view
    ensures view != null ==> view.calls == old(view.calls) + [SetZoom(zoom)]
  {
    Call(view, SetZoom(zoom));
  }

  method SetKeepScreenOnProp(view: ScannerView, value: bool)
    modifies view
    ensures view.calls == old(view.calls) + [SetKeepScreenOnEnabled(value)]
  {
    view.Receive(SetKeepScreenOnEnabled(value));
  }

  // ---------------------------------------------------------------------
  // Frame size and focus area
  // ---------------------------------------------------------------------

  /** The `when` over the size's type: a number is a square, a map a
      rectangle, any other type the 300-point default square. Reading the
      type, `asInt()`, or a map's `getInt` may raise. */
  function FrameSizeFor(size: Dynamic): (r: Read<FrameSize>)
    ensures size.DynNumber? && size.asInt.Got? ==> r == Got(Square(size.asInt.v))
    ensures size.DynMap? && size.width.Got? && size.height.Got? ==>
              r == Got(Rectangle(size.width.v, size.height.v))
    ensures r.Raises? <==> size.DynUnreadable? || (size.DynNumber? && size.asInt.Raises?)
                           || (size.DynMap? && (size.width.Raises? || size.height.Raises?))
    ensures size.DynNull? || size.DynBoolean? || size.DynString? || size.DynArray? ==> r == Got(Square(300))
  {
    match size
    case DynUnreadable => Raises
    case DynNumber(n) => if n.Raises? then Raises else Got(Square(n.v))
    case DynMap(w, h) =>
      if w.Raises? || h.Raises? then Raises else Got(Rectangle(w.v, h.v))
    case _ => Got(Square(300))
  }

  /** The calls `setFocusArea` makes. All six reads come first, so a failed
      read of `enabled`, `showOverlay`, `borderColor`, `tintColor` or
      `position` raises before any call. The two flags are always
      forwarded; border colour, tint colour and position only when present;
      the size always, since `getDynamic` never returns null. */
  function FocusAreaEffect(focusArea: Option<ReadableFocusArea>): Effect {
    if focusArea.None? then Effect([], false)
    else
      var fa := focusArea.value;
      if fa.enabled.Raises? || fa.showOverlay.Raises? || fa.borderColor.Raises?
         || fa.tintColor.Raises? || fa.position.Raises? then Effect([], true)
      else ForwardedEffect(fa.enabled.v, fa.showOverlay.v, fa.borderColor.v, fa.tintColor.v, fa.position.v, fa.size)
  }

  /** The calls `setFocusArea` makes once its six reads have succeeded: the
      flags, the colours present, the position (whose reads may raise), then
      the size (whose reads may raise). */
  function ForwardedEffect(enabled: bool, showOverlay: bool, borderColor: Option<string>, tintColor: Option<string>,
                           position: Option<ReadablePosition>, size: Dynamic): Effect
  {
    var made := [SetFocusAreaEnabled(enabled), SetEnableFrame(showOverlay)] + ColorCalls(borderColor, tintColor);
    if position.Some? && (position.value.x.Raises? || position.value.y.Raises?) then Effect(made, true)
    else
      var placed := made + (if position.Some? then [SetPosition(position.value.x.v, position.value.y.v)] else []);
      var frameSize := FrameSizeFor(size);
      if frameSize.Raises? then Effect(placed, true)
      else Effect(placed + [SetFrameSize(frameSize.v)], false)
  }

  /** `setFocusArea` does nothing for null; otherwise it raises exactly when
      one of its reads raises, any call it makes starts with the two flags,
      and a run that does not raise ends by setting the frame size. */
  lemma FocusAreaOutcome(focusArea: Option<ReadableFocusArea>)
    ensures var e := FocusAreaEffect(focusArea);
      && (focusArea.None? ==> e == Effect([], false))
      && (focusArea.Some? ==> (e.raised <==> !ReadsSucceed(focusArea.value)))
      && (e.calls != [] ==>
            && focusArea.Some? && focusArea.value.enabled.Got? && focusArea.value.showOverlay.Got?
            && |e.calls| >= 2
            && e.calls[0] == SetFocusAreaEnabled(focusArea.value.enabled.v)
            && e.calls[1] == SetEnableFrame(focusArea.value.showOverlay.v))
      && (!e.raised && focusArea.Some? ==>
            e.calls != [] && e.calls[|e.calls| - 1] == SetFrameSize(FrameSizeFor(focusArea.value.size).v))
  {
  }

  /** All six reads of `setFocusArea` succeed and so do the later ones of
      `position` and `size`. */
  predicate ReadsSucceed(fa: ReadableFocusArea) {
    && fa.enabled.Got? && fa.showOverlay.Got? && fa.borderColor.Got? && fa.tintColor.Got? && fa.position.Got?
    && (fa.position.v.Some? ==> fa.position.v.value.x.Got? && fa.position.v.value.y.Got?)
    && FrameSizeFor(fa.size).Got?
  }

  method SetFocusAreaProp(view: ScannerView?, focusArea: Option<ReadableFocusArea>) returns (raised: bool)
    modifies view
    ensures raised == FocusAreaEffect(focusArea).raised
    ensures view != null ==> view.calls == old(view.calls) + FocusAreaEffect(focusArea).calls
  {
    raised := false;
    if focusArea.None? {
      return;
    }
    var fa := focusArea.value;
    if fa.enabled.Raises? || fa.showOverlay.Raises? || fa.borderColor.Raises?
       || fa.tintColor.Raises? || fa.position.Raises? {
      raised := true;
      return;
    }
    raised := ForwardFocusArea(view, fa.enabled.v, fa.showOverlay.v, fa.borderColor.v, fa.tintColor.v,
                               fa.position.v, fa.size);
  }

  /** The setter calls of `setFocusArea`, after its six reads. */
  method ForwardFocusArea(view: ScannerView?, enabled: bool, showOverlay: bool,
                          borderColor: Option<string>, tintColor: Option<string>,
                          position: Option<ReadablePosition>, size: Dynamic) returns (raised: bool)
    modifies view
    ensures raised == ForwardedEffect(enabled, showOverlay, borderColor, tintColor, position, size).raised
    ensures view != null ==>
              view.calls == old(view.calls) + ForwardedEffect(enabled, showOverlay, borderColor, tintColor, position, size).calls
  {
    ghost var effect := ForwardedEffect(enabled, showOverlay, borderColor, tintColor, position, size);
    ghost var before := if view != null then view.calls else [];
    ForwardFlagsAndColors(view, enabled, showOverlay, borderColor, tintColor);
    ghost var made := [SetFocusAreaEnabled(enabled), SetEnableFrame(showOverlay)] + ColorCalls(borderColor, tintColor);
    raised := ForwardPosition(view, position);
    if raised {
      assert effect == Effect(made, true);
      return;
    }
    made := made + (if position.Some? then [SetPosition(position.value.x.v, position.value.y.v)] else []);
    assert view != null ==> view.calls == before + made;
    raised := ForwardFrameSize(view, size);
    assert raised ==> effect == Effect(made, true);
    assert !raised ==> effect == Effect(made + [SetFrameSize(FrameSizeFor(size).v)], false);
  }

  /** The unconditional steps of `setFocusArea`: both flags, then the
      colours that are present. */
  method ForwardFlagsAndColors(view: ScannerView?, enabled: bool, showOverlay: bool,
                               borderColor: Option<string>, tintColor: Option<string>)
    modifies view
    ensures view != null ==>
              view.calls == old(view.calls) + [SetFocusAreaEnabled(enabled), SetEnableFrame(showOverlay)]
                            + ColorCalls(borderColor, tintColor)
  {
    Call(view, SetFocusAreaEnabled(enabled));
    Call(view, SetEnableFrame(showOverlay));
    ForwardColors(view, borderColor, tintColor);
  }

  /** The position step of `setFocusArea`: when a position map is present,
      read `x` then `y`, and set the position if both reads succeed. */
  method ForwardPosition(view: ScannerView?, position: Option<ReadablePosition>) returns (raised: bool)
    modifies view
    ensures raised <==> position.Some? && (position.value.x.Raises? || position.value.y.Raises?)
    ensures view != null && raised ==> view.calls == old(view.calls)
    ensures view != null && !raised ==>
              view.calls == old(view.calls) + (if position.Some? then [SetPosition(position.value.x.v, position.value.y.v)] else [])
  {
    raised := false;
    if position.Some? {
      if position.value.x.Raises? || position.value.y.Raises? {
        raised := true;
        return;
      }
      Call(view, SetPosition(position.value.x.v, position.value.y.v));
    }
  }

  /** The size step of `setFocusArea`: pick the frame size by the size's
      type and set it, unless reading a map's width or height raises. */
  method ForwardFrameSize(view: ScannerView?, size: Dynamic) returns (raised: bool)
    modifies view
    ensures raised <==> FrameSizeFor(size).Raises?
    ensures view != null && raised ==> view.calls == old(view.calls)
    ensures view != null && !raised ==> view.calls == old(view.calls) + [SetFrameSize(FrameSizeFor(size).v)]
  {
    raised := false;
    var frameSize: FrameSize;
    match size {
      case DynUnreadable =>
        raised := true;
        return;
      case DynNumber(n) =>
        if n.Raises? {
          raised := true;
          return;
        }
        frameSize := Square(n.v);
      case DynMap(w, h) =>
        if w.Raises? || h.Raises? {
          raised := true;
          return;
        }
        frameSize := Rectangle(w.v, h.v);
      case _ =>
        frameSize := Square(300);
    }
    Call(view, SetFrameSize(frameSize));
  }

  /** The optional colour setters of `setFocusArea`, border before tint. */
  function ColorCalls(borderColor: Option<string>, tintColor: Option<string>): (calls: seq<ViewCall>)
    ensures forall c :: SetBorderColor(c) in calls <==> borderColor == Some(c)
    ensures forall c :: SetTintColor(c) in calls <==> tintColor == Some(c)
    ensures |calls| == (if borderColor.Some? then 1 else 0) + (if tintColor.Some? then 1 else 0)
  {
    (if borderColor.Some? then [SetBorderColor(borderColor.value)] else [])
    + (if tintColor.Some? then [SetTintColor(tintColor.value)] else [])
  }

  method ForwardColors(view: ScannerView?, borderColor: Option<string>, tintColor: Option<string>)
    modifies view
    ensures view != null ==> view.calls == old(view.calls) + ColorCalls(borderColor, tintColor)
  {
    if borderColor.Some? {
      Call(view, SetBorderColor(borderColor.value));
    }
    if tintColor.Some? {
      Call(view, SetTintColor(tintColor.value));
    }
  }

  /** A null `focusArea` makes no call. */
  lemma NullFocusAreaCallsNothing()
    ensures FocusAreaEffect(None) == Effect([], false)
  {
  }

  /** When every read succeeds: the two flags come first, then the colours,
      then the position, and the size last; each optional setter is called
      exactly when its value is present, and nothing else is called. */
  lemma FocusAreaForwarding(fa: ReadableFocusArea)
    requires ReadsSucceed(fa)
    ensures var e := FocusAreaEffect(Some(fa));
      && !e.raised
      && e.calls == [SetFocusAreaEnabled(fa.enabled.v), SetEnableFrame(fa.showOverlay.v)]
                    + ColorCalls(fa.borderColor.v, fa.tintColor.v)
                    + (if fa.position.v.Some? then [SetPosition(fa.position.v.value.x.v, fa.position.v.value.y.v)] else [])
                    + [SetFrameSize(FrameSizeFor(fa.size).v)]
      && |e.calls| == 3 + |ColorCalls(fa.borderColor.v, fa.tintColor.v)| + (if fa.position.v.Some? then 1 else 0)
      && (forall c :: SetBorderColor(c) in e.calls <==> fa.borderColor.v == Some(c))
      && (forall c :: SetTintColor(c) in e.calls <==> fa.tintColor.v == Some(c))
      && (forall x, y :: SetPosition(x, y) in e.calls <==>
            fa.position.v.Some? && fa.position.v.value.x == Got(x) && fa.position.v.value.y == Got(y))
  {
    var e := FocusAreaEffect(Some(fa));
    var flags := [SetFocusAreaEnabled(fa.enabled.v), SetEnableFrame(fa.showOverlay.v)];
    var colors := ColorCalls(fa.borderColor.v, fa.tintColor.v);
    var pos := fa.position.v;
    var placing := if pos.Some? then [SetPosition(pos.value.x.v, pos.value.y.v)] else [];
    var last := [SetFrameSize(FrameSizeFor(fa.size).v)];
    assert e.calls == flags + colors + placing + last;
    forall c: ViewCall ensures c in e.calls <==> c in flags || c in colors || c in placing || c in last {
      InConcat4(flags, colors, placing, last, c);
    }
  }

  lemma InConcat4<T>(a: seq<T>, b: seq<T>, c: seq<T>, d: seq<T>, x: T)
    ensures x in a + b + c + d <==> x in a || x in b || x in c || x in d
  {
  }

  /** A failed read of one of the first five entries raises before any
      setter is called. */
  lemma FailedEagerReadCallsNothing(fa: ReadableFocusArea)
    requires fa.enabled.Raises? || fa.showOverlay.Raises? || fa.borderColor.Raises?
             || fa.tintColor.Raises? || fa.position.Raises?
    ensures FocusAreaEffect(Some(fa)) == Effect([], true)
  {
  }

  /** Once the five eager reads succeed, the two flags and the colours
      present are always forwarded first. A failed `x` or `y` read raises
      right after them; a failed size read raises after the position, and
      the frame size is then never set. */
  lemma FocusAreaLateRaise(fa: ReadableFocusArea)
    requires fa.enabled.Got? && fa.showOverlay.Got? && fa.borderColor.Got? && fa.tintColor.Got? && fa.position.Got?
    ensures var e := FocusAreaEffect(Some(fa));
      var made := [SetFocusAreaEnabled(fa.enabled.v), SetEnableFrame(fa.showOverlay.v)]
                  + ColorCalls(fa.borderColor.v, fa.tintColor.v);
      var pos := fa.position.v;
      && |made| <= |e.calls| && e.calls[..|made|] == made
      && (pos.Some? && (pos.value.x.Raises? || pos.value.y.Raises?) ==> e == Effect(made, true))
      && (!(pos.Some? && (pos.value.x.Raises? || pos.value.y.Raises?)) && FrameSizeFor(fa.size).Raises? ==>
            e == Effect(made + (if pos.Some? then [SetPosition(pos.value.x.v, pos.value.y.v)] else []), true))
  {
  }

  /** A position map with `x` but no `y`: both flags and the border colour
      are set, then the `y` read raises and the frame size is never set. */
  lemma PositionWithoutYStopsAfterColors()
    ensures var fa := ReadableFocusArea(Got(true), Got(false), Got(Some("#FF0000")), Got(None), DynNumber(Got(200)),
                                        Got(Some(ReadablePosition(Got(50.0), Raises))));
      FocusAreaEffect(Some(fa)) == Effect([SetFocusAreaEnabled(true), SetEnableFrame(false), SetBorderColor("#FF0000")], true)
  {
  }

  // ---------------------------------------------------------------------
  // Barcode frames
  // ---------------------------------------------------------------------

  /** The calls `setBarcodeFrames` makes: after its three reads, the two
      flags always, the colour only when present. */
  function BarcodeFramesEffect(barcodeFrames: Option<ReadableBarcodeFrames>): (e: Effect)
    ensures barcodeFrames.None? ==> e == Effect([], false)
    ensures barcodeFrames.Some? && barcodeFrames.value.enabled.Got? && barcodeFrames.value.color.Got?
            && barcodeFrames.value.onlyInFocusArea.Got? ==>
              !e.raised && |e.calls| == 2 + (if barcodeFrames.value.color.v.Some? then 1 else 0)
              && e.calls[0] == SetBarcodeFramesEnabled(barcodeFrames.value.enabled.v)
              && e.calls[1] == SetShowBarcodeFramesOnlyInFrame(barcodeFrames.value.onlyInFocusArea.v)
              && (forall c :: SetBarcodeFramesColor(c) in e.calls <==> barcodeFrames.value.color.v == Some(c))
    ensures barcodeFrames.Some? ==>
              (barcodeFrames.value.enabled.Raises? || barcodeFrames.value.color.Raises?
               || barcodeFrames.value.onlyInFocusArea.Raises?) ==> e == Effect([], true)
  {
    if barcodeFrames.None? then Effect([], false)
    else
      var bf := barcodeFrames.value;
      if bf.enabled.Raises? || bf.color.Raises? || bf.onlyInFocusArea.Raises? then Effect([], true)
      else
        Effect([SetBarcodeFramesEnabled(bf.enabled.v), SetShowBarcodeFramesOnlyInFrame(bf.onlyInFocusArea.v)]
               + (if bf.color.v.Some? then [SetBarcodeFramesColor(bf.color.v.value)] else []), false)
  }

  method SetBarcodeFramesProp(view: ScannerView?, barcodeFrames: Option<ReadableBarcodeFrames>) returns (raised: bool)
    modifies view
    ensures raised == BarcodeFramesEffect(barcodeFrames).raised
    ensures view != null ==> view.calls == old(view.calls) + BarcodeFramesEffect(barcodeFrames).calls
  {
    raised := false;
    if barcodeFrames.None? {
      return;
    }
    var bf := barcodeFrames.value;
    if bf.enabled.Raises? || bf.color.Raises? || bf.onlyInFocusArea.Raises? {
      raised := true;
      return;
    }
    var enabled, color, onlyInFocusArea := bf.enabled.v, bf.color.v, bf.onlyInFocusArea.v;
    Call(view, SetBarcodeFramesEnabled(enabled));
    Call(view, SetShowBarcodeFramesOnlyInFrame(onlyInFocusArea));
    if color.Some? {
      Call(view, SetBarcodeFramesColor(color.value));
    }
  }

  // ---------------------------------------------------------------------
  // The two platforms on one size prop
  // ---------------------------------------------------------------------

  const IntMin: int := -0x8000_0000
  const IntMax: int := 0x7FFF_FFFF

  /** Kotlin's `Double.toInt()`: truncation toward zero, saturating at the
      32-bit bounds. */
  function DoubleToInt(x: real): (i: int)
    ensures IntMin <= i <= IntMax
    ensures IntMin as real <= x <= IntMax as real && x >= 0.0 ==> i as real <= x < i as real + 1.0
    ensures IntMin as real <= x <= IntMax as real && x < 0.0 ==> i as real - 1.0 < x <= i as real
    ensures x >= IntMax as real ==> i == IntMax
    ensures x <= IntMin as real ==> i == IntMin
  {
    if x >= IntMax as real then IntMax
    else if x <= IntMin as real then IntMin
    else if x >= 0.0 then x.Floor
    else -((-x).Floor)
  }

  /** The `Dynamic` Android sees for a bridge value, assuming reading the
      type and `asInt` of a present value never raises, `asInt` and
      `getInt` truncate the number, and `getInt` raises on an entry that is
      missing or not a number. */
  function DynamicOf(v: Value): Dynamic {
    match v
    case Null => DynNull
    case Bool(_) => DynBoolean
    case Number(n) => DynNumber(Got(DoubleToInt(n)))
    case Str(_) => DynString
    case Dict(e) =>
      DynMap(if Models.HasNumber(e, "width") then Got(DoubleToInt(e["width"].n)) else Raises,
             if Models.HasNumber(e, "height") then Got(DoubleToInt(e["height"].n)) else Raises)
    case Array(_) => DynArray
  }

  /** Both platforms read the same size prop alike, up to Android's integer
      truncation, except for a map lacking a numeric `width` or `height`:
      iOS falls back to the 300-point square where Android raises. */
  lemma FrameSizePlatformsAgree(v: Value)
    ensures var ios, android := Models.FrameSizeFrom(v), FrameSizeFor(DynamicOf(v));
      match ios
      case Square(s) =>
        if v.Dict? then android.Raises? && s == 300.0
        else android == Got(Square(DoubleToInt(s)))
      case Rectangle(w, h) => android == Got(Rectangle(DoubleToInt(w), DoubleToInt(h)))
  {
    if !v.Number? && !v.Dict? {
      assert DoubleToInt(300.0) == 300;
    }
  }
}
