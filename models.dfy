/** The value types of the iOS scanner (ios/Models.swift): barcode formats
    and their Vision symbologies, the scan strategy, the focus-area frame
    size, the two prop configurations decoded from React Native
    dictionaries, the event payloads encoded back into dictionaries, and
    the tracked barcode frame. A colour made from a hex string keeps that
    string; its channels are computed by module HexColor. */
module Models {
  import opened BridgeValues

  // ---------------------------------------------------------------------
  // Barcode formats
  // ---------------------------------------------------------------------

  datatype BarcodeFormat =
    QrCode | Code128 | Code39 | Ean13 | Ean8 | UpcA | UpcE | DataMatrix | Pdf417 | Aztec | Itf

  /** The subset of Vision's `VNBarcodeSymbology` that the formats map to. */
  datatype Symbology =
    Qr | Code128 | Code39 | Ean13 | Ean8 | Upce | DataMatrix | Pdf417 | Aztec | Itf14

  /** The string a format is known by on the JavaScript side. */
  function FormatRawValue(f: BarcodeFormat): string {
    match f
    case QrCode => "QR_CODE"
    case Code128 => "CODE_128"
    case Code39 => "CODE_39"
    case Ean13 => "EAN_13"
    case Ean8 => "EAN_8"
    case UpcA => "UPC_A"
    case UpcE => "UPC_E"
    case DataMatrix => "DATA_MATRIX"
    case Pdf417 => "PDF_417"
    case Aztec => "AZTEC"
    case Itf => "ITF"
  }

  /** `BarcodeFormat(rawValue:)`: the format with this raw value, if any. */
  function FormatFromRawValue(s: string): (f: Option<BarcodeFormat>)
    ensures f.Some? ==> FormatRawValue(f.value) == s
  {
    if s == "QR_CODE" then Some(QrCode)
    else if s == "CODE_128" then Some(BarcodeFormat.Code128)
    else if s == "CODE_39" then Some(BarcodeFormat.Code39)
    else if s == "EAN_13" then Some(BarcodeFormat.Ean13)
    else if s == "EAN_8" then Some(BarcodeFormat.Ean8)
    else if s == "UPC_A" then Some(UpcA)
    else if s == "UPC_E" then Some(UpcE)
    else if s == "DATA_MATRIX" then Some(BarcodeFormat.DataMatrix)
    else if s == "PDF_417" then Some(BarcodeFormat.Pdf417)
    else if s == "AZTEC" then Some(BarcodeFormat.Aztec)
    else if s == "ITF" then Some(Itf)
    else None
  }

  /** Every format's raw value reads back as that format. */
  lemma FormatRawValueRoundTrip(f: BarcodeFormat)
    ensures FormatFromRawValue(FormatRawValue(f)) == Some(f)
  {
  }

  /** `visionSymbology`: total, and the Vision symbology is `.upce` exactly
      for the two UPC formats. */
  function VisionSymbology(f: BarcodeFormat): (s: Symbology)
    ensures s == Upce <==> f == UpcA || f == UpcE
  {
    match f
    case QrCode => Qr
    case Code128 => Symbology.Code128
    case Code39 => Symbology.Code39
    case Ean13 => Symbology.Ean13
    case Ean8 => Symbology.Ean8
    case UpcA => Upce
    case UpcE => Upce
    case DataMatrix => Symbology.DataMatrix
    case Pdf417 => Symbology.Pdf417
    case Aztec => Symbology.Aztec
    case Itf => Itf14
  }

  /** UPC-A and UPC-E are the only two formats Vision cannot tell apart. */
  lemma VisionSymbologyMergesOnlyUpc(f: BarcodeFormat, g: BarcodeFormat)
    requires f != g && VisionSymbology(f) == VisionSymbology(g)
    ensures {f, g} == {UpcA, UpcE}
  {
  }

  /** `allFormats`: each of the eleven formats exactly once. */
  function AllFormats(): (r: seq<BarcodeFormat>)
    ensures |r| == 11
    ensures forall f :: f in r
    ensures forall i, j :: 0 <= i < j < |r| ==> r[i] != r[j]
  {
    var r := [QrCode, BarcodeFormat.Code128, BarcodeFormat.Code39, BarcodeFormat.Ean13, BarcodeFormat.Ean8,
              UpcA, UpcE, BarcodeFormat.DataMatrix, BarcodeFormat.Pdf417, BarcodeFormat.Aztec, Itf];
    EveryFormatListed(r);
    r
  }

  lemma EveryFormatListed(r: seq<BarcodeFormat>)
    requires r == [QrCode, BarcodeFormat.Code128, BarcodeFormat.Code39, BarcodeFormat.Ean13, BarcodeFormat.Ean8,
                   UpcA, UpcE, BarcodeFormat.DataMatrix, BarcodeFormat.Pdf417, BarcodeFormat.Aztec, Itf]
    ensures forall f :: f in r
  {
    forall f: BarcodeFormat ensures f in r {
      match f
      case QrCode => assert r[0] == f;
      case Code128 => assert r[1] == f;
      case Code39 => assert r[2] == f;
      case Ean13 => assert r[3] == f;
      case Ean8 => assert r[4] == f;
      case UpcA => assert r[5] == f;
      case UpcE => assert r[6] == f;
      case DataMatrix => assert r[7] == f;
      case Pdf417 => assert r[8] == f;
      case Aztec => assert r[9] == f;
      case Itf => assert r[10] == f;
    }
  }

  // ---------------------------------------------------------------------
  // Scan strategy
  // ---------------------------------------------------------------------

  datatype ScanStrategy = One | All | Biggest | SortByBiggest

  function StrategyRawValue(s: ScanStrategy): string {
    match s
    case One => "ONE"
    case All => "ALL"
    case Biggest => "BIGGEST"
    case SortByBiggest => "SORT_BY_BIGGEST"
  }

  function StrategyFromRawValue(raw: string): (s: Option<ScanStrategy>)
    ensures s.Some? ==> StrategyRawValue(s.value) == raw
  {
    if raw == "ONE" then Some(One)
    else if raw == "ALL" then Some(All)
    else if raw == "BIGGEST" then Some(Biggest)
    else if raw == "SORT_BY_BIGGEST" then Some(SortByBiggest)
    else None
  }

  /** Every strategy is recovered from its own raw value. */
  lemma StrategyRawValueRoundTrip(s: ScanStrategy)
    ensures StrategyFromRawValue(StrategyRawValue(s)) == Some(s)
  {
  }

  /** `defaultStrategy`: the strategy whose raw value is "ALL". */
  function DefaultStrategy(): (s: ScanStrategy)
    ensures StrategyRawValue(s) == "ALL"
    ensures StrategyFromRawValue("ALL") == Some(s)
  {
    All
  }

  // ---------------------------------------------------------------------
  // Frame size
  // ---------------------------------------------------------------------

  datatype FrameSize = Square(size: real) | Rectangle(width: real, height: real)

  datatype CGSize = CGSize(width: real, height: real)

  /** `FrameSize.size`: a square is as wide as it is high; a rectangle keeps
      its own width and height. */
  function SizeOf(fs: FrameSize): (r: CGSize)
    ensures fs.Square? ==> r.width == fs.size && r.height == fs.size
    ensures fs.Rectangle? ==> r.width == fs.width && r.height == fs.height
  {
    match fs
    case Square(s) => CGSize(s, s)
    case Rectangle(w, h) => CGSize(w, h)
  }

  /** A dictionary entry holding a number. */
  predicate HasNumber(d: map<string, Value>, key: string) {
    key in d && d[key].Number?
  }

  /** `FrameSize.from(value:)`: a number is a square of that size, a
      dictionary with numeric `width` and `height` a rectangle, anything
      else the 300-point default square. */
  function FrameSizeFrom(v: Value): (fs: FrameSize)
    ensures v.Number? ==> fs == Square(v.n)
    ensures v.Dict? && HasNumber(v.entries, "width") && HasNumber(v.entries, "height") ==>
              fs == Rectangle(v.entries["width"].n, v.entries["height"].n)
    ensures fs.Rectangle? <==> v.Dict? && HasNumber(v.entries, "width") && HasNumber(v.entries, "height")
    ensures !v.Number? && !(v.Dict? && HasNumber(v.entries, "width") && HasNumber(v.entries, "height")) ==>
              fs == Square(300.0)
  {
    if v.Number? then Square(v.n)
    else if v.Dict? && HasNumber(v.entries, "width") && HasNumber(v.entries, "height") then
      Rectangle(v.entries["width"].n, v.entries["height"].n)
    else Square(300.0)
  }

  /** The prop value JavaScript passes for a frame size. */
  function FrameSizeProp(fs: FrameSize): Value {
    match fs
    case Square(s) => Number(s)
    case Rectangle(w, h) => Dict(map["width" := Number(w), "height" := Number(h)])
  }

  /** Decoding the prop of a frame size gives that frame size back. */
  lemma FrameSizeRoundTrip(fs: FrameSize)
    ensures FrameSizeFrom(FrameSizeProp(fs)) == fs
  {
  }

  // ---------------------------------------------------------------------
  // Colours and configurations
  // ---------------------------------------------------------------------

  /** A colour: one made by `UIColor(hexString:)`, whose 8-bit channels are
      `HexColor.HexChannels(hexString)`, or one of the named system colours
      the default configurations use. */
  datatype Color = FromHex(hexString: string) | Clear | Yellow | HalfTransparentBlack

  datatype Point = Point(x: real, y: real)

  datatype FocusAreaConfig = FocusAreaConfig(
    enabled: bool,
    showOverlay: bool,
    size: FrameSize,
    borderColor: Color,
    tintColor: Color,
    position: Point)

  const DefaultFocusAreaConfig: FocusAreaConfig :=
    FocusAreaConfig(false, false, Square(300.0), Clear, HalfTransparentBlack, Point(50.0, 50.0))

  predicate HasBool(d: map<string, Value>, key: string) {
    key in d && d[key].Bool?
  }

  predicate HasString(d: map<string, Value>, key: string) {
    key in d && d[key].Str?
  }

  /** The `position` entry is a dictionary with numeric `x` and `y`. */
  predicate HasPosition(d: map<string, Value>) {
    "position" in d && d["position"].Dict?
    && HasNumber(d["position"].entries, "x") && HasNumber(d["position"].entries, "y")
  }

  /** `dict[key] as? Bool`, falling back to `fallback`. */
  function BoolEntry(dict: map<string, Value>, key: string, fallback: bool): (b: bool)
    ensures HasBool(dict, key) ==> b == dict[key].b
    ensures !HasBool(dict, key) ==> b == fallback
  {
    if HasBool(dict, key) then dict[key].b else fallback
  }

  /** `UIColor(hexString: dict[key] as? String)`, falling back to `fallback`. */
  function ColorEntry(dict: map<string, Value>, key: string, fallback: Color): (c: Color)
    ensures HasString(dict, key) ==> c == FromHex(dict[key].s)
    ensures !HasString(dict, key) ==> c == fallback
  {
    if HasString(dict, key) then FromHex(dict[key].s) else fallback
  }

  /** The `position` entry as a point, falling back to `fallback`. */
  function PositionEntry(dict: map<string, Value>, fallback: Point): (p: Point)
    ensures HasPosition(dict) ==> p == Point(dict["position"].entries["x"].n, dict["position"].entries["y"].n)
    ensures !HasPosition(dict) ==> p == fallback
  {
    if HasPosition(dict) then Point(dict["position"].entries["x"].n, dict["position"].entries["y"].n) else fallback
  }

  /** `FocusAreaConfig.from(dict:)`: start from the defaults and overlay each
      entry of the right type onto its own field. */
  function FocusAreaConfigFrom(dict: map<string, Value>): (c: FocusAreaConfig)
    ensures HasBool(dict, "enabled") ==> c.enabled == dict["enabled"].b
    ensures !HasBool(dict, "enabled") ==> c.enabled == DefaultFocusAreaConfig.enabled
    ensures HasBool(dict, "showOverlay") ==> c.showOverlay == dict["showOverlay"].b
    ensures !HasBool(dict, "showOverlay") ==> c.showOverlay == DefaultFocusAreaConfig.showOverlay
    ensures "size" in dict ==> c.size == FrameSizeFrom(dict["size"])
    ensures "size" !in dict ==> c.size == DefaultFocusAreaConfig.size
    ensures HasString(dict, "borderColor") ==> c.borderColor == FromHex(dict["borderColor"].s)
    ensures !HasString(dict, "borderColor") ==> c.borderColor == DefaultFocusAreaConfig.borderColor
    ensures HasString(dict, "tintColor") ==> c.tintColor == FromHex(dict["tintColor"].s)
    ensures !HasString(dict, "tintColor") ==> c.tintColor == DefaultFocusAreaConfig.tintColor
    ensures HasPosition(dict) ==>
              c.position == Point(dict["position"].entries["x"].n, dict["position"].entries["y"].n)
    ensures !HasPosition(dict) ==> c.position == DefaultFocusAreaConfig.position
  {
    var c := DefaultFocusAreaConfig;
    var c := c.(enabled := BoolEntry(dict, "enabled", c.enabled));
    var c := c.(showOverlay := BoolEntry(dict, "showOverlay", c.showOverlay));
    var c := if "size" in dict then c.(size := FrameSizeFrom(dict["size"])) else c;
    var c := c.(borderColor := ColorEntry(dict, "borderColor", c.borderColor));
    var c := c.(tintColor := ColorEntry(dict, "tintColor", c.tintColor));
    var c := c.(position := PositionEntry(dict, c.position));
    c
  }

  /** An empty dictionary decodes to the default configuration. */
  lemma FocusAreaConfigFromEmpty()
    ensures FocusAreaConfigFrom(map[]) == DefaultFocusAreaConfig
  {
  }

  /** Setting one entry changes at most the field that entry names; an entry
      the decoder does not know changes nothing. */
  lemma FocusAreaConfigKeyIsolation(dict: map<string, Value>, k: string, v: Value)
    ensures var before, after := FocusAreaConfigFrom(dict), FocusAreaConfigFrom(dict[k := v]);
      && (k != "enabled" ==> after.enabled == before.enabled)
      && (k != "showOverlay" ==> after.showOverlay == before.showOverlay)
      && (k != "size" ==> after.size == before.size)
      && (k != "borderColor" ==> after.borderColor == before.borderColor)
      && (k != "tintColor" ==> after.tintColor == before.tintColor)
      && (k != "position" ==> after.position == before.position)
  {
    var d' := dict[k := v];
    assert k != "position" ==> (HasPosition(d') <==> HasPosition(dict));
  }

  datatype BarcodeFramesConfig = BarcodeFramesConfig(enabled: bool, color: Color, onlyInFocusArea: bool)

  const DefaultBarcodeFramesConfig: BarcodeFramesConfig := BarcodeFramesConfig(false, Yellow, false)

  /** `BarcodeFramesConfig.from(dict:)`: defaults overlaid with each entry of
      the right type. */
  function BarcodeFramesConfigFrom(dict: map<string, Value>): (c: BarcodeFramesConfig)
    ensures HasBool(dict, "enabled") ==> c.enabled == dict["enabled"].b
    ensures !HasBool(dict, "enabled") ==> c.enabled == DefaultBarcodeFramesConfig.enabled
    ensures HasString(dict, "color") ==> c.color == FromHex(dict["color"].s)
    ensures !HasString(dict, "color") ==> c.color == DefaultBarcodeFramesConfig.color
    ensures HasBool(dict, "onlyInFocusArea") ==> c.onlyInFocusArea == dict["onlyInFocusArea"].b
    ensures !HasBool(dict, "onlyInFocusArea") ==> c.onlyInFocusArea == DefaultBarcodeFramesConfig.onlyInFocusArea
  {
    var c := DefaultBarcodeFramesConfig;
    var c := c.(enabled := BoolEntry(dict, "enabled", c.enabled));
    var c := c.(color := ColorEntry(dict, "color", c.color));
    var c := c.(onlyInFocusArea := BoolEntry(dict, "onlyInFocusArea", c.onlyInFocusArea));
    c
  }

  lemma BarcodeFramesConfigFromEmpty()
    ensures BarcodeFramesConfigFrom(map[]) == DefaultBarcodeFramesConfig
  {
  }

  // ---------------------------------------------------------------------
  // Event payloads
  // ---------------------------------------------------------------------

  datatype BarcodeDetectionResult = BarcodeDetectionResult(
    data: string,
    format: string,
    timestamp: real,
    boundingBox: Option<Rect>,
    area: Option<real>)

  function OptionalKey<T>(key: string, o: Option<T>): set<string> {
    if o.Some? then {key} else {}
  }

  /** `BarcodeDetectionResult.toDictionary`: the three mandatory entries,
      plus `boundingBox` (as its four edges) and `area` exactly when present. */
  function DetectionResultToDictionary(r: BarcodeDetectionResult): (d: map<string, Value>)
    ensures d.Keys == {"data", "format", "timestamp"}
                      + OptionalKey("boundingBox", r.boundingBox) + OptionalKey("area", r.area)
  {
    var d := map["data" := Str(r.data), "format" := Str(r.format), "timestamp" := Number(r.timestamp)];
    var d := if r.boundingBox.Some? then
               var box := r.boundingBox.value;
               d["boundingBox" := Dict(map["left" := Number(box.MinX()), "top" := Number(box.MinY()),
                                           "right" := Number(box.MaxX()), "bottom" := Number(box.MaxY())])]
             else d;
    var d := if r.area.Some? then d["area" := Number(r.area.value)] else d;
    d
  }

  /** How the JavaScript side reads a detection event back. */
  function DetectionResultFromDictionary(d: map<string, Value>): Option<BarcodeDetectionResult> {
    if HasString(d, "data") && HasString(d, "format") && HasNumber(d, "timestamp") then
      var box :=
        if "boundingBox" in d && d["boundingBox"].Dict? then
          var e := d["boundingBox"].entries;
          if HasNumber(e, "left") && HasNumber(e, "top") && HasNumber(e, "right") && HasNumber(e, "bottom") then
            Some(Rect(e["left"].n, e["top"].n, e["right"].n - e["left"].n, e["bottom"].n - e["top"].n))
          else None
        else None;
      var area := if HasNumber(d, "area") then Some(d["area"].n) else None;
      Some(BarcodeDetectionResult(d["data"].s, d["format"].s, d["timestamp"].n, box, area))
    else None
  }

  /** Encoding then decoding a detection result gives it back, with its
      bounding box standardized (non-negative width and height); the result
      comes back unchanged exactly when it has no box or its box is already
      standard. */
  lemma DetectionResultRoundTrip(r: BarcodeDetectionResult)
    ensures var box := if r.boundingBox.Some? then Some(r.boundingBox.value.Standardized()) else None;
      DetectionResultFromDictionary(DetectionResultToDictionary(r)) == Some(r.(boundingBox := box))
    ensures DetectionResultFromDictionary(DetectionResultToDictionary(r)) == Some(r) <==>
      r.boundingBox.None? || (r.boundingBox.value.width >= 0.0 && r.boundingBox.value.height >= 0.0)
  {
  }

  datatype ErrorCode =
    CameraPermissionDenied | CameraInitializationFailed | CameraNotAvailable | BarcodeDetectionFailed | Unknown

  function ErrorCodeRawValue(c: ErrorCode): string {
    match c
    case CameraPermissionDenied => "CAMERA_PERMISSION_DENIED"
    case CameraInitializationFailed => "CAMERA_INITIALIZATION_FAILED"
    case CameraNotAvailable => "CAMERA_NOT_AVAILABLE"
    case BarcodeDetectionFailed => "BARCODE_DETECTION_FAILED"
    case Unknown => "UNKNOWN_ERROR"
  }

  function ErrorCodeFromRawValue(s: string): (c: Option<ErrorCode>)
    ensures c.Some? ==> ErrorCodeRawValue(c.value) == s
  {
    if s == "CAMERA_PERMISSION_DENIED" then Some(CameraPermissionDenied)
    else if s == "CAMERA_INITIALIZATION_FAILED" then Some(CameraInitializationFailed)
    else if s == "CAMERA_NOT_AVAILABLE" then Some(CameraNotAvailable)
    else if s == "BARCODE_DETECTION_FAILED" then Some(BarcodeDetectionFailed)
    else if s == "UNKNOWN_ERROR" then Some(Unknown)
    else None
  }

  datatype ScannerError = ScannerError(error: string, code: string)

  /** `ScannerError.from(code:message:)`: the message is kept and the code
      is stored as its raw value, which reads back as the same code. */
  function ScannerErrorFrom(code: ErrorCode, message: string): (e: ScannerError)
    ensures e.error == message
    ensures ErrorCodeFromRawValue(e.code) == Some(code)
  {
    ScannerError(message, ErrorCodeRawValue(code))
  }

  /** `ScannerError.toDictionary`: exactly the entries `error` and `code`. */
  function ScannerErrorToDictionary(e: ScannerError): (d: map<string, Value>)
    ensures d.Keys == {"error", "code"}
  {
    map["error" := Str(e.error), "code" := Str(e.code)]
  }

  function ScannerErrorFromDictionary(d: map<string, Value>): Option<ScannerError> {
    if HasString(d, "error") && HasString(d, "code") then Some(ScannerError(d["error"].s, d["code"].s))
    else None
  }

  lemma ScannerErrorRoundTrip(e: ScannerError)
    ensures ScannerErrorFromDictionary(ScannerErrorToDictionary(e)) == Some(e)
  {
  }

  datatype LoadEventPayload = LoadEventPayload(success: bool, error: Option<string>)

  /** `LoadEventPayload.toDictionary`: `success` always, `error` only when
      there is one. */
  function LoadEventToDictionary(p: LoadEventPayload): (d: map<string, Value>)
    ensures d.Keys == {"success"} + OptionalKey("error", p.error)
  {
    var d := map["success" := Bool(p.success)];
    if p.error.Some? then d["error" := Str(p.error.value)] else d
  }

  function LoadEventFromDictionary(d: map<string, Value>): Option<LoadEventPayload> {
    if HasBool(d, "success") then
      Some(LoadEventPayload(d["success"].b, if HasString(d, "error") then Some(d["error"].s) else None))
    else None
  }

  lemma LoadEventRoundTrip(p: LoadEventPayload)
    ensures LoadEventFromDictionary(LoadEventToDictionary(p)) == Some(p)
  {
  }

  // ---------------------------------------------------------------------
  // Tracked barcode frame
  // ---------------------------------------------------------------------

  /** `BarcodeFrame`: a rectangle and the time (seconds) it was last seen. */
  datatype BarcodeFrame = BarcodeFrame(rect: Rect, lastSeenTime: real)
}
