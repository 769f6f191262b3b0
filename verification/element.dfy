/**
 * A placeable label element: optional x/y positions in dots, the printer
 * configuration lent to it by its label, and its own encoding. The encoding
 * is chosen by the element's kind: an element that keeps the default encoding
 * produces nothing, a QR-code element produces its `^BQ`/`^FD` fragment.
 */
module Element {
  import opened Wrappers
  import opened Decimal
  import opened ZplUtils
  import opened Enums
  import opened Options
  import opened QRCode

  /** Which encoding an element has: the default one, or the QR code's. */
  datatype ElementKind = Default | QRCode(fields: QRCodeFields)

  /** The fragment `getZplCode` returns for an element of this kind. */
  function ElementZpl(kind: ElementKind): string
  {
    match kind
    case Default => ""
    case QRCode(q) => QRCodeZpl(q)
  }

  /** Every element fragment is empty or is a `^BQ` command; only the default kind gives the empty one. */
  lemma ElementZplShape(kind: ElementKind)
    ensures ElementZpl(kind) == "" <==> kind.Default?
    ensures kind.QRCode? ==> StartsWith(ElementZpl(kind), "^BQ")
  {
    if kind.QRCode? {
      QRCodeStart(kind.fields);
    }
  }

  /** The position fragment: a field-typeset command, written only when both coordinates are set. */
  function PositionZpl(x: Option<int>, y: Option<int>): (r: string)
    ensures r != "" <==> x.Some? && y.Some?
  {
    if x.Some? && y.Some? then ZplCommand("FT", [IntToString(x.value), IntToString(y.value)]) else ""
  }

  /** Reads a position fragment back into its coordinates. */
  function ParsePosition(s: string): Option<(int, int)>
  {
    match ParseCommand(s)
    case Some((m, ps)) =>
      if m == "FT" && |ps| == 2 then
        match (ParseInt(ps[0]), ParseInt(ps[1]))
        case (Some(x), Some(y)) => Some((x, y))
        case _ => None
      else None
    case None => None
  }

  /** The position fragment carries exactly the two coordinates, and nothing when either is missing. */
  lemma PositionRoundTrip(x: Option<int>, y: Option<int>)
    ensures ParsePosition(PositionZpl(x, y))
            == if x.Some? && y.Some? then Some((x.value, y.value)) else None
  {
    if x.Some? && y.Some? {
      var ps := [IntToString(x.value), IntToString(y.value)];
      IntegerTokenShape(x);
      IntegerTokenShape(y);
      CommandRoundTrip("FT", ps);
      IntRoundTrip(x.value);
      IntRoundTrip(y.value);
    }
  }

  class ZebraElement {
    var positionX: Option<int>
    var positionY: Option<int>
    var printerOptions: PrinterOptions?
    var kind: ElementKind

    /** An element that keeps the default encoding, not yet placed. */
    constructor Default()
      ensures positionX == None && positionY == None && printerOptions == null
      ensures kind == ElementKind.Default
    {
      positionX, positionY, printerOptions := None, None, null;
      kind := ElementKind.Default;
    }

    /** `ZebraQRCode(text)`: the payload with the default settings. */
    constructor QRCode(text: string)
      ensures positionX == None && positionY == None && printerOptions == null
      ensures kind == ElementKind.QRCode(QRCodeFields(NORMAL, MODEL2, QRCodeDataInputMode.M,
                                                      QRCodeCharacterMode.A, STANDARD, "", text))
    {
      positionX, positionY, printerOptions := None, None, null;
      kind := ElementKind.QRCode(QRCodeFields(NORMAL, MODEL2, QRCodeDataInputMode.M,
                                              QRCodeCharacterMode.A, STANDARD, "", text));
    }

    /** `ZebraQRCode(text, magnification)`: the default settings with the given magnification. */
    constructor QRCodeMagnified(text: string, magnification: string)
      ensures positionX == None && positionY == None && printerOptions == null
      ensures kind == ElementKind.QRCode(QRCodeFields(NORMAL, MODEL2, QRCodeDataInputMode.M,
                                                      QRCodeCharacterMode.A, STANDARD, magnification, text))
    {
      positionX, positionY, printerOptions := None, None, null;
      kind := ElementKind.QRCode(QRCodeFields(NORMAL, MODEL2, QRCodeDataInputMode.M,
                                              QRCodeCharacterMode.A, STANDARD, magnification, text));
    }

    /** The seven-argument `ZebraQRCode` constructor: every setting given. */
    constructor QRCodeWith(zebraRotation: ZebraRotation, model: QRCodeModel, inputMode: QRCodeDataInputMode,
                           characterMode: QRCodeCharacterMode, errorCorrection: QRCodeErrorCorrection,
                           magnification: string, text: string)
      ensures positionX == None && positionY == None && printerOptions == null
      ensures kind == ElementKind.QRCode(QRCodeFields(zebraRotation, model, inputMode, characterMode,
                                                      errorCorrection, magnification, text))
    {
      positionX, positionY, printerOptions := None, None, null;
      kind := ElementKind.QRCode(QRCodeFields(zebraRotation, model, inputMode, characterMode,
                                              errorCorrection, magnification, text));
    }

    /** `getPositionX`: defined only once the coordinate is set (unboxing null fails). */
    function PositionX(): (x: int)
      reads this
      requires positionX.Some?
      ensures positionX == Some(x)
    {
      positionX.value
    }

    /** `getPositionY`: defined only once the coordinate is set (unboxing null fails). */
    function PositionY(): (y: int)
      reads this
      requires positionY.Some?
      ensures positionY == Some(y)
    {
      positionY.value
    }

    method SetPositionX(x: int) returns (self: ZebraElement)
      modifies this`positionX
      ensures positionX == Some(x) && self == this
    {
      positionX := Some(x);
      self := this;
    }

    method SetPositionY(y: int) returns (self: ZebraElement)
      modifies this`positionY
      ensures positionY == Some(y) && self == this
    {
      positionY := Some(y);
      self := this;
    }

    method SetPrinterOptions(options: PrinterOptions?)
      modifies this`printerOptions
      ensures printerOptions == options
    {
      printerOptions := options;
    }

    /** `getZplCode`, dispatched on the kind of element. */
    method GetZplCode() returns (zpl: string)
      ensures zpl == ElementZpl(kind)
      ensures zpl == "" <==> kind.Default?
    {
      match kind
      case Default =>
        zpl := "";
      case QRCode(q) =>
        zpl := BuildZpl(q);
        QRCodeStart(q);
    }

    /** `getZplCodePosition`: the `^FT` command for a fully set position, otherwise nothing. */
    method GetZplCodePosition() returns (zpl: string)
      ensures zpl == PositionZpl(positionX, positionY)
      ensures ParsePosition(zpl) == if positionX.Some? && positionY.Some?
                                    then Some((positionX.value, positionY.value)) else None
    {
      zpl := "";
      if positionX.Some? && positionY.Some? {
        zpl := zpl + ZplCommand("FT", [IntToString(positionX.value), IntToString(positionY.value)]);
      }
      PositionRoundTrip(positionX, positionY);
    }

    method SetZebraRotation(zebraRotation: ZebraRotation)
      requires kind.QRCode?
      modifies this`kind
      ensures kind == ElementKind.QRCode(old(kind.fields).(zebraRotation := zebraRotation))
    {
      kind := ElementKind.QRCode(kind.fields.(zebraRotation := zebraRotation));
    }

    method SetModel(model: QRCodeModel)
      requires kind.QRCode?
      modifies this`kind
      ensures kind == ElementKind.QRCode(old(kind.fields).(model := model))
    {
      kind := ElementKind.QRCode(kind.fields.(model := model));
    }

    method SetInputMode(inputMode: QRCodeDataInputMode)
      requires kind.QRCode?
      modifies this`kind
      ensures kind == ElementKind.QRCode(old(kind.fields).(inputMode := inputMode))
    {
      kind := ElementKind.QRCode(kind.fields.(inputMode := inputMode));
    }

    method SetCharacterMode(characterMode: QRCodeCharacterMode)
      requires kind.QRCode?
      modifies this`kind
      ensures kind == ElementKind.QRCode(old(kind.fields).(characterMode := characterMode))
    {
      kind := ElementKind.QRCode(kind.fields.(characterMode := characterMode));
    }

    method SetErrorCorrection(errorCorrection: QRCodeErrorCorrection)
      requires kind.QRCode?
      modifies this`kind
      ensures kind == ElementKind.QRCode(old(kind.fields).(errorCorrection := errorCorrection))
    {
      kind := ElementKind.QRCode(kind.fields.(errorCorrection := errorCorrection));
    }

    method SetMagnification(magnification: string)
      requires kind.QRCode?
      modifies this`kind
      ensures kind == ElementKind.QRCode(old(kind.fields).(magnification := magnification))
    {
      kind := ElementKind.QRCode(kind.fields.(magnification := magnification));
    }

    method SetText(text: string)
      requires kind.QRCode?
      modifies this`kind
      ensures kind == ElementKind.QRCode(old(kind.fields).(text := text))
    {
      kind := ElementKind.QRCode(kind.fields.(text := text));
    }
  }
}
