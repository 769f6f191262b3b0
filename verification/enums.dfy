/**
 * The closed sets of wire tokens the QR-code encoding uses: orientation,
 * model, input mode, character mode and error correction. Each token is one
 * character, and each token function has an inverse, so a token identifies
 * its constant. Also the print mode, font and density profile a label and
 * its printer configuration name.
 */
module Enums {
  import opened Wrappers

  /** Field orientation of the `^BQ` command. */
  datatype ZebraRotation = NORMAL | ROTATE_90 | INVERTED | READ_FROM_BOTTOM_UP
  {
    /** `getLetter` */
    function Letter(): char
    {
      match this
      case NORMAL => 'N'
      case ROTATE_90 => 'R'
      case INVERTED => 'I'
      case READ_FROM_BOTTOM_UP => 'B'
    }
  }

  function RotationFromLetter(c: char): (r: Option<ZebraRotation>)
    ensures r.Some? ==> r.value.Letter() == c
    ensures r.None? ==> forall z: ZebraRotation :: z.Letter() != c
  {
    if c == 'N' then Some(NORMAL)
    else if c == 'R' then Some(ROTATE_90)
    else if c == 'I' then Some(INVERTED)
    else if c == 'B' then Some(READ_FROM_BOTTOM_UP)
    else None
  }

  /** QR symbol model: 1 is the original, 2 the enhanced one. */
  datatype QRCodeModel = MODEL1 | MODEL2
  {
    /** `getModel` */
    function Digit(): char
    {
      match this
      case MODEL1 => '1'
      case MODEL2 => '2'
    }
  }

  function ModelFromDigit(c: char): (r: Option<QRCodeModel>)
    ensures r.Some? ==> r.value.Digit() == c
    ensures r.None? ==> forall m: QRCodeModel :: m.Digit() != c
  {
    if c == '1' then Some(MODEL1) else if c == '2' then Some(MODEL2) else None
  }

  /** Data input mode of the `^FD` field: A (automatic) or M (manual); the token is the constant's name. */
  datatype QRCodeDataInputMode = A | M
  {
    /** `name()` */
    function Name(): char
    {
      match this
      case A => 'A'
      case M => 'M'
    }
  }

  function InputModeFromName(c: char): (r: Option<QRCodeDataInputMode>)
    ensures r.Some? ==> r.value.Name() == c
    ensures r.None? ==> forall m: QRCodeDataInputMode :: m.Name() != c
  {
    if c == 'A' then Some(QRCodeDataInputMode.A)
    else if c == 'M' then Some(QRCodeDataInputMode.M)
    else None
  }

  /**
   * Character mode of manually entered data: N (numeric), A (alphanumeric),
   * B (8-bit byte), K (Kanji); the token is the constant's name.
   */
  datatype QRCodeCharacterMode = N | A | B | K
  {
    /** `name()` */
    function Name(): char
    {
      match this
      case N => 'N'
      case A => 'A'
      case B => 'B'
      case K => 'K'
    }
  }

  function CharacterModeFromName(c: char): (r: Option<QRCodeCharacterMode>)
    ensures r.Some? ==> r.value.Name() == c
    ensures r.None? ==> forall m: QRCodeCharacterMode :: m.Name() != c
  {
    if c == 'N' then Some(QRCodeCharacterMode.N)
    else if c == 'A' then Some(QRCodeCharacterMode.A)
    else if c == 'B' then Some(QRCodeCharacterMode.B)
    else if c == 'K' then Some(QRCodeCharacterMode.K)
    else None
  }

  /** Error-correction level: H ultra-high, Q high, M standard, L high density. */
  datatype QRCodeErrorCorrection = ULTRA_HIGH | HIGH | STANDARD | HIGH_DENSITY
  {
    /** `getLetter` */
    function Letter(): char
    {
      match this
      case ULTRA_HIGH => 'H'
      case HIGH => 'Q'
      case STANDARD => 'M'
      case HIGH_DENSITY => 'L'
    }
  }

  function ErrorCorrectionFromLetter(c: char): (r: Option<QRCodeErrorCorrection>)
    ensures r.Some? ==> r.value.Letter() == c
    ensures r.None? ==> forall e: QRCodeErrorCorrection :: e.Letter() != c
  {
    if c == 'H' then Some(ULTRA_HIGH)
    else if c == 'Q' then Some(HIGH)
    else if c == 'M' then Some(STANDARD)
    else if c == 'L' then Some(HIGH_DENSITY)
    else None
  }

  /**
   * What the printer does after each label. Tear-off is the label's default;
   * the other modes are known here only by name, and the fragment a mode
   * writes is supplied to the label encoder.
   */
  datatype ZebraPrintMode = TEAR_OFF | OtherPrintMode(name: string)

  /** A printer-resident font, identified by its name. */
  datatype ZebraFont = ZebraFont(name: string)

  /** Printer density profiles (dots per inch): 6, 8, 11.8 and 24 dots per millimetre. */
  datatype ZebraPPP = DPI_152 | DPI_203 | DPI_300 | DPI_608
}
