/**
 * The table of common ZPL command mnemonics: each constant carries its
 * two-letter code and a human-readable description.
 */
module CommonCodes {
  import opened Wrappers

  datatype ZebraCommonCodes =
    | START_FMT
    | END_FMT
    | FIELD_DATA
    | FIELD_SEPERATOR
    | DOWNLOAD_FMT
    | RECALL_FORMAT
    | QR_CODE
    | FIELD_ORIGIN
  {
    /** `getCode`: the mnemonic the constant was declared with. */
    function Code(): string
    {
      match this
      case START_FMT => "XA"
      case END_FMT => "XZ"
      case FIELD_DATA => "FD"
      case FIELD_SEPERATOR => "FS"
      case DOWNLOAD_FMT => "DF"
      case RECALL_FORMAT => "XF"
      case QR_CODE => "BQ"
      case FIELD_ORIGIN => "FO"
    }

    /** `getDescription`: the description the constant was declared with (spelling as declared). */
    function Description(): string
    {
      match this
      case START_FMT => "Start Format"
      case END_FMT => "End Format"
      case FIELD_DATA => "Field Data"
      case FIELD_SEPERATOR => "Field Seperator"
      case DOWNLOAD_FMT => "Download Format"
      case RECALL_FORMAT => "Recall Format"
      case QR_CODE => "QR Code BarCode"
      case FIELD_ORIGIN => "Field Origin"
    }
  }

  const AllCodes: seq<ZebraCommonCodes> :=
    [START_FMT, END_FMT, FIELD_DATA, FIELD_SEPERATOR, DOWNLOAD_FMT, RECALL_FORMAT, QR_CODE, FIELD_ORIGIN]

  predicate IsUpperAscii(c: char) { 'A' <= c <= 'Z' }

  /** The constant whose code is `code`, if any: the inverse of `Code`. */
  function FromCode(code: string): (r: Option<ZebraCommonCodes>)
    ensures r.Some? ==> r.value.Code() == code
    ensures r.None? ==> forall c: ZebraCommonCodes :: c.Code() != code
  {
    if code == "XA" then Some(START_FMT)
    else if code == "XZ" then Some(END_FMT)
    else if code == "FD" then Some(FIELD_DATA)
    else if code == "FS" then Some(FIELD_SEPERATOR)
    else if code == "DF" then Some(DOWNLOAD_FMT)
    else if code == "XF" then Some(RECALL_FORMAT)
    else if code == "BQ" then Some(QR_CODE)
    else if code == "FO" then Some(FIELD_ORIGIN)
    else None
  }

  /** Looking a constant's own code up gives the constant back, so `Code` is injective. */
  lemma CodeRoundTrip(c: ZebraCommonCodes)
    ensures FromCode(c.Code()) == Some(c)
  {
  }

  /** Two constants with the same code are the same constant. */
  lemma CodeInjective(a: ZebraCommonCodes, b: ZebraCommonCodes)
    ensures a.Code() == b.Code() ==> a == b
  {
    CodeRoundTrip(a);
    CodeRoundTrip(b);
  }

  /** Every code is exactly two upper-case ASCII letters. */
  lemma CodeShape(c: ZebraCommonCodes)
    ensures |c.Code()| == 2 && IsUpperAscii(c.Code()[0]) && IsUpperAscii(c.Code()[1])
  {
  }

  /** The table lists every constant exactly once. */
  lemma AllCodesComplete(c: ZebraCommonCodes)
    ensures c in AllCodes
    ensures forall i, j :: 0 <= i < j < |AllCodes| ==> AllCodes[i] != AllCodes[j]
  {
  }
}
