/**
 * The QR-code element's wire format: a `^BQ` line carrying orientation,
 * model, magnification and error correction, followed by a `^FD … ^FS` line
 * carrying the error-correction letter again, the input mode, the character
 * mode (manual input only) and the payload.
 */
module QRCode {
  import opened Wrappers
  import opened ZplUtils
  import opened Enums
  import opened CommonCodes

  /** The fields of a QR-code element that its encoding reads. */
  datatype QRCodeFields = QRCodeFields(
    zebraRotation: ZebraRotation,
    model: QRCodeModel,
    inputMode: QRCodeDataInputMode,
    characterMode: QRCodeCharacterMode,
    errorCorrection: QRCodeErrorCorrection,
    magnification: string,
    text: string)

  /** `^BQa,b,c,d` and its line break: orientation, model, magnification, error correction. */
  function BarcodeLine(q: QRCodeFields): string
  {
    ZplCommand(QR_CODE.Code(), [])
      + [q.zebraRotation.Letter(), Separator, q.model.Digit(), Separator]
      + q.magnification
      + [Separator, q.errorCorrection.Letter(), LineBreak]
  }

  /** The character-mode token: present only for manual input. */
  function CharacterModeToken(q: QRCodeFields): string
  {
    if q.inputMode == QRCodeDataInputMode.M then [q.characterMode.Name()] else ""
  }

  /** `^FD` with the error-correction letter, the input mode, the optional character mode, the payload, then `^FS`. */
  function FieldDataLine(q: QRCodeFields): string
  {
    ZplCommand(FIELD_DATA.Code(), [])
      + [q.errorCorrection.Letter(), q.inputMode.Name(), Separator]
      + CharacterModeToken(q)
      + q.text
      + ZplCommandLine(FIELD_SEPERATOR.Code(), [])
  }

  /** What `ZebraQRCode.getZplCode` produces for these fields. */
  function QRCodeZpl(q: QRCodeFields): string
  {
    BarcodeLine(q) + FieldDataLine(q)
  }

  /** The building of `getZplCode`: one append after another, with the one conditional. */
  method BuildZpl(q: QRCodeFields) returns (zpl: string)
    ensures zpl == QRCodeZpl(q)
    ensures '\n' !in q.magnification ==> ParseQRCode(zpl) == Some(Canonical(q))
  {
    zpl := ZplCommand(QR_CODE.Code(), []);
    zpl := zpl + [q.zebraRotation.Letter()];
    zpl := zpl + ",";
    zpl := zpl + [q.model.Digit()];
    zpl := zpl + ",";
    zpl := zpl + (q.magnification + ",");
    zpl := zpl + [q.errorCorrection.Letter()];
    zpl := zpl + "\n";
    ghost var barcodeLine := zpl;
    assert barcodeLine == BarcodeLine(q);
    // From here on `fieldData` tracks what has been appended since the `^BQ` line.
    ghost var fieldData := ZplCommand(FIELD_DATA.Code(), []);
    zpl := zpl + ZplCommand(FIELD_DATA.Code(), []);
    AppendAssoc(barcodeLine, fieldData, [q.errorCorrection.Letter()]);
    zpl, fieldData := zpl + [q.errorCorrection.Letter()], fieldData + [q.errorCorrection.Letter()];
    AppendAssoc(barcodeLine, fieldData, [q.inputMode.Name()]);
    zpl, fieldData := zpl + [q.inputMode.Name()], fieldData + [q.inputMode.Name()];
    AppendAssoc(barcodeLine, fieldData, ",");
    zpl, fieldData := zpl + ",", fieldData + ",";
    assert fieldData == ZplCommand(FIELD_DATA.Code(), []) + [q.errorCorrection.Letter(), q.inputMode.Name(), Separator];
    if q.inputMode == QRCodeDataInputMode.M {
      AppendAssoc(barcodeLine, fieldData, [q.characterMode.Name()]);
      zpl, fieldData := zpl + [q.characterMode.Name()], fieldData + [q.characterMode.Name()];
    } else {
      AppendEmpty(fieldData);
    }
    AppendAssoc(barcodeLine, fieldData, q.text);
    zpl, fieldData := zpl + q.text, fieldData + q.text;
    AppendAssoc(barcodeLine, fieldData, ZplCommandLine(FIELD_SEPERATOR.Code(), []));
    zpl, fieldData := zpl + ZplCommandLine(FIELD_SEPERATOR.Code(), []),
                      fieldData + ZplCommandLine(FIELD_SEPERATOR.Code(), []);
    if '\n' !in q.magnification {
      QRCodeRoundTrip(q);
    }
  }

  /**
   * The fields as the wire format can tell them apart: with automatic input
   * the character mode is not written, so it reads back as the default `A`.
   */
  function Canonical(q: QRCodeFields): QRCodeFields
  {
    if q.inputMode == QRCodeDataInputMode.A then q.(characterMode := QRCodeCharacterMode.A) else q
  }

  /** Reads a `^BQ` line (without its line break) back into its four parameters. */
  function ParseBarcodeLine(line: string): Option<(ZebraRotation, QRCodeModel, string, QRCodeErrorCorrection)>
  {
    if |line| >= 9 && line[..3] == "^BQ" && line[4] == Separator && line[6] == Separator
       && line[|line| - 2] == Separator then
      match (RotationFromLetter(line[3]), ModelFromDigit(line[5]), ErrorCorrectionFromLetter(line[|line| - 1]))
      case (Some(r), Some(m), Some(e)) => Some((r, m, line[7..|line| - 2], e))
      case _ => None
    else None
  }

  /** Reads a `^FD … ^FS` line back, given the error correction the `^BQ` line announced. */
  function ParseFieldDataLine(t: string, ec: QRCodeErrorCorrection)
    : Option<(QRCodeDataInputMode, QRCodeCharacterMode, string)>
  {
    if |t| >= 10 && t[..3] == "^FD" && t[3] == ec.Letter() && t[5] == Separator
       && t[|t| - 4..] == "^FS\n" then
      var body := t[6..|t| - 4];
      match InputModeFromName(t[4])
      case None => None
      case Some(im) =>
        if im == QRCodeDataInputMode.A then Some((im, QRCodeCharacterMode.A, body))
        else if |body| >= 1 then
          match CharacterModeFromName(body[0])
          case None => None
          case Some(cm) => Some((QRCodeDataInputMode.M, cm, body[1..]))
        else None
    else None
  }

  /** Reads a QR-code fragment back into the fields that produced it. */
  function ParseQRCode(s: string): Option<QRCodeFields>
  {
    match IndexOf(s, LineBreak)
    case None => None
    case Some(n) =>
      match ParseBarcodeLine(s[..n])
      case None => None
      case Some((r, m, mag, ec)) =>
        match ParseFieldDataLine(s[n + 1..], ec)
        case None => None
        case Some((im, cm, text)) => Some(QRCodeFields(r, m, im, cm, ec, mag, text))
  }

  lemma BarcodeLineRoundTrip(q: QRCodeFields)
    requires LineBreak !in q.magnification
    ensures var line := BarcodeLine(q);
      IndexOf(line, LineBreak) == Some(|line| - 1)
      && ParseBarcodeLine(line[..|line| - 1])
         == Some((q.zebraRotation, q.model, q.magnification, q.errorCorrection))
  {
    var b := BarcodeLine(q);
    var k := |q.magnification|;
    BarcodeLineLayout(q);
    var head := b[..k + 9];
    assert b == head + [LineBreak];
    assert head[..3] == b[..3] && head[7..k + 7] == b[7..7 + k];
    assert forall i :: 0 <= i < |head| ==> head[i] != LineBreak by {
      forall i | 0 <= i < |head| ensures head[i] != LineBreak {
        if i < 3 {
          assert head[i] == "^BQ"[i];
        } else if 7 <= i < 7 + k {
          assert head[i] == q.magnification[i - 7];
        }
      }
    }
    IndexOfAfterPrefix(head, LineBreak, []);
    assert head + [LineBreak] + [] == b;
    assert |head| >= 9 && head[4] == Separator && head[6] == Separator && head[|head| - 2] == Separator;
    assert RotationFromLetter(head[3]) == Some(q.zebraRotation);
    assert ModelFromDigit(head[5]) == Some(q.model);
    assert ErrorCorrectionFromLetter(head[|head| - 1]) == Some(q.errorCorrection);
    assert head[7..|head| - 2] == q.magnification;
  }

  lemma FieldDataLineRoundTrip(q: QRCodeFields)
    ensures ParseFieldDataLine(FieldDataLine(q), q.errorCorrection)
            == Some((q.inputMode, Canonical(q).characterMode, q.text))
  {
    var t := FieldDataLine(q);
    FieldDataLineLayout(q);
    var body := t[6..|t| - 4];
    if q.inputMode == QRCodeDataInputMode.M {
      assert body[0] == q.characterMode.Name() && body[1..] == q.text;
    } else {
      assert body == q.text;
    }
  }

  /**
   * Every field is recovered from the fragment, except the character mode
   * under automatic input, which the fragment does not carry.
   */
  lemma QRCodeRoundTrip(q: QRCodeFields)
    requires LineBreak !in q.magnification
    ensures ParseQRCode(QRCodeZpl(q)) == Some(Canonical(q))
  {
    var line := BarcodeLine(q);
    var s := QRCodeZpl(q);
    BarcodeLineRoundTrip(q);
    assert line == line[..|line| - 1] + [LineBreak];
    IndexOfAfterPrefix(line[..|line| - 1], LineBreak, FieldDataLine(q));
    assert s == line[..|line| - 1] + [LineBreak] + FieldDataLine(q);
    assert s[..|line| - 1] == line[..|line| - 1];
    assert s[|line|..] == FieldDataLine(q);
    FieldDataLineRoundTrip(q);
  }

  /** Two fields that encode alike agree on everything the wire format carries. */
  lemma QRCodeInjective(p: QRCodeFields, q: QRCodeFields)
    requires LineBreak !in p.magnification && LineBreak !in q.magnification
    requires QRCodeZpl(p) == QRCodeZpl(q)
    ensures Canonical(p) == Canonical(q)
  {
    QRCodeRoundTrip(p);
    QRCodeRoundTrip(q);
  }

  /** The character mode changes the output exactly when input is manual, whatever the magnification holds. */
  lemma CharacterModeOnlyWhenManual(q: QRCodeFields, cm: QRCodeCharacterMode)
    ensures (QRCodeZpl(q) == QRCodeZpl(q.(characterMode := cm)))
            <==> (q.inputMode == QRCodeDataInputMode.A || q.characterMode == cm)
  {
    var p := q.(characterMode := cm);
    assert BarcodeLine(p) == BarcodeLine(q);
    if q.inputMode == QRCodeDataInputMode.A {
      assert CharacterModeToken(p) == CharacterModeToken(q);
      assert FieldDataLine(p) == FieldDataLine(q);
    } else if q.characterMode != cm {
      var n := |BarcodeLine(q)|;
      QRCodeStart(q);
      QRCodeStart(p);
      FieldDataLineLayout(q);
      FieldDataLineLayout(p);
      assert QRCodeZpl(q)[n + 6] == q.characterMode.Name();
      assert QRCodeZpl(p)[n + 6] == cm.Name();
    }
  }

  /** The fragment is the `^BQ` line followed by the `^FD … ^FS` line, so it begins with `^BQ`. */
  lemma QRCodeStart(q: QRCodeFields)
    ensures var s := QRCodeZpl(q); var b := BarcodeLine(q);
      |b| <= |s| && s[..|b|] == b && s[|b|..] == FieldDataLine(q) && StartsWith(s, "^BQ")
  {
    var b := BarcodeLine(q);
    var f := FieldDataLine(q);
    BarcodeLineLayout(q);
    AppendParts(b, f);
    SliceAppend(b, f, 0, 3);
  }

  /** The `^BQ` line: ten characters around the magnification, which sits verbatim at offset 7. */
  lemma BarcodeLineLayout(q: QRCodeFields)
    ensures var b := BarcodeLine(q); var k := |q.magnification|;
      |b| == k + 10
      && b[..3] == "^BQ" && b[3] == q.zebraRotation.Letter() && b[4] == Separator
      && b[5] == q.model.Digit() && b[6] == Separator
      && b[7..7 + k] == q.magnification
      && b[7 + k] == Separator && b[8 + k] == q.errorCorrection.Letter() && b[9 + k] == LineBreak
  {
    var x := ZplCommand(QR_CODE.Code(), []) + [q.zebraRotation.Letter(), Separator, q.model.Digit(), Separator];
    assert ZplCommand(QR_CODE.Code(), []) == "^BQ";
    var tail := [Separator, q.errorCorrection.Letter(), LineBreak];
    assert BarcodeLine(q) == (x + q.magnification) + tail;
    AppendParts(x, q.magnification);
    SliceAppend(x, q.magnification, 0, |q.magnification|);
    SliceAppend(x + q.magnification, tail, 0, 3);
    SliceAppend(x + q.magnification, tail, 7, 7 + |q.magnification|);
  }

  /** The `^FD` line: six characters, the optional character mode, the payload, then `^FS` and its line break. */
  lemma FieldDataLineLayout(q: QRCodeFields)
    ensures var f := FieldDataLine(q);
      |f| == 10 + |CharacterModeToken(q)| + |q.text|
      && f[..3] == "^FD" && f[3] == q.errorCorrection.Letter()
      && f[4] == q.inputMode.Name() && f[5] == Separator
      && (q.inputMode == QRCodeDataInputMode.M ==> f[6] == q.characterMode.Name())
      && f[6..|f| - 4] == CharacterModeToken(q) + q.text && f[|f| - 4..] == "^FS\n"
      && f[|f| - 4 - |q.text|..] == q.text + "^FS\n"
  {
    var y := ZplCommand(FIELD_DATA.Code(), []) + [q.errorCorrection.Letter(), q.inputMode.Name(), Separator]
      + CharacterModeToken(q);
    assert ZplCommand(FIELD_DATA.Code(), []) == "^FD";
    var fs := ZplCommandLine(FIELD_SEPERATOR.Code(), []);
    assert fs == "^FS\n";
    assert FieldDataLine(q) == (y + q.text) + fs;
    SliceAppend(y + q.text, fs, 0, 3);
    SliceAppend(y, q.text, 0, 3);
    DropAppend(y + q.text, fs, |y|);
    AppendParts(y, q.text);
    AppendParts(y + q.text, fs);
    var x := ZplCommand(FIELD_DATA.Code(), []) + [q.errorCorrection.Letter(), q.inputMode.Name(), Separator];
    AppendAssoc(x, CharacterModeToken(q), q.text);
    AppendParts(x, CharacterModeToken(q) + q.text);
    SliceAppend(y + q.text, fs, 6, |y + q.text|);
  }

  /** An empty magnification keeps its slot: the model digit is followed by two commas. */
  lemma EmptyMagnificationKeepsSlot(q: QRCodeFields)
    requires q.magnification == ""
    ensures QRCodeZpl(q)[..8] == "^BQ" + [q.zebraRotation.Letter(), ',', q.model.Digit(), ',', ',']
  {
    var b := BarcodeLine(q);
    BarcodeLineLayout(q);
    SliceAppend(b, FieldDataLine(q), 0, 8);
    assert b[..8] == b[..3] + [b[3], b[4], b[5], b[6], b[7]];
  }
}
