# ZPL label encoder — a Dafny model

This project models the encoding core of a Java driver for Zebra label printers. The core turns a label description into the ZPL II program the printer interprets.

- **Label** (`ZebraLabel`). A label has:
  - an optional width and height in dots;
  - a print mode;
  - a shared printer configuration (`PrinterOptions`), which holds the default font, the font size and the density profile;
  - an ordered list of elements.

  Its `getZplCode` writes these parts in order:
  1. the start-format line `^XA`;
  2. the print-mode fragment;
  3. a `^PW` width line, if the width is set;
  4. an `^LL` length line, if the height is set;
  5. a `^CF` default-font line, if both the default font and its size are set;
  6. each element's fragment, in list order;
  7. the end-format line `^XZ`.

  While it writes the element fragments, it lends its configuration to every element.
- **Elements** (`ZebraElement`). An element holds optional x/y positions and the configuration lent to it.
  - The base encoding is empty.
  - Its position helper writes `^FT` only when both coordinates are set.
  - The QR-code element (`ZebraQRCode`) writes a `^BQ` line and a `^FD … ^FS` line. The character mode is written only for manual input, and the error-correction letter appears twice.
- **Custom command** (`ZebraCustomCommand`). This is a stand-alone object that always encodes as `^FO` followed by three comma-separated values. A null value is written as `null`.
- **Common codes** (`ZebraCommonCodes`). This table maps each command constant to its two-letter mnemonic and a description.

The Dafny modules are:

| file | module | contents |
|---|---|---|
| `wrappers.dfy` | `Wrappers` | `Option` |
| `decimal.dfy` | `Decimal` | decimal rendering of `int` and of a nullable `Integer`, and the parsers that invert them |
| `zpl_utils.dfy` | `ZplUtils` | the command primitives (`^` + mnemonic + comma-joined parameters, plus a line break for the "line" form), their parsers, and string lemmas |
| `common_codes.dfy` | `CommonCodes` | the code table |
| `enums.dfy` | `Enums` | the QR-code tokens (rotation, model, input mode, character mode, error correction), and the print mode, font and density values |
| `qrcode.dfy` | `QRCode` | the QR-code wire format, its builder, its parser and its layout |
| `printer_options.dfy` | `Options` | the shared configuration object |
| `element.dfy` | `Element` | the element class; the element variant is a `kind` field |
| `custom_command.dfy` | `CustomCommand` | the custom-command class and its format |
| `label.dfy` | `Label` | the label class, its encoder and the properties of the program |

The pure encodings (`QRCodeZpl`, `PositionZpl`, `CustomCommandZpl`, `LabelZpl`) are the specifications. Each has a parser that inverts it, or layout lemmas that locate every part of the output. The imperative methods build their text one append at a time, as the Java code does, and are proved equal to those specifications.

## Model

All source paths are under `src/main/java/com/finium/core/drivers/zebra/`, written in full in the table.

| member | source | states |
|---|---|---|
| Decimal.IntRoundTrip | src/main/java/com/finium/core/drivers/zebra/model/ZebraLabel.java:200-207 | the decimal text of any integer dimension reads back as that same integer |
| Decimal.IntegerRoundTrip | src/main/java/com/finium/core/drivers/zebra/model/element/ZebraCustomCommand.java:65-69 | an appended nullable `Integer` (the digits, or `null`) reads back as the same value, null included |
| Decimal.IntegerTokenShape | src/main/java/com/finium/core/drivers/zebra/model/element/ZebraCustomCommand.java:65-69 | an appended `Integer` is never empty and never contains a comma, a line break or a caret |
| ZplUtils.CommandLineRoundTrip | src/main/java/com/finium/core/drivers/zebra/model/ZebraLabel.java:197 | a command line (`^XA`, `^PW…`, `^XZ`, …) reads back as its mnemonic and its parameters |
| ZplUtils.CommandRoundTrip | src/main/java/com/finium/core/drivers/zebra/model/ZebraElement.java:107 | a command without a line break reads back as its mnemonic and its parameters |
| CommonCodes.FromCode | src/main/java/com/finium/core/drivers/zebra/zpl/command/ZebraCommonCodes.java:20-60 | the lookup by mnemonic finds a constant with that code; it finds none only when no constant has that code |
| CommonCodes.CodeRoundTrip | src/main/java/com/finium/core/drivers/zebra/zpl/command/ZebraCommonCodes.java:74-91 | each constant's code looks up to that same constant |
| CommonCodes.CodeInjective | src/main/java/com/finium/core/drivers/zebra/zpl/command/ZebraCommonCodes.java:20-60 | two constants with the same code are the same constant |
| CommonCodes.CodeShape | src/main/java/com/finium/core/drivers/zebra/zpl/command/ZebraCommonCodes.java:20-60 | every code is exactly two upper-case ASCII letters |
| CommonCodes.AllCodesComplete | src/main/java/com/finium/core/drivers/zebra/zpl/command/ZebraCommonCodes.java:16-60 | the table lists every constant, each exactly once |
| Enums.RotationFromLetter | src/main/java/com/finium/core/drivers/zebra/model/element/ZebraQRCode.java:141 | the rotation letter written in `^BQ` identifies the rotation; an unknown letter is no rotation's letter |
| Enums.ModelFromDigit | src/main/java/com/finium/core/drivers/zebra/model/element/ZebraQRCode.java:143 | the model digit identifies the QR model; an unknown digit is no model's digit |
| Enums.ErrorCorrectionFromLetter | src/main/java/com/finium/core/drivers/zebra/model/element/ZebraQRCode.java:146 | the error-correction letter identifies the level; an unknown letter is no level's letter |
| Enums.InputModeFromName | src/main/java/com/finium/core/drivers/zebra/model/element/ZebraQRCode.java:150 | the input-mode name identifies the mode; an unknown name is no mode's name |
| Enums.CharacterModeFromName | src/main/java/com/finium/core/drivers/zebra/model/element/ZebraQRCode.java:153-155 | the character-mode name identifies the mode; an unknown name is no mode's name |
| QRCode.BuildZpl | src/main/java/com/finium/core/drivers/zebra/model/element/ZebraQRCode.java:139-161 | the appends, including the one for manual input only, produce exactly the `^BQ` line followed by the `^FD … ^FS` line, and the output parses back to the element's fields |
| QRCode.QRCodeRoundTrip | src/main/java/com/finium/core/drivers/zebra/model/element/ZebraQRCode.java:139-161 | when the magnification has no line break, the output parses back to every field; the character mode is recovered only for manual input |
| QRCode.BarcodeLineRoundTrip | src/main/java/com/finium/core/drivers/zebra/model/element/ZebraQRCode.java:140-147 | the first line break ends the `^BQ` line, and that line parses back to the rotation, model, magnification and error correction |
| QRCode.FieldDataLineRoundTrip | src/main/java/com/finium/core/drivers/zebra/model/element/ZebraQRCode.java:148-158 | the `^FD … ^FS` line parses back to the input mode, the character mode (manual input) and the payload |
| QRCode.QRCodeInjective | src/main/java/com/finium/core/drivers/zebra/model/element/ZebraQRCode.java:139-161 | two QR codes with the same output agree on every field the output can show |
| QRCode.CharacterModeOnlyWhenManual | src/main/java/com/finium/core/drivers/zebra/model/element/ZebraQRCode.java:153-155 | for every magnification, changing the character mode changes the output if and only if the input mode is manual and the mode really changes |
| QRCode.QRCodeStart | src/main/java/com/finium/core/drivers/zebra/model/element/ZebraQRCode.java:140-148 | the output is the `^BQ` line followed by the `^FD` line, so it begins with `^BQ` |
| QRCode.BarcodeLineLayout | src/main/java/com/finium/core/drivers/zebra/model/element/ZebraQRCode.java:140-147 | the `^BQ` line is `^BQ`, the rotation, a comma, the model, a comma, the magnification verbatim, a comma, the error-correction letter (its first occurrence) and a line break |
| QRCode.FieldDataLineLayout | src/main/java/com/finium/core/drivers/zebra/model/element/ZebraQRCode.java:148-158 | the `^FD` line repeats the error-correction letter right after `^FD`, then has the input mode and a comma; in manual mode the character mode comes next, directly before the payload; the payload appears verbatim, immediately before `^FS` and its line break |
| QRCode.EmptyMagnificationKeepsSlot | src/main/java/com/finium/core/drivers/zebra/model/element/ZebraQRCode.java:145 | with an empty magnification, the model digit is followed by two adjacent commas |
| Element.ElementZplShape | src/main/java/com/finium/core/drivers/zebra/model/ZebraElement.java:93-95 | an element's fragment is empty exactly for the base encoding; a QR code's fragment begins with `^BQ` |
| Element.PositionZpl | src/main/java/com/finium/core/drivers/zebra/model/ZebraElement.java:103-110 | the position fragment is non-empty if and only if both coordinates are set |
| Element.PositionRoundTrip | src/main/java/com/finium/core/drivers/zebra/model/ZebraElement.java:103-110 | the position fragment is an `^FT` command that reads back as exactly the two coordinates; with either one missing there is nothing to read |
| Element.ZebraElement.Default | src/main/java/com/finium/core/drivers/zebra/model/ZebraElement.java:24-42 | a new element with the base encoding has no position and no configuration |
| Element.ZebraElement.QRCode | src/main/java/com/finium/core/drivers/zebra/model/element/ZebraQRCode.java:99-107 | the one-argument constructor stores the text with rotation NORMAL, model MODEL2, input mode M, character mode A, error correction STANDARD and an empty magnification |
| Element.ZebraElement.QRCodeMagnified | src/main/java/com/finium/core/drivers/zebra/model/element/ZebraQRCode.java:113-121 | the two-argument constructor uses the same defaults but stores the given magnification |
| Element.ZebraElement.QRCodeWith | src/main/java/com/finium/core/drivers/zebra/model/element/ZebraQRCode.java:123-131 | the seven-argument constructor stores every setting as given |
| Element.ZebraElement.PositionX | src/main/java/com/finium/core/drivers/zebra/model/ZebraElement.java:47-49 | callable only once x is set, because unboxing a null `Integer` fails; returns the stored x |
| Element.ZebraElement.PositionY | src/main/java/com/finium/core/drivers/zebra/model/ZebraElement.java:62-64 | callable only once y is set; returns the stored y |
| Element.ZebraElement.SetPositionX | src/main/java/com/finium/core/drivers/zebra/model/ZebraElement.java:54-57 | sets x, changes no other field, and returns the same element |
| Element.ZebraElement.SetPositionY | src/main/java/com/finium/core/drivers/zebra/model/ZebraElement.java:69-72 | sets y, changes no other field, and returns the same element |
| Element.ZebraElement.SetPrinterOptions | src/main/java/com/finium/core/drivers/zebra/model/ZebraElement.java:84-86 | stores the configuration reference and changes nothing else |
| Element.ZebraElement.GetZplCode | src/main/java/com/finium/core/drivers/zebra/model/element/ZebraQRCode.java:138-161 | the fragment for the element's kind: empty for the base encoding, as at ZebraElement.java:93-95, and the QR-code text for a QR code |
| Element.ZebraElement.GetZplCodePosition | src/main/java/com/finium/core/drivers/zebra/model/ZebraElement.java:103-110 | `^FT` with x and y when both are set, otherwise the empty text; the text reads back as the stored coordinates |
| Element.ZebraElement.SetZebraRotation | src/main/java/com/finium/core/drivers/zebra/model/element/ZebraQRCode.java:168-170 | changes only the rotation |
| Element.ZebraElement.SetModel | src/main/java/com/finium/core/drivers/zebra/model/element/ZebraQRCode.java:176-178 | changes only the model |
| Element.ZebraElement.SetInputMode | src/main/java/com/finium/core/drivers/zebra/model/element/ZebraQRCode.java:184-186 | changes only the input mode |
| Element.ZebraElement.SetCharacterMode | src/main/java/com/finium/core/drivers/zebra/model/element/ZebraQRCode.java:192-194 | changes only the character mode |
| Element.ZebraElement.SetErrorCorrection | src/main/java/com/finium/core/drivers/zebra/model/element/ZebraQRCode.java:200-202 | changes only the error correction |
| Element.ZebraElement.SetMagnification | src/main/java/com/finium/core/drivers/zebra/model/element/ZebraQRCode.java:208-210 | changes only the magnification |
| Element.ZebraElement.SetText | src/main/java/com/finium/core/drivers/zebra/model/element/ZebraQRCode.java:216-218 | changes only the payload text |
| CustomCommand.CustomCommandIsFieldOrigin | src/main/java/com/finium/core/drivers/zebra/model/element/ZebraCustomCommand.java:63-71 | the fragment is the `FO` command with the three rendered values as parameters, whatever the stored command name |
| CustomCommand.CustomCommandRoundTrip | src/main/java/com/finium/core/drivers/zebra/model/element/ZebraCustomCommand.java:63-71 | the fragment reads back as the three values, nulls included |
| CustomCommand.CustomCommandSeparators | src/main/java/com/finium/core/drivers/zebra/model/element/ZebraCustomCommand.java:64-71 | the fragment begins with `^FO` and contains exactly two commas and no line break |
| CustomCommand.ZebraCustomCommand.constructor | src/main/java/com/finium/core/drivers/zebra/model/element/ZebraCustomCommand.java:21-22 | every field starts null |
| CustomCommand.ZebraCustomCommand.With | src/main/java/com/finium/core/drivers/zebra/model/element/ZebraCustomCommand.java:24-29 | stores all four fields |
| CustomCommand.ZebraCustomCommand.SetCommand | src/main/java/com/finium/core/drivers/zebra/model/element/ZebraCustomCommand.java:35-37 | changes only the command name |
| CustomCommand.ZebraCustomCommand.SetPosX | src/main/java/com/finium/core/drivers/zebra/model/element/ZebraCustomCommand.java:43-45 | changes only x |
| CustomCommand.ZebraCustomCommand.SetPosY | src/main/java/com/finium/core/drivers/zebra/model/element/ZebraCustomCommand.java:51-53 | changes only y |
| CustomCommand.ZebraCustomCommand.SetPosZ | src/main/java/com/finium/core/drivers/zebra/model/element/ZebraCustomCommand.java:59-61 | changes only z |
| CustomCommand.ZebraCustomCommand.GetZplCode | src/main/java/com/finium/core/drivers/zebra/model/element/ZebraCustomCommand.java:63-72 | the appends produce the field-origin fragment, which reads back as the three stored values |
| Options.PrinterOptions.constructor | src/main/java/com/finium/core/drivers/zebra/model/ZebraLabel.java:48 | a fresh configuration has no default font and no size |
| Options.PrinterOptions.SetDefaultZebraFont | src/main/java/com/finium/core/drivers/zebra/model/ZebraLabel.java:105-108 | sets the default font of the shared configuration |
| Options.PrinterOptions.SetDefaultFontSize | src/main/java/com/finium/core/drivers/zebra/model/ZebraLabel.java:116-119 | sets the default font size of the shared configuration |
| Label.ElementsZplAppend | src/main/java/com/finium/core/drivers/zebra/model/ZebraLabel.java:216-219 | appending an element appends its fragment to the element section |
| Label.ElementsZplAt | src/main/java/com/finium/core/drivers/zebra/model/ZebraLabel.java:216-219 | element i's fragment lies between the fragments of the elements before it and the elements after it |
| Label.ElementsZplShape | src/main/java/com/finium/core/drivers/zebra/model/ZebraLabel.java:216-219 | the element section is empty exactly when every element has the base encoding; otherwise it begins with `^BQ` |
| Label.LabelFrame | src/main/java/com/finium/core/drivers/zebra/model/ZebraLabel.java:197-220 | the program begins with `^XA` and its line break, immediately followed by the print-mode fragment, and ends with `^XZ` and its line break |
| Label.WidthLinePresence | src/main/java/com/finium/core/drivers/zebra/model/ZebraLabel.java:200-203 | right after the print mode there is a `^PW` line if and only if the width is set, and that line carries the width |
| Label.HeightLinePresence | src/main/java/com/finium/core/drivers/zebra/model/ZebraLabel.java:205-207 | after the optional `^PW` line there is an `^LL` line if and only if the height is set, and that line carries the height; so `^PW` always precedes `^LL` |
| Label.FontLinePresence | src/main/java/com/finium/core/drivers/zebra/model/ZebraLabel.java:209-214 | after the dimension lines there is a `^CF` line if and only if both the default font and its size are set; otherwise the element section or the end of format follows at once |
| Label.AddElementZpl | src/main/java/com/finium/core/drivers/zebra/model/ZebraLabel.java:95-98 | adding an element inserts its fragment just before the end-of-format line and leaves the rest of the program as it was |
| Label.DimensionLine203 | src/main/java/com/finium/core/drivers/zebra/model/ZebraLabel.java:202 | a dimension of 203 dots is written as the command followed by `203` and a line break |
| Label.BareLabel | src/main/java/com/finium/core/drivers/zebra/model/ZebraLabel.java:194-222 | with no elements and no complete default font, the program is only its structural lines: start, print mode, the dimension lines and end |
| Label.ZebraLabel.constructor | src/main/java/com/finium/core/drivers/zebra/model/ZebraLabel.java:52-55 | no size, mode TEAR_OFF, no elements and a fresh configuration, so no `^PW`/`^LL` line is written |
| Label.ZebraLabel.WithOptions | src/main/java/com/finium/core/drivers/zebra/model/ZebraLabel.java:57-60 | no size, mode TEAR_OFF, no elements and the given configuration |
| Label.ZebraLabel.WithSize | src/main/java/com/finium/core/drivers/zebra/model/ZebraLabel.java:68-72 | both dimensions set, no elements and a fresh configuration |
| Label.ZebraLabel.WithSizeAndOptions | src/main/java/com/finium/core/drivers/zebra/model/ZebraLabel.java:79-84 | both dimensions set, no elements and the given configuration |
| Label.ZebraLabel.AddElement | src/main/java/com/finium/core/drivers/zebra/model/ZebraLabel.java:95-98 | appends exactly one element at the end, keeps the earlier elements in order, and returns the same label |
| Label.ZebraLabel.SetDefaultZebraFont | src/main/java/com/finium/core/drivers/zebra/model/ZebraLabel.java:105-108 | sets the font on the shared configuration object, not on the label, and returns the label |
| Label.ZebraLabel.SetDefaultFontSize | src/main/java/com/finium/core/drivers/zebra/model/ZebraLabel.java:116-119 | sets the size on the shared configuration object and returns the label |
| Label.ZebraLabel.SetWidthDots | src/main/java/com/finium/core/drivers/zebra/model/ZebraLabel.java:134-137 | changes only the width and returns the label |
| Label.ZebraLabel.SetHeightDots | src/main/java/com/finium/core/drivers/zebra/model/ZebraLabel.java:152-155 | changes only the height and returns the label |
| Label.ZebraLabel.SetPrinterOptions | src/main/java/com/finium/core/drivers/zebra/model/ZebraLabel.java:161-163 | replaces the configuration reference |
| Label.ZebraLabel.SetZebraPrintMode | src/main/java/com/finium/core/drivers/zebra/model/ZebraLabel.java:175-178 | changes only the print mode and returns the label |
| Label.ZebraLabel.SetZebraElements | src/main/java/com/finium/core/drivers/zebra/model/ZebraLabel.java:190-192 | replaces the element list |
| Label.ZebraLabel.HeaderCode | src/main/java/com/finium/core/drivers/zebra/model/ZebraLabel.java:195-214 | the appends before the element loop produce the start line, the print mode and exactly the optional lines whose settings are present |
| Label.ZebraLabel.LendAndEncode | src/main/java/com/finium/core/drivers/zebra/model/ZebraLabel.java:217-218 | one loop turn: the element receives the label's configuration, and then yields its own fragment |
| Label.ZebraLabel.ElementsCode | src/main/java/com/finium/core/drivers/zebra/model/ZebraLabel.java:216-219 | the loop produces the concatenation of the elements' fragments in list order; afterwards every element holds the label's configuration and keeps its kind |
| Label.ZebraLabel.GetZplCode | src/main/java/com/finium/core/drivers/zebra/model/ZebraLabel.java:194-222 | the program is the label specification for the current state; afterwards every element holds the label's configuration, and nothing the encoding reads has changed, positions included |
| Label.EncodeTwice | src/main/java/com/finium/core/drivers/zebra/model/ZebraLabel.java:216-218 | encoding an unchanged label twice gives identical text |
| Label.FontSetAfterAdding | src/main/java/com/finium/core/drivers/zebra/model/ZebraLabel.java:105-119 | a font and size set after an element was added still produce the `^CF` line, because they are read at encoding time |

## Left out

- The label preview (`getImagePreview`, `drawPreviewGraphic`, `drawTopString`). This is raster drawing with floating-point scaling and does not contribute to the command output.
- `ZplUtils` is not part of this model. `zplCommand` is modelled as `^` + mnemonic + comma-joined parameters, and `zplCommandSautLigne` as the same plus a line break, following ZPL II command syntax.
- `extractDotsFromFont` is not part of this model either. It becomes the caller-supplied function `FontDots`, so the content of the `^CF` parameters, which depends on dots-per-millimetre ratios such as 11.8, is not modelled.
- The enum files (`ZebraRotation`, `QRCodeModel`, `QRCodeDataInputMode`, `QRCodeCharacterMode`, `QRCodeErrorCorrection`, `ZebraPrintMode`, `ZebraFont`, `ZebraPPP`) are not part of this model. The QR-code tokens follow the `^BQ` format described in the class comment at ZebraQRCode.java:53-80 and in the ZPL II Programming Guide:
  - rotation `N`/`R`/`I`/`B`;
  - QR model `1`/`2`;
  - error correction `H`/`Q`/`M`/`L`;
  - input mode and character mode by their constant names.

  Each of these tokens is one character.
- `ZebraPrintMode.getZplCode` is not part of this model. The fragment it writes is the caller-supplied function `PrintModeCode`, so no property of that fragment's text is stated. Print modes other than the default `TEAR_OFF` are known only by name (`OtherPrintMode`).
- `PrinterOptions` is not part of this model. It is reduced to the three values the encoder reads: default font, default size and density. A fresh configuration's density is left unconstrained, because the class is not available; the density only feeds `FontDots`.
- Null `String` and enum fields of a QR code, and null elements in the label's list, are not modelled. In Java these raise an exception or print `null`, and the model's fields cannot be null.
- `Integer` positions and dimensions are unbounded integers. The core does no arithmetic on them, so 32-bit overflow never arises.
- Getters that only return a field are covered by the field itself. The exceptions are `getPositionX` and `getPositionY`, which are modelled because of their null check.
- `ZebraElement` and its modelled subclass `ZebraQRCode` are one class with a `kind` field, because an override is modelled by dispatching on the kind. The QR setters therefore require a QR-code element; in Java they exist only on that subclass.
- Label.ElementsZplShape: `ZebraElement` is abstract, and ZebraLabel.java:89-90 names further subclasses (`ZebraText`, `ZebraBarcode` and others). Those subclasses are not part of this model, so an element has only two kinds: the base encoding and the QR code. This lemma's "otherwise it begins with `^BQ`" holds only for those two kinds. So does the only-if half of `WidthLinePresence`, `HeightLinePresence` and `FontLinePresence`, which relies on the text after the header starting with `^LL`, `^CF`, `^BQ` or `^XZ`. An element whose fragment began with `^PW`, `^LL` or `^CF` would break both.
- `getZplCodePosition` is modelled, but the QR-code `getZplCode` does not call it, so no element's fragment carries a position. This matches the Java code.
- `ZebraCustomCommand` is not a label element (it does not extend `ZebraElement`), so it never appears in a label's program.
- Label.ZebraLabel.WithOptions, Label.ZebraLabel.SetPrinterOptions, Label.ZebraLabel.SetZebraPrintMode, Label.ZebraLabel.SetZebraElements: these accept only non-null values. In Java, a null configuration, print mode or element list is accepted and then makes `getZplCode` throw a `NullPointerException`: at ZebraLabel.java:210 for the configuration, :198 for the print mode and :216 for the list. The model has no such states and does not model the exception.
- Label.ZebraLabel.SetZebraElements: the element list is a value (`seq`). A caller's later changes to the Java `List` it passed in are therefore not seen through the label.
- `ZebraCommonCodes.getDescription` is the `Description` function of the table. No property beyond its value is stated.
- QRCode.QRCodeRoundTrip: proved only when the magnification contains no line break. A magnification with a line break cannot be read back, because the `^BQ` line would then end early.
- ZebraCustomCommand.java calls `ZplUtils` at line 64 but imports only `FIELD_ORIGIN` (line 13), so the file as written does not compile. The model assumes that import is present.
- The class comment of ZebraCustomCommand.java (lines 1-9) says it supports any command with x, y, z attributes, such as `^FO` and `^BY`. `getZplCode` ignores the stored `command` and always writes `^FO`. The model follows the code: `CustomCommandIsFieldOrigin` states the fragment whatever the command name, and a `^BY` custom command is not modelled.
