/**
 * The label composer: canvas dimensions, print mode, printer configuration
 * and an ordered list of elements, serialised into one ZPL program: start of
 * format, print mode, optional width, optional length, optional default font,
 * every element's fragment in order, end of format.
 */
module Label {
  import opened Wrappers
  import opened Decimal
  import opened ZplUtils
  import opened Enums
  import opened Options
  import opened QRCode
  import opened Element

  /**
   * The conversion of a default font and size into the `^CF` parameters for
   * a density profile (`extractDotsFromFont`), supplied by the caller.
   */
  type FontDots = (ZebraFont, int, ZebraPPP) -> seq<string>

  /** The fragment a print mode writes (`ZebraPrintMode.getZplCode`), supplied by the caller. */
  type PrintModeCode = ZebraPrintMode -> string

  /** Everything the encoding of a label reads, as a value. */
  datatype LabelValue = LabelValue(
    widthDots: Option<int>,
    heightDots: Option<int>,
    zebraPrintMode: ZebraPrintMode,
    defaultZebraFont: Option<ZebraFont>,
    defaultFontSize: Option<int>,
    zebraPPP: ZebraPPP,
    elements: seq<ElementKind>)

  const StartLine: string := ZplCommandLine("XA", [])
  const EndLine: string := ZplCommandLine("XZ", [])

  /** A `^PW`/`^LL` line for a set dimension, nothing for an unset one. */
  function DimensionLine(mnemonic: string, dots: Option<int>): string
  {
    if dots.Some? then ZplCommandLine(mnemonic, [IntToString(dots.value)]) else ""
  }

  /** The `^CF` line, written only when both the default font and its size are set. */
  function FontLine(l: LabelValue, fontDots: FontDots): string
  {
    if l.defaultZebraFont.Some? && l.defaultFontSize.Some? then
      ZplCommandLine("CF", fontDots(l.defaultZebraFont.value, l.defaultFontSize.value, l.zebraPPP))
    else ""
  }

  /** Everything before the elements. */
  function HeaderZpl(l: LabelValue, modeCode: PrintModeCode, fontDots: FontDots): string
  {
    StartLine + modeCode(l.zebraPrintMode) + DimensionLine("PW", l.widthDots)
      + DimensionLine("LL", l.heightDots) + FontLine(l, fontDots)
  }

  /** Each element's fragment, in list order. */
  function Fragments(kinds: seq<ElementKind>): (parts: seq<string>)
    ensures |parts| == |kinds|
    ensures forall i :: 0 <= i < |kinds| ==> parts[i] == ElementZpl(kinds[i])
  {
    seq(|kinds|, i requires 0 <= i < |kinds| => ElementZpl(kinds[i]))
  }

  /** The elements' fragments, one after the other in list order. */
  function ElementsZpl(kinds: seq<ElementKind>): string
  {
    Concat(Fragments(kinds))
  }

  /** What `ZebraLabel.getZplCode` produces for a label in this state. */
  function LabelZpl(l: LabelValue, modeCode: PrintModeCode, fontDots: FontDots): string
  {
    HeaderZpl(l, modeCode, fontDots) + ElementsZpl(l.elements) + EndLine
  }

  /** Appending an element appends its fragment to the elements' text. */
  lemma {:induction false} ElementsZplAppend(kinds: seq<ElementKind>, kind: ElementKind)
    ensures ElementsZpl(kinds + [kind]) == ElementsZpl(kinds) + ElementZpl(kind)
  {
    assert Fragments(kinds + [kind]) == Fragments(kinds) + [ElementZpl(kind)];
    ConcatAppend(Fragments(kinds), [ElementZpl(kind)]);
    assert Concat([ElementZpl(kind)]) == ElementZpl(kind) by {
      assert [ElementZpl(kind)][1..] == [];
    }
  }

  /** Element `i`'s fragment sits between those of the elements before it and after it. */
  lemma {:induction false} ElementsZplAt(kinds: seq<ElementKind>, i: nat)
    requires i < |kinds|
    ensures ElementsZpl(kinds) == ElementsZpl(kinds[..i]) + ElementZpl(kinds[i]) + ElementsZpl(kinds[i + 1..])
  {
    var parts := Fragments(kinds);
    ConcatAt(parts, i);
    assert parts[..i] == Fragments(kinds[..i]);
    assert parts[i + 1..] == Fragments(kinds[i + 1..]);
  }

  /** The elements' text is empty exactly when every element keeps the default encoding; otherwise it begins with `^BQ`. */
  lemma {:induction false} ElementsZplShape(kinds: seq<ElementKind>)
    ensures ElementsZpl(kinds) == "" <==> forall i :: 0 <= i < |kinds| ==> kinds[i].Default?
    ensures ElementsZpl(kinds) != "" ==> |ElementsZpl(kinds)| >= 3 && CommandHead(ElementsZpl(kinds)) == "^BQ"
  {
    if kinds != [] {
      var rest := kinds[1..];
      assert Fragments(kinds) == [ElementZpl(kinds[0])] + Fragments(rest);
      assert ElementsZpl(kinds) == ElementZpl(kinds[0]) + ElementsZpl(rest);
      ElementZplShape(kinds[0]);
      ElementsZplShape(rest);
      CommandHeadAppend(ElementZpl(kinds[0]), ElementsZpl(rest));
      if kinds[0].QRCode? {
        QRCodeStart(kinds[0].fields);
      } else {
        assert forall i :: 1 <= i < |kinds| ==> kinds[i] == rest[i - 1];
        assert forall i :: 0 <= i < |rest| ==> rest[i] == kinds[i + 1];
      }
    }
  }

  /** The fragments of the first i + 1 elements are those of the first i, then the next one. */
  lemma ElementsZplStep(kinds: seq<ElementKind>, i: nat)
    requires i < |kinds|
    ensures ElementsZpl(kinds[..i + 1]) == ElementsZpl(kinds[..i]) + ElementZpl(kinds[i])
  {
    assert kinds[..i + 1] == kinds[..i] + [kinds[i]];
    ElementsZplAppend(kinds[..i], kinds[i]);
  }

  /** What follows the header begins with an element's `^BQ` or with the end of format. */
  lemma {:induction false} TailHead(kinds: seq<ElementKind>)
    ensures var rest := ElementsZpl(kinds) + EndLine;
      |rest| >= 3 && (CommandHead(rest) == "^BQ" || CommandHead(rest) == "^XZ")
  {
    ElementsZplShape(kinds);
    CommandLineHead("XZ", []);
    var e := ElementsZpl(kinds);
    CommandHeadAppend(e, EndLine);
  }

  /** A dimension line is absent for an unset dimension and otherwise begins with its command. */
  lemma {:induction false} DimensionLineShape(mnemonic: string, dots: Option<int>)
    requires |mnemonic| == 2
    ensures dots.None? ==> DimensionLine(mnemonic, dots) == ""
    ensures dots.Some? ==> |DimensionLine(mnemonic, dots)| >= 3
                           && CommandHead(DimensionLine(mnemonic, dots)) == [Caret] + mnemonic
  {
    if dots.Some? {
      CommandLineHead(mnemonic, [IntToString(dots.value)]);
    }
  }

  /** The font line is absent unless both font and size are set, and otherwise begins with `^CF`. */
  lemma {:induction false} FontLineShape(l: LabelValue, fontDots: FontDots)
    ensures !(l.defaultZebraFont.Some? && l.defaultFontSize.Some?) ==> FontLine(l, fontDots) == ""
    ensures l.defaultZebraFont.Some? && l.defaultFontSize.Some? ==>
              |FontLine(l, fontDots)| >= 3 && CommandHead(FontLine(l, fontDots)) == "^CF"
  {
    if l.defaultZebraFont.Some? && l.defaultFontSize.Some? {
      CommandLineHead("CF", fontDots(l.defaultZebraFont.value, l.defaultFontSize.value, l.zebraPPP));
    }
  }

  /**
   * Where the sections of a program sit, for any texts: the opening lines are
   * a prefix, each later section starts where the ones before it end, and the
   * last section is a suffix.
   */
  lemma {:induction false} SectionOffsets(start: string, mode: string, pw: string, ll: string, cf: string,
                                          elements: string, end: string)
    ensures var out := start + mode + pw + ll + cf + elements + end;
      StartsWith(out, start + mode)
      && out[|start + mode|..] == pw + (ll + (cf + (elements + end)))
      && out[|start + mode + pw|..] == ll + (cf + (elements + end))
      && out[|start + mode + pw + ll|..] == cf + (elements + end)
      && out[|out| - |end|..] == end
  {
    var h1 := start + mode;
    var h2 := h1 + pw;
    var h3 := h2 + ll;
    var h4 := h3 + cf;
    var h5 := h4 + elements;
    var out := h5 + end;
    AppendParts(h1, pw);
    AppendParts(h2, ll);
    AppendParts(h3, cf);
    AppendParts(h4, elements);
    AppendParts(h5, end);
    StartsWithAppend(h1, pw, h1);
    StartsWithAppend(h2, ll, h1);
    StartsWithAppend(h3, cf, h1);
    StartsWithAppend(h4, elements, h1);
    StartsWithAppend(h5, end, h1);
    DropAppend(h5, end, |h1|);
    DropAppend(h4, elements, |h1|);
    DropAppend(h3, cf, |h1|);
    DropAppend(h2, ll, |h1|);
    assert out[|h1|..] == (((pw + ll) + cf) + elements) + end;
    DropAppend(h5, end, |h2|);
    DropAppend(h4, elements, |h2|);
    DropAppend(h3, cf, |h2|);
    assert out[|h2|..] == ((ll + cf) + elements) + end;
    DropAppend(h5, end, |h3|);
    DropAppend(h4, elements, |h3|);
    assert out[|h3|..] == (cf + elements) + end;
    AppendAssoc(cf, elements, end);
    AppendAssoc(ll, cf, elements);
    AppendAssoc(ll, cf + elements, end);
    AppendAssoc(pw + ll, cf, elements);
    AppendAssoc(pw, ll, cf);
    AppendAssoc(pw, ll + cf, elements);
    AppendAssoc((pw + ll) + cf, elements, end);
    AppendAssoc(pw + ll, cf, elements + end);
    AppendAssoc(pw, ll, cf + (elements + end));
  }

  /** A section that is empty or begins with a command lets the text after it be read through. */
  lemma {:induction false} HeadThrough(section: string, rest: string)
    requires section == "" || |section| >= 3
    ensures section == "" ==> CommandHead(section + rest) == CommandHead(rest)
    ensures section != "" ==> CommandHead(section + rest) == CommandHead(section)
  {
    CommandHeadAppend(section, rest);
  }

  /** The program opens with the start-format line directly followed by the print mode, and closes with end of format. */
  lemma {:induction false} LabelFrame(l: LabelValue, modeCode: PrintModeCode, fontDots: FontDots)
    ensures var out := LabelZpl(l, modeCode, fontDots);
      StartsWith(out, "^XA\n" + modeCode(l.zebraPrintMode))
      && |out| >= 4 && out[|out| - 4..] == "^XZ\n"
  {
    assert StartLine == "^XA\n" && EndLine == "^XZ\n";
    SectionOffsets(StartLine, modeCode(l.zebraPrintMode), DimensionLine("PW", l.widthDots),
                   DimensionLine("LL", l.heightDots), FontLine(l, fontDots), ElementsZpl(l.elements), EndLine);
  }

  /** Right after the print mode comes a `^PW` line exactly when the width is set, and that line carries the width. */
  lemma {:induction false} WidthLinePresence(l: LabelValue, modeCode: PrintModeCode, fontDots: FontDots)
    ensures var out := LabelZpl(l, modeCode, fontDots);
      var k := |StartLine + modeCode(l.zebraPrintMode)|;
      k <= |out|
      && (CommandHead(out[k..]) == "^PW" <==> l.widthDots.Some?)
      && (l.widthDots.Some? ==> StartsWith(out[k..], ZplCommandLine("PW", [IntToString(l.widthDots.value)])))
  {
    var pw := DimensionLine("PW", l.widthDots);
    var ll := DimensionLine("LL", l.heightDots);
    var cf := FontLine(l, fontDots);
    var e := ElementsZpl(l.elements);
    SectionOffsets(StartLine, modeCode(l.zebraPrintMode), pw, ll, cf, e, EndLine);
    DimensionLineShape("PW", l.widthDots);
    DimensionLineShape("LL", l.heightDots);
    FontLineShape(l, fontDots);
    TailHead(l.elements);
    HeadThrough(pw, ll + (cf + (e + EndLine)));
    HeadThrough(ll, cf + (e + EndLine));
    HeadThrough(cf, e + EndLine);
    var out := LabelZpl(l, modeCode, fontDots);
    var k := |StartLine + modeCode(l.zebraPrintMode)|;
    assert out[k..] == pw + (ll + (cf + (e + EndLine)));
    if l.widthDots.Some? {
      AppendParts(pw, ll + (cf + (e + EndLine)));
      assert CommandHead(out[k..]) == "^PW";
    } else {
      var h := CommandHead(out[k..]);
      assert h == CommandHead(ll + (cf + (e + EndLine)));
      assert h == "^LL" || h == "^CF" || h == "^BQ" || h == "^XZ";
      assert h[1] != 'P';
    }
  }

  /** After the optional `^PW` line comes an `^LL` line exactly when the height is set, and that line carries the height. */
  lemma {:induction false} HeightLinePresence(l: LabelValue, modeCode: PrintModeCode, fontDots: FontDots)
    ensures var out := LabelZpl(l, modeCode, fontDots);
      var k := |StartLine + modeCode(l.zebraPrintMode) + DimensionLine("PW", l.widthDots)|;
      k <= |out|
      && (CommandHead(out[k..]) == "^LL" <==> l.heightDots.Some?)
      && (l.heightDots.Some? ==> StartsWith(out[k..], ZplCommandLine("LL", [IntToString(l.heightDots.value)])))
  {
    var pw := DimensionLine("PW", l.widthDots);
    var ll := DimensionLine("LL", l.heightDots);
    var cf := FontLine(l, fontDots);
    var e := ElementsZpl(l.elements);
    SectionOffsets(StartLine, modeCode(l.zebraPrintMode), pw, ll, cf, e, EndLine);
    DimensionLineShape("LL", l.heightDots);
    FontLineShape(l, fontDots);
    TailHead(l.elements);
    HeadThrough(ll, cf + (e + EndLine));
    HeadThrough(cf, e + EndLine);
    if l.heightDots.Some? {
      AppendParts(ll, cf + (e + EndLine));
    }
  }

  /**
   * After the optional dimension lines comes a `^CF` line exactly when both
   * the default font and its size are set; otherwise the elements follow at once.
   */
  lemma {:induction false} FontLinePresence(l: LabelValue, modeCode: PrintModeCode, fontDots: FontDots)
    ensures var out := LabelZpl(l, modeCode, fontDots);
      var k := |StartLine + modeCode(l.zebraPrintMode) + DimensionLine("PW", l.widthDots)
                + DimensionLine("LL", l.heightDots)|;
      k <= |out|
      && (CommandHead(out[k..]) == "^CF" <==> l.defaultZebraFont.Some? && l.defaultFontSize.Some?)
      && (l.defaultZebraFont.None? || l.defaultFontSize.None? ==> out[k..] == ElementsZpl(l.elements) + EndLine)
  {
    var pw := DimensionLine("PW", l.widthDots);
    var ll := DimensionLine("LL", l.heightDots);
    var cf := FontLine(l, fontDots);
    var e := ElementsZpl(l.elements);
    SectionOffsets(StartLine, modeCode(l.zebraPrintMode), pw, ll, cf, e, EndLine);
    FontLineShape(l, fontDots);
    TailHead(l.elements);
    HeadThrough(cf, e + EndLine);
  }

  /** Appending an element inserts its fragment just before the end-of-format line, leaving the rest as it was. */
  lemma {:induction false} AddElementZpl(l: LabelValue, kind: ElementKind, modeCode: PrintModeCode,
                                        fontDots: FontDots)
    ensures var before := LabelZpl(l, modeCode, fontDots);
      var after := LabelZpl(l.(elements := l.elements + [kind]), modeCode, fontDots);
      |before| >= 4 && after == before[..|before| - 4] + ElementZpl(kind) + EndLine
  {
    var header := HeaderZpl(l, modeCode, fontDots);
    var e := ElementsZpl(l.elements);
    ElementsZplAppend(l.elements, kind);
    assert HeaderZpl(l.(elements := l.elements + [kind]), modeCode, fontDots) == header;
    AppendParts(header + e, EndLine);
    AppendAssoc(header, e, ElementZpl(kind));
  }

  /** A dimension of 203 dots is written in decimal after its command. */
  lemma DimensionLine203(mnemonic: string)
    ensures DimensionLine(mnemonic, Some(203)) == [Caret] + mnemonic + "203\n"
  {
    assert NatToString(203) == "203" by {
      assert NatToString(20) == "20";
    }
    assert Join(["203"]) == "203";
  }

  /**
   * Without elements, and with the default font or its size unset, the
   * program is the opening lines, the dimension lines and the end of format.
   */
  lemma BareLabel(l: LabelValue, modeCode: PrintModeCode, fontDots: FontDots)
    requires l.elements == [] && (l.defaultZebraFont.None? || l.defaultFontSize.None?)
    ensures LabelZpl(l, modeCode, fontDots) == StartLine + modeCode(l.zebraPrintMode)
              + (DimensionLine("PW", l.widthDots) + DimensionLine("LL", l.heightDots) + EndLine)
  {
    var h := StartLine + modeCode(l.zebraPrintMode);
    var pw := DimensionLine("PW", l.widthDots);
    var ll := DimensionLine("LL", l.heightDots);
    assert FontLine(l, fontDots) == "";
    assert ElementsZpl([]) == "";
    AppendEmpty((h + pw) + ll);
    AppendEmpty(((h + pw) + ll) + "");
    AppendAssoc(h, pw, ll);
    AppendAssoc(h, pw + ll, EndLine);
  }

  /** The elements as values, in list order. */
  function KindsOf(elements: seq<ZebraElement>): (kinds: seq<ElementKind>)
    reads elements
    ensures |kinds| == |elements|
    ensures forall i :: 0 <= i < |elements| ==> kinds[i] == elements[i].kind
  {
    seq(|elements|, i requires 0 <= i < |elements| reads elements => elements[i].kind)
  }

  class ZebraLabel {
    var widthDots: Option<int>
    var heightDots: Option<int>
    var zebraPrintMode: ZebraPrintMode
    var printerOptions: PrinterOptions
    var zebraElements: seq<ZebraElement>

    /** The label's encodable state. */
    function Value(): LabelValue
      reads this, printerOptions, zebraElements
    {
      LabelValue(widthDots, heightDots, zebraPrintMode, printerOptions.defaultZebraFont,
                 printerOptions.defaultFontSize, printerOptions.zebraPPP, KindsOf(zebraElements))
    }

    /** An unsized label with a fresh default configuration. */
    constructor ()
      ensures widthDots == None && heightDots == None && zebraPrintMode == TEAR_OFF && zebraElements == []
      ensures fresh(printerOptions)
      ensures printerOptions.defaultZebraFont == None && printerOptions.defaultFontSize == None
    {
      widthDots, heightDots, zebraPrintMode, zebraElements := None, None, TEAR_OFF, [];
      printerOptions := new PrinterOptions();
    }

    /** An unsized label using the given configuration. */
    constructor WithOptions(options: PrinterOptions)
      ensures widthDots == None && heightDots == None && zebraPrintMode == TEAR_OFF && zebraElements == []
      ensures printerOptions == options
    {
      widthDots, heightDots, zebraPrintMode, zebraElements := None, None, TEAR_OFF, [];
      printerOptions := options;
    }

    /** A label of the given size in dots, with a fresh default configuration. */
    constructor WithSize(width: int, height: int)
      ensures widthDots == Some(width) && heightDots == Some(height)
      ensures zebraPrintMode == TEAR_OFF && zebraElements == []
      ensures fresh(printerOptions)
      ensures printerOptions.defaultZebraFont == None && printerOptions.defaultFontSize == None
    {
      widthDots, heightDots, zebraPrintMode, zebraElements := Some(width), Some(height), TEAR_OFF, [];
      printerOptions := new PrinterOptions();
    }

    /** A label of the given size in dots, using the given configuration. */
    constructor WithSizeAndOptions(width: int, height: int, options: PrinterOptions)
      ensures widthDots == Some(width) && heightDots == Some(height)
      ensures zebraPrintMode == TEAR_OFF && zebraElements == [] && printerOptions == options
    {
      widthDots, heightDots, zebraPrintMode, zebraElements := Some(width), Some(height), TEAR_OFF, [];
      printerOptions := options;
    }

    /** Appends one element after the existing ones and returns the label itself. */
    method AddElement(element: ZebraElement) returns (self: ZebraLabel)
      modifies this`zebraElements
      ensures zebraElements == old(zebraElements) + [element] && self == this
      ensures Value() == old(Value()).(elements := old(Value()).elements + [element.kind])
    {
      zebraElements := zebraElements + [element];
      self := this;
    }

    /** Sets the default font on the shared configuration, not on the label. */
    method SetDefaultZebraFont(font: Option<ZebraFont>) returns (self: ZebraLabel)
      modifies printerOptions`defaultZebraFont
      ensures printerOptions.defaultZebraFont == font && self == this
    {
      printerOptions.SetDefaultZebraFont(font);
      self := this;
    }

    /** Sets the default font size on the shared configuration, not on the label. */
    method SetDefaultFontSize(size: Option<int>) returns (self: ZebraLabel)
      modifies printerOptions`defaultFontSize
      ensures printerOptions.defaultFontSize == size && self == this
    {
      printerOptions.SetDefaultFontSize(size);
      self := this;
    }

    method SetWidthDots(width: Option<int>) returns (self: ZebraLabel)
      modifies this`widthDots
      ensures widthDots == width && self == this
    {
      widthDots := width;
      self := this;
    }

    method SetHeightDots(height: Option<int>) returns (self: ZebraLabel)
      modifies this`heightDots
      ensures heightDots == height && self == this
    {
      heightDots := height;
      self := this;
    }

    method SetZebraPrintMode(mode: ZebraPrintMode) returns (self: ZebraLabel)
      modifies this`zebraPrintMode
      ensures zebraPrintMode == mode && self == this
    {
      zebraPrintMode := mode;
      self := this;
    }

    method SetPrinterOptions(options: PrinterOptions)
      modifies this`printerOptions
      ensures printerOptions == options
    {
      printerOptions := options;
    }

    method SetZebraElements(elements: seq<ZebraElement>)
      modifies this`zebraElements
      ensures zebraElements == elements
    {
      zebraElements := elements;
    }

    /**
     * The opening lines of `getZplCode`: start of format, print mode, then the
     * width, height and default-font lines for the settings that are present.
     */
    method HeaderCode(modeCode: PrintModeCode, fontDots: FontDots) returns (zpl: string)
      ensures zpl == HeaderZpl(Value(), modeCode, fontDots)
    {
      ghost var v := Value();
      zpl := ZplCommandLine("XA", []);
      zpl := zpl + modeCode(zebraPrintMode);
      if widthDots.Some? {
        zpl := zpl + ZplCommandLine("PW", [IntToString(widthDots.value)]);
      } else {
        AppendEmpty(zpl);
      }
      assert zpl == StartLine + modeCode(v.zebraPrintMode) + DimensionLine("PW", v.widthDots);
      if heightDots.Some? {
        zpl := zpl + ZplCommandLine("LL", [IntToString(heightDots.value)]);
      } else {
        AppendEmpty(zpl);
      }
      assert zpl == StartLine + modeCode(v.zebraPrintMode) + DimensionLine("PW", v.widthDots)
                    + DimensionLine("LL", v.heightDots);
      if printerOptions.defaultZebraFont.Some? && printerOptions.defaultFontSize.Some? {
        zpl := zpl + ZplCommandLine("CF", fontDots(printerOptions.defaultZebraFont.value,
                                                   printerOptions.defaultFontSize.value,
                                                   printerOptions.zebraPPP));
      } else {
        AppendEmpty(zpl);
      }
    }

    /** One turn of the element loop: lend the label's configuration to the element, then encode it. */
    method LendAndEncode(element: ZebraElement) returns (fragment: string)
      modifies element`printerOptions
      ensures element.printerOptions == printerOptions
      ensures fragment == ElementZpl(element.kind)
    {
      element.SetPrinterOptions(printerOptions);
      fragment := element.GetZplCode();
    }

    /**
     * The element loop of `getZplCode`: each element in turn is lent the
     * label's configuration and then encoded; nothing but that configuration changes.
     */
    method ElementsCode(ghost kinds: seq<ElementKind>) returns (code: string)
      requires kinds == KindsOf(zebraElements)
      modifies zebraElements`printerOptions
      ensures code == ElementsZpl(kinds)
      ensures forall j :: 0 <= j < |zebraElements| ==>
                zebraElements[j].printerOptions == printerOptions && zebraElements[j].kind == kinds[j]
    {
      var elements := zebraElements;
      code := "";
      var i := 0;
      while i < |elements|
        invariant 0 <= i <= |elements|
        invariant forall j :: 0 <= j < |elements| ==> elements[j].kind == kinds[j]
        invariant forall j :: 0 <= j < i ==> elements[j].printerOptions == printerOptions
        invariant code == ElementsZpl(kinds[..i])
      {
        var fragment := LendAndEncode(elements[i]);
        assert code + fragment == ElementsZpl(kinds[..i + 1]) by {
          ElementsZplStep(kinds, i);
        }
        code := code + fragment;
        i := i + 1;
      }
      assert kinds[..i] == kinds;
    }

    /**
     * `getZplCode`: the label's program for its current state. Each element
     * is lent the label's configuration before it is encoded; nothing else
     * changes, so encoding again gives the same text.
     */
    method GetZplCode(modeCode: PrintModeCode, fontDots: FontDots) returns (zpl: string)
      modifies zebraElements`printerOptions
      ensures zpl == LabelZpl(Value(), modeCode, fontDots)
      ensures Value() == old(Value())
      ensures forall i :: 0 <= i < |zebraElements| ==> zebraElements[i].printerOptions == printerOptions
      ensures forall i :: 0 <= i < |zebraElements| ==>
                zebraElements[i].positionX == old(zebraElements[i].positionX)
                && zebraElements[i].positionY == old(zebraElements[i].positionY)
    {
      zpl := HeaderCode(modeCode, fontDots);
      ghost var v := Value();
      var code := ElementsCode(v.elements);
      assert KindsOf(zebraElements) == v.elements;
      assert Value() == v;
      zpl := zpl + code + ZplCommandLine("XZ", []);
    }
  }

  /** Encoding an unchanged label twice gives the same text both times. */
  method EncodeTwice(zebraLabel: ZebraLabel, modeCode: PrintModeCode, fontDots: FontDots)
    returns (first: string, second: string)
    modifies zebraLabel.zebraElements`printerOptions
    ensures first == second
  {
    first := zebraLabel.GetZplCode(modeCode, fontDots);
    second := zebraLabel.GetZplCode(modeCode, fontDots);
  }

  /**
   * The default font is read from the shared configuration when the label is
   * encoded: setting it after an element was added still puts the `^CF` line
   * into the program.
   */
  method FontSetAfterAdding(font: ZebraFont, size: int, text: string, modeCode: PrintModeCode, fontDots: FontDots)
    returns (zpl: string)
    ensures var k := |StartLine + modeCode(TEAR_OFF)|;
      k <= |zpl| && CommandHead(zpl[k..]) == "^CF"
  {
    var zebraLabel := new ZebraLabel();
    var qr := new ZebraElement.QRCode(text);
    var self := zebraLabel.AddElement(qr);
    self := zebraLabel.SetDefaultZebraFont(Some(font));
    self := zebraLabel.SetDefaultFontSize(Some(size));
    ghost var v := zebraLabel.Value();
    assert v.zebraPrintMode == TEAR_OFF && v.defaultZebraFont.Some? && v.defaultFontSize.Some?;
    FontLinePresence(v, modeCode, fontDots);
    zpl := zebraLabel.GetZplCode(modeCode, fontDots);
  }
}
