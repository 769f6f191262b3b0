/**
 * The printer configuration a label owns and lends to its elements while it
 * encodes them: a density profile and an optional default font and size.
 */
module Options {
  import opened Wrappers
  import opened Enums

  class PrinterOptions {
    var zebraPPP: ZebraPPP
    var defaultZebraFont: Option<ZebraFont>
    var defaultFontSize: Option<int>

    /** A configuration without a default font or size; its density profile is left open. */
    constructor ()
      ensures defaultZebraFont == None && defaultFontSize == None
    {
      var density :| true;
      zebraPPP := density;
      defaultZebraFont := None;
      defaultFontSize := None;
    }

    method SetDefaultZebraFont(font: Option<ZebraFont>)
      modifies this`defaultZebraFont
      ensures defaultZebraFont == font
    {
      defaultZebraFont := font;
    }

    method SetDefaultFontSize(size: Option<int>)
      modifies this`defaultFontSize
      ensures defaultFontSize == size
    {
      defaultFontSize := size;
    }
  }
}
