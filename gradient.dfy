/**
 * The colour-gradient engine the heatmap relies on (an external library). Only the state the
 * heatmap sets on it is modelled; how a value becomes a colour is an uninterpreted `palette`.
 */
module Gradient {
  import opened JsValues

  datatype Spectrum = Spectrum(low: string, high: string)
  datatype NumberRange = NumberRange(min: real, max: real)

  /** The engine's configuration; `None` stands for whatever the library starts with. */
  datatype Setting = Setting(spectrum: Option<Spectrum>, range: Option<NumberRange>)

  /** How the engine turns a value into a hex colour (without `#`) under a given configuration. */
  type Palette = (Setting, Datum) -> string

  class Rainbow {
    var spectrum: Option<Spectrum>
    var range: Option<NumberRange>
    const palette: Palette

    constructor (palette: Palette)
      ensures this.palette == palette && spectrum.None? && range.None?
    {
      this.palette := palette;
      spectrum := None;
      range := None;
    }

    function CurrentSetting(): Setting
      reads this
    {
      Setting(spectrum, range)
    }

    /** `colorAt(v)`: depends on nothing but the configuration and the value. */
    function ColorAt(v: Datum): string
      reads this
    {
      palette(CurrentSetting(), v)
    }

    method SetSpectrum(low: string, high: string)
      modifies this
      ensures spectrum == Some(Spectrum(low, high)) && range == old(range)
    {
      spectrum := Some(Spectrum(low, high));
    }

    method SetNumberRange(min: real, max: real)
      modifies this
      ensures range == Some(NumberRange(min, max)) && spectrum == old(spectrum)
    {
      range := Some(NumberRange(min, max));
    }
  }
}
