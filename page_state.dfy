/** The palette page's state and its event handlers (`Page` in
    app/page.tsx; `ColorPalette` in components/color-palette.tsx runs the
    same handlers over the same state). Each handler is one atomic step;
    React's scheduling of state updates and effects is not modelled. */
module PageState {
  import opened ColorTypes
  import opened PaletteRules
  import ColorGenerator
  import Extraction

  class Page {
    var mode: Mode
    var colors: seq<Hex>
    var selected: Option<Hex>
    var colorCount: int
    var quality: int

    /** The sliders keep both parameters within their bounds. */
    ghost predicate Valid()
      reads this
    {
      MinColorCount <= colorCount <= MaxColorCount && MinQuality <= quality <= MaxQuality
    }

    /** The selected colour, if there is one, is a swatch of the palette. */
    ghost predicate SelectionInPalette()
      reads this
    {
      selected.Some? ==> selected.value in colors
    }

    /** The initial state: random tab, empty palette, nothing selected. */
    constructor ()
      ensures Valid()
      ensures mode == Random && colors == [] && selected == None
      ensures colorCount == 5 && quality == 10
    {
      mode := Random;
      colors := [];
      selected := None;
      colorCount := 5;
      quality := 10;
    }

    /** `handleRandom`: a fresh analogous palette of `colorCount` entries
        replaces the old one and its first entry is selected. */
    method HandleRandom(baseHue: ColorGenerator.Hue, draws: nat -> ColorGenerator.ShadeDraw, toHex: Hsl -> Hex)
      requires Valid()
      modifies this`colors, this`selected
      ensures |colors| == colorCount
      ensures forall i :: 0 <= i < colorCount ==>
        colors[i] == toHex(ColorGenerator.Shades(baseHue, draws, colorCount)[i])
      ensures selected == Some(colors[0])
      ensures SelectionInPalette()
    {
      var arr := ColorGenerator.RandomColor(colorCount, baseHue, draws, toHex);
      colors := arr;
      selected := FirstOrNone(arr);
    }

    /** The effect on `[mode, colorCount]`: in random mode an empty palette
        is regenerated, so it is never left empty; otherwise nothing changes. */
    method RandomModeEffect(baseHue: ColorGenerator.Hue, draws: nat -> ColorGenerator.ShadeDraw, toHex: Hsl -> Hex)
      requires Valid()
      modifies this`colors, this`selected
      ensures old(mode == Random && colors == []) ==>
        |colors| == colorCount > 0 && selected == Some(colors[0])
      ensures old(mode == Random && colors == []) ==>
        forall i :: 0 <= i < colorCount ==>
          colors[i] == toHex(ColorGenerator.Shades(baseHue, draws, colorCount)[i])
      ensures !old(mode == Random && colors == []) ==>
        colors == old(colors) && selected == old(selected)
    {
      if mode == Random && |colors| == 0 {
        HandleRandom(baseHue, draws, toHex);
      }
    }

    /** `handleExtractColors`: without the image and quantizer references
        nothing happens; a successful extraction replaces the palette and
        selects its first entry (nothing when it is empty); a failed one
        changes nothing. */
    method HandleExtractColors(ready: bool, q: Extraction.Quantization, rgbToHex: Rgb -> Hex)
      modifies this`colors, this`selected
      ensures var arr := Extraction.ExtractColors(q, rgbToHex);
        if ready && arr.Some? then colors == arr.value && selected == FirstOrNone(arr.value)
        else colors == old(colors) && selected == old(selected)
      ensures ready && !q.Failed? ==> SelectionInPalette()
    {
      if !ready {
        return;
      }
      var arr := Extraction.ExtractColors(q, rgbToHex);
      match arr
      case Some(extracted) =>
        colors := extracted;
        selected := FirstOrNone(extracted);
      case None =>
    }

    /** `handleCanvasClick`: `pixel` is the clicked pixel, or None when there
        is no canvas or no 2D context (then nothing happens). A pick goes
        into the palette by the mode's rule and is always selected. */
    method HandleCanvasClick(pixel: Option<Rgb>, rgbToHex: Rgb -> Hex)
      modifies this`colors, this`selected
      ensures pixel.None? ==> colors == old(colors) && selected == old(selected)
      ensures pixel.Some? ==> var hex := rgbToHex(pixel.value);
        colors == PickInto(mode, old(colors), hex) && selected == Some(hex)
      ensures pixel.Some? ==> SelectionInPalette()
      ensures pixel.Some? && |old(colors)| <= MaxPicked ==> |colors| <= MaxPicked
      ensures NoDuplicates(old(colors)) ==> NoDuplicates(colors)
    {
      if pixel.None? {
        return;
      }
      var hex := rgbToHex(pixel.value);
      if mode == Eyedropper {
        colors := [hex];
      } else if hex !in colors {
        colors := [hex] + colors[..if |colors| < 9 then |colors| else 9];
      }
      selected := Some(hex);
    }

    /** `handleTabChange`: the palette is emptied and the mode set; the
        selection is left as it was. */
    method HandleTabChange(v: Mode)
      modifies this`colors, this`mode
      ensures colors == [] && mode == v
      ensures selected == old(selected)
    {
      colors := [];
      mode := v;
    }

    /** A tab change as the user sees it: the handler, then the effect that
        React runs because `mode` changed. Entering the random tab replaces
        the old selection by the first entry of a fresh palette; entering
        another tab leaves the palette empty and the old selection in place. */
    method ChangeTab(v: Mode, baseHue: ColorGenerator.Hue, draws: nat -> ColorGenerator.ShadeDraw, toHex: Hsl -> Hex)
      requires Valid() && v != mode
      modifies this`colors, this`mode, this`selected
      ensures mode == v
      ensures v == Random ==> |colors| == colorCount && selected == Some(colors[0])
      ensures v == Random ==> forall i :: 0 <= i < colorCount ==>
        colors[i] == toHex(ColorGenerator.Shades(baseHue, draws, colorCount)[i])
      ensures v != Random ==> colors == [] && selected == old(selected)
    {
      HandleTabChange(v);
      RandomModeEffect(baseHue, draws, toHex);
    }

    /** A click on swatch i selects it; the palette is untouched. */
    method SelectSwatch(i: nat)
      requires i < |colors|
      modifies this`selected
      ensures selected == Some(colors[i])
      ensures SelectionInPalette()
    {
      selected := Some(colors[i]);
    }

    /** The colour-count slider, bounded to 3..10. */
    method SetColorCount(v: int)
      requires MinColorCount <= v <= MaxColorCount
      requires Valid()
      modifies this`colorCount
      ensures Valid() && colorCount == v
    {
      colorCount := v;
    }

    /** The quality slider, bounded to 1..20. */
    method SetQuality(v: int)
      requires MinQuality <= v <= MaxQuality
      requires Valid()
      modifies this`quality
      ensures Valid() && quality == v
    {
      quality := v;
    }
  }
}
