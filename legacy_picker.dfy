/** The older palette component (`ColorPicker` in app/color-palette.tsx).
    Its generator loop is the same as `randomColor`; its rules differ from
    the page's: a new palette changes the selection only when it is
    non-empty, a null quantizer palette is an error, and switching tabs
    touches neither the palette nor the selection. */
module LegacyPicker {
  import opened ColorTypes
  import opened PaletteRules
  import ColorGenerator
  import Extraction

  class ColorPicker {
    var activeTab: Mode
    var colors: seq<Hex>
    var selectedColor: Option<Hex>
    var colorCount: int
    var quality: int

    /** The sliders keep both parameters within their bounds. */
    ghost predicate Valid()
      reads this
    {
      MinColorCount <= colorCount <= MaxColorCount && MinQuality <= quality <= MaxQuality
    }

    ghost predicate SelectionInPalette()
      reads this
    {
      selectedColor.Some? ==> selectedColor.value in colors
    }

    /** The state before the mount effect runs. */
    constructor ()
      ensures Valid()
      ensures activeTab == Random && colors == [] && selectedColor == None
      ensures colorCount == 5 && quality == 10
    {
      activeTab := Random;
      colors := [];
      selectedColor := None;
      colorCount := 5;
      quality := 10;
    }

    /** `generateRandomColors` (also run once on mount): the loop builds
        `colorCount` analogous colours, which replace the palette; the first
        is selected when there is one, else the old selection stays. */
    method GenerateRandomColors(baseHue: ColorGenerator.Hue, draws: nat -> ColorGenerator.ShadeDraw, toHex: Hsl -> Hex)
      requires Valid()
      modifies this`colors, this`selectedColor
      ensures |colors| == colorCount
      ensures forall i :: 0 <= i < colorCount ==>
        colors[i] == toHex(ColorGenerator.Shades(baseHue, draws, colorCount)[i])
      ensures selectedColor == if |colors| > 0 then Some(colors[0]) else old(selectedColor)
      ensures SelectionInPalette()
    {
      var newColors := ColorGenerator.RandomColor(colorCount, baseHue, draws, toHex);
      colors := newColors;
      if |newColors| > 0 {
        selectedColor := Some(newColors[0]);
      }
    }

    /** `extractColorsFromImage`: without the image and quantizer references
        nothing happens. A palette of triples is converted one for one and
        replaces the colours; the first is selected when there is one. A
        null palette (whose `map` throws) or a failure changes nothing. */
    method ExtractColorsFromImage(ready: bool, q: Extraction.Quantization, rgbToHex: Rgb -> Hex)
      modifies this`colors, this`selectedColor
      ensures ready && q.Palette? ==>
        colors == Extraction.ToHexColors(q.triples, rgbToHex) &&
        selectedColor == if |colors| > 0 then Some(colors[0]) else old(selectedColor)
      ensures !(ready && q.Palette?) ==> colors == old(colors) && selectedColor == old(selectedColor)
    {
      if !ready {
        return;
      }
      match q
      case Palette(triples) =>
        var hexColors := Extraction.ToHexColors(triples, rgbToHex);
        colors := hexColors;
        if |hexColors| > 0 {
          selectedColor := Some(hexColors[0]);
        }
      case NoPalette =>
      case Failed =>
    }

    /** `handleCanvasClick`: `pixel` is the clicked pixel, or None when there
        is no canvas or no 2D context. The pick goes into the palette by the
        tab's rule and is selected. */
    method HandleCanvasClick(pixel: Option<Rgb>, rgbToHex: Rgb -> Hex)
      modifies this`colors, this`selectedColor
      ensures pixel.None? ==> colors == old(colors) && selectedColor == old(selectedColor)
      ensures pixel.Some? ==> var hexColor := rgbToHex(pixel.value);
        colors == PickInto(activeTab, old(colors), hexColor) && selectedColor == Some(hexColor)
      ensures pixel.Some? ==> SelectionInPalette()
      ensures pixel.Some? && |old(colors)| <= MaxPicked ==> |colors| <= MaxPicked
      ensures NoDuplicates(old(colors)) ==> NoDuplicates(colors)
    {
      if pixel.None? {
        return;
      }
      var hexColor := rgbToHex(pixel.value);
      if activeTab == Eyedropper {
        colors := [hexColor];
      } else if hexColor !in colors {
        colors := [hexColor] + colors[..if |colors| < 9 then |colors| else 9];
      }
      selectedColor := Some(hexColor);
    }

    /** The tabs' `onValueChange`: only the active tab changes. */
    method SetActiveTab(v: Mode)
      modifies this`activeTab
      ensures activeTab == v
      ensures colors == old(colors) && selectedColor == old(selectedColor)
    {
      activeTab := v;
    }

    /** A click on swatch i selects it; the palette is untouched. */
    method SelectSwatch(i: nat)
      requires i < |colors|
      modifies this`selectedColor
      ensures selectedColor == Some(colors[i])
      ensures SelectionInPalette()
    {
      selectedColor := Some(colors[i]);
    }

    /** The colour-count slider, bounded to 3..10. */
    method SetColorCount(v: int)
      requires MinColorCount <= v <= MaxColorCount
      requires Valid()
      modifies this`colorCount
      ensures Valid() && colorCount == v
    {
      colorCount := v;
    }

    /** The quality slider, bounded to 1..20. */
    method SetQuality(v: int)
      requires MinQuality <= v <= MaxQuality
      requires Valid()
      modifies this`quality
      ensures Valid() && quality == v
    {
      quality := v;
    }
  }
}
