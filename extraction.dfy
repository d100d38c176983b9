/** Post-processing of the quantizer's output: the dominant-colour
    quantization itself (colorthief) and image loading are outside the
    model and appear only as their outcome. */
module Extraction {
  import opened ColorTypes

  /** What the quantizer run produced: a palette of triples, a null palette,
      or a failure (the image failed to load or `getPalette` threw). */
  datatype Quantization = Palette(triples: seq<Rgb>) | NoPalette | Failed

  /** `palette.map(c => Color.rgb(c).hex())`: one hex per triple, in order. */
  function ToHexColors(triples: seq<Rgb>, rgbToHex: Rgb -> Hex): (r: seq<Hex>)
    ensures |r| == |triples|
    ensures forall i :: 0 <= i < |r| ==> r[i] == rgbToHex(triples[i])
  {
    if triples == [] then [] else [rgbToHex(triples[0])] + ToHexColors(triples[1..], rgbToHex)
  }

  /** `extractColors(img, colorCount, quality)`: resolves to the converted
      palette, to the empty palette when the quantizer returns null, and
      rejects (None) on a failure. */
  function ExtractColors(q: Quantization, rgbToHex: Rgb -> Hex): (r: Option<seq<Hex>>)
    ensures r.None? <==> q.Failed?
    ensures q.NoPalette? ==> r == Some([])
    ensures q.Palette? ==> r.Some? && |r.value| == |q.triples|
    ensures q.Palette? ==> forall i :: 0 <= i < |q.triples| ==> r.value[i] == rgbToHex(q.triples[i])
  {
    match q
    case Palette(triples) => Some(ToHexColors(triples, rgbToHex))
    case NoPalette => Some([])
    case Failed => None
  }
}
