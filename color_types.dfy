/** Values shared by the palette generator, the extraction step and the
    three palette components. */
module ColorTypes {

  datatype Option<T> = None | Some(value: T)

  /** The three tabs of the tool: how the palette is acquired. */
  datatype Mode = Random | Image | Eyedropper

  /** A colour as the colour library prints it: `#` followed by six
      upper-case hexadecimal digits. Such a string is never empty, so it is
      always truthy in `arr[0] || null` and `if (!hex) return`. */
  predicate IsHexColor(s: string) {
    |s| == 7 && s[0] == '#' && forall i :: 1 <= i < 7 ==> s[i] in "0123456789ABCDEF"
  }

  type Hex = s: string | IsHexColor(s) witness "#000000"

  /** An 8-bit RGB triple, as a canvas pixel or a quantizer entry. */
  datatype Rgb = Rgb(r: int, g: int, b: int)

  /** Hue in degrees, saturation and lightness in percent. */
  datatype Hsl = Hsl(hue: int, saturation: int, lightness: int)
}
