/** The analogous random-palette generator (`randomColor`). One base hue is
    drawn; entry i steps the hue by 30 degrees per index and draws its own
    saturation and lightness. The random draws are parameters, bounded by
    their types, and the colour library's HSL-to-hex conversion is the
    parameter `toHex`. */
module ColorGenerator {
  import opened ColorTypes

  /** `Math.floor(Math.random() * 360)`. */
  type Hue = h: int | 0 <= h < 360

  /** `Math.floor(Math.random() * 30)`. */
  type SaturationDraw = d: int | 0 <= d < 30

  /** `Math.floor(Math.random() * 40)`. */
  type LightnessDraw = d: int | 0 <= d < 40

  /** The two draws made in one iteration of the loop. */
  datatype ShadeDraw = ShadeDraw(saturation: SaturationDraw, lightness: LightnessDraw)

  /** Degrees between the hues of neighbouring entries. */
  const HueStep := 30

  /** Hue of entry i: `(baseHue + i * 30) % 360`. */
  function HueAt(baseHue: Hue, i: nat): (h: Hue)
  {
    (baseHue + i * HueStep) % 360
  }

  /** Entry i of the palette, before conversion to hex. Whatever the draws,
      saturation lies in 70..99 and lightness in 40..79. */
  function ShadeAt(baseHue: Hue, i: nat, d: ShadeDraw): (c: Hsl)
    ensures 0 <= c.hue < 360 && c.hue == HueAt(baseHue, i)
    ensures 70 <= c.saturation <= 99 && 40 <= c.lightness <= 79
  {
    Hsl(HueAt(baseHue, i), 70 + d.saturation, 40 + d.lightness)
  }

  /** The first n entries, pushed one per iteration as the loop does. */
  function Shades(baseHue: Hue, draws: nat -> ShadeDraw, n: nat): (s: seq<Hsl>)
    ensures |s| == n
    ensures forall i :: 0 <= i < n ==> s[i] == ShadeAt(baseHue, i, draws(i))
  {
    if n == 0 then [] else Shades(baseHue, draws, n - 1) + [ShadeAt(baseHue, n - 1, draws(n - 1))]
  }

  /** `randomColor(colorCount)`: one hex string per loop iteration, in index
      order, colour i being the conversion of entry i of `Shades`; no entries
      when colorCount is negative. `draws(i)` stands for the two random draws
      of iteration i. */
  method RandomColor(colorCount: int, baseHue: Hue, draws: nat -> ShadeDraw, toHex: Hsl -> Hex)
    returns (colors: seq<Hex>)
    ensures colorCount >= 0 ==> |colors| == colorCount
    ensures colorCount < 0 ==> colors == []
    ensures forall i :: 0 <= i < |colors| ==> colors[i] == toHex(ShadeAt(baseHue, i, draws(i)))
  {
    colors := [];
    var i := 0;
    while i < colorCount
      invariant 0 <= i <= (if colorCount < 0 then 0 else colorCount)
      invariant |colors| == i
      invariant forall k :: 0 <= k < i ==> colors[k] == toHex(ShadeAt(baseHue, k, draws(k)))
    {
      var hue := (baseHue + i * HueStep) % 360;
      var saturation := 70 + draws(i).saturation;
      var lightness := 40 + draws(i).lightness;
      colors := colors + [toHex(Hsl(hue, saturation, lightness))];
      i := i + 1;
    }
  }

  /** Adding 30 degrees commutes with reduction modulo 360. */
  lemma TurnBy30(x: int)
    ensures (x + HueStep) % 360 == (x % 360 + HueStep) % 360
    ensures ((x + HueStep) % 360 - x % 360) % 360 == HueStep
  {
    var q, r := x / 360, x % 360;
    assert x == 360 * q + r && 0 <= r < 360;
    if r < 330 {
      assert x + HueStep == 360 * q + (r + HueStep);
    } else {
      assert x + HueStep == 360 * (q + 1) + (r - 330);
    }
  }

  /** Stepping the index by one turns the hue by exactly 30 degrees, modulo 360. */
  lemma HueTurn(baseHue: Hue, i: nat)
    ensures HueAt(baseHue, i + 1) == (HueAt(baseHue, i) + HueStep) % 360
    ensures (HueAt(baseHue, i + 1) - HueAt(baseHue, i)) % 360 == HueStep
  {
    var x := baseHue + i * HueStep;
    assert baseHue + (i + 1) * HueStep == x + HueStep;
    TurnBy30(x);
  }

  /** Neighbouring entries of a palette differ in hue by exactly 30 modulo 360. */
  lemma ConsecutiveHues(baseHue: Hue, draws: nat -> ShadeDraw, n: nat)
    ensures var s := Shades(baseHue, draws, n);
      forall i :: 0 <= i < n - 1 ==> (s[i + 1].hue - s[i].hue) % 360 == HueStep
  {
    forall i | 0 <= i < n - 1 {
      HueTurn(baseHue, i);
    }
  }

  /** Two indices 1..11 steps apart never land on the same hue. */
  lemma HuesApart(baseHue: Hue, i: nat, j: nat)
    requires i < j < i + 12
    ensures HueAt(baseHue, i) != HueAt(baseHue, j)
  {
  }

  /** A palette of at most twelve entries (the sliders allow at most ten)
      has pairwise distinct hues. */
  lemma DistinctHues(baseHue: Hue, draws: nat -> ShadeDraw, n: nat)
    requires n <= 12
    ensures var s := Shades(baseHue, draws, n);
      forall i, j :: 0 <= i < j < n ==> s[i].hue != s[j].hue
  {
    forall i, j | 0 <= i < j < n {
      HuesApart(baseHue, i, j);
    }
  }

  /** Twelve steps of 30 degrees make a full turn. */
  lemma FullTurn(baseHue: Hue, i: nat)
    ensures HueAt(baseHue, i + 12) == HueAt(baseHue, i)
  {
    var x := baseHue + i * HueStep;
    assert baseHue + (i + 12) * HueStep == x + 360;
  }

  /** The bound twelve is tight: entry i + 12 repeats the hue of entry i. */
  lemma HuesRepeatAfterTwelve(baseHue: Hue, draws: nat -> ShadeDraw, n: nat, i: nat)
    requires i + 12 < n
    ensures var s := Shades(baseHue, draws, n); s[i + 12].hue == s[i].hue
  {
    FullTurn(baseHue, i);
  }
}
