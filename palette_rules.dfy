/** Palette rules shared by the three palette components: which entry a new
    palette selects, and how a canvas pick changes the palette. */
module PaletteRules {
  import opened ColorTypes

  /** Bounds of the colour-count and quality sliders. */
  const MinColorCount := 3
  const MaxColorCount := 10
  const MinQuality := 1
  const MaxQuality := 20

  /** Most entries a pick leaves in the palette outside eyedropper mode. */
  const MaxPicked := 10

  predicate NoDuplicates(s: seq<Hex>) {
    forall i, j :: 0 <= i < j < |s| ==> s[i] != s[j]
  }

  /** `arr[0] || null`: every Hex is a non-empty string, so this is the
      first entry, or nothing for an empty palette. */
  function FirstOrNone(arr: seq<Hex>): (r: Option<Hex>)
    ensures r.Some? <==> |arr| > 0
    ensures r.Some? ==> r.value == arr[0] && r.value in arr
  {
    if |arr| > 0 then Some(arr[0]) else None
  }

  /** The palette after a canvas pick of `hex`: in eyedropper mode just that
      colour; otherwise an absent colour goes in front of the first nine old
      entries (`[hex, ...colors.slice(0, 9)]`), and a present one leaves the
      palette as it was. */
  function PickInto(mode: Mode, colors: seq<Hex>, hex: Hex): (r: seq<Hex>)
    ensures hex in r
    ensures mode == Eyedropper ==> r == [hex]
    ensures mode != Eyedropper && hex in colors ==> r == colors
    ensures mode != Eyedropper && hex !in colors ==>
      r[0] == hex && r[1..] <= colors && |r| == if |colors| < MaxPicked then |colors| + 1 else MaxPicked
    ensures forall c :: c in r ==> c == hex || c in colors
    ensures |r| <= MaxPicked || r == colors
    ensures NoDuplicates(colors) ==> NoDuplicates(r)
  {
    if mode == Eyedropper then [hex]
    else if hex in colors then colors
    else [hex] + colors[..if |colors| < MaxPicked - 1 then |colors| else MaxPicked - 1]
  }

  /** Picking the same colour again changes nothing more. */
  lemma PickIdempotent(mode: Mode, colors: seq<Hex>, hex: Hex)
    ensures PickInto(mode, PickInto(mode, colors, hex), hex) == PickInto(mode, colors, hex)
  {
  }

  /** A palette of at most ten entries stays within ten entries, and a
      duplicate-free palette stays duplicate-free, over any run of picks. */
  lemma {:induction false} PicksStayBounded(mode: Mode, colors: seq<Hex>, picks: seq<Hex>)
    requires |colors| <= MaxPicked
    ensures |PickAll(mode, colors, picks)| <= MaxPicked
    ensures NoDuplicates(colors) ==> NoDuplicates(PickAll(mode, colors, picks))
    decreases picks
  {
    if picks != [] {
      PicksStayBounded(mode, PickInto(mode, colors, picks[0]), picks[1..]);
    }
  }

  /** The palette after several picks, oldest pick first. */
  function PickAll(mode: Mode, colors: seq<Hex>, picks: seq<Hex>): (r: seq<Hex>)
    decreases |picks|
  {
    if picks == [] then colors else PickAll(mode, PickInto(mode, colors, picks[0]), picks[1..])
  }
}
