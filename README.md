# ColorPalette in Dafny

A model of the logic of the ColorPalette web tool. The tool builds a colour palette in one of three ways. It can generate random analogous colours. It can extract dominant colours from an image. It can pick single pixels with an eyedropper. The model covers four parts:

- `ColorGenerator` (utils/colorGenerator.ts) models `randomColor`. One base hue is drawn. Entry `i` has hue `(base + 30*i) % 360`, saturation `70 + d` with `d < 30`, and lightness `40 + d'` with `d' < 40`. The method `RandomColor` keeps the source's `for` loop and is proved against the function `Shades`, which gives the HSL palette. Lemmas prove the hue step, the ranges, and that hues are pairwise distinct for up to twelve entries. They also prove that twelve is the exact limit.
- `PaletteRules` holds the rules that the components share. `FirstOrNone` models `arr[0] || null`. `PickInto` models the canvas-pick rule. In eyedropper mode the palette becomes the singleton `[hex]`. In the other modes an absent colour is put in front of the first nine old entries, and a colour already present leaves the palette unchanged.
- `Extraction` turns the quantizer's output into hex strings (utils/imageColorExtractor.ts, and the `map` in app/color-palette.tsx). `PageState.Page` is the state of the page component: `mode`, `colors`, `selected` and the two slider values. Its methods are the event handlers of app/page.tsx. components/color-palette.tsx has the same handlers, line for line (80-91, 145-180), over the same state; it differs only in hard-coded Chinese strings and in having no language state. So the same class models both files. `LegacyPicker.ColorPicker` models the older component in app/color-palette.tsx, whose rules differ.
- `I18n` models `getTranslation` and its two string tables.

Some inputs come from outside the model, so they are parameters:
- The random draws: `baseHue: Hue` (0..359) and `draws(i)`, a pair of draws with saturation below 30 and lightness below 40. Their types carry the bounds.
- The colour library's conversions: `toHex: Hsl -> Hex` and `rgbToHex: Rgb -> Hex`. `Hex` is a string of the form `#` followed by six hex digits. It is never empty, so it is always truthy.
- The clicked pixel: `Option<Rgb>`. None means there is no canvas or no 2D context.
- The quantizer run: `Quantization`, which is a palette of triples, a null palette, or a failure.
- Whether the image and quantizer references are present: `ready`.
- The React context's language: `ContextRead`.

Two behaviours of the code worth noting:
- A tab change empties the palette and keeps `selected` (app/page.tsx:176-179; `Page.HandleTabChange`, `Page.ChangeTab`). In app/color-palette.tsx:231 it changes neither (`ColorPicker.SetActiveTab`).
- `randomColor` checks nothing about `colorCount`: a negative count gives an empty palette (`RandomColor`). Only the sliders keep the count in 3..10.

## Model

| member | source | states |
|---|---|---|
| ColorGenerator.ShadeAt | utils/colorGenerator.ts:10-12 | entry i has hue `(base + 30*i) % 360` in 0..359, saturation in 70..99 and lightness in 40..79, whatever the draws |
| ColorGenerator.Shades | utils/colorGenerator.ts:9-17 | the palette has exactly n entries, and entry i is the shade of index i with its own draws, in index order |
| ColorGenerator.RandomColor | utils/colorGenerator.ts:3-19 | the loop returns exactly `colorCount` colours when `colorCount >= 0` and none otherwise; colour i is `toHex` of `ShadeAt(baseHue, i, draws(i))`, the shade of index i with that iteration's draws |
| ColorGenerator.HueTurn | utils/colorGenerator.ts:10 | moving to the next index turns the hue by exactly 30 degrees modulo 360 |
| ColorGenerator.ConsecutiveHues | utils/colorGenerator.ts:9-10 | neighbouring palette entries differ in hue by exactly 30 modulo 360 |
| ColorGenerator.HuesApart | utils/colorGenerator.ts:10 | indices 1 to 11 steps apart never have the same hue |
| ColorGenerator.DistinctHues | utils/colorGenerator.ts:9-10 | a palette of at most 12 entries (the sliders allow 10) has pairwise distinct hues |
| ColorGenerator.HuesRepeatAfterTwelve | utils/colorGenerator.ts:10 | the bound 12 is tight: entry i + 12 repeats the hue of entry i |
| PaletteRules.FirstOrNone | app/page.tsx:83 | the selection after a new palette is its first entry, and is absent exactly when the palette is empty |
| PaletteRules.PickInto | app/page.tsx:166-170 | after a pick the picked colour is in the palette; eyedropper mode gives `[hex]`; a present colour leaves the palette unchanged; an absent colour is put in front of a prefix of the old palette, up to 10 entries; nothing else enters; a duplicate-free palette stays duplicate-free |
| PaletteRules.PickIdempotent | components/color-palette.tsx:166-169 | picking the same colour twice gives the same palette as picking it once |
| PaletteRules.PicksStayBounded | components/color-palette.tsx:166-169 | after any run of picks, a palette of at most 10 entries still has at most 10, and a duplicate-free palette stays duplicate-free |
| Extraction.ToHexColors | app/color-palette.tsx:112-117 | quantizer triples map to hex one for one, keeping order and count |
| Extraction.ExtractColors | utils/imageColorExtractor.ts:12-29 | extraction rejects exactly on a load or quantizer failure; a null palette gives the empty palette; otherwise the triples are converted one for one |
| PageState.Page.constructor | app/page.tsx:65-72 | initial state: random mode, empty palette, no selection, 5 colours, quality 10 |
| PageState.Page.HandleRandom | app/page.tsx:80-84 | the palette is replaced by `colorCount` generated colours and the first one is selected |
| PageState.Page.RandomModeEffect | components/color-palette.tsx:87-91 | in random mode an empty palette is replaced by the `colorCount` generated colours (colour i is `toHex` of entry i of `Shades`) and its first entry is selected, so it is never left empty; otherwise nothing changes |
| PageState.Page.HandleExtractColors | app/page.tsx:146-159 | a successful extraction replaces the palette and selects its first entry, or nothing if it is empty; missing references or a failure leave palette and selection unchanged |
| PageState.Page.HandleCanvasClick | app/page.tsx:161-174 | a pick updates the palette by `PickInto` for the current mode and selects the picked colour, so the selection is in the palette; no pixel means no change; the length stays at most 10 and no duplicates appear |
| PageState.Page.HandleTabChange | components/color-palette.tsx:177-180 | a tab change empties the palette and sets the mode, and leaves the selection as it was |
| PageState.Page.ChangeTab | app/page.tsx:91-95 | a tab change followed by the mode effect: entering the random tab gives the `colorCount` generated colours (colour i is `toHex` of entry i of `Shades`) with the first selected; entering another tab leaves an empty palette and the old selection |
| PageState.Page.SelectSwatch | app/page.tsx:276 | clicking a swatch selects that colour and does not change the palette |
| PageState.Page.SetColorCount | app/page.tsx:428-434 | the colour count is set within the slider bounds 3..10 |
| PageState.Page.SetQuality | app/page.tsx:498-503 | the quality is set within the slider bounds 1..20 |
| LegacyPicker.ColorPicker.constructor | app/color-palette.tsx:24-29 | initial state: random tab, empty palette, no selection, 5 colours, quality 10 |
| LegacyPicker.ColorPicker.GenerateRandomColors | app/color-palette.tsx:131-151 | the generated colours replace the palette; the selection moves to the first entry only when the palette is non-empty, and is otherwise kept |
| LegacyPicker.ColorPicker.ExtractColorsFromImage | app/color-palette.tsx:98-129 | a quantizer palette is converted one for one and replaces the colours, and its first entry is selected when there is one; a null palette, a failure or missing references change nothing |
| LegacyPicker.ColorPicker.HandleCanvasClick | app/color-palette.tsx:184-225 | a pick updates the palette by the tab's rule (`PickInto`) and selects the picked colour; the length stays at most 10 and no duplicates appear |
| LegacyPicker.ColorPicker.SetActiveTab | app/color-palette.tsx:231 | switching tabs changes only the active tab; palette and selection are untouched |
| LegacyPicker.ColorPicker.SelectSwatch | app/color-palette.tsx:430 | clicking a swatch selects that colour and does not change the palette |
| LegacyPicker.ColorPicker.SetColorCount | app/color-palette.tsx:309-315 | the colour count is set within the slider bounds 3..10 |
| LegacyPicker.ColorPicker.SetQuality | app/color-palette.tsx:322-328 | the quality is set within the slider bounds 1..20 |
| I18n.GetTranslation | lib/i18n.ts:86-97 | the context language's non-empty entry wins; the result is always an entry of a table or the key; it is never empty for a non-empty key; the exception path gives the default entry or the key |
| I18n.SameKeys | lib/i18n.ts:18-83 | the `zh` and `en` tables define the same key set |
| I18n.EntriesNonEmpty | lib/i18n.ts:18-83 | no table entry is the empty string |
| I18n.KnownKeyTranslated | lib/i18n.ts:92 | a key of either table is translated into the chosen language, or into `en` on the exception path, and never falls back to the bare key |
| I18n.UnknownKeyIsItself | lib/i18n.ts:92 | a key in neither table comes back as itself, whatever the context |
| I18n.MissingLanguageIsDefault | lib/i18n.ts:89-90 | a missing context language is read as `DEFAULT_LANGUAGE` (`en`) |
| I18n.HookFailureUsesDefault | lib/i18n.ts:94-96 | the exception path answers as the default language would, so the chosen language is never consulted there |
| I18n.LanguagesListsEach | lib/i18n.ts:12-15 | `LANGUAGES` has two entries, whose values are exactly `zh` and `en` |

## Left out

- The colour library's conversions (`Color.hsl(...).hex()`, `Color.rgb(...).hex()` and the RGB/HSL display in the colour detail panel) are floating-point work in a foreign library. They are the parameters `toHex` and `rgbToHex`. No bit-exact HSL-to-RGB result is claimed.
- `Math.random` is replaced by injected draws whose types carry the bounds that `Math.floor(Math.random() * k)` gives.
- The colorthief quantization, image decoding and the wait for `onload` are modelled only by their outcome (`Quantization`).
- Canvas coordinate scaling, `getImageData` and drawing the image to the canvas are DOM work with floating-point scale factors. Only the clicked pixel is an input.
- Clipboard writes, the `copied` timer, toasts, file reading, drag and drop, MIME checks, `localStorage`, the language state of app/page.tsx, and all JSX rendering are I/O or view code.
- The scheduling of React effects and asynchronous races (stale closures over `colors`, re-extraction when the sliders change) are left out. Each handler is one atomic step, and `ChangeTab` composes the tab handler with the effect React runs after it.
- `ColorGenerator.RandomColor`: `colorCount` is an integer. A fractional count would run `ceil(colorCount)` iterations in the source, but the sliders only produce integers.
- `I18n.GetTranslation`: only the tables' own keys are looked up. JavaScript prototype properties (a key such as `toString`) are not modelled. The context language is one of the two `Language` values or missing.
- `PageState.Page.SetColorCount`, `PageState.Page.SetQuality`, `LegacyPicker.ColorPicker.SetColorCount` and `LegacyPicker.ColorPicker.SetQuality`: these setters require a value within the slider bounds, because the slider component produces no other value.
