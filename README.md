# Phototherapy settings generator — verified model of the sampling and settings pipeline

The page (`app.jsx`, a single React component) lets a user upload a photo of the
area to treat and pick a condition. It averages the red, green and blue bytes of
a central block of the photo, estimates a skin phototype (I-II … VI) from the
HSL lightness of that mean colour, and scales the condition's baseline LED
intensity and infrared time by a per-phototype factor. The result is a settings
payload (condition key and label, phototype tag, LED colour and intensity,
infrared minutes, a fixed advisory note) that the user copies into third-party
apps.

This project models that pipeline in Dafny, module by module:

- `Rounding` (`rounding.dfy`): `Math.round` of a non-negative fraction, specified as the nearest integer with halves rounded up.
- `HexColor` (`hex_color.dfy`): `hexFromRGB`, the `#RRGGBB` notation of CSS Color Module Level 4, section 5.2, built from `toString(16)`, zero padding and `toUpperCase`; and a parser for that notation, used as its partner in two round-trip lemmas.
- `Phototypes` (`phototype.dfy`): `estimatePhototype`, the threshold chain on lightness `(max + min) / 2`.
- `Catalog` (`catalog.dfy`): the four-entry `DISEASES` table, as a closed datatype.
- `Settings` (`settings.dfy`): the factor table, `roundMinutes`, `adjustForPhototype` and `computeSettings`.
- `Sampler` (`sampler.dfy`): the sample block and the averaging loop, a method over the byte array proved against a specification function.
- `Fototerapia` (`app.dfy`): the component's state as a class with the two events that recompute the settings.

Modelling assumptions:

- Floating point is replaced by exact rationals. Factors are hundredths (1.0, 0.95, 0.9, 0.8, 0.75 become 100, 95, 90, 80, 75). `Math.round(x)` for `x = num / den >= 0` is `(2 num + den) / (2 den)`. For the twenty catalog-by-class products the exact value and the double value round to the same integer, including the products that are exactly on a half (66.5, 9.5, 52.5, 7.5, 4.5); `Settings.HalfwayProductsRoundUp` pins those cases.
- The channel means are kept as fractions `sum / count` with one common denominator. Lightness comparisons become integer inequalities: `L > 0.75` is `100 (maxSum + minSum) > 75 * 510 * count`.
- `estimatePhototype` receives the unrounded means, as in the source. The displayed `r`, `g`, `b` are rounded, and `hexFromRGB` rounds inside `toHex`.
- The pixel bytes are an input array of exactly four bytes per pixel of the sample block. That is what the canvas returns for it.

The code has no error handling of its own:

- A file the browser cannot decode makes `await img.decode()` reject. `setImageName` has already run by then, so the new file name is shown while the colour, phototype and settings still describe the previous image. `Fototerapia.FototerapiaApp.HandleUndecodableFile` models that path.
- An empty sample region cannot occur, because the block is at least 20 by 20. `Fototerapia.FototerapiaApp.HandleImageFile` proves the pixel count is at least 400.
- An unknown condition key makes `DISEASES[key]` undefined and the page crashes. The model has a closed `Disease` type, and `Catalog.Lookup` returns `None` for any other string.

`hexFromRGB` receives the unrounded means and rounds inside `toHex`. `Sampler.MeanColor` proves the hex string spells exactly the rounded channels stored beside it.

## Model

| member | source | states |
|---|---|---|
| `Rounding.RoundHalfUp` | app.jsx:137 | `Math.round(num / den)` is the integer r with r - 1/2 <= num/den < r + 1/2 (nearest integer, halves up) |
| `Rounding.ScaledAtMost` | app.jsx:137 | rounding `x * f` with a factor f <= 1.0 never exceeds x |
| `HexColor.Base16` | app.jsx:67 | `n.toString(16)` is a non-empty string of lower-case hex digits whose value is n; it has one digit exactly when n < 16 and at most two when n < 256 |
| `HexColor.ToHex` | app.jsx:66-69 | `toHex(v)` spells `Math.round(v)` in lower-case hex, at least two digits, exactly two for values below 256 |
| `HexColor.HexFromRGB` | app.jsx:65-71 | `hexFromRGB` gives '#' followed by at least six upper-case hex digits, whatever the channels |
| `HexColor.HexRoundTrip` | app.jsx:65-71 | for channels whose values are within 0..255, `hexFromRGB` gives '#' and six upper-case hex digits, and parsing them back gives the three rounded channels |
| `HexColor.HexParseFormat` | app.jsx:65-71 | every '#' + six upper-case hex digits string parses, and `hexFromRGB` of the parsed channels gives back the same string |
| `Phototypes.Classify` | app.jsx:58-62 | the five classes partition lightness into bands (0.75, 1], (0.6, 0.75], (0.45, 0.6], (0.3, 0.45], [0, 0.3]; a value on a threshold goes to the darker class |
| `Phototypes.EstimatePhototype` | app.jsx:48-62 | the class of channel totals over `count` pixels is fixed by (largest + smallest total) against 0.75, 0.6, 0.45, 0.3 of 510 × count, the same bands on L = (max + min) / 2 of the means normalised by 255 |
| `Phototypes.ChannelOrderIrrelevant` | app.jsx:53-55 | only the largest and smallest channel enter the estimate, whichever channels hold them |
| `Phototypes.ClassifyMonotone` | app.jsx:53-62 | higher lightness never gives a darker class |
| `Phototypes.BrighterChannelsNotDarker` | app.jsx:48-62 | over the same pixel count, a mean colour at least as bright in every channel is never classed darker |
| `Phototypes.LightSkinExample` | app.jsx:48-62 | mean colour (200, 190, 180) is class III |
| `Phototypes.OnThresholdExample` | app.jsx:58-59 | lightness exactly 0.75 lands in III, not I-II |
| `Catalog.Base` | app.jsx:16-45 | every catalog entry has a valid upper-case `#RRGGBB` colour, an intensity in 1..100 and at least one infrared minute |
| `Catalog.Key` | app.jsx:17-38 | each condition's property name looks up that condition |
| `Catalog.LookupKey` | app.jsx:143 | `DISEASES[key]` finds a condition exactly when the key is that condition's property name; every condition is among the selector's entries |
| `Settings.FactorsFor` | app.jsx:127-134 | every factor, including the fallback row, lies between 0.75 and 1.0 |
| `Settings.FactorsDecrease` | app.jsx:127-133 | a darker class never gets a larger intensity or infrared factor |
| `Settings.RoundMinutes` | app.jsx:118-122 | `roundMinutes(n)` is at least 1; it is `Math.round(n)` when n >= 0.5 and 1 when n < 0.5 |
| `Settings.AdjustForPhototype` | app.jsx:124-140 | the LED colour is unchanged; the intensity is the nearest integer to base × factor (halves up) and at most the base; the minutes are `roundMinutes` of base minutes × infrared factor, so at least 1 and at most the base minutes |
| `Settings.UnknownTagFallsBack` | app.jsx:134 | a tag other than the five gives exactly the "III" result |
| `Settings.ComputeSettings` | app.jsx:142-161 | the payload copies the key, label and tag verbatim, carries the adjusted colour, intensity and minutes and the fixed note; the colour is a valid upper-case `#RRGGBB`, the intensity at most the baseline's (<= 100), the minutes at least 1 |
| `Settings.AcneOnTypeV` | app.jsx:124-140 | "acné_leve" with "V" gives colour #0000FF, intensity 48 and 5 minutes |
| `Settings.UlcerOnTypeI_II` | app.jsx:124-140 | "ulcera_superficial" with "I-II" keeps #FF7F50, 70 and 10 minutes |
| `Settings.HalfwayProductsRoundUp` | app.jsx:127-139 | products exactly on a half round up: 66.5 to 67, 9.5 to 10, 52.5 to 53, 7.5 to 8, 4.5 to 5 |
| `Settings.ShortestInfrared` | app.jsx:127-139 | the smallest baseline (5 min) under the strongest reduction (0.75) gives 4 minutes, not 0 |
| `Sampler.SampleRect` | app.jsx:91-94 | the block starts at floor(35 %) of each side and is max(20, floor(30 %)) in each direction, so never smaller than 20 by 20 |
| `Sampler.SampleRectInside` | app.jsx:84-94 | on the 300-wide canvas the block is x = 105, 90 wide; it fits inside vertically exactly when the height is at least 30 |
| `Sampler.ChannelSum` | app.jsx:101-106 | the red, green or blue total over the first n pixels of bytes is at most 255 n |
| `Sampler.ChannelSumIgnoresAlpha` | app.jsx:101-106 | changing only alpha bytes (index 3 mod 4) changes no channel total |
| `Sampler.AverageColor` | app.jsx:97-109 | the loop ends with count = length / 4 and the red, green and blue totals of bytes i, i+1, i+2 for i = 0, 4, 8, …; each total is at most 255 × count, so each mean is in 0..255 |
| `Sampler.MeanColor` | app.jsx:107-111 | the stored colour holds the rounded means; when the means are within 0..255 its hex string is a valid colour spelling exactly those rounded channels |
| `Fototerapia.TagOrDefault` | app.jsx:166 | the tag `handleDiseaseChange` computes with is the detected phototype's tag, or "III" when none exists; always one of the five known tags |
| `Fototerapia.FototerapiaApp.constructor` | app.jsx:8-12 | the initial state: nothing sampled, "ulcera_superficial" selected, no settings |
| `Fototerapia.FototerapiaApp.HandleImageFile` | app.jsx:73-116 | after a sample: at least 400 pixels averaged; the colour, the phototype estimated from the unrounded means, and the settings for the current condition and that phototype replace the old ones; the settings stay in sync with the state |
| `Fototerapia.FototerapiaApp.HandleUndecodableFile` | app.jsx:73-78 | a file that cannot be decoded sets the shown file name and leaves the colour, phototype, condition and settings as they were; the settings stay in sync with the state |
| `Fototerapia.FototerapiaApp.HandleDiseaseChange` | app.jsx:163-167 | the condition is replaced and the settings recomputed with the current phototype, or "III" when none exists; nothing else changes; the settings stay in sync with the state |

## Left out

- Rendering, JSX, Tailwind markup and the `useState`/`useRef` plumbing (app.jsx:186-311) are UI. The hook values are the class fields of `Fototerapia.FototerapiaApp`.
- Image decoding, `URL.createObjectURL`, `drawImage` and `getImageData` (app.jsx:76-96) are browser APIs. The sample block's bytes are an input array.
- What `getImageData` returns for the part of the block past the canvas edge is not modelled. `Sampler.SampleRectInside` shows this happens exactly when the rescaled height is below 30.
- The rescaled height `Math.round(img.height / img.width * 300)` (app.jsx:85) is float division over browser-supplied sizes. It is a given natural number.
- The early return when the file input yields no file (app.jsx:74) changes no state. It is not modelled as a separate event.
- `downloadJSON` and `copyToClipboard` (app.jsx:169-184) use Blob, anchors, `Date`, the clipboard and `alert`, all I/O. The text layout of `JSON.stringify` is a library call.
- Async ordering around `await img.decode()` is a concurrency concern. This covers an upload that finishes after a newer one, or after a condition change that the handler's closure has not seen. `HandleImageFile` runs atomically with the current condition.
- Exact IEEE-754 behaviour is not modelled. This covers a sum of `r / 255` terms landing exactly on a threshold, and `Math.floor(h * 0.35)` for heights where the double product falls just below an integer. The model uses exact rationals throughout.
- The condition description `desc` is kept in `Catalog.Baseline` but is only displayed (app.jsx:219). Nothing about it is stated.
- Settings.FactorsFor: treats every string other than the five tags as unknown and falls back to "III". In JavaScript, `map[tag]` for an inherited property name such as "constructor" is truthy and would give NaN factors. Such tags never arise: the page only passes tags from `estimatePhototype` or "III".
- HexColor.ToUpper: upper-cases ASCII letters only. The strings it meets contain only '#', digits and a-f.
- Sampler.MeanColor: requires a non-empty block. With zero pixels the page would divide by zero and get NaN. That cannot happen, because the block is at least 20 by 20.
- HexColor.ParseHexColor: reads only the six-digit form of the notation. CSS also allows three-, four- and eight-digit forms, which `hexFromRGB` never produces.
