# markdown-progress: a Dafny model of the badge colour and layout logic

markdown-progress serves a small SVG progress badge for a percentage taken from
the request path. The badge is a grey background bar under a coloured bar, with
the value as a text label. Two Go versions of the core are modelled here.

- **progress.go**, the Cloud Function library. `pickColor` chooses the bar
  colour from three tiers. Each tier's colour can be overridden by a query
  parameter. The handler fills a `Data` record (background colour, percentage,
  bar length `p - p/10`, picked colour) and hands it to an HTML/SVG template.
- **main.go**, the older standalone server. An integer `pickColor` has no
  overrides, and `buildSVG` assembles the SVG text itself from fixed fragments.

Both files are pure apart from their HTTP handlers, so the model is made of
datatypes, functions and lemmas.

- `Colors` holds the palette that both files declare, and the tier a
  percentage falls into.
- `Progress` models progress.go. Percentages are `real`s.
- `Server` models main.go. Percentages are `int`s.
- `Server` builds on `GoInt.Quo`, Go's truncating integer division, and on
  `Decimal.FormatInt`, the `%d` rendering.
- `Decimal.ParseInt` reads a rendering back and accepts only strings that
  `%d` can write. `Server.ParseBadge` reads the
  width, fill and label back out of a rendered badge. These two decoders are
  the partners of the encoders: the round-trip lemmas show that the encoders
  lose nothing.

The model follows the shown code, not the later handler that progress_test.go:52-161 exercises:

- There is no clamping to [0, 100]. A value of 150 gives a 135-unit bar, and a
  negative value gives a negative bar.
- A negative percentage matches neither band of `pickColor`, so it takes the
  success (green) colour.
- There is no range mode, no label or bar-colour override, no colour
  validation, no HEAD support and no 405 response.
- Those tests expect clamping, colour validation, HEAD support, a 405 answer
  and a `Cache-Control` header. The shown code does none of that.
- The custom-colour test in progress_test.go:38-50 passes colours that already
  start with `#`. The shown `pickColor` adds a second `#` (`"##aa0000"`), and
  `Progress.OverridesPrefixedVerbatim` records this.

## Model

| member | source | states |
|---|---|---|
| `GoInt.Quo` | main.go:29 | Go's integer `/`: the remainder `a - b*q` is smaller than the magnitude of b and has the dividend's sign, so the quotient is truncated toward zero |
| `GoInt.QuoNegate` | main.go:29 | truncated division is odd in the dividend: `(-a)/b == -(a/b)` |
| `GoInt.QuoOfNatural` | main.go:29 | for a non-negative dividend and positive divisor, Go's and Dafny's division agree |
| `Decimal.Digits` | main.go:57 | the digits of a natural number are non-empty and have no leading zero; they are "0" exactly for 0 |
| `Decimal.FormatInt` | main.go:57 | `%d` output is a canonical integer string: a '-' exactly when the number is negative, then digits only, and never "-0" |
| `Decimal.DigitsRoundTrip` | main.go:57 | reading the digits of n back gives n |
| `Decimal.CanonicalDigitsRoundTrip` | main.go:57 | a digit string without a leading zero is the rendering of the number it denotes |
| `Decimal.FormatIntRoundTrip` | main.go:57 | `ParseInt(FormatInt(n)) == Some(n)` for every integer n |
| `Decimal.ParseIntRoundTrip` | main.go:57 | every canonical integer string is `FormatInt` of the value it parses to, so `%d` produces exactly the canonical strings |
| `Decimal.FormatIntInjective` | main.go:57 | two integers with the same `%d` rendering are equal |
| `Decimal.FormatIntExamples` | main.go:57 | 0, 7, 76 and -10 render as "0", "7", "76" and "-10" |
| `Colors.PaletteWellFormed` | progress.go:24-27 | the palette (declared again at main.go:10-13): grey is the short colour "#555", and red, yellow and green are three distinct '#'-prefixed six-digit lower-case hex colours |
| `Colors.TierOf` | progress.go:44-57 | the band tests of both `pickColor`s (also main.go:18-24): danger exactly on [0,33), warning exactly on [33,70), success exactly below 0 or from 70 up |
| `Colors.TierBoundaries` | progress.go:44-57 | 0 and 32.999 are danger, 33 and 69.999 warning, 70 and 100 success, and -0.001 falls through to success |
| `Colors.TierMonotone` | main.go:18-24 | from 0 upwards the tier never decreases (danger < warning < success) |
| `Progress.PickColor` | progress.go:38-60 | the colour is the selected tier's override behind '#' when it is non-empty, otherwise that tier's built-in colour; [0,33) is danger, [33,70) warning, and every other value, negatives included, success |
| `Progress.OnlySelectedOverrideMatters` | progress.go:38-60 | changing the overrides of the two tiers that were not selected never changes the colour |
| `Progress.PickColorRange` | progress.go:39-57 | the colour is red, yellow, green, or one of the three overrides behind '#', taken verbatim |
| `Progress.DefaultColors` | progress_test.go:24-36 | without overrides, 0, 10 and 32.999 are red; 33, 50 and 69.999 are yellow; 70, 80, 150 and -10 are green |
| `Progress.OverridesPrefixedVerbatim` | progress_test.go:38-50 | plain hex overrides come back behind one '#'; an override that already starts with '#' comes back with two |
| `Progress.BarProgress` | progress.go:84 | `p - p/10` is exactly nine tenths of p |
| `Progress.BarProgressShape` | progress.go:84 | the bar length is 0 at 0 and 90 at 100, lies in [0,90] for p in [0,100], and is non-decreasing |
| `Progress.BuildData` | progress.go:81-86 | the template data has background "#555", the percentage unchanged, a bar length of nine tenths of it, and the colour `PickColor` chooses from the same overrides |
| `Progress.BuildDataNotClamped` | progress.go:81-86 | 150 reaches the template as 150 with a bar of 135; -10 gets a bar of -9 and green |
| `Server.PickColor` | main.go:15-26 | the built-in colour of the tier: red on [0,33), yellow on [33,70), green otherwise (negatives included); always one of the three, so the initial red is always overwritten |
| `Server.PickColorAgreesWithProgress` | main.go:15-26 | on integers the server's colour equals the Cloud Function's colour without overrides |
| `Server.PickColorMonotone` | main.go:18-24 | for 0 <= a <= b, the colour of b is at least as far along red, yellow, green as that of a |
| `Server.BarWidth` | main.go:29 | `p - p/10` with truncating division is 9p/10 rounded away from zero: `9p <= 10w < 9p+10` for p >= 0 and `9p-10 < 10w <= 9p` for p < 0 |
| `Server.BarWidthShape` | main.go:29 | the width is 0 at 0 and 90 at 100, lies in [0,90] on [0,100], and is non-decreasing on all integers |
| `Server.BarWidthExamples` | main.go:29 | 76 gives 69 and 150 gives 135 (no clamping); -5 gives -5, where Euclidean division would give -4 |
| `Server.RectRoundTrip` | main.go:38-44 | both bars share one rectangle shape; a width and fill without quotes are read back from it unchanged, together with whatever follows the rectangle |
| `Server.BackgroundBarFields` | main.go:38-40 | the background rectangle is 90.0 wide and filled grey "#555" |
| `Server.PercentageBarFields` | main.go:42-44 | the coloured rectangle's width is the `%d` rendering of `p - p/10` and its fill is `pickColor(p)` |
| `Server.BuildSVG` | main.go:28-58 | the SVG starts with the fixed header and the grey background rectangle, and ends with the decimal value followed directly by the final fragment |
| `Server.FinalOpensWithDoubledPercent` | main.go:50-55 | the final fragment, and so the text right after the label, starts with a literal "%%" that `buildSVG` does not collapse |
| `Server.BuildSVGRoundTrip` | main.go:38-57 | reading a badge back gives exactly: bar width `p - p/10`, fill `pickColor(p)`, label value p, both numbers written exactly as `%d` writes them, behind the 90.0-wide grey background and between the fixed fragments |

## Left out

- The `Progress` HTTP handler plumbing (progress.go:68-79, 98-100) is not modelled. This covers `path.Base`, `strconv.ParseFloat`, the 400 "Invalid percentage value" response, reading the query, the `Content-Type` header, the log line and writing the body. These are I/O and library calls. Only the `Data` value built at lines 81-86 is modelled.
- Template rendering (progress.go:88-96) is not modelled. The template file `progress.html` is not part of this model, so the rendered bytes and the `log.Fatalln` failure paths are not either.
- `fixDir` and `init` (progress.go:31-36, 62-65) are left out. They change the working directory and register with the Cloud Functions framework.
- main.go's handler and `ListenAndServe` (main.go:60-71) are left out. This covers `strconv.Atoi`, the log line, and `fmt.Fprintf(w, buildSVG(x))`. That call uses the SVG as a format string and turns each "%%" into "%" on the wire. The model stops at `buildSVG`'s return value.
- cmd/main.go is left out. It covers port selection from the environment and route registration.
- Floating point is not modelled. Percentages in progress.go are `real`s, so the rounding of `p - p/10`, NaN, infinities and `ParseFloat`'s accepted syntax are not covered. A NaN compares false with every bound, and so it would take the success colour.
- Go's `int` is 32 or 64 bits wide, depending on the platform, while the model's integers are unbounded. `p - p/10` cannot overflow at either width, so the arithmetic agrees. The range check of `strconv.Atoi` belongs to the handler and is left out with it.
