# WCAG contrast checker for ANSI 256 palettes

This project models `tools/check_contrast.py`. The script checks whether the
Oiseau terminal colour palettes meet the WCAG 2.0 contrast thresholds. It has
three parts, and each is modelled here:

- **The hex colour parser** `hex_to_rgb` (module `HexColor`). It strips every
  leading `#` and reads three base-16 fields from the slices `t[0:2]`,
  `t[2:4]` and `t[4:6]` of what is left. In Python such a slice is clipped at
  the end of the string, so a field may have two characters, one, or none. An
  empty field makes `int(field, 16)` raise, and in the model so does any
  character that is not a hex digit. The model returns `Err(InvalidField(offset, text))` for the first bad field, in the
  order 0, 2, 4, and `Ok(Rgb(r, g, b))` otherwise.
- **The WCAG 2.0 arithmetic** (module `Wcag`):
  - `relative_luminance` with its inner `adjust`: normalise by 255, then the
    linear gamma branch or the power branch, then the weighted sum
    0.2126 / 0.7152 / 0.0722;
  - `contrast_ratio`: `(max + 0.05) / (min + 0.05)`;
  - the AA (`>= 4.5`) and AAA (`>= 7.0`) thresholds.

  All of it is computed in exact `real` arithmetic. The power
  `((c + 0.055) / 1.055) ** 2.4` has no counterpart in Dafny. So it is a
  parameter `pow` of every function that needs it. The only facts assumed
  about `pow` are those of the predicate `IsGammaPower`: it maps [0, 1] into
  [0, 1], and `pow(1.0) == 1.0`.
- **The report driver** (module `ContrastReport`). This is the module-level
  loop over palettes, then the roles of each palette, then the reference
  backgrounds. It looks each role's ANSI code up in the colour table. A miss
  makes `.get` return `None`, a "not mapped" line is printed, and `continue`
  skips the role. A hit gives one measured row per background, with its
  ratio and both verdicts. The model builds the sequence of rows that the
  program prints, in the same order.
  - Each loop level is a method with a `while` loop:
    `BuildReport`, `BuildPaletteRows` and `BuildBackgroundRows`.
  - Each method is proved equal to a specification function:
    `Report`, `PaletteRows` and `BackgroundRows`.
  - The lemmas about the report are stated over those functions.

The tables `ANSI_256_COLORS`, `BACKGROUNDS` and `palettes` are constants in
module `Tables`. The dictionaries the program iterates are sequences, in
insertion order. The colour table, which is only looked up, is a `map`. The
modules `Wrappers` (Option, Result, map lookup) and `Color` (the channel
range 0..255 and the `Rgb` triple) are shared by the others.

The usual `#RRGGBB` form has exactly six digits; the code does not enforce
that, and the model does what the code does:
- A stripped string of five characters still parses. Its last field is one
  digit, so `"#FFF00"` gives (255, 240, 0).
- Anything after offset 6 is ignored.
- A string with four or fewer characters left fails, and the error names the
  first field, in the order 0, 2, 4, that is empty or not all hex digits:
  `"FF00"` fails at offset 4, `"#FF"` at offset 2.

## Model

| member | source | states |
|---|---|---|
| Wrappers.Get | tools/check_contrast.py:109 | The lookup gives `Some` exactly when the code is a key of the table, and then the colour stored under it. |
| HexColor.HexToRgb | tools/check_contrast.py:7-10 | `hex_to_rgb` itself: strip the leading `#`, then read the three fields. Its properties are stated by SixHexDigitsParse, ParseSucceedsIff, ErrorNamesFirstBadField and ParseIgnoresTail. |
| HexColor.ReadFields | tools/check_contrast.py:10 | The generator over offsets 0, 2, 4, stopping at the first field that does not parse. Its properties are stated by ReadSixDigits, FieldReadsIff, SameFieldsSameRead and ReadIgnoresTail. |
| HexColor.HexValue | tools/check_contrast.py:10 | A string of n hex digits, read in base 16, is below 16^n. |
| HexColor.StripLeadingHashes | tools/check_contrast.py:9 | The stripped string is no longer than the input and does not start with `#`. |
| HexColor.StripIsSuffix | tools/check_contrast.py:9 | The stripped string is a suffix of the input, and every character removed is a `#`. |
| HexColor.StripHashesPrefix | tools/check_contrast.py:9 | Any number of `#` in front of a string that does not start with `#` is removed and nothing else is. |
| HexColor.StripHashesAppend | tools/check_contrast.py:9 | When something other than `#` is left, stripping commutes with appending a tail. |
| HexColor.Field | tools/check_contrast.py:10 | The clipped slice `t[i:i+2]` has at most two characters, and it is empty exactly when `i` is at or past the end. |
| HexColor.FieldValue | tools/check_contrast.py:10 | `int(field, 16)` succeeds exactly on a non-empty all-hex field; one digit gives its value, two digits give 16·hi + lo. |
| HexColor.PairFieldValue | tools/check_contrast.py:10 | Two hex digits at offset i are read as the channel 16·hi + lo. |
| HexColor.ReadSixDigits | tools/check_contrast.py:10 | Six hex digits read as the triple of their three two-digit values. |
| HexColor.SixHexDigitsParse | tools/check_contrast.py:9-10 | Any number of leading `#` followed by six hex digits parses to the triple of the three two-digit base-16 values, each in 0..255. |
| HexColor.ParseSucceedsIff | tools/check_contrast.py:9-10 | Parsing succeeds if and only if at least five characters remain after the strip and the first six (or five) of them are all hex digits. |
| HexColor.FieldReadsIff | tools/check_contrast.py:10 | A field is read if and only if its offset is inside the string and the characters of its slice are hex digits. |
| HexColor.ErrorNamesFirstBadField | tools/check_contrast.py:10 | A failure names offset 0, 2 or 4 and carries that field's text, which does not parse. Every earlier field parses. |
| HexColor.SameFieldsSameRead | tools/check_contrast.py:10 | Only the three field slices decide the outcome. |
| HexColor.ReadIgnoresTail | tools/check_contrast.py:10 | With six or more characters, what follows offset 6 does not change the reading. |
| HexColor.ParseIgnoresTail | tools/check_contrast.py:9-10 | When the strip leaves six or more characters, appending anything leaves the result unchanged. |
| HexColor.RedParses | tools/check_contrast.py:9-10 | `"#FF0000"` parses to (255, 0, 0). |
| HexColor.LowerCaseRedParses | tools/check_contrast.py:9-10 | `"ff0000"` parses to (255, 0, 0): lower-case digits read as upper-case ones do. |
| HexColor.FourDigitsFail | tools/check_contrast.py:10 | `"FF00"` fails on the empty field at offset 4. |
| HexColor.FiveDigitsParse | tools/check_contrast.py:9-10 | `"#FFF00"` parses, with a one-digit last field, to (255, 240, 0). |
| HexColor.TwoDigitsFail | tools/check_contrast.py:10 | `"#FF"` fails on the empty field at offset 2, before the third field is read. |
| HexColor.NonHexFirstFieldFails | tools/check_contrast.py:10 | `"#GG0000"` fails on its first field `"GG"`. |
| Wcag.Normalize | tools/check_contrast.py:17 | A channel divided by 255 lies in [0, 1]; it is 0 exactly for channel 0 and 1 exactly for channel 255. |
| Wcag.Adjust | tools/check_contrast.py:20-23 | The gamma correction maps [0, 1] into [0, 1], maps 0 to 0 by the linear branch, and maps 1 to 1. |
| Wcag.RelativeLuminance | tools/check_contrast.py:12-28 | Luminance lies in [0, 1] because the weights sum to 1. Black has luminance 0 and white has luminance 1. |
| Wcag.LuminanceContrast | tools/check_contrast.py:38-41 | For luminances that are not negative, the ratio is at least 1, and it is exactly 1 if and only if the two are equal. If both are at most 1, the ratio is at most 21. |
| Wcag.ContrastBounds | tools/check_contrast.py:41 | With the lighter luminance first, the denominator is at least 0.05. The quotient is at least 1, equals 1 only for equal luminances, and is at most 21 when the lighter one is at most 1. |
| Wcag.QuotientFacts | tools/check_contrast.py:41 | A quotient of positive reals with numerator at least the denominator is at least 1. It is 1 exactly when the two are equal, and at most c when the numerator is at most c times the denominator. |
| Wcag.ContrastRatio | tools/check_contrast.py:30-41 | The contrast ratio of any two colours lies in [1, 21]. |
| Wcag.ContrastSymmetric | tools/check_contrast.py:38-41 | `contrast_ratio(a, b) == contrast_ratio(b, a)`, since only the max and min of the luminances are used. |
| Wcag.UnitContrastIff | tools/check_contrast.py:35-41 | The ratio is 1 if and only if the two luminances are equal, and a colour against itself has ratio exactly 1. |
| Wcag.BlackOnWhite | tools/check_contrast.py:30-41 | Black on white has ratio exactly 21:1 and meets AAA. |
| Wcag.RedOnBlack | tools/check_contrast.py:12-41 | Pure red has luminance 0.2126. Against black its ratio is 5.252, which passes AA and fails AAA. |
| Wcag.MeetsAA | tools/check_contrast.py:121 | The AA threshold `ratio >= 4.5`. Its properties are stated by AAAImpliesAA, MeasuredRow and ReportVerdicts. |
| Wcag.MeetsAAA | tools/check_contrast.py:122 | The AAA threshold `ratio >= 7.0`. Its properties are stated by AAAImpliesAA, MeasuredRow and ReportVerdicts. |
| Wcag.AAAImpliesAA | tools/check_contrast.py:121-122 | Any ratio that meets the AAA threshold (7.0) meets the AA threshold (4.5). |
| ContrastReport.MeasuredRow | tools/check_contrast.py:118-125 | A measured row carries the palette, role, code, colour and background. Its ratio is the contrast of the colour against the background and lies in [1, 21]. `aa` holds exactly when the ratio is at least 4.5, and `aaa` exactly when it is at least 7.0. |
| ContrastReport.BackgroundRows | tools/check_contrast.py:117-125 | The reference definition of the rows of one mapped role, background after background. BackgroundRowsInOrder states its shape, and BuildBackgroundRows is proved equal to it. |
| ContrastReport.RoleRows | tools/check_contrast.py:108-125 | The reference definition of the rows of one role, with the lookup at line 109. RoleRowsShape states both cases. |
| ContrastReport.PaletteRows | tools/check_contrast.py:108-125 | The reference definition of a palette's block, role after role. PaletteRowsLength, RoleBlockInPalette and PaletteRowSource state its properties, and BuildPaletteRows is proved equal to it. |
| ContrastReport.Report | tools/check_contrast.py:103-125 | The reference definition of the whole report, palette after palette. ReportLength, ReportComplete, ReportSound and ReportVerdicts state its properties, and BuildReport is proved equal to it. |
| ContrastReport.BackgroundRowsInOrder | tools/check_contrast.py:117-125 | A mapped role gets exactly one row per background, and row k is the measurement against background k. |
| ContrastReport.RoleRowsShape | tools/check_contrast.py:108-125 | A role whose code misses in the colour table gives exactly one "not mapped" row and no background rows. A mapped role gives one row per background, in table order, measured against the table's colour. |
| ContrastReport.PaletteRowsLength | tools/check_contrast.py:108-125 | A palette's block has one row per background for each mapped role and one row for each unmapped role. |
| ContrastReport.ReportLength | tools/check_contrast.py:103-125 | The report has exactly as many rows as that counting rule gives over all palettes: nothing is skipped or repeated. |
| ContrastReport.RoleBlockInPalette | tools/check_contrast.py:108-116 | Every row of a role's block appears in its palette's block. |
| ContrastReport.PaletteBlockInReport | tools/check_contrast.py:103-107 | Every row of a palette's block appears in the report. |
| ContrastReport.ReportComplete | tools/check_contrast.py:103-125 | No (palette, role, background) triple is skipped. An unmapped role has its "not mapped" row in the report, and a mapped role has its measured row for every background. |
| ContrastReport.PaletteRowSource | tools/check_contrast.py:108-116 | Every row of a palette's block comes from one of its roles. |
| ContrastReport.ReportRowSource | tools/check_contrast.py:103-116 | Every row of the report comes from one role of one palette. |
| ContrastReport.ReportSound | tools/check_contrast.py:103-125 | Every "not mapped" row comes from a role whose code misses in the table. Every measured row is the measurement of a mapped role's table colour against one background. |
| ContrastReport.ReportVerdicts | tools/check_contrast.py:118-122 | Every measured row has a ratio in [1, 21] and the verdicts of the AA and AAA thresholds, and AAA never passes where AA fails. |
| ContrastReport.BuildReport | tools/check_contrast.py:103-125 | The outer loop over the palettes produces exactly the report: palette blocks in table order. |
| ContrastReport.BuildPaletteRows | tools/check_contrast.py:108-125 | The loop over a palette's roles, with the lookup and the skip of unmapped roles, produces exactly the palette's block. |
| ContrastReport.BuildBackgroundRows | tools/check_contrast.py:117-125 | The loop over the backgrounds produces one measured row per background, in order, with the ratio and both verdicts. |
| Tables.AnsiColors | tools/check_contrast.py:45-62 | The fifteen ANSI 256 codes and their xterm colours. |
| Tables.Backgrounds | tools/check_contrast.py:65-70 | The four reference backgrounds, in insertion order. |
| Tables.Palettes | tools/check_contrast.py:82-101 | The three palettes with their four roles each, in insertion order. |
| Tables.ShippedTablesInOrder | tools/check_contrast.py:65-101 | The palettes are DEFAULT, COLORBLIND and HIGHCONTRAST, in that order. Each has the roles Success, Error, Warning and Info, in that order. The four backgrounds start with black, then white. |
| Tables.ShippedRolesMapped | tools/check_contrast.py:45-101 | Every role code of the three shipped palettes has an entry in the ANSI colour table. |
| Tables.MappedRolesRowCount | tools/check_contrast.py:108-125 | When every role is mapped, a palette contributes roles × backgrounds rows. |
| Tables.ShippedRowCount | tools/check_contrast.py:45-101 | The shipped tables give 3 palettes × 4 roles × 4 backgrounds = 48 rows. |
| Tables.ShippedReportLength | tools/check_contrast.py:45-125 | The shipped report has 48 rows. |
| Tables.ShippedReportAllMeasured | tools/check_contrast.py:45-125 | The shipped report has no "not mapped" row. |
| Tables.ShippedErrorOnBlack | tools/check_contrast.py:45-125 | The report has the row for DEFAULT's Error role (code 196, pure red) on the black background: ratio 5.252, passing AA and failing AAA. |

## Left out

- Console output is not modelled: the `print` calls, banners, legend, summary and recommendations, and the `{:30s}` / `{ratio:5.2f}` formatting (tools/check_contrast.py:72-80, 104-106, 111, 114-115, 124-125, 127-137). The driver builds the rows instead.
- The per-role header line `RGB(...)` is not a separate row. Each measured row carries the role's colour instead.
- The `** 2.4` power is the parameter `pow`, constrained only by `IsGammaPower`. No fractional exponent exists in Dafny. So results that depend on actual values of the power branch cannot be stated, for instance that bright green on white fails AA.
- Wcag.Adjust: the power branch is stated only through the parameter `pow`, not through the power 2.4 itself.
- Floating point is not modelled. All of the arithmetic is exact `real` arithmetic, so a verdict at exactly 4.5 or 7.0 may differ from the one IEEE doubles would give, and so may the last digit of a printed ratio.
- `int(..., 16)` is more lenient in Python than in the model. It also accepts surrounding whitespace, a sign, and non-ASCII digits. That is library behaviour, and the model treats any character other than `0-9`, `a-f`, `A-F` as an error. With two-character fields, this covers inputs such as `" F"` or `"+F"`.
- Where Python raises `ValueError` for a bad field, the model returns an `Err` value instead. The exception itself is not modelled.
- The key uniqueness of the Python dictionaries is not modelled. The palettes and backgrounds are sequences, and the shipped tables have no duplicate keys.
- The driver is split into one method per loop level, and the `continue` on an unmapped role is an `if`/`else`. The order and content of the rows are the same.
