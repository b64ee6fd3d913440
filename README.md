# BlinkRatio core, modelled in Dafny

BlinkRatio is a SwiftUI design-reference app. Almost all of it is layout.
The logic lives in small helper functions, enums and managers inside the
views. This project models that logic and proves what each piece promises.

- **Unit and spacing calculator** (`calculator_tools.dfy`). The unit
  factors to and from pixels and the conversion that pivots through pixels.
  The spacing scale `base * ratio^i` is built by a loop, proved against the
  closed form `Step`. The colour tool's "Apply" button is a class whose
  fields are the `@State` values.
- **Ratio calculator** (`ratio_calculator.dfy`).
  - The three calculations (find the missing value, compare two ratios,
    scale a ratio) and the dispatch on the mode.
  - Loading a common ratio preset into the first pair of fields.
  - Clearing the second pair when the mode changes.
  - The view's `@State` fields are a class; the text fields are strings
    parsed with `Double(...)`.
- **Hex colour codec**.
  - `Color(hex:)` trims, scans and dispatches on 3, 6 or 8 digits
    (`design_system.dfy`).
  - `Color.toHex` packs r, g, b into `%06X` (`favorites.dfy`).
- **Favorites store** (`favorites.dfy`). `FavoritesManager` is a class with
  the ordered item list and the `UserDefaults` dictionary as fields; every
  mutation writes the whole list through to one key.
- **Reference tables and small state machines**.
  - Device safe areas (`safe_zones.dfy`) and the grid column widths
    (`grid_systems.dfy`).
  - The constant tables of `Models.swift` (`models.dfy`).
  - The onboarding walkthrough and its completion flag (`onboarding.dfy`).
  - The typography card toggle (`typography_scale.dfy`) and the card
    selection of the main view model (`view_models.dfy`).

`foundation.dfy` models the Foundation library calls the app relies on:

- `trimmingCharacters(in:)`, `split(separator:)` and `Double(String)` for
  plain decimals;
- `String(format: "%.0f")` and `Int(...)` truncation;
- `Scanner.scanHexInt64` and `String(format: "%06X")`.

`wrappers.dfy` holds `Option`.

Numbers (`Double`, `CGFloat`) are Dafny `real`s, so the conversion laws hold
exactly. A colour is its four 8-bit channels, as `Color(hex:)` computes them
before dividing by 255.

## Model

| member | source | states |
|---|---|---|
| Foundation.DropLeading | dafoma_5/DesignSystem.swift:22 | what `trimmingCharacters` cuts from the front is all in the set, and what is left starts outside it |
| Foundation.DropTrailing | dafoma_5/DesignSystem.swift:22 | what is cut from the back is all in the set, and what is left ends outside it |
| Foundation.TrimmingIsMiddleSlice | dafoma_5/DesignSystem.swift:22 | the trimmed string is a contiguous slice of the input |
| Foundation.TrimmingCutsOnlySet | dafoma_5/DesignSystem.swift:22 | every character outside the kept slice belongs to the trimmed set |
| Foundation.TrimmingEndsOutsideSet | dafoma_5/DesignSystem.swift:22 | a non-empty result starts and ends with a character outside the set |
| Foundation.TrimmingSkipsLeading | dafoma_5/DesignSystem.swift:22 | prefixing a set character does not change the trimmed result |
| Foundation.TrimmingSkipsTrailing | dafoma_5/DesignSystem.swift:22 | appending a set character does not change the trimmed result |
| Foundation.TrimmingUntouched | dafoma_5/DesignSystem.swift:22 | a string whose ends are outside the set is returned whole |
| Foundation.IndexOf | dafoma_5/RatioCalculatorView.swift:358 | the first occurrence of the character, or the length when it is absent |
| Foundation.Split | dafoma_5/RatioCalculatorView.swift:358 | `split(separator:)` yields only non-empty pieces free of the separator |
| Foundation.SplitOnce | dafoma_5/RatioCalculatorView.swift:358 | splitting `a:b` gives exactly `[a, b]` |
| Foundation.UnsignedDecimal | dafoma_5/RatioCalculatorView.swift:307-310 | an unsigned decimal reads as a non-negative value; a digit string reads as its value |
| Foundation.DecimalValue | dafoma_5/RatioCalculatorView.swift:358 | `whole.fraction` is non-negative and equals the whole part when there is no fraction |
| Foundation.ParseDouble | dafoma_5/RatioCalculatorView.swift:307-310 | `Double(s)` reads a digit string as its value; a negative result needs a leading minus |
| Foundation.RoundedWhole | dafoma_5/RatioCalculatorView.swift:360-361 | `%.0f` prints an integer within 0.5 of the value, with halves going to the even neighbour |
| Foundation.TruncatedToInt | dafoma_5/GridSystemsView.swift:165 | `Int(x)` truncates toward zero, on both signs |
| Foundation.NatDescription | dafoma_5/RatioCalculatorView.swift:360-361 | the printed whole number is a non-empty digit string |
| Foundation.NatDescriptionRoundTrip | dafoma_5/RatioCalculatorView.swift:360-361 | reading a printed whole number gives it back |
| Foundation.IntDescriptionParses | dafoma_5/RatioCalculatorView.swift:360-361 | `Double` of a printed integer is that integer |
| Foundation.NatDescriptionInjective | dafoma_5/RatioCalculatorView.swift:360-361 | different whole numbers print differently |
| Foundation.HexRun | dafoma_5/DesignSystem.swift:23-24 | the leading run of hex digits stops exactly at the first non-hex character |
| Foundation.ScanHex | dafoma_5/DesignSystem.swift:23-24 | the scanned number has no more digits than the text, and is the text's value when the text is all hex digits |
| Foundation.HexDigits | dafoma_5/FavoritesView.swift:243 | exactly `width` upper-case hex digits |
| Foundation.FormatHex | dafoma_5/FavoritesView.swift:243 | `%06X` of a number below 16^6 is six hex digits whose value is the number |
| Foundation.HexDigitsRoundTrip | dafoma_5/FavoritesView.swift:243 | reading the formatted digits gives the number back |
| DesignSystem.ColorFromHex | dafoma_5/DesignSystem.swift:21-45 | `Color(hex:)` succeeds exactly when 3, 6 or 8 characters remain after trimming |
| DesignSystem.Channels | dafoma_5/DesignSystem.swift:26-35 | the `switch hex.count` gives a colour exactly for the counts 3, 6 and 8; every channel is a byte |
| DesignSystem.TrimmingKeepsHexDigits | dafoma_5/DesignSystem.swift:22 | hex digits are alphanumeric, so a hex string survives the trim whole |
| DesignSystem.ColorFromHexDigits | dafoma_5/DesignSystem.swift:22-26 | for hex-digit text the scan reads every digit |
| DesignSystem.ThreeDigitColor | dafoma_5/DesignSystem.swift:27-28 | three digits expand nibble `n` to channel `n * 17`, with alpha 255 |
| DesignSystem.SixDigitColor | dafoma_5/DesignSystem.swift:29-30 | six digits are red, green and blue byte pairs in order, with alpha 255 |
| DesignSystem.SixDigitValue | dafoma_5/DesignSystem.swift:29-30 | six digits whose value packs three bytes decode to those bytes |
| DesignSystem.EightDigitColor | dafoma_5/DesignSystem.swift:31-32 | eight digits are AARRGGBB: the first pair is alpha, then red, green, blue |
| DesignSystem.EightDigitValue | dafoma_5/DesignSystem.swift:31-32 | eight digits whose value packs four bytes decode to those bytes, the first being alpha |
| DesignSystem.ColorFromHexIgnoresLeadingMark | dafoma_5/DesignSystem.swift:22 | a leading `#`, or any other non-alphanumeric mark, does not change the colour |
| DesignSystem.PaletteDecodes | dafoma_5/DesignSystem.swift:12-16 | each of the five palette literals decodes, so none of the force-unwraps traps; each gives its listed colour |
| Favorites.ToHex | dafoma_5/FavoritesView.swift:233-244 | `toHex` gives six upper-case hex digits whose value is `(r << 16) \| (g << 8) \| b` |
| Favorites.ToHexRoundTrip | dafoma_5/FavoritesView.swift:242-243 | `Color(hex:)` of `toHex` gives back r, g, b with alpha 255 |
| Favorites.ToHexInjective | dafoma_5/FavoritesView.swift:242-243 | colours with the same hex string have the same r, g, b |
| Favorites.NewFavoriteItem | dafoma_5/FavoritesView.swift:220-228 | the initializer copies every field, stores the accent colour as hex, and the item's `accentColor` gives the colour back opaque |
| Favorites.Removed | dafoma_5/FavoritesView.swift:178-181 | `removeAll` by id never grows the list and leaves no item with that id |
| Favorites.RemovedAppend | dafoma_5/FavoritesView.swift:178-181 | removal keeps the surviving items in their old order: a last item stays last unless it has the id |
| Favorites.RemovedMembers | dafoma_5/FavoritesView.swift:178-181 | an item survives the removal exactly when it was there and has another id |
| Favorites.RemovedAbsent | dafoma_5/FavoritesView.swift:178-181 | removing an absent id leaves the list unchanged |
| Favorites.RemovedKeepsUnique | dafoma_5/FavoritesView.swift:178-181 | removal keeps ids unique |
| Favorites.RemovedHasId | dafoma_5/FavoritesView.swift:178-190 | after removing an id, `isFavorite` is false for it and unchanged for every other id |
| Favorites.AddedHasId | dafoma_5/FavoritesView.swift:171-176 | after `add` the id is a favourite; the list either grows by the item at the end or, exactly when the id was present, stays the same |
| Favorites.AddedIdempotent | dafoma_5/FavoritesView.swift:171-176 | adding the same item twice is the same as adding it once |
| Favorites.AddedKeepsUnique | dafoma_5/FavoritesView.swift:171-176 | add keeps ids unique |
| Favorites.Loaded | dafoma_5/FavoritesView.swift:198-203 | with no data, or undecodable data, under the key, loading gives the empty list; otherwise it gives the stored list |
| Favorites.SavedThenLoaded | dafoma_5/FavoritesView.swift:192-203 | loading what was saved gives the saved list back; every other key is untouched |
| Favorites.FavoritesManager.constructor | dafoma_5/FavoritesView.swift:164-169 | a new manager holds what is stored under the key, or nothing |
| Favorites.FavoritesManager.LoadFavorites | dafoma_5/FavoritesView.swift:198-203 | the list is replaced only when the key holds decodable items |
| Favorites.FavoritesManager.SaveFavorites | dafoma_5/FavoritesView.swift:192-196 | when encoding succeeds the whole list is written under the key; otherwise nothing is written |
| Favorites.FavoritesManager.Add | dafoma_5/FavoritesView.swift:171-176 | appends only a new id and writes through; a duplicate changes and writes nothing; unique ids stay unique |
| Favorites.FavoritesManager.Remove | dafoma_5/FavoritesView.swift:178-181 | removes every item with the id, keeps the rest in order, writes through |
| Favorites.FavoritesManager.ClearAll | dafoma_5/FavoritesView.swift:183-186 | leaves the list empty and writes the empty list |
| Favorites.FavoritesManager.IsFavorite | dafoma_5/FavoritesView.swift:188-190 | true exactly when some item has the id |
| Favorites.ClearThenRelaunch | dafoma_5/FavoritesView.swift:164-203 | after `clearAll`, a manager made from the same defaults starts empty |
| CalculatorTools.RawValueInjective | dafoma_5/CalculatorToolViews.swift:181-188 | every unit has its own raw value |
| CalculatorTools.ToPixels | dafoma_5/CalculatorToolViews.swift:190-200 | positive lengths stay positive; `px` is the identity |
| CalculatorTools.FromPixels | dafoma_5/CalculatorToolViews.swift:202-212 | positive pixel counts stay positive; `px` is the identity |
| CalculatorTools.PixelsRoundTrip | dafoma_5/CalculatorToolViews.swift:190-212 | `fromPixels` undoes `toPixels` and the other way round, for every unit |
| CalculatorTools.ConvertUnits | dafoma_5/CalculatorToolViews.swift:140-146 | nil exactly when the input does not parse or is not positive; otherwise the positive value converted through pixels |
| CalculatorTools.ConvertSameUnit | dafoma_5/CalculatorToolViews.swift:140-146 | converting to the same unit returns the value |
| CalculatorTools.ConvertRoundTrip | dafoma_5/CalculatorToolViews.swift:140-146 | converting there and back returns the value |
| CalculatorTools.EmIsRem | dafoma_5/CalculatorToolViews.swift:194-195 | `em` and `rem` share the factor 16 |
| CalculatorTools.CommonConversions | dafoma_5/CalculatorToolViews.swift:131-134 | 1rem and 1em are 16px and 1in is 96px; 16px is 12pt to within 0.005 |
| CalculatorTools.ConvertedMonotone | dafoma_5/CalculatorToolViews.swift:140-146 | conversion keeps the order of values |
| CalculatorTools.RealPow | dafoma_5/CalculatorToolViews.swift:315 | a power of a positive ratio is positive |
| CalculatorTools.GenerateSpacingScale | dafoma_5/CalculatorToolViews.swift:309-319 | nil unless base and ratio parse and are positive; otherwise exactly `steps` values, value i being `base * ratio^i` |
| CalculatorTools.GeometricSteps | dafoma_5/CalculatorToolViews.swift:313-318 | the loop appends `steps` values, value i being `base * ratio^i` |
| CalculatorTools.StepZero | dafoma_5/CalculatorToolViews.swift:315 | the scale starts at the base |
| CalculatorTools.StepNext | dafoma_5/CalculatorToolViews.swift:315 | each value is the previous one times the ratio |
| CalculatorTools.StepGrows | dafoma_5/CalculatorToolViews.swift:313-318 | with a ratio above 1 the scale is strictly increasing |
| CalculatorTools.StepIncreases | dafoma_5/CalculatorToolViews.swift:313-318 | with a ratio above 1 each value exceeds the one before |
| CalculatorTools.StepPositive | dafoma_5/CalculatorToolViews.swift:310-318 | with a positive base and ratio every value is positive |
| CalculatorTools.ColorTools.constructor | dafoma_5/CalculatorToolViews.swift:324-325 | starts on neon green with the text `00FF94` |
| CalculatorTools.ColorTools.SetHexInput | dafoma_5/CalculatorToolViews.swift:349 | typing sets the hex field |
| CalculatorTools.ColorTools.PickColor | dafoma_5/CalculatorToolViews.swift:342 | the picker sets the colour |
| CalculatorTools.ColorTools.Apply | dafoma_5/CalculatorToolViews.swift:353-357 | the colour becomes the decoded hex when it decodes, and is unchanged otherwise |
| CalculatorTools.SwatchLabelDecodes | dafoma_5/CalculatorToolViews.swift:391-395 | each of the five neon-palette swatches' hex labels decodes to that palette colour |
| CalculatorTools.WhiteSwatchDecodes | dafoma_5/CalculatorToolViews.swift:396 | the white swatch's label `FFFFFF` decodes to opaque white |
| RatioCalculator.FieldValue | dafoma_5/RatioCalculatorView.swift:307-310 | an unreadable field counts as 0 |
| RatioCalculator.PositiveCount | dafoma_5/RatioCalculatorView.swift:312-313 | the count of positive values is at most the length, and equals it exactly when all are positive |
| RatioCalculator.PositiveCountOfFour | dafoma_5/RatioCalculatorView.swift:312-313 | the count over the four fields is the sum of their positivity indicators |
| RatioCalculator.CalculateMissingValue | dafoma_5/RatioCalculatorView.swift:306-326 | a value exactly when w1, h1 > 0 and one of w2, h2 is positive and the other 0 (then three values are positive); the solved value satisfies the cross product |
| RatioCalculator.Quotient | dafoma_5/RatioCalculatorView.swift:318-321 | the division is never by zero and inverts the multiplication |
| RatioCalculator.MissingValueKeepsRatio | dafoma_5/RatioCalculatorView.swift:317-322 | the solved value is positive and w2 : h2 equals w1 : h1 |
| RatioCalculator.CrossRatio | dafoma_5/RatioCalculatorView.swift:317-322 | equal cross products with a positive first pair give equal ratios |
| RatioCalculator.CompareRatios | dafoma_5/RatioCalculatorView.swift:328-344 | a verdict exactly when all four fields parse and are positive; identical exactly when the ratios differ by less than 0.01; otherwise both ratios and the percent difference abs(ratio1 - ratio2) / ratio1 · 100, which is positive |
| RatioCalculator.CompareRatiosSymmetric | dafoma_5/RatioCalculatorView.swift:328-344 | swapping the pairs changes neither whether there is a verdict nor whether it is identical |
| RatioCalculator.ScaleRatio | dafoma_5/RatioCalculatorView.swift:346-355 | dimensions exactly when w1, h1 and the factor parse and are positive; they are (w1 · factor, h1 · factor), so they keep the ratio w1 : h1 |
| RatioCalculator.ScaledQuotient | dafoma_5/RatioCalculatorView.swift:350-351 | scaling both sides by a positive factor keeps the quotient |
| RatioCalculator.ScaleRatioComposes | dafoma_5/RatioCalculatorView.swift:346-355 | scaling by s and then by t is scaling by s·t |
| RatioCalculator.CalculateResult | dafoma_5/RatioCalculatorView.swift:295-304 | each mode gives its own kind of result, exactly when that calculation does, and the value is that calculation's: the missing value, the comparison or the scaled dimensions |
| RatioCalculator.EmptySecondPairSolvesNothing | dafoma_5/RatioCalculatorView.swift:59-61 | after a mode switch clears the second pair, finding the missing value gives nothing |
| RatioCalculator.ParsedPieces | dafoma_5/RatioCalculatorView.swift:358 | `compactMap` keeps at most as many values as pieces |
| RatioCalculator.ParsedTexts | dafoma_5/RatioCalculatorView.swift:358 | the kept trimmed texts are the ones that parse, each to its value |
| RatioCalculator.PresetPieces | dafoma_5/RatioCalculatorView.swift:358 | a `left : right` preset splits into two pieces that trim to `left` and `right` |
| RatioCalculator.PresetShape | dafoma_5/RatioCalculatorView.swift:358 | a `left : right` preset gives exactly the two parsed numbers |
| RatioCalculator.WholePreset | dafoma_5/RatioCalculatorView.swift:371-379 | a preset of two whole numbers gives exactly those numbers |
| RatioCalculator.DecimalText | dafoma_5/RatioCalculatorView.swift:372 | `whole.fraction` parses to its decimal value |
| RatioCalculator.PresetComponents | dafoma_5/RatioCalculatorView.swift:358-379 | every preset splits into its two numeral texts, which parse to its two terms (1.618 : 1 for the golden ratio) |
| RatioCalculator.GoldenLoadsAsTwoToOne | dafoma_5/RatioCalculatorView.swift:357-363 | as written, the golden preset parses to 1.618 and 1 but loads the fields as "2" and "1" |
| RatioCalculator.CommonRatioFields | dafoma_5/RatioCalculatorView.swift:357-363 | with the numerals kept as written: fields exactly when two components parse, each field parsing to its component |
| RatioCalculator.CommonRatioFieldsKeepRatio | dafoma_5/RatioCalculatorView.swift:357-379 | every preset fills the fields with its own numerals, which parse to its terms |
| RatioCalculator.AsWrittenAgreesOnWholePresets | dafoma_5/RatioCalculatorView.swift:357-379 | for every preset other than the golden one, `%.0f` changes nothing |
| RatioCalculator.WholeRoundTrip | dafoma_5/RatioCalculatorView.swift:360-361 | `%.0f` of a whole number prints that number |
| RatioCalculator.RatioCalculatorState.constructor | dafoma_5/RatioCalculatorView.swift:10-14 | the fields start as 16, 9, empty, empty, in find-missing mode |
| RatioCalculator.RatioCalculatorState.Edit | dafoma_5/RatioCalculatorView.swift:10-14 | typing sets the four fields and keeps the mode |
| RatioCalculator.RatioCalculatorState.ClearFields | dafoma_5/RatioCalculatorView.swift:365-368 | empties the second pair |
| RatioCalculator.RatioCalculatorState.SelectMode | dafoma_5/RatioCalculatorView.swift:59-61 | sets the mode, empties the second pair, keeps the first pair |
| RatioCalculator.RatioCalculatorState.UseCommonRatio | dafoma_5/RatioCalculatorView.swift:357-363 | the first pair becomes the preset's numerals, unrounded (the corrected loading of the finding below) |
| SafeZones.ContentArea | dafoma_5/SafeZonesView.swift:196-200 | screen less insets: the insets add back to the screen, the width is the screen width, and the height is positive and below the screen's |
| SafeZones.ContentHeights | dafoma_5/SafeZonesView.swift:155-200 | content heights 759, 763, 647 and 1322 points |
| SafeZones.NotchMatchesHomeIndicator | dafoma_5/SafeZonesView.swift:202-214 | notch and home indicator are on the same devices, the two current iPhones |
| SafeZones.BottomLabelAllButSE | dafoma_5/SafeZonesView.swift:324 | the bottom measurement is drawn for every device but the iPhone SE |
| SafeZones.DisplayNameInjective | dafoma_5/SafeZonesView.swift:146-153 | every device has its own display name |
| SafeZones.FrameScale | dafoma_5/SafeZonesView.swift:223-225 | the drawn device fits the available width and 300 points of height, and meets one bound exactly; the scale is positive for a positive width and 0 for a zero width |
| GridSystems.ColumnWidth | dafoma_5/GridSystemsView.swift:160-164 | columns, gutters and margins fill the 375-point screen exactly |
| GridSystems.CommonGridLabels | dafoma_5/GridSystemsView.swift:165 | the labels read "42pt" for the 6-column grid and "3pt" for the 12-column grid |
| GridSystems.VisualizationColumnWidth | dafoma_5/GridSystemsView.swift:184-189 | the drawing fills the container width exactly |
| GridSystems.VisualizationMatchesLabel | dafoma_5/GridSystemsView.swift:160-189 | at 375 points the drawing uses the labelled width |
| GridSystems.ColumnsDetermineWidth | dafoma_5/GridSystemsView.swift:160-189 | the fill equation has only one solution |
| GridSystems.GutterIndicatorCount | dafoma_5/GridSystemsView.swift:233-237 | gutter indicators only when shown and there is more than one column, then `columns - 1` of them |
| GridSystems.GutterIndicatorsSpanWidth | dafoma_5/GridSystemsView.swift:233-245 | the indicator row spans the container width exactly |
| Models.AllCardTypes | dafoma_5/Models.swift:11-16 | five card types, all different |
| Models.AllCardTypesComplete | dafoma_5/Models.swift:11-16 | every card type is in `allCases` |
| Models.CardRawValueInjective | dafoma_5/Models.swift:11-16 | every card type has its own title |
| Models.NewReferenceCard | dafoma_5/Models.swift:57-62 | the card copies the type's raw value, description and colour |
| Models.NewReferenceCardByTitle | dafoma_5/Models.swift:57-62 | cards with the same title are the same card |
| Models.CommonAspectRatiosConsistent | dafoma_5/Models.swift:75-80 | each common ratio is width over height of whole dimensions and is named "width:height" |
| Models.ModularScaleLineHeights | dafoma_5/Models.swift:92-104 | every line height exceeds its size |
| Models.ModularScaleNonIncreasing | dafoma_5/Models.swift:92-104 | sizes never grow down the scale |
| Models.CommonGrids | dafoma_5/Models.swift:116-119 | exactly a 6-column grid (16 gutter, 20 margin) and a 12-column grid (24, 32) |
| Onboarding.AppStorage.constructor | dafoma_5/OnboardingView.swift:23 | storage starts with the given flags |
| Onboarding.WithCompletion | dafoma_5/OnboardingView.swift:23-31 | the flag is set to the value, and every other key is unchanged |
| Onboarding.WithCompletionIdempotent | dafoma_5/OnboardingView.swift:25-31 | setting the flag twice is setting it once, and the last write wins |
| Onboarding.OnboardingManager.constructor | dafoma_5/OnboardingView.swift:22-23 | the manager reads the given storage |
| Onboarding.OnboardingManager.CompleteOnboarding | dafoma_5/OnboardingView.swift:25-27 | the flag is true and nothing else in storage changes |
| Onboarding.OnboardingManager.ResetOnboarding | dafoma_5/OnboardingView.swift:29-31 | the flag is false and nothing else in storage changes |
| Onboarding.Pages | dafoma_5/OnboardingView.swift:40-73 | four pages |
| Onboarding.OnboardingView.constructor | dafoma_5/OnboardingView.swift:35-36 | the walkthrough starts on the first page |
| Onboarding.OnboardingView.Next | dafoma_5/OnboardingView.swift:147-155 | on the last page it completes onboarding and stays put; elsewhere it moves one page on and leaves storage alone; the page stays in range |
| Onboarding.OnboardingView.Previous | dafoma_5/OnboardingView.swift:126-130 | offered only after the first page; moves one page back |
| Onboarding.OnboardingView.SwipeTo | dafoma_5/OnboardingView.swift:94 | a swipe of the page view shows the chosen page, which is one of the pages |
| Onboarding.OnboardingView.Skip | dafoma_5/OnboardingView.swift:84-86 | completes onboarding from any page |
| Onboarding.OnboardingWrapper.constructor | dafoma_5/OnboardingView.swift:311 | the wrapper owns the given manager |
| Onboarding.OnboardingWrapper.Shown | dafoma_5/OnboardingView.swift:314-320 | the app is shown exactly when onboarding is complete |
| Onboarding.WrapperFollowsWalkthrough | dafoma_5/OnboardingView.swift:310-322 | when the wrapper and the walkthrough share storage, the wrapper shows the app exactly when the walkthrough has finished |
| TypographyScaleView.WeightNameDistinguishes | dafoma_5/TypographyScaleView.swift:161-174 | two weights share a name only when both are Regular or unlisted, and then the name is "Regular" |
| TypographyScaleView.Tapped | dafoma_5/TypographyScaleView.swift:27 | tapping the selected card clears the selection; any other tap selects that card |
| TypographyScaleView.TappedTwice | dafoma_5/TypographyScaleView.swift:27 | tapping twice restores no selection or the same card, and clears another card's selection |
| TypographyScaleView.TypographyScaleState.constructor | dafoma_5/TypographyScaleView.swift:11 | no card starts selected |
| TypographyScaleView.TypographyScaleState.Tap | dafoma_5/TypographyScaleView.swift:25-27 | toggles the tapped card and leaves no other card selected |
| TypographyScaleView.AtMostOneSelected | dafoma_5/TypographyScaleView.swift:25 | at most one card is expanded |
| TypographyScaleView.Hierarchy | dafoma_5/TypographyScaleView.swift:58-62 | the first n styles in order, only the last marked as last |
| TypographyScaleView.ScreenHierarchy | dafoma_5/TypographyScaleView.swift:58-62 | the screen lists six styles from Large Title to Body, only Body marked as last |
| ViewModels.LoadedCards | dafoma_5/ViewModels.swift:21-23 | one card per `allCases` entry, in order |
| ViewModels.LoadedCardsOnePerType | dafoma_5/ViewModels.swift:17-23 | each type has exactly one card, and each card's title is its type's raw value |
| ViewModels.BlinkRatioViewModel.constructor | dafoma_5/ViewModels.swift:13-23 | the cards are loaded and no card is selected |
| ViewModels.BlinkRatioViewModel.SelectCard | dafoma_5/ViewModels.swift:25-27 | selects the card and changes nothing else |
| ViewModels.BlinkRatioViewModel.DeselectCard | dafoma_5/ViewModels.swift:29-31 | clears the selection and changes nothing else |

## Left out

- IEEE floating point. `Double` and `CGFloat` are modelled as exact reals, so
  the laws about conversions, scales and ratios hold exactly. In the app they
  hold up to rounding.
- `String(format:)` display text, except where it decides a value. The result
  strings of the ratio calculator (`%.1f`, `%.3f`), the spacing labels and
  the measurement labels are left out. The calculations return the numbers
  they would print. Where `%.0f` is modelled, a value in (-0.5, 0) prints
  as "0" rather than the app's "-0"; the presets it is applied to are all
  positive.
- Foundation.ParseDouble: reads optionally signed plain decimals only. The
  exponents, `inf`, `nan` and hex floats that `Double(String)` also accepts
  are read as failures. Every literal and field the app itself produces is a
  plain decimal.
- Foundation.ScanHex: models the digits `Scanner.scanHexInt64` reads. Overflow
  past 64 bits is left out; at most 8 digits reach the channel split.
- `trimmingCharacters`: the character sets are ASCII only. Non-ASCII letters,
  digits and whitespace are not modelled.
- The division of the channels by 255 and `UIColor`/`Color` conversions.
  Colours are their 8-bit channels.
- Favorites.ToHex: takes the bytes that `Int(red * 255)` would produce,
  because `UIColor.getRed` is a foreign call. Alpha is dropped, as in the
  source.
- JSON encoding and `UserDefaults` bytes. Storage is a map from key to either
  an encoded item list or undecodable data. A failed encode is a boolean
  parameter of each mutation.
- `Date()` and `UUID()`. The favourite's timestamp is a parameter. Typography
  cards are identified by their index in the scale, whose UUIDs are distinct
  by construction.
- `ExportHelper` and every export view, including the export layout's
  `prefix(8)` typography list. This is UIKit rendering and a photo-library
  write.
- `ContentView.check_data`. It depends on the clock, a date formatter and
  device-data calls that are not part of this model.
- `SettingsView`. Its onboarding reset removes a different key from the one
  `OnboardingManager` reads, so it has no effect on this model.
- SwiftUI layout, styling and animation, other than the device frame's scale
  and the grid drawing's widths, which are modelled. The spacing stepper's 4...12 range is
  a UI bound; the spacing method takes any step count.
- The selected device of the safe-zone view and the selected grid of the grid
  view. These are plain assignments with nothing to state.
- The `CommonRatio` display names and the mode labels. These are constant
  strings.
- The onboarding pages' body text and feature lists. The pages keep their
  title, subtitle, icon and accent colour.
- RatioCalculator.RatioCalculatorState.UseCommonRatio: loads the preset's
  numerals unrounded, which is the corrected loading. The app's `%.0f`
  loading, which turns the golden preset into "2" and "1", is modelled only
  by `CommonRatioFieldsAsWritten` and `GoldenLoadsAsTwoToOne` (see
  "## Findings").
- GridSystems.ColumnWidth: requires at least one column. With zero columns
  the source divides by zero and `Int(...)` traps; every grid in the app has
  at least one column.

## Findings

| source | as written | input that shows it | evidently intended | confidence | as-written member | corrected member |
|---|---|---|---|---|---|---|
| dafoma_5/RatioCalculatorView.swift:360 | `useCommonRatio` prints each component with `%.0f` | the golden preset "1.618 : 1" fills the fields with "2" and "1" | the fields hold 1.618 and 1, so the preset keeps its ratio | not executed | RatioCalculator.GoldenLoadsAsTwoToOne | RatioCalculator.CommonRatioFieldsKeepRatio |
