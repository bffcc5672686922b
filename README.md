# FreshDocs watermark background and type statistics, in Dafny

This project models two parts of the FreshDocs site.

The **watermark background** is the `FreshBackground` theme component. When it mounts, it resolves a hero element. A render draws the word "Fresh" in rows on an off-screen canvas tile, turns the tile into a data URL and writes five CSS custom properties on the element. The first render runs once the fonts are ready when the browser offers `document.fonts.ready`, and at once otherwise. Later renders run when the root's `data-theme` changes and when the window is resized. On cleanup it disconnects its observer and removes its listener.

The **statistics scripts** count the `fresh_types` listed in the front matter of the `.mdx` files of the content directories:
- `statistics.ts` keeps only the seven whitelisted types and reports a record with all seven counts.
- `statistics.mjs`, the older script, counts every listed value under its own key, and scans only two directories.

Modules:
- `Wrappers` holds `Option`.
- `Seqs` holds occurrence counting, `repeat` and `endsWith`.
- `Decimal` prints integers as a template literal does.
- `FreshPattern` holds the pure arithmetic of the tile: the theme colour, the spacer and unit, the repeat count `k`, the tile width, the device pixel ratio, the backing size and the rows of the draw loop.
- `Background` holds the canvas and the styled element as classes, `makePattern` and its draw loop as methods, hero resolution, and the effect's lifecycle as the `FreshBackground` class.
- `ContentTree` holds the directory tree, `getFilesInDir`, and the tally invariant shared by both counters.
- `Statistics` models `statistics.ts`.
- `LegacyStatistics` models `statistics.mjs`.

Browser and filesystem collaborators are inputs:
- the measured unit width;
- `devicePixelRatio`;
- whether each 2D context exists;
- the PNG encoder;
- the printed `--fresh-scale` value;
- `document.querySelector`;
- the directory listing with each file's parsed front matter.

`Math.round` is `Floor(x + 1/2)` over exact reals.

## Model

| member | source | states |
|---|---|---|
| FreshPattern.ColorByTheme | FreshDocs/src/theme/fresh_background.js:13-16 | the fill is `rgba(255, 255, 255, 0.4)` exactly when `data-theme` is `dark`, and `rgba(199, 199, 199, 0.8)` for any other or absent value |
| FreshPattern.Max | FreshDocs/src/theme/fresh_background.js:26 | `Math.max` of two integers is at least each and equal to one of them |
| FreshPattern.MaxReal | FreshDocs/src/theme/fresh_background.js:32 | the `dpr` clamp: `Math.max` over real numbers is at least each argument and equals one of them |
| FreshPattern.SpacerLength | FreshDocs/src/theme/fresh_background.js:26 | the spacer has at least one blank |
| FreshPattern.Spacer | FreshDocs/src/theme/fresh_background.js:26 | the spacer consists of blanks only, `SpacerLength()` of them, never fewer than one |
| FreshPattern.Unit | FreshDocs/src/theme/fresh_background.js:27 | the unit is `WORD` followed by `SpacerLength()` blanks |
| Seqs.RepeatOne | FreshDocs/src/theme/fresh_background.js:26 | repeating one character gives that character at every position |
| FreshPattern.UnitIsWordAndOneBlank | FreshDocs/src/theme/fresh_background.js:26-27 | with spacing 1.4 the spacer is exactly one blank, and the unit is `WORD` followed by it, i.e. "Fresh " |
| FreshPattern.Round | FreshDocs/src/theme/fresh_background.js:29-30 | `Math.round` lands within half of its argument |
| FreshPattern.RepeatCount | FreshDocs/src/theme/fresh_background.js:29 | for every positive unit width, `k >= 8`; `k` is `round(320 / unitW)` when that is at least 8, otherwise 8 |
| FreshPattern.TileApproximatesTarget | FreshDocs/src/theme/fresh_background.js:29-30 | when the floor of 8 does not engage, `k * unitW` is within half a unit of 320 |
| FreshPattern.RepeatedUnitIsWide | FreshDocs/src/theme/fresh_background.js:29-30 | for every positive unit width, the `k` units span more than 301 pixels |
| FreshPattern.TileWidth | FreshDocs/src/theme/fresh_background.js:30 | `tileW` is a whole number of pixels, at least 301 |
| FreshPattern.FloorExample | FreshDocs/src/theme/fresh_background.js:29-30 | a 50-pixel unit gives round(6.4) = 6 < 8, so `k = 8` and `tileW = 400` |
| FreshPattern.EffectiveDpr | FreshDocs/src/theme/fresh_background.js:32 | `dpr >= 1`; it is the reported ratio when that is above 1, and 1 when the ratio is undefined, 0 or at most 1 |
| FreshPattern.BackingSize | FreshDocs/src/theme/fresh_background.js:34-35 | the backing dimension is at least the logical one, and equal to it at ratio 1 |
| FreshPattern.RowsOfTheDrawLoop | FreshDocs/src/theme/fresh_background.js:48 | the loop condition `y <= TILE_H` holds for exactly the first `TILE_H / LINE_STEP + 2 = 7` rows, from `-LINE_STEP` in steps of `LINE_STEP` |
| Seqs.Repeat | FreshDocs/src/theme/fresh_background.js:46 | `s.repeat(n)` has n times the length of `s` |
| Seqs.RepeatBlock | FreshDocs/src/theme/fresh_background.js:46 | every block of a repetition is the repeated string |
| Background.PatternLine | FreshDocs/src/theme/fresh_background.js:46 | the drawn line is k times as long as the unit |
| Background.PatternLineIsUnits | FreshDocs/src/theme/fresh_background.js:46 | block `j` of the line, for `j < k`, is the unit |
| Background.DrawnLines | FreshDocs/src/theme/fresh_background.js:48-50 | the loop makes 7 calls, all with the same line at `x = 0`, the first at `y = -40`, each 40 below the last, the last at most `TILE_H` with the next beyond it |
| Background.DrawLines | FreshDocs/src/theme/fresh_background.js:48-50 | the loop appends exactly `DrawnLines(line)` to the context's log and changes nothing else in it |
| Background.Canvas.constructor | FreshDocs/src/theme/fresh_background.js:33 | a new canvas is 300 by 150, with the default context state and nothing drawn |
| Background.Canvas.Scale | FreshDocs/src/theme/fresh_background.js:39 | scaling multiplies the transform and changes nothing else |
| Background.Canvas.FillText | FreshDocs/src/theme/fresh_background.js:49 | one call is appended to the log and nothing else changes |
| Background.Surface.SetProperty | FreshDocs/src/theme/fresh_background.js:53 | the named property takes the value, and the write is logged |
| Background.Applied | FreshDocs/src/theme/fresh_background.js:53-60 | no writes leave the style as it was; after writes, the property of the last write holds its value |
| Background.AppliedOverrides | FreshDocs/src/theme/fresh_background.js:53-60 | a sequence of writes overrides the old style with the last value written to each property |
| Background.AppliedSnoc | FreshDocs/src/theme/fresh_background.js:53 | one more write sets its property on top of the earlier ones |
| Background.AppliedLastWrite | FreshDocs/src/theme/fresh_background.js:53-60 | a property holds the value of the last write that names it |
| Background.AppliedElsewhere | FreshDocs/src/theme/fresh_background.js:53-60 | a property no write names keeps its presence and value |
| Background.ReapplyIsIdempotent | FreshDocs/src/theme/fresh_background.js:53-60 | applying the same writes twice leaves the style of one application |
| Background.PatternBitmap | FreshDocs/src/theme/fresh_background.js:33-50 | the encoded bitmap is at least `tileW` by `TILE_H`, filled in the theme colour, and carries exactly the seven rows |
| Background.StyleWrites | FreshDocs/src/theme/fresh_background.js:53-60 | five writes naming the pattern properties in order, with `url(…)` of the given URL, the tile width in decimal followed by `px`, `200px`, `-32deg` and the given scale |
| Background.PatternWrites | FreshDocs/src/theme/fresh_background.js:53-60 | the five writes name `--fresh-bg`, `--tileW`, `--tileH`, `--fresh-angle`, `--fresh-scale` in that order; `--fresh-bg` is `url(…)` of the encoded tile, `--tileH` is `200px`, `--fresh-angle` is `-32deg`, and `--fresh-scale` is the printed scale |
| Background.ThemeOnlyChangesFill | FreshDocs/src/theme/fresh_background.js:13-60 | a theme switch changes only the tile's fill colour; the tile size, scale, font, baseline and rows stay the same, and so do the writes of `--tileW`, `--tileH`, `--fresh-angle` and `--fresh-scale` |
| Background.TileWidthProperty | FreshDocs/src/theme/fresh_background.js:54 | `--tileW` is decimal digits followed by `px`, and those digits read back as `tileW` |
| Decimal.NatToStringRoundTrip | FreshDocs/src/theme/fresh_background.js:54 | printing a natural number and reading the digits back gives the number |
| Decimal.NatToStringInjective | FreshDocs/src/theme/fresh_background.js:54 | two widths that print the same are equal |
| Decimal.NatToString | FreshDocs/src/theme/fresh_background.js:54 | a printed number is non-empty, all digits, with no leading zero |
| Decimal.IntToString | FreshDocs/src/theme/fresh_background.js:55-59 | the printed integer is never empty, starts with `-` exactly when it is negative, and is otherwise the decimal digits of its magnitude |
| Decimal.PrintedConstants | FreshDocs/src/theme/fresh_background.js:55-59 | `TILE_H` prints as `200` and `ANGLE_DEG` as `-32` |
| Background.PatternStyle | FreshDocs/src/theme/fresh_background.js:53-60 | after a successful render, the style has exactly the old properties plus the five, each of the five holds its written value, and every other property is unchanged |
| Background.PropertyWritesApplied | FreshDocs/src/theme/fresh_background.js:53-60 | one write per pattern property, in order, adds exactly those properties with their written values and keeps every other property |
| Background.MakePattern | FreshDocs/src/theme/fresh_background.js:18-61 | with an element and both contexts, the five writes are logged in order and the style is the old one with them applied; if either context is missing, the element is untouched |
| Background.BlankTile | FreshDocs/src/theme/fresh_background.js:32-35 | the tile canvas is at least `tileW` by `TILE_H` and has nothing drawn on it |
| Background.TileCanvas | FreshDocs/src/theme/fresh_background.js:28-35 | a fresh canvas sized `round(tileW * dpr)` by `round(TILE_H * dpr)` with nothing drawn |
| Background.PaintTile | FreshDocs/src/theme/fresh_background.js:39-50 | the painted canvas is exactly `PatternBitmap(env)` |
| Background.WritePattern | FreshDocs/src/theme/fresh_background.js:52-60 | the element receives exactly `StyleWrites(url, tileW, scaleText)`, logged in order, and its style is the old one with them applied |
| Background.RenderTwice | FreshDocs/src/theme/fresh_background.js:18-61 | a second render in the same environment leaves the style of the first, since its values depend on the inputs only |
| Background.FirstMatch | FreshDocs/src/theme/fresh_background.js:63-67 | the result is null exactly when every selector misses; otherwise it is the match of some selector all of whose predecessors miss |
| Background.ResolveHero | FreshDocs/src/theme/fresh_background.js:63-67 | `.heroWrapper` wins, then `[class*="heroWrapper"]`, then `.heroBanner`, then `.hero` |
| Background.FreshBackground.Mount | FreshDocs/src/theme/fresh_background.js:63-80 | the hero is resolved once; the render is deferred when `document.fonts.ready` exists and runs now otherwise; afterwards the observer is connected and the listener registered |
| Background.FreshBackground.RootAttributeChanged | FreshDocs/src/theme/fresh_background.js:76-77 | a `data-theme` change renders while the observer is connected; nothing is written otherwise |
| Background.FreshBackground.Resized | FreshDocs/src/theme/fresh_background.js:79-80 | a resize renders while the listener is registered; nothing is written otherwise |
| Background.FreshBackground.FontsReady | FreshDocs/src/theme/fresh_background.js:70-71 | the deferred render runs once, without looking at whether cleanup has happened |
| Background.FreshBackground.Cleanup | FreshDocs/src/theme/fresh_background.js:82-85 | afterwards neither the observer nor the listener is registered |
| Background.TeardownThenSignals | FreshDocs/src/theme/fresh_background.js:82-85 | after cleanup, a theme change and a resize write nothing, whether or not the fonts render is still pending, and the pending render stays pending |
| Background.LateFontsRender | FreshDocs/src/theme/fresh_background.js:70-85 | a render still pending at cleanup writes all five properties when the fonts settle |
| ContentTree.MdxFiles | FreshDocs/scripts/statistics.ts:54 | an entry is kept exactly when it is a regular file whose name ends in `.mdx` |
| ContentTree.MdxFilesAppend | FreshDocs/scripts/statistics.ts:54 | the filter keeps the directory's order |
| ContentTree.FilesInDir | FreshDocs/scripts/statistics.ts:50-55 | a missing directory gives no files; otherwise exactly its `.mdx` regular files (`getFilesInDir` in statistics.mjs, lines 16-21, is the same function) |
| ContentTree.TalliesSnoc | FreshDocs/scripts/statistics.ts:71 | one `get ?? 0` plus one update keeps the map equal to the occurrence counts of the sequence extended by that key |
| ContentTree.TallyGet | FreshDocs/scripts/statistics.ts:78-84 | reading a tally with a default of 0 gives the number of occurrences |
| Statistics.WhitelistIsComplete | FreshDocs/scripts/statistics.ts:26-34 | the whitelist names each of the seven types once |
| Statistics.Whitelisted | FreshDocs/scripts/statistics.ts:60 | a string passes the whitelist exactly when it is the name of a type |
| Statistics.KeptItems | FreshDocs/scripts/statistics.ts:60 | a type is kept exactly when the list holds its name as a string, and never more items than the list has |
| Statistics.KeptTypes | FreshDocs/scripts/statistics.ts:60 | a value that is not a list contributes nothing; a list contributes its whitelisted strings |
| Statistics.KeptItemsCounts | FreshDocs/scripts/statistics.ts:60 | each type is kept as often as the list names it |
| Statistics.KeptItemsAppend | FreshDocs/scripts/statistics.ts:60 | the filter keeps the list's order: the kept items of a concatenation are the kept items of each part, concatenated |
| Statistics.KeptSingleItem | FreshDocs/scripts/statistics.ts:60 | one item is kept exactly when it is a whitelisted string, and then as its type |
| Statistics.KeptOfFilesAppend | FreshDocs/scripts/statistics.ts:68-73 | the files' contributions concatenate |
| Statistics.TallyTypes | FreshDocs/scripts/statistics.ts:70-72 | the inner loop extends the tally by the file's kept types |
| Statistics.TallyFiles | FreshDocs/scripts/statistics.ts:68-73 | the file loop extends the tally by every file's kept types, in order |
| Statistics.KeptInStep | FreshDocs/scripts/statistics.ts:66-68 | one more scanned directory appends the kept types of its files |
| Statistics.ReadStats | FreshDocs/scripts/statistics.ts:76-84 | each of the seven fields reads the map with a default of 0 |
| Statistics.ReadStatsOfTally | FreshDocs/scripts/statistics.ts:76-84 | read from a tally, each field is the occurrence count of its type |
| Statistics.CountFreshTypes | FreshDocs/scripts/statistics.ts:63-85 | each of the seven counts is the number of occurrences of that type across the kept lists of all scanned files |
| Statistics.CountsAddUp | FreshDocs/scripts/statistics.ts:63-84 | the seven counts add up to the number of whitelisted entries across all scanned files |
| Statistics.EveryEntryHasAType | FreshDocs/scripts/statistics.ts:76-84 | every kept entry falls under exactly one of the seven fields |
| Statistics.UnseenTypeIsZero | FreshDocs/scripts/statistics.ts:76-84 | a type no scanned file lists has count 0 |
| Statistics.AsObject | FreshDocs/scripts/statistics.ts:76-84 | the returned object has exactly the seven keys, each holding its field |
| Statistics.Spread | FreshDocs/scripts/statistics.ts:90 | object spread has the keys of both objects, with the right-hand value wherever it has one |
| Statistics.ZeroMergeIsIdentity | FreshDocs/scripts/statistics.ts:90 | spreading the counts over the zero record changes nothing |
| Statistics.GenerateStatistics | FreshDocs/scripts/statistics.ts:87-90 | the object written has exactly the seven keys, each holding the occurrence count of its type over the six directories |
| LegacyStatistics.GetFreshTypesFromFile | FreshDocs/scripts/statistics.mjs:26 | a missing or falsy value becomes the empty list; any other value is returned as it is |
| LegacyStatistics.AbsentContributesNothing | FreshDocs/scripts/statistics.mjs:26 | a file without `fresh_types` adds no keys |
| LegacyStatistics.Keys | FreshDocs/scripts/statistics.mjs:37 | every listed item is counted under its own key, with no whitelist |
| LegacyStatistics.KeysOfFilesFails | FreshDocs/scripts/statistics.mjs:34-39 | the file loop throws exactly when some file's `fresh_types` is a truthy non-list |
| LegacyStatistics.KeysOfFilesPrefixFails | FreshDocs/scripts/statistics.mjs:34-39 | once a file throws, the whole loop throws |
| LegacyStatistics.ScannedKeysPrefixFails | FreshDocs/scripts/statistics.mjs:32-40 | once a directory throws, the whole scan throws |
| LegacyStatistics.TallyItems | FreshDocs/scripts/statistics.mjs:36-38 | the inner loop extends the tally by the item keys |
| LegacyStatistics.TallyFiles | FreshDocs/scripts/statistics.mjs:34-39 | the file loop throws exactly when `KeysOfFiles(files)` is `None`, and otherwise extends the tally by every file's keys |
| LegacyStatistics.ScannedKeysStep | FreshDocs/scripts/statistics.mjs:29-31 | one more scanned directory appends that directory's keys |
| LegacyStatistics.ScannedKeysFailsAt | FreshDocs/scripts/statistics.mjs:29-36 | a directory whose scan throws makes the whole count throw |
| LegacyStatistics.ScanFailsExactlyAtScalar | FreshDocs/scripts/statistics.mjs:26-40 | the scan throws if and only if some scanned directory holds a file whose `fresh_types` is a truthy non-list; a falsy value becomes `[]` and never throws |
| LegacyStatistics.ScanFailsOnlyAtScalar | FreshDocs/scripts/statistics.mjs:26-40 | a scan that throws has a scanned directory holding a file whose `fresh_types` is a truthy non-list |
| LegacyStatistics.CountFreshTypes | FreshDocs/scripts/statistics.mjs:29-43 | the result fails if and only if some scanned file has a truthy non-list value; otherwise, for every string, the count is its number of occurrences across the scanned lists, and it is present exactly when that is positive |
| LegacyStatistics.GenerateStatistics | FreshDocs/scripts/statistics.mjs:45-46 | over the two listed directories: it throws if and only if one of them holds a file whose `fresh_types` is a truthy non-list, and otherwise every key's value is its occurrence count |
| ContentTree.TalliesHaveNoZeros | FreshDocs/scripts/statistics.mjs:30-42 | the sparse object has no zero-valued entry |
| ContentTree.TallySum | FreshDocs/scripts/statistics.mjs:29-42 | the values add up to the number of entries counted |
| LegacyStatistics.LegacyCounts | FreshDocs/scripts/statistics.mjs:29-42 | a key is present exactly when it occurs, its value is its occurrence count and at least 1, and the values sum to the number of entries |
| LegacyStatistics.OnlyScannedDirsMatter | FreshDocs/scripts/statistics.mjs:8-14 | trees that agree on the scanned directories give the same result |
| LegacyStatistics.ReferencesRecipesIgnored | FreshDocs/scripts/statistics.mjs:12 | the contents of `memo/references_recipes`, or its absence, do not change the result |
| LegacyStatistics.UnfilteredExample | FreshDocs/scripts/statistics.mjs:29-43 | a non-whitelisted value is counted; a non-`.mdx` file and an unscanned directory contribute nothing |

## Left out

- Canvas pixels. The model does not represent `clearRect`, `imageSmoothingEnabled` or the PNG encoding (fresh_background.js:40, 44, 52). The bitmap is the log of `fillText` calls plus the context state, and `toDataURL` is an input function of it.
- `measureText` (fresh_background.js:28). The unit width is an input, and a positive one is required. A zero width would make `k` infinite, and `repeat` would throw; that case is not modelled.
- Font serialisation. `ctx.font = probe.font` is modelled as the literal font string being copied. The browser's normalised spelling of the font is not modelled.
- `--fresh-scale` (fresh_background.js:57-58). It is computed with `Math.cos` and `Math.sin` in floating point. The model takes the printed value as an input and only states that it is written.
- Floating point. Every real here is exact, so the model ignores rounding and representation error in `320 / unitW` and `k * unitW`. A NaN `devicePixelRatio` is also not modelled.
- Number printing. Integers are printed as a minus sign followed by digits. The exponent form JavaScript uses at 1e21 and above is not modelled.
- Event-loop timing. The `document.fonts.ready` promise, `MutationObserver` delivery and `resize` dispatch are modelled as method calls made in some order. The model does not capture batching of mutation records, or renders interleaving with one another.
- React. The component renders its children unchanged, which is not modelled.
- Filesystem and parsing. The model leaves out `fs`, the `gray-matter` YAML parser, `path.join`, `JSON.stringify`, file writing and logging.
  - A directory listing is given as entries that already carry their parsed `fresh_types`.
  - `getFilesInDir` returns those entries rather than joined paths, and reading a file back by its path is folded into its entry.
- LegacyStatistics.CountFreshTypes: it does not model keys that name `Object.prototype` members. For example, `constructor` reads an inherited function rather than `undefined`, and `__proto__` does not create a property.
- LegacyStatistics.CountFreshTypes: the `TypeError` thrown by `forEach` on a truthy non-list value is modelled as `None`. The counts gathered up to that point are discarded because the script aborts.
- Non-string list items. In the older script they are counted under the key their `String` conversion gives, and that key is taken as part of the item.
- Other files. `Tools/Fetchers/openreview_fetcher.py`, the React page and feature components, `docusaurus.config.ts` and `statistics.d.ts` are declarations, presentation or network clients, and are not part of this model.
