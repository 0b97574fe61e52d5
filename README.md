# ispriter: a Dafny model of the sprite builder's core

ispriter reads CSS style sheets, finds the declarations whose background
image can be put into a CSS sprite, lays those images out on one or more
composite PNG images and rewrites every such declaration so that it points
at the composite with a shifted `background-position`. This project models
the core of that pipeline in `src/ispriter2.js` and proves what each step
promises:

- **Configuration** (`adjustOldProperty`): renaming the old keys of the
  `input` and `output` sections (`config.dfy`, a `Configuration` class whose
  two sections are maps the method reassigns).
- **Style declarations** (`BaseCSSStyleDeclaration`): `splitBackground`,
  `mergeBackgound` and `extend` on a `Declaration` class whose state is a
  property map plus the index list (`order`) that decides which properties
  are written out (`style_declaration.dfy`); `setPxValue` and
  `replaceAndPositionBackground`'s effect on one declaration.
- **Collection** (`collectStyleRules`, `getImageUrl` and the `regexp`
  patterns): the walk over rules, `@import`s and grouping rules; the
  decision, declaration by declaration, to skip, merge back or file it; and
  the filing of declarations under their image url in a `StyleObjList`
  class (`collect.dfy`, `css_patterns.dfy`, `style_objects.dfy`).
- **Sizing** (`setImageWidthHeight`, `getPxValue`): the slot an image takes
  (`sizing.dfy`).
- **Layout** (`positionImages`): partition into already drawn and new
  images, size sort, greedy grouping under `maxSingleSize`, and packing of
  every batch (`batching.dfy`).
- **Drawing** (`drawImageAndPositionBackground`, `createPng`,
  `createSpriteImageName`, `replaceAndPositionBackground`): naming the
  composites, zeroing their pixel buffers, marking each image as drawn with
  its composite and place, and rewriting every declaration that uses it
  (`draw.dfy`, `canvas.dfy`, `naming.dfy`).
- **Combination** (`mergeCombineSprites`): the union of the style sheets'
  lists into one (`combine.dfy`).

JavaScript's string operations that the core relies on (`trim`, `split`,
`parseInt`, number to string, `indexOf`, case-insensitive matching) are
written out in `js_text.dfy`, with `parseInt`'s NaN as `None`.

Where a step of the code does something other than what its comments and
the tool's documentation describe, the model follows the code: a
declaration that fails the image-url tests stays split rather than being
merged back; `setPxValue` writes `0`, not `0px`, for a zero offset; and a
merged declaration is not merged a second time the same way (merging is
not idempotent). The places where the code is evidently wrong are listed
under "## Findings": there the executable members compute the code as
written, and a corrected definition with the intended property proved
stands beside each.

## Model

| member | source | states |
|---|---|---|
| Config.MovedMeans | src/ispriter2.js:235-250 | one rename makes the new key truthy exactly when either key was; a truthy new key is kept and nothing changes; otherwise a truthy old value moves over and the old key is deleted |
| Config.MovedIdempotent | src/ispriter2.js:235-250 | doing a rename twice is the same as doing it once |
| Config.MovedSettles | src/ispriter2.js:239-250 | after its rename a key pair is settled (new truthy or old falsy), and renaming another, disjoint pair keeps it settled |
| Config.AdjustedOutputIdempotent | src/ispriter2.js:239-250 | the three renames of the output section, applied again, change nothing |
| Config.Configuration.AdjustOldProperty | src/ispriter2.js:234-252 | the input section gets the cssRoot to cssSource rename; the output section gets the cssDist, imageDist and maxSingleSize renames in source order |
| StyleDeclaration.ExtendedProps | src/ispriter2.js:370-381 | after extend, a property the layer does not name is unchanged; a truthy one is kept unless override is set; otherwise it takes the layer's value; a property is listed in the index exactly when it was or the layer sets it |
| Declarations.Declaration.Extend | src/ispriter2.js:370-381 | the declaration's new state is the extended state |
| Declarations.Declaration.SetProperty | src/ispriter2.js:377 | setProperty stores the value and lists the name in the index if it was not there |
| Declarations.Declaration.RemoveProperty | src/ispriter2.js:334 | removeProperty deletes the property and its first index entry and returns the old value, or "" |
| StyleDeclaration.SplitWithoutShorthand | src/ispriter2.js:309-313 | without a truthy `background` the split changes nothing |
| StyleDeclaration.SplitKeepsUnsupportedShorthand | src/ispriter2.js:316-329 | when the parser gives no single layer with an image, only the position longhands change (to the as-written split of `background-position`); the shorthand, every other property and the index stay |
| StyleDeclaration.SplitExpandsSingleLayer | src/ispriter2.js:324-337 | with one layer holding an image, the shorthand is removed unless the layer names it, a property the layer names takes the layer's value unless already truthy, and every other property is unchanged; a property is listed in the index exactly when it was or the layer sets it |
| Declarations.Declaration.SplitBackground | src/ispriter2.js:305-338 | the declaration's new state is the split as written, including the position split of line 317 |
| StyleDeclaration.SplitPositionAsWrittenGluesDoubleSpace | src/ispriter2.js:317 | the position split as written turns `0  0` (two spaces) into x = y = `00` |
| StyleDeclaration.SplitPositionReadsOffsets | src/ispriter2.js:317-322 | the corrected position split gives (x, y) for x, whitespace, y and (x, x) for a single word |
| StyleDeclaration.FoldedBackground | src/ispriter2.js:351-362 | the folded `background` holds the truthy longhands, in merge order, joined by single spaces, and is listed last |
| StyleDeclaration.MergedAsWrittenClears | src/ispriter2.js:343-363 | after mergeBackgound every longhand and both position longhands are falsy, every other property except `background` is unchanged and listed in the index exactly when it was, and `background` is present and listed last |
| StyleDeclaration.MergedAsWrittenKeepsListed | src/ispriter2.js:346-362 | mergeBackgound removes from the index only the longhands it folds and the position longhands; every other property stays listed exactly when it was |
| Declarations.Declaration.MergeBackground | src/ispriter2.js:343-363 | the declaration's new state is the merge as written |
| StyleDeclaration.MergedAsWrittenDropsShorthand | src/ispriter2.js:346-361 | with a kept shorthand, split position longhands and no other longhand, the merge as written overwrites `background` with the position text alone |
| StyleDeclaration.MergedAsWrittenDropsPosition | src/ispriter2.js:346-361 | with a longhand `background-position` and no position longhands, the merge as written gives the `background` it would give without that position, and the position is gone |
| StyleDeclaration.MergedKeepsShorthand | src/ispriter2.js:343-363 | the corrected merge keeps a truthy shorthand and only rejoins the position |
| StyleDeclaration.MergedRejoinsBesideShorthand | src/ispriter2.js:346-361 | the corrected merge keeps the shorthand and writes the rejoined position into a listed `background-position` |
| StyleDeclaration.MergedKeepsLonghandPosition | src/ispriter2.js:346-361 | the corrected merge folds a longhand `background-position` into `background` |
| StyleDeclaration.MergedBackground | src/ispriter2.js:351-362 | without a kept shorthand, the corrected merge's `background` holds the truthy longhands joined by single spaces and is listed last |
| StyleDeclaration.WithPxReadsBack | src/ispriter2.js:934-945 | setPxValue lists the property when it was falsy, changes no other property, writes `0` when the old value is NaN or equals the offset, and otherwise writes old minus offset with `px`, which parseInt reads back |
| StyleDeclaration.WithPxAsWrittenLosesKeyword | src/ispriter2.js:937-943 | on `left` or `top` with a non-zero offset, setPxValue as written writes `0`, the corrected one `-offset px` |
| Declarations.SetPxValue | src/ispriter2.js:934-945 | the declaration's new state is setPxValue as written |
| StyleDeclaration.RepositionedMeans | src/ispriter2.js:915-929 | after the rewrite, `background` is listed last and holds the old color, `url(imageName)`, both position longhands moved by the fit, and the other old longhands; the longhands are all falsy; every other property keeps its value and stays listed in the index exactly when it was |
| Draw.Reposition | src/ispriter2.js:916-928 | the declaration's new state is the rewrite of one declaration |
| Draw.ReplaceAndPositionBackground | src/ispriter2.js:915-929 | every declaration of the StyleObj is rewritten to the given composite and fit, in order |
| JsText.SplitOnJoins | src/ispriter2.js:317 | `split(' ')` loses nothing: joining the pieces with the separator gives the text back |
| JsText.TokensOfTwoWords | src/ispriter2.js:317-319 | two words separated by whitespace give exactly those two words |
| JsText.TrimOfTrimmed | src/ispriter2.js:349 | trim leaves text without surrounding whitespace unchanged |
| JsText.ParseIntOfIntToString | src/ispriter2.js:943 | parseInt reads back the decimal text of any integer followed by a non-digit suffix such as `px` |
| JsText.ParseIntOfWord | src/ispriter2.js:937 | parseInt of a word starting with a letter, such as `left`, is NaN |
| JsText.IntToStringInjective | src/ispriter2.js:901 | different integers have different decimal texts |
| CssPatterns.GetImageUrl | src/ispriter2.js:551-558 | the url is given exactly when the image pattern matches and its extension occurs in the configured format, and it is the captured url |
| CssPatterns.GetImageUrlNeedsFormat | src/ispriter2.js:554 | a `jpg` image is refused when the format is `png` |
| CssPatterns.UndefinedIsNotIgnored | src/ispriter2.js:493-507 | a missing property, matched as the text `undefined`, triggers neither the position nor the repeat test |
| CssPatterns.NetworkIgnoresCase | src/ispriter2.js:388 | the network test ignores case |
| Collect.FoundMeans | src/ispriter2.js:477-541 | a declaration is filed under (url, path) exactly when it has no truthy background-size, its split form is not ignored and has a single background image of the input format, not on the network, whose joined path exists; a filed declaration stays split |
| Collect.SizedUntouched | src/ispriter2.js:477-486 | a declaration with a truthy background-size is left untouched and never filed |
| Collect.IgnoredMerged | src/ispriter2.js:493-512 | an ignored declaration is not filed and is merged back: background listed last, longhands falsy, other properties with their split values and listed in the index exactly when they were |
| Collect.Process | src/ispriter2.js:475-541 | the declaration's new state and the image found are the decision above |
| Collect.CollectedUrls | src/ispriter2.js:533-541 | a url is in the list exactly when some visited declaration was filed under it, and its rules are those declarations in document order |
| Collect.CollectVisits | src/ispriter2.js:425-543 | the list holds every filed declaration under its url, in visit order, and every visited declaration is processed |
| Collect.CollectStyleRules | src/ispriter2.js:411-545 | the same for the declarations of a sheet's rules, imports and grouping rules expanded in place |
| StyleObjects.AbsorbAllRules | src/ispriter2.js:533-541 | filing appends each hit's declaration to its url's rules, in order |
| StyleObjects.AbsorbAllUrls | src/ispriter2.js:533-540 | a url is in the list after filing exactly when it was before or some hit has it |
| StyleObjects.AbsorbAllKeepsImage | src/ispriter2.js:533-538 | a listed url keeps the image url and path of its first filing |
| StyleObjects.StyleObjList.Add | src/ispriter2.js:533-541 | the list's new value is the old one with the hit filed |
| StyleObjects.StyleObjList.TakeOverObj | src/ispriter2.js:984-989 | the list's new value is the old one with the StyleObj taken over: rules concatenated for a known url, the StyleObj added otherwise |
| StyleObjects.TakeOverUrlsRules | src/ispriter2.js:979-990 | taking over a list's first n urls appends, for each, that url's rules |
| StyleObjects.UnionEffect | src/ispriter2.js:967-993 | the union of the lists has a url exactly when some list has it, with the rules of all lists in list order |
| Combine.TakeOverList | src/ispriter2.js:979-990 | the combined list's new value takes over every url of one sheet's list |
| Combine.MergeCombineSprites | src/ispriter2.js:956-1002 | the combined file is the resolved `cssDist + prefix + all.css`, and its list is the union of all the sheets' lists |
| Sizing.GetPxValueOfPx | src/ispriter2.js:686-691 | getPxValue of `<n>px` is n |
| Sizing.LargestBounds | src/ispriter2.js:661-670 | the running maximum is at least the image side and every px value |
| Sizing.LargestAttained | src/ispriter2.js:661-670 | the running maximum is the image side or one of the px values |
| Sizing.SideIsMaximum | src/ispriter2.js:653-670 | a slot side is the maximum of the image side and the px values the declarations give, ignoring NaN |
| Sizing.SetImageWidthHeight | src/ispriter2.js:653-679 | the slot is that maximum width and height plus the margin |
| Batching.PartitionMultiset | src/ispriter2.js:714-724 | the partition into new and drawn images loses and adds nothing |
| Batching.UndrawnKind | src/ispriter2.js:719-723 | every image of the first part is not yet drawn |
| Batching.DrawnKind | src/ispriter2.js:719-723 | every image of the second part is drawn |
| Batching.Partition | src/ispriter2.js:714-724 | the loop gives the undrawn and the drawn images, in list order |
| Batching.SortDescending | src/ispriter2.js:735-737 | the array ends up sorted by byte size, largest first, and is a permutation of what it held |
| Batching.GroupBySize | src/ispriter2.js:739-755 | the loop gives the greedy grouping |
| Batching.GroupedPartitions | src/ispriter2.js:739-755 | the batches, concatenated, are the images in order, and no batch is empty |
| Batching.GroupedWithinLimit | src/ispriter2.js:740-751 | a batch of two or more images stays within maxSingleSize, and each batch was started because the previous one plus its first image would exceed it |
| Batching.OversizedAlone | src/ispriter2.js:743-750 | an image larger than maxSingleSize is alone in its batch |
| Batching.GroupedExample | src/ispriter2.js:739-755 | sizes 12, 8, 5, 3 with limit 15 give batches [12], [8, 5], [3] |
| Batching.PackBatches | src/ispriter2.js:760-780 | every batch becomes one packed sheet with the packer's places and size |
| Batching.PositionImages | src/ispriter2.js:704-785 | the sheets are the packed batches (the size-sorted new images grouped when a limit is set, all new images otherwise), then one sheet of the drawn images when there are any |
| Canvas.PixelInBuffer | src/ispriter2.js:869-878 | every byte of pixel (x, y) of the rows lies in the buffer |
| Canvas.PixelsDisjoint | src/ispriter2.js:871-877 | two different pixels have disjoint bytes |
| Canvas.Png.CreatePng | src/ispriter2.js:860-881 | the composite has the given size, a buffer of four bytes per pixel, and every byte is 0 |
| Naming.Basename | src/ispriter2.js:894 | the base name is the part after the last `/` |
| Naming.StemAsWrittenUsually | src/ispriter2.js:896 | when the extension occurs nowhere earlier, replacing it as written cuts it off the end |
| Naming.StemAsWrittenCollides | src/ispriter2.js:896 | as written, `a.css.b.css` and `a.b.css.css` both give `a.b.css` |
| Naming.StemInjective | src/ispriter2.js:896 | the corrected stem tells apart any two names with the same extension |
| Naming.SpriteNames | src/ispriter2.js:823-824 | the composites of a sheet are named by index, with the packed sheet count as total |
| Naming.BatchNamesDistinct | src/ispriter2.js:900-901 | in split mode the composites of one sheet have different names |
| Naming.SheetNamesDistinct | src/ispriter2.js:893-906 | without combine, sheets with different base names give different composite names |
| Draw.TrailingReusedAgrees | src/ispriter2.js:795 | the trailing-sheet test as written and as intended agree on every non-empty array; on the empty one the former throws |
| Draw.NoImagesNoSheets | src/ispriter2.js:727-758 | with a size limit and no images, positionImages gives no sheet at all |
| Draw.TakeReused | src/ispriter2.js:795-814 | a trailing reused sheet is popped and each of its declarations rewritten to the name and place recorded for its image |
| Draw.DrawItem | src/ispriter2.js:826-842 | one image is marked drawn with the composite and its place, and its declarations are rewritten |
| Draw.DrawSheet | src/ispriter2.js:816-842 | every image of a packed sheet is marked and rewritten, in order |
| Draw.DrawSheets | src/ispriter2.js:801-852 | the written composites are the non-empty packed sheets' names; every declaration of the plan is rewritten and every image record marked |
| Draw.DrawImageAndPositionBackground | src/ispriter2.js:791-853 | an empty sheet array gives the TypeError; otherwise the same as above |

## Left out

- Reading style sheets, PNG decoding (`readImagesInfo`, `readImageInfo`, `getImageSize`), `bitblt`, PNG encoding and writing files and directories: I/O. An image's size and dimensions are inputs (`Sizing.ImageInfo`, `Batching.Item`).
- The background parser (`BI.analyse`), the packer (`GrowingPacker.fit`), the `image` and `css` patterns' captures, `path.join`, `path.dirname`, `path.resolve` and `fs.existsSync`: library code, passed in as functions.
- The packer is trusted to give one place per image of a batch. Drawing requires it of every packed sheet (`Draw.DrawReady`).
- `readConfig`, the default configuration and its merging: not modelled. `exportCssFile` and `styleSheetToString` are not modelled either (output).
- The asynchronous driver (`exports.merge` with its callbacks): not modelled. So are the per-run caches and `spriteCache`.
- Config.Configuration.AdjustOldProperty: the TypeError raised when `config.input` or `config.output` is missing (lines 235 and 239) is not modelled; both sections are always maps.
- Config.Configuration.AdjustOldProperty: config values are null, booleans, integers, strings or other values. Floating-point numbers and NaN are not modelled.
- Declarations.Declaration.RemoveProperty: the style sheet library's removeProperty is not part of this model. It is modelled as deleting the property and its first index entry and returning the old value or "". That includes a property set by plain assignment and so missing from the index list, such as the position longhands of lines 321-322.
- Declarations.Declaration.SetProperty: the library's setProperty is likewise modelled as storing the value and listing a new name at the end of the index.
- Collect.CollectStyleRules: an `@import` rule's sheet is read before the walk (the rule carries whether it is readable and the rules it gives). So import cycles, which make the source recurse without end, cannot be expressed, and the `rule.styleSheet` attachment of line 449 is not modelled.
- Combine.MergeCombineSprites: the combined list takes over the StyleObjs as values. That the source shares the same StyleObj objects between a sheet's list and the combined one is not modelled. Neither is `combineStyleSheetArray`, which only feeds the output step.
- Combine.MergeCombineSprites: the model's StyleObj holds no slot size (w, h). In the source, setImageWidthHeight runs once per sheet (lines 582 and 1131), before combining. For a url used by several sheets, the combined StyleObj is the first sheet's, and the rules of later sheets are only appended to it (lines 984-989). Its slot is therefore never measured again against those rules. A larger width or height declared in a later sheet can then show neighbouring images of the composite, the very clipping that lines 648-649 set out to prevent. `Sizing.SideIsMaximum` holds for one sheet's list, not for a combined one.
- JsText.ParseIntOfIntToString: JavaScript numbers are doubles, while the model takes offsets, sizes, margins and indices as unbounded integers. Reading it as the program assumes they stay below 2^53 in magnitude. Beyond that parseInt rounds, and from 1e21 number-to-string uses exponent form; neither is modelled. The lemma holds for every integer in the model, but in JavaScript only below 2^53. The same range limits `StyleDeclaration.WithPxAsWritten`, `Sizing.GetPxValue` and `Naming.SpriteImageName`.
- Canvas.Png.CreatePng: `(width * y + x) << 2` is computed with unbounded integers; the 32-bit wrap of `<<` on images of more than 2^29 pixels is not modelled.
- Sizing.SetImageWidthHeight: the margin is an integer; a missing margin, which makes the slot NaN in the source, is not modelled. The declared widths and heights come from parseInt, and a NaN among them is ignored, as in the source.
- Batching.SortDescending: JavaScript's `sort` is not stable, so the order of equal sizes is not fixed. The model proves only that the result is a permutation sorted by size, and `PositionImages` works for any such order. The area sort before packing (lines 766-768) is modelled the same way: `Batching.PackBatches` sorts every batch by slot area with the same method, and `Batching.Packs` states that each packed sheet is a permutation of its batch sorted by area.
- Naming.Basename: the model takes the text after the last `/`. Node's `path.basename` also drops trailing slashes, so a path ending in `/` gives a different base name there.
- Draw.ImageRecord: `styleObj.fit` of the reused sheet (line 809) is not kept as separate state. The rewrite reads the image record's place directly, which is the value the source copies.
- Draw.DrawImageAndPositionBackground: the source's empty `for` loop at lines 803-805 does nothing and is left out.
- Draw.DrawImageAndPositionBackground: the declarations of the plan must be distinct objects, and so must the image records. Each rewrite and mark is then proved on its own object. Two StyleObjs sharing one declaration are not modelled.
- Draw.DrawSheets: the composites' names are computed up front by `Naming.SpriteNames` rather than inside the loop. Both use the packed sheet count as total, so this gives the same names.
- StyleDeclaration.RepositionedMeans: proved for declarations whose longhands have no surrounding whitespace (`CleanLonghands`). Parsed CSS values normally carry no such whitespace, but the model does not derive this from the parser, which is not part of this model.
- Naming.SheetNamesDistinct: proved for base names whose extension occurs only at the end (`ExtensionOnlyAtEnd`). `Naming.StemAsWrittenCollides` shows that without this premise two sheets can share a name.

## Findings

| source | as written | input that shows it | evidently intended | confidence | as-written member | corrected member |
|---|---|---|---|---|---|---|
| src/ispriter2.js:317 | `replace(/\s{2}/g, '')` deletes each pair of spaces, gluing the two offsets together | `background: url(a.png); background-position: 0  0` (two spaces) splits into x = `00`, y = `00`, and `0`, tab, `0` into x = y = the whole text | collapse the whitespace, giving x = `0`, y = `0` | medium (the CSS parser may already normalise the whitespace), not executed | StyleDeclaration.SplitPositionAsWritten (used by Declarations.Declaration.SplitBackground), StyleDeclaration.SplitPositionAsWrittenGluesDoubleSpace | StyleDeclaration.SplitPosition, StyleDeclaration.SplitPositionReadsOffsets |
| src/ispriter2.js:346-361 | mergeBackgound always rewrites `background` from the longhands, even when the shorthand was never split | `background: #fff; background-position: right top` is ignored and merged back to `background: right top`: the color is lost | keep the shorthand that was not split and rejoin only the position | high, not executed | StyleDeclaration.MergedAsWritten (used by Declarations.Declaration.MergeBackground), StyleDeclaration.MergedAsWrittenDropsShorthand | StyleDeclaration.Merged, StyleDeclaration.MergedRejoinsBesideShorthand |
| src/ispriter2.js:346-349 | the rejoined position overwrites `background-position` even when there were no position longhands | `background-image: url(a.png); background-position: 10px 5px; background-repeat: repeat` merges back to `background: url(a.png) repeat`: the position is lost | keep a longhand `background-position` and fold it into `background` | high, not executed | StyleDeclaration.MergedAsWritten, StyleDeclaration.MergedAsWrittenDropsPosition | StyleDeclaration.Merged, StyleDeclaration.MergedKeepsLonghandPosition |
| src/ispriter2.js:937-943 | parseInt of a keyword position is NaN, and NaN minus the offset is falsy, so `0` is written | `background: url(a.png) no-repeat; background-position: left top` placed at fit (10, 20) is written at `0 0`, showing the composite's corner instead of the image | read `left` and `top` as 0, giving `-10px -20px` | high, not executed | StyleDeclaration.WithPxAsWritten (used by Declarations.SetPxValue), StyleDeclaration.WithPxAsWrittenLosesKeyword | StyleDeclaration.WithPx |
| src/ispriter2.js:896 | `basename.replace(extname, '')` removes the first occurrence of the extension, not the last | `a.css.b.css` and `a.b.css.css` both give `a.b.css`, so two sheets write the same composite | cut the extension off the end | high, not executed | Naming.StemAsWritten (used by Naming.SpriteImageName), Naming.StemAsWrittenCollides | Naming.Stem, Naming.StemInjective |
| src/ispriter2.js:795 | the last sheet is read without checking that there is one | `combine: true` with `maxSingleSize` set and no collectable image: positionImages gives `[]` and `spriteArray[-1].root` throws a TypeError | an empty array has no trailing reused sheet and nothing is drawn | high, not executed | Draw.TrailingReusedAsWritten (used by Draw.DrawImageAndPositionBackground), Draw.TrailingReusedAgrees, Draw.NoImagesNoSheets | Draw.TrailingReused, Draw.DrawSheets |
