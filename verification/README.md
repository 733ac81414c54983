# kmmage core, modelled in Dafny

A model of three self-contained parts of the kmmage image-loading library
(a Kotlin Multiplatform port of the Coil architecture for Compose):

- **List and map helpers** (`Collections.dfy`, module `Collections`): the
  index-based first-match search, the in-place `removeIfIndices` filter with
  its `rawIndex - numDeleted` bookkeeping, `toImmutableMap`,
  `forEachIndices`, `mapNotNullValues` and `indexOfElement`.
- **Content scaling and constraint adjustment** (`ContentPainter.dfy`, module
  `ContentPainter`): `calculateScaledSize`, `modifyConstraints`, `measure`
  and the four intrinsic-size queries of the content-painter layout modifier.
  Float geometry is exact real arithmetic; the painter's intrinsic size is
  `Unspecified` or a pair of dimensions each `Finite` or `NonFinite`; box
  constraints are Ints with `Infinity` = `Int.MAX_VALUE`; the content-scale
  policy's `computeScaleFactor` is a function-typed field of the modifier, so
  every fact is proved for every policy unless a lemma states an assumption
  about it; `Float.roundToInt` is modelled as round-half-up saturating at the
  Int range.
- **The request builder** (`ImageRequest.dfy`, module `ImageRequest`): the
  builder is an immutable record of optional fields, each setter a function
  returning the updated record, `Build` resolving each field to "set value,
  else default". Headers are a multimap `map<string, seq<string>>`, tags a map
  from class name to tag. `Wrappers.dfy` holds `Option` (Kotlin's nullable
  types) and `Result` (a thrown exception).

Side effects of callbacks become values: `forEachIndices` threads the
action's effect through an explicit state, and `removeIfIndices` reports the
sequence of elements handed to its predicate.

The constraint adjustment is not idempotent in general: whether adjusting
twice equals adjusting once depends on the content-scale policy.
`ContentPainter.UnspecifiedModifyConstraintsIdempotent` proves it without an
intrinsic size, and `ContentPainter.GrowingPolicyIsNotIdempotent` exhibits a
policy and constraints for which a second application raises the minimums again; `ContentPainter.FillBoundsIsNotIdempotent` shows the same for the
stock fill-bounds policy.

## Model

| member | source | states |
|---|---|---|
| Collections.FirstNotNullOfOrNull | common/src/commonMain/kotlin/cn/chitanda/kmmage/util/Collections.kt:12-17 | the result is null exactly when every element transforms to null; otherwise it is the transform of an element before which every transform is null (the lowest such index) |
| Collections.RemoveIf | common/src/commonMain/kotlin/cn/chitanda/kmmage/util/Collections.kt:19-28 | the list left behind is exactly the elements the predicate rejects, in their original order, and the predicate is applied to every original element exactly once, in index order |
| Collections.RemoveIfStep | common/src/commonMain/kotlin/cn/chitanda/kmmage/util/Collections.kt:20-26 | with `numDeleted` equal to the number removed so far, `rawIndex - numDeleted` is in bounds and addresses the original element at `rawIndex`; removing it or not restores that shape for the next index |
| Collections.RetainedMembership | common/src/commonMain/kotlin/cn/chitanda/kmmage/util/Collections.kt:19-28 | an element is in the filtered list iff it was in the list and the predicate is false for it |
| Collections.RetainedLength | common/src/commonMain/kotlin/cn/chitanda/kmmage/util/Collections.kt:19-28 | filtering never lengthens the list, and keeps its length iff the predicate matches no element |
| Collections.ToImmutableMap | common/src/commonMain/kotlin/cn/chitanda/kmmage/util/Collections.kt:30-34 | each branch (empty, singleton, copy) yields a map with exactly the input's entries |
| Collections.ForEach | common/src/commonMain/kotlin/cn/chitanda/kmmage/util/Collections.kt:40-44 | the final state is the action applied to the elements one after another in index order |
| Collections.ForEachVisitsInOrder | common/src/commonMain/kotlin/cn/chitanda/kmmage/util/Collections.kt:40-44 | an action that logs its argument produces exactly the list: every element once, in order |
| Collections.MapNotNullValues | common/src/commonMain/kotlin/cn/chitanda/kmmage/util/Collections.kt:50-61 | a key is in the result iff it is in the input and its entry transforms to non-null, and it maps to that transform result |
| Collections.IndexOfElement | common/src/commonMain/kotlin/cn/chitanda/kmmage/util/Collections.kt:63-70 | a negative start throws; otherwise the result is the first index at or after the start holding the element, or the list size when there is none, including when the start is at or past the size |
| ContentPainter.RoundToInt | common/src/commonMain/kotlin/cn/chitanda/kmmage/compose/ContentPainterModifier.kt:166-167 | rounding gives the nearest Int with ties upwards, saturating at the ends of the Int range |
| ContentPainter.CalculateScaledSize | common/src/commonMain/kotlin/cn/chitanda/kmmage/compose/ContentPainterModifier.kt:172-180 | an empty destination gives the zero size; an unspecified intrinsic size gives the destination; otherwise each axis is the intrinsic dimension (or the destination's where non-finite) times the policy's factor |
| ContentPainter.FullyNonFiniteFillsDestination | common/src/commonMain/kotlin/cn/chitanda/kmmage/compose/ContentPainterModifier.kt:176-179 | with both intrinsic dimensions non-finite and a policy that is the identity on equal sizes, the drawn size is the destination |
| ContentPainter.ScaledSizeNonNegative | common/src/commonMain/kotlin/cn/chitanda/kmmage/compose/ContentPainterModifier.kt:172-180 | the drawn size is non-negative when the policy's factors and the finite intrinsic dimensions are |
| ContentPainter.Destination | common/src/commonMain/kotlin/cn/chitanda/kmmage/compose/ContentPainterModifier.kt:147-162 | the target box is the maximum box when both dimensions are bounded and one is fixed; otherwise each finite intrinsic dimension is coerced into [min, max] (kept inside, pinned to the nearer bound outside) and a non-finite one falls back to the minimum; in every case it lies within the constraints |
| ContentPainter.ModifyConstraints | common/src/commonMain/kotlin/cn/chitanda/kmmage/compose/ContentPainterModifier.kt:130-170 | the result is valid, keeps both maximums, puts each new minimum within the original [min, max]; fully fixed constraints are returned unchanged; with no intrinsic size, bounded constraints get min set to max and unbounded ones are unchanged; with an intrinsic size, each new minimum is the rounded scaled size against the destination box when that lies in [min, max], the maximum above it and the minimum below it |
| ContentPainter.EmptyDestinationKeepsConstraints | common/src/commonMain/kotlin/cn/chitanda/kmmage/compose/ContentPainterModifier.kt:164-168 | when the destination box is empty the constraints come back unchanged |
| ContentPainter.UnspecifiedModifyConstraintsIdempotent | common/src/commonMain/kotlin/cn/chitanda/kmmage/compose/ContentPainterModifier.kt:133-145 | with no intrinsic size, adjusting the adjusted constraints changes nothing |
| ContentPainter.GrowingPolicyIsNotIdempotent | common/src/commonMain/kotlin/cn/chitanda/kmmage/compose/ContentPainterModifier.kt:147-168 | for a policy drawing at twice the destination, a second adjustment raises the minimums again (20 then 40) |
| ContentPainter.FillBoundsIsNotIdempotent | common/src/commonMain/kotlin/cn/chitanda/kmmage/compose/ContentPainterModifier.kt:147-168 | under the fill-bounds policy, intrinsic size 400×200 and constraints (0..300, 0..300) adjust to (300..300, 200..300) and then to (300..300, 300..300): once the width is fixed the maximum box is the destination and the height minimum rises |
| ContentPainter.Measure | common/src/commonMain/kotlin/cn/chitanda/kmmage/compose/ContentPainterModifier.kt:62-70 | the child is measured under the adjusted constraints and placed at the origin, and the modifier's size is exactly the child's measured size; when the child honours the adjusted constraints, that size satisfies the incoming constraints and reaches the new minimums |
| ContentPainter.MinIntrinsicWidth | common/src/commonMain/kotlin/cn/chitanda/kmmage/compose/ContentPainterModifier.kt:72-84 | with no intrinsic size the child's answer is passed through; otherwise the answer is the larger of the rounded scaled width (child's minimum intrinsic width for the same height, by that height) and the child's answer, so never below it |
| ContentPainter.MaxIntrinsicWidth | common/src/commonMain/kotlin/cn/chitanda/kmmage/compose/ContentPainterModifier.kt:86-98 | with no intrinsic size the child's answer is passed through; otherwise the answer is the larger of the rounded scaled width (child's maximum intrinsic width for the same height, by that height) and the child's answer, so never below it |
| ContentPainter.MinIntrinsicHeightAsWritten | common/src/commonMain/kotlin/cn/chitanda/kmmage/compose/ContentPainterModifier.kt:100-113 | as written: with no intrinsic size it answers the child's minimum intrinsic width; otherwise the larger of the rounded scaled height (width by the child's minimum intrinsic height) and the child's answer |
| ContentPainter.MinIntrinsicHeightAsWrittenAnswersWidth | common/src/commonMain/kotlin/cn/chitanda/kmmage/compose/ContentPainterModifier.kt:111 | a child with minimum intrinsic width 100 and height 50 gets 100 from the as-written height query |
| ContentPainter.MinIntrinsicHeight | common/src/commonMain/kotlin/cn/chitanda/kmmage/compose/ContentPainterModifier.kt:100-113 | as intended: with no intrinsic size the child's minimum intrinsic height is passed through; otherwise the larger of the rounded scaled height (width by that child height) and the child's answer |
| ContentPainter.MaxIntrinsicHeight | common/src/commonMain/kotlin/cn/chitanda/kmmage/compose/ContentPainterModifier.kt:115-128 | with no intrinsic size the child's answer is passed through; otherwise the larger of the rounded scaled height (width by the child's maximum intrinsic height for that width) and the child's answer |
| ImageRequest.CopyHeaders | common/src/commonMain/kotlin/cn/chitanda/kmmage/request/ImageRequest.kt:119-123 | appending every header list of a request to a fresh headers builder reproduces the headers exactly |
| ImageRequest.NewBuilder | common/src/commonMain/kotlin/cn/chitanda/kmmage/request/ImageRequest.kt:328-351 | building a fresh builder gives null request data, FIT scale and a FIT scale resolver, the default size resolver, no keys, target or listener, no transformations, empty headers, tags and parameters, premultiplied alpha and bitmap conversion on, and the option-backed fields from the options |
| ImageRequest.Build | common/src/commonMain/kotlin/cn/chitanda/kmmage/request/ImageRequest.kt:328-351 | every field is the value set on the builder, or when unset its default: null data becomes the no-data placeholder, precision, bitmap config, hardware, RGB-565 and the three cache policies come from the options, the size resolver is the default one, the scale resolver and scale are FIT, headers, tags and parameters are empty; keys, target, listener, transformations, premultiplied alpha and bitmap conversion are carried over as set |
| ImageRequest.FromRequestAsWritten | common/src/commonMain/kotlin/cn/chitanda/kmmage/request/ImageRequest.kt:100-126 | building the copy of a request gives the request back with every field equal except `allowConversionToBitmap`, which comes back true |
| ImageRequest.CopyAsWrittenLosesDisabledConversion | common/src/commonMain/kotlin/cn/chitanda/kmmage/request/ImageRequest.kt:100-126 | a request with bitmap conversion off is not reproduced by building its as-written copy |
| ImageRequest.FromRequest | common/src/commonMain/kotlin/cn/chitanda/kmmage/request/ImageRequest.kt:100-126 | building the corrected copy of a request gives back exactly that request |
| ImageRequest.SetData | common/src/commonMain/kotlin/cn/chitanda/kmmage/request/ImageRequest.kt:143-145 | only the data field changes; the built request carries the data set, or the null request data when null was set |
| ImageRequest.SetPrecision | common/src/commonMain/kotlin/cn/chitanda/kmmage/request/ImageRequest.kt:151-153 | only the precision changes, and it wins over the option default in the built request |
| ImageRequest.SetBitmapConfig | common/src/commonMain/kotlin/cn/chitanda/kmmage/request/ImageRequest.kt:158-160 | only the bitmap config changes, and it wins over the option default |
| ImageRequest.SetSizeResolver | common/src/commonMain/kotlin/cn/chitanda/kmmage/request/ImageRequest.kt:162-164 | only the size resolver changes, and it wins over the default size resolver |
| ImageRequest.SetScaleResolver | common/src/commonMain/kotlin/cn/chitanda/kmmage/request/ImageRequest.kt:166-168 | only the scale resolver changes, and it wins over the FIT resolver |
| ImageRequest.SetMemoryCacheKey | common/src/commonMain/kotlin/cn/chitanda/kmmage/request/ImageRequest.kt:172-174 | only the memory cache key changes, and the built request carries it |
| ImageRequest.SetMemoryCacheKeyString | common/src/commonMain/kotlin/cn/chitanda/kmmage/request/ImageRequest.kt:170 | a non-null string becomes a key holding that string, null stays null; nothing else changes |
| ImageRequest.SetDiskCacheKey | common/src/commonMain/kotlin/cn/chitanda/kmmage/request/ImageRequest.kt:176-178 | only the disk cache key changes, and the built request carries it |
| ImageRequest.SetPlaceholderMemoryCacheKey | common/src/commonMain/kotlin/cn/chitanda/kmmage/request/ImageRequest.kt:183-185 | only the placeholder key changes, and the built request carries it |
| ImageRequest.SetPlaceholderMemoryCacheKeyString | common/src/commonMain/kotlin/cn/chitanda/kmmage/request/ImageRequest.kt:180-181 | a non-null string becomes a key holding that string, null stays null; nothing else changes |
| ImageRequest.SetListener | common/src/commonMain/kotlin/cn/chitanda/kmmage/request/ImageRequest.kt:208-210 | only the listener changes, and the built request carries it |
| ImageRequest.SetTarget | common/src/commonMain/kotlin/cn/chitanda/kmmage/request/ImageRequest.kt:225-227 | only the target changes, and the built request carries it |
| ImageRequest.SetTransformations | common/src/commonMain/kotlin/cn/chitanda/kmmage/request/ImageRequest.kt:233-235 | only the transformations change, and the built request carries them |
| ImageRequest.SetAllowHardware | common/src/commonMain/kotlin/cn/chitanda/kmmage/request/ImageRequest.kt:237-239 | only the hardware flag changes, and it wins over the option default |
| ImageRequest.SetMemoryCachePolicy | common/src/commonMain/kotlin/cn/chitanda/kmmage/request/ImageRequest.kt:241-243 | only the memory cache policy changes, and it wins over the option default |
| ImageRequest.SetDiskCachePolicy | common/src/commonMain/kotlin/cn/chitanda/kmmage/request/ImageRequest.kt:245-247 | only the disk cache policy changes, and it wins over the option default |
| ImageRequest.SetNetworkCachePolicy | common/src/commonMain/kotlin/cn/chitanda/kmmage/request/ImageRequest.kt:254-256 | only the network cache policy changes, and it wins over the option default |
| ImageRequest.SetAllowRgb565 | common/src/commonMain/kotlin/cn/chitanda/kmmage/request/ImageRequest.kt:258 | only the RGB565 flag changes, and it wins over the option default |
| ImageRequest.SetScale | common/src/commonMain/kotlin/cn/chitanda/kmmage/request/ImageRequest.kt:92 | assigning the scale property changes only the scale, and it wins over FIT |
| ImageRequest.SetPremultipliedAlpha | common/src/commonMain/kotlin/cn/chitanda/kmmage/request/ImageRequest.kt:268-270 | only the premultiplied-alpha flag changes, and the built request carries it |
| ImageRequest.SetHeaders | common/src/commonMain/kotlin/cn/chitanda/kmmage/request/ImageRequest.kt:272-278 | only the headers change, and the built request carries a copy of the headers given |
| ImageRequest.AddHeader | common/src/commonMain/kotlin/cn/chitanda/kmmage/request/ImageRequest.kt:285-287 | the value is appended after the existing values of that name, creating the header map if absent; other names and other fields are untouched |
| ImageRequest.SetHeader | common/src/commonMain/kotlin/cn/chitanda/kmmage/request/ImageRequest.kt:294-296 | the name's values become exactly the one value, creating the header map if absent; other names and other fields are untouched |
| ImageRequest.RemoveHeader | common/src/commonMain/kotlin/cn/chitanda/kmmage/request/ImageRequest.kt:301-303 | the name loses all its values and other names are untouched; without a header map the builder is unchanged |
| ImageRequest.SetHeaderIsRemoveThenAdd | common/src/commonMain/kotlin/cn/chitanda/kmmage/request/ImageRequest.kt:285-303 | setting a header equals removing the name and then adding the one value |
| ImageRequest.SetTag | common/src/commonMain/kotlin/cn/chitanda/kmmage/request/ImageRequest.kt:310-317 | a null tag removes the class's entry, and is a no-op when there is no tag map; a non-null tag is stored under its class, creating the map if absent; other classes and other fields are untouched |
| ImageRequest.TagThenClear | common/src/commonMain/kotlin/cn/chitanda/kmmage/request/ImageRequest.kt:310-317 | setting and then clearing a tag for one class builds a request whose tags are the earlier tags without that class |
| ImageRequest.SetTags | common/src/commonMain/kotlin/cn/chitanda/kmmage/request/ImageRequest.kt:320-322 | only the tags change, and the built request carries a copy of the tags given |
| ImageRequest.AllowConversionToBitmapAsWritten | common/src/commonMain/kotlin/cn/chitanda/kmmage/request/ImageRequest.kt:324-326 | as written: whatever the argument, the built request has bitmap conversion on; nothing else changes |
| ImageRequest.AllowConversionToBitmapAsWrittenIgnoresDisable | common/src/commonMain/kotlin/cn/chitanda/kmmage/request/ImageRequest.kt:325 | asking to disable bitmap conversion leaves it enabled |
| ImageRequest.AllowConversionToBitmap | common/src/commonMain/kotlin/cn/chitanda/kmmage/request/ImageRequest.kt:324-326 | as intended: the built request's bitmap-conversion flag is the argument; nothing else changes |

## Findings

| source | as written | input that shows it | evidently intended | confidence | as-written member | corrected member |
|---|---|---|---|---|---|---|
| common/src/commonMain/kotlin/cn/chitanda/kmmage/compose/ContentPainterModifier.kt:111 | without an intrinsic size, `minIntrinsicHeight` returns the child's `minIntrinsicWidth(width)` | a child whose minimum intrinsic width is 100 and height is 50, queried with width 10: answers 100 | return the child's `minIntrinsicHeight(width)`, as the other three queries delegate to their own kind | high; not executed | ContentPainter.MinIntrinsicHeightAsWritten | ContentPainter.MinIntrinsicHeight |
| common/src/commonMain/kotlin/cn/chitanda/kmmage/request/ImageRequest.kt:325 | `allowConversionToBitmap(enable)` assigns `true` and ignores `enable` | `allowConversionToBitmap(false)` then `build()`: the request allows conversion | assign `enable` | high; not executed | ImageRequest.AllowConversionToBitmapAsWritten | ImageRequest.AllowConversionToBitmap |
| common/src/commonMain/kotlin/cn/chitanda/kmmage/request/ImageRequest.kt:100-126 | the copy constructor does not copy `allowConversionToBitmap`, so the copy keeps the initial `true` | a request built after assigning the public property `allowConversionToBitmap = false`, copied and rebuilt: conversion is back on | copy the field like every other one, making `Builder(r).build()` equal to `r` | medium; not executed | ImageRequest.FromRequestAsWritten | ImageRequest.FromRequest |

## Left out

- Drawing (`draw`: `Alignment.align`, `translate`, `painter.draw`, `drawContent`): rendering side effects of the UI toolkit; the drawn size it uses is `CalculateScaledSize`.
- `ContentScale.computeScaleFactor` internals (fit, crop, inside, ...): an external policy, kept as an arbitrary function.
- Callbacks (`transform`, `predicate`, `action` in the collection helpers) are modelled as total, pure functions that return normally. The Kotlin helpers are `inline` with non-`crossinline` lambdas, so a callback may throw or `return` non-locally mid-loop; then `removeIfIndices` leaves the list half-filtered (the retained part of the scanned prefix followed by the unscanned rest, the state `Scanned` describes) and `forEachIndices` visits only a prefix. Those exits are not modelled.
- `IndexOfElement` compares elements with Dafny's structural equality; the Kotlin `==` calls the element's `equals`, which a class may define differently.
- Floating-point behaviour: sizes are exact reals, so Float rounding error, NaN comparisons and the packed NaN encoding of an unspecified size are not modelled; the only NaN-based distinction kept is `Unspecified` versus a specified size with non-finite dimensions. `Float.roundToInt` throws on NaN, which is reached when a scaled dimension is NaN (an intrinsic dimension of 0 under a ratio policy gets an infinite factor, and 0·∞ = NaN in `times`) in `modifyConstraints` and the intrinsic queries; with reals that error path cannot arise, so `RoundToInt` is total.
- The child `Measurable`/`IntrinsicMeasurable`: its answers are function parameters about which nothing is assumed.
- Constraints validation and representability: Compose's `Constraints` constructor rejects negative or inverted bounds; the model takes `Valid()` as a precondition, and the intrinsic queries require a non-negative dimension where the source builds constraints from it. Compose also packs the four bounds into one 64-bit value, so only bounds up to about 2^18 are representable, with width and height sharing the bit budget (an unbounded dimension is checked on its minimum); `constraints.copy` at ContentPainterModifier.kt:165 and `Constraints(...)` at :77, :91, :105 and :120 throw beyond that, for instance when a large scaled size becomes the minimum of an unbounded dimension. `Valid()` admits every bound up to `Int.MAX_VALUE`, so `ModifyConstraints`, `Measure` and the intrinsic queries are total on those inputs and that error path is not modelled.
- `InspectorValueInfo` debug metadata.
- The lambda `listener(...)` and `target(...)` factories and the `Listener`/`Target` callbacks: plumbing with no state; listeners and targets are opaque values.
- The `transformations(vararg)` overload: it forwards to the list setter, `SetTransformations`.
- The reified `tag<T>(tag)` overload and `Class.cast`: the tag's class is its key, named by a string, and the cast cannot fail for a statically typed tag.
- ktor `Headers`/`HeadersBuilder` internals: case-insensitive header names and value validation are not modelled; names are compared exactly.
- `Parameters`/`Tags` implementations: parameters are an opaque map, `newBuilder().build()` and `Tags.from` are taken as copies.
- `DefaultRequestOptions()`, `DEFAULT_REQUEST_OPTION` and `DefaultSizeResolver`: platform values that are not part of this model; the options record is a parameter of `NewBuilder` and of the copy, and the default size resolver is a named constant.
- Kotlin Int overflow in the index loops of the collection helpers: lists are assumed shorter than `Int.MAX_VALUE`.
- The iteration order of `LinkedHashMap` in `toImmutableMap` and `mapNotNullValues`: Dafny maps are unordered, so only the entries are modelled, and the read-only wrapper of `toImmutableMap` is implicit in immutable maps.
