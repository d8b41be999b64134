# Reactions popup — a Dafny model

This project models the core of the `android-reactions` library. The library
shows a Facebook-style popup of reaction icons above or below a parent view.
The user drags a finger over the icons and lifts it on one to pick it. The
model covers three source files:

- `model.kt`: the immutable `ReactionsConfig`, the `PopupGravity` placement
  policy, the reaction text provider and the fluent `ReactionsConfigBuilder`.
  The builder is a class whose setters each change one field. `Build` rejects
  an empty reaction list.
- `ReactionView.kt`: one icon. It is a frame around the single child view its
  reaction builds, and it takes the child's measured size. Its on-screen
  location is cached, and the cache is refreshed only while a cached
  coordinate is still 0.
- `ReactionViewGroup.kt`: the popup itself.
  - Its size metrics (small, medium and large icon sizes, popup width and
    height) are computed from the configuration.
  - Its horizontal position follows the gravity, with a fallback to the
    centre. It sits above the parent unless that would be too high.
  - The layout pass places the background and a row of icons.
  - The state machine has the states Appear, Disappear, WaitingSelection and
    Selected. Its state setter starts the matching animation.
  - Touch handling ignores the first reaction while the first touch stays
    near the parent, tracks the icon under the finger, and reports the
    selection on release.
  - The dismissal sequence ends in the dismiss notification.

The files:

- `Common.dfy`: Option and Result, points and frames, and Kotlin's numeric
  conversions. These are `Int` division and `Float.toInt()`, which truncate
  toward zero, and `roundToInt()`.
- `Model.dfy`: `model.kt`.
- `ReactionViews.dfy`: `ReactionView.kt`.
- `Geometry.dfy`: the pure arithmetic of `ReactionViewGroup.kt`. This covers
  metrics, placement, layout frames, hit boxes, size targets and
  `progressMove`.
- `States.dfy`: the popup's states and the pure effect of each state change
  on the animated scene. The scene is the state, the running animator, text
  visibility, icon sizes, background height and the shoot-animation flag.
- `ViewGroup.dfy`: the class `ReactionViewGroup`. Its fields are the
  source's fields. Its methods are the source's event handlers, each proved
  against the functions of `States.dfy` and `Geometry.dfy`.

Platform inputs are parameters:

- the screen positions `getLocationOnScreen` would report;
- the parent's location and size;
- the sizes the measure pass gives;
- the animation progress;
- the first icon's screen bounds (`ViewBounds`: its `x`, `right`, `y` and
  `height`). The DOWN and MOVE handlers test the band below the first icon
  against these bounds.

Listener calls are recorded in a `notifications` log. The selection
listener is a function from position to "close?".

Behaviour of the code worth noting:

- `onTouchEvent` returns `false` while the shoot animation runs.
- `dismiss()` is not idempotent. A second call turns any Disappear into a
  Disappear without a selected view and restarts its animation. Only a
  popup with no state is left unchanged.
- UP and CANCEL act even while the popup is still appearing. Only DOWN and
  MOVE are ignored then.

## Model

| member | source | states |
|---|---|---|
| Common.TruncDiv | library/src/main/java/com/github/pgreze/reactions/ReactionViewGroup.kt:64-68 | Kotlin `Int` division truncates toward zero: the remainder has the sign of the dividend and is smaller than the divisor |
| Common.Truncate | library/src/main/java/com/github/pgreze/reactions/ReactionViewGroup.kt:45 | `Float.toInt()` drops the fraction toward zero, for positive and negative values |
| Common.RoundToInt | library/src/main/java/com/github/pgreze/reactions/model.kt:278-282 | `roundToInt()` returns the integer within half a unit, with halves rounded up |
| Common.IndexOf | library/src/main/java/com/github/pgreze/reactions/ReactionViewGroup.kt:305 | `indexOf` gives -1 exactly when the element is absent, otherwise the first index holding it |
| Common.IndexOfDistinct | library/src/main/java/com/github/pgreze/reactions/ReactionViewGroup.kt:305 | in a list without repeats, `indexOf` of the k-th element is k |
| Model.ProvideText | library/src/main/java/com/github/pgreze/reactions/model.kt:183-189 | the default provider gives no text; a string-array provider throws exactly for positions outside the array and otherwise gives that entry |
| Model.NoTextForAnyPosition | library/src/main/java/com/github/pgreze/reactions/model.kt:74 | the default text provider gives no label for any position |
| Model.ReactionsFromIds | library/src/main/java/com/github/pgreze/reactions/model.kt:171-181 | one reaction per resource id, in order, each showing that id with the given scale type, all pairwise distinct closures |
| Model.ReactionsConfigBuilder.constructor | library/src/main/java/com/github/pgreze/reactions/model.kt:96-163 | the builder's defaults: sizes from the resources, every margin equal to the item margin, 230 alpha, white colours, scale factor 2, no text provider |
| Model.ReactionsConfigBuilder.ReactionsIds | library/src/main/java/com/github/pgreze/reactions/model.kt:103-104 | reading `reactionsIds` always throws `NotImplementedError` (the `reactionTexts` getter at lines 143-144 throws the same way) |
| Model.ReactionsConfigBuilder.SetReactionsIds | library/src/main/java/com/github/pgreze/reactions/model.kt:105-107 | assigning `reactionsIds` installs the reactions built from the ids with the default `FIT_CENTER` scale type |
| Model.ReactionsConfigBuilder.SetReactionTexts | library/src/main/java/com/github/pgreze/reactions/model.kt:145-147 | assigning `reactionTexts` fails exactly when the string array is missing, and then changes nothing; otherwise the provider reads that array |
| Model.ReactionsConfigBuilder.WithReactions | library/src/main/java/com/github/pgreze/reactions/model.kt:167-169 | returns the same builder with the reaction list replaced and no other field touched |
| Model.ReactionsConfigBuilder.WithReactionIds | library/src/main/java/com/github/pgreze/reactions/model.kt:171-181 | returns the same builder holding the reactions built from the ids |
| Model.ReactionsConfigBuilder.WithReactionTexts | library/src/main/java/com/github/pgreze/reactions/model.kt:183-185 | returns the same builder with the text provider replaced |
| Model.ReactionsConfigBuilder.WithReactionTextsResource | library/src/main/java/com/github/pgreze/reactions/model.kt:187-189 | a missing string array throws `ResourceNotFound` and leaves the provider; an existing one becomes the provider |
| Model.ReactionsConfigBuilder.WithReactionSize | library/src/main/java/com/github/pgreze/reactions/model.kt:191-193 | returns the same builder with only the reaction size changed |
| Model.ReactionsConfigBuilder.WithHorizontalMargin | library/src/main/java/com/github/pgreze/reactions/model.kt:195-197 | returns the same builder with only the horizontal margin changed |
| Model.ReactionsConfigBuilder.WithVerticalMargin | library/src/main/java/com/github/pgreze/reactions/model.kt:199-201 | returns the same builder with only the vertical margin changed |
| Model.ReactionsConfigBuilder.WithPopupGravity | library/src/main/java/com/github/pgreze/reactions/model.kt:203-205 | returns the same builder with only the gravity changed |
| Model.ReactionsConfigBuilder.WithPopupMargin | library/src/main/java/com/github/pgreze/reactions/model.kt:207-209 | returns the same builder with only the screen margin changed |
| Model.ReactionsConfigBuilder.WithPopupCornerRadius | library/src/main/java/com/github/pgreze/reactions/model.kt:211-213 | returns the same builder with only the corner radius changed |
| Model.ReactionsConfigBuilder.WithPopupColor | library/src/main/java/com/github/pgreze/reactions/model.kt:215-217 | returns the same builder with only the popup colour changed |
| Model.ReactionsConfigBuilder.WithPopupAlpha | library/src/main/java/com/github/pgreze/reactions/model.kt:219-221 | returns the same builder with only the popup alpha changed |
| Model.ReactionsConfigBuilder.WithUpwardPopupMargin | library/src/main/java/com/github/pgreze/reactions/model.kt:223-225 | returns the same builder with only the upward margin changed |
| Model.ReactionsConfigBuilder.WithDownwardPopupMargin | library/src/main/java/com/github/pgreze/reactions/model.kt:227-229 | returns the same builder with only the downward margin changed |
| Model.ReactionsConfigBuilder.WithDownwardPopupPoint | library/src/main/java/com/github/pgreze/reactions/model.kt:231-233 | returns the same builder with only the downward switch point changed |
| Model.ReactionsConfigBuilder.WithTextBackground | library/src/main/java/com/github/pgreze/reactions/model.kt:235-237 | returns the same builder with the text background set |
| Model.ReactionsConfigBuilder.WithTextColor | library/src/main/java/com/github/pgreze/reactions/model.kt:239-241 | returns the same builder with only the text colour changed |
| Model.ReactionsConfigBuilder.WithTextHorizontalPadding | library/src/main/java/com/github/pgreze/reactions/model.kt:243-245 | returns the same builder with only the horizontal text padding changed |
| Model.ReactionsConfigBuilder.WithTextVerticalPadding | library/src/main/java/com/github/pgreze/reactions/model.kt:247-249 | returns the same builder with only the vertical text padding changed |
| Model.ReactionsConfigBuilder.WithTextSize | library/src/main/java/com/github/pgreze/reactions/model.kt:251-253 | returns the same builder with only the text size changed |
| Model.ReactionsConfigBuilder.WithTypeface | library/src/main/java/com/github/pgreze/reactions/model.kt:255-257 | returns the same builder with the typeface stored as the custom typeface |
| Model.ReactionsConfigBuilder.Build | library/src/main/java/com/github/pgreze/reactions/model.kt:259-290 | fails with "Empty reactions" exactly when no reaction was set; otherwise the configuration carries the builder's reactions |
| Model.ReactionsConfigBuilder.BuildCopiesSettings | library/src/main/java/com/github/pgreze/reactions/model.kt:259-290 | every plain setting (gravity, margins, sizes, colours, alpha, scale factor, targets, typeface, text provider, dismiss animation) reaches the configuration unchanged |
| Model.ReactionsConfigBuilder.BuildTextDefaults | library/src/main/java/com/github/pgreze/reactions/model.kt:275-284 | a zero text padding becomes the rounded resource dimension and a non-zero one is kept; the same holds for a zero text size; a missing text background becomes the library drawable |
| Model.HorizontalMarginIsIndependent | library/src/main/java/com/github/pgreze/reactions/model.kt:113-128 | the other margins copy the item margin at construction, so a later horizontal margin does not move them |
| ReactionViews.ReadLocation | library/src/main/java/com/github/pgreze/reactions/ReactionView.kt:25-32 | a read returns the cache when both coordinates are non-zero, and the screen position otherwise |
| ReactionViews.ReadsFrom | library/src/main/java/com/github/pgreze/reactions/ReactionView.kt:25-32 | a sequence of reads gives one point per read; the first read starts from the given cache and each later read starts from the point the previous read returned |
| ReactionViews.CacheNeverUpdates | library/src/main/java/com/github/pgreze/reactions/ReactionView.kt:25-32 | once both cached coordinates are non-zero, every later read returns that point wherever the view moves |
| ReactionViews.CacheSticksAtFirstSetRead | library/src/main/java/com/github/pgreze/reactions/ReactionView.kt:25-32 | reads follow the screen up to the first read with both coordinates non-zero, and return that point from then on |
| ReactionViews.ReactionView.constructor | library/src/main/java/com/github/pgreze/reactions/ReactionView.kt:20-42 | the icon holds exactly the one child its reaction builds, and its location cache starts at (0, 0) |
| ReactionViews.ReactionView.Location | library/src/main/java/com/github/pgreze/reactions/ReactionView.kt:25-32 | the `location` getter returns the cache when it is set, and otherwise stores and returns the screen position |
| ReactionViews.ReactionView.OnMeasure | library/src/main/java/com/github/pgreze/reactions/ReactionView.kt:44-48 | after a measure pass the icon's measured size equals its child's |
| ReactionViews.ReactionView.Layout | library/src/main/java/com/github/pgreze/reactions/ReactionViewGroup.kt:227 | the icon keeps the frame the parent gives it |
| Geometry.DividerCount | library/src/main/java/com/github/pgreze/reactions/ReactionViewGroup.kt:56 | one divider for zero or one icon, and one fewer than the icons when there are two or more |
| Geometry.GravityX | library/src/main/java/com/github/pgreze/reactions/ReactionViewGroup.kt:163-180 | the position each gravity asks for before the fallback to the centre; its meaning per gravity is what GravityHonouredWhenItFits and ParentGravityFallsBackToScreen state |
| Geometry.PopupMetrics | library/src/main/java/com/github/pgreze/reactions/ReactionViewGroup.kt:38-69 | the popup is two paddings plus the medium icons and dividers wide, and one medium icon plus two paddings high; the large size is the truncated scaled size; the small size shares what the large icon leaves among the dividers, truncated toward zero |
| Geometry.PackingFits | library/src/main/java/com/github/pgreze/reactions/ReactionViewGroup.kt:58-68 | with two or more icons, one large and n-1 small icons with their dividers fit in the popup width and leave less than one pixel per divider |
| Geometry.SingleIconSmallSize | library/src/main/java/com/github/pgreze/reactions/ReactionViewGroup.kt:55-68 | with a single icon the one divider still counts, and the "small" size is medium minus large |
| Geometry.DialogX | library/src/main/java/com/github/pgreze/reactions/ReactionViewGroup.kt:163-184 | the popup's left edge is never negative and the popup fits the width when it can; the gravity's position is kept exactly when it fits strictly, and otherwise the popup is centred |
| Geometry.GravityHonouredWhenItFits | library/src/main/java/com/github/pgreze/reactions/ReactionViewGroup.kt:163-184 | PARENT_LEFT aligns with the parent's left, PARENT_RIGHT with its right, SCREEN_LEFT and SCREEN_RIGHT keep the margin from the screen edge, and DEFAULT starts one padding and half an icon left of the touch, whenever the popup fits there; CENTER always centres, clamped at 0 |
| Geometry.ParentGravityFallsBackToScreen | library/src/main/java/com/github/pgreze/reactions/ReactionViewGroup.kt:166-173 | when the parent-aligned position overflows, PARENT_LEFT moves to the screen's right margin and PARENT_RIGHT to its left margin, whenever those fit |
| Geometry.DialogY | library/src/main/java/com/github/pgreze/reactions/ReactionViewGroup.kt:186-191 | the popup sits the upward margin above the parent, unless that is above the downward switch point; then it sits the downward margin below the parent |
| Geometry.PopupClearsParent | library/src/main/java/com/github/pgreze/reactions/ReactionViewGroup.kt:186-191 | with non-negative margins the popup never overlaps the parent vertically |
| Geometry.RowOffset | library/src/main/java/com/github/pgreze/reactions/ReactionViewGroup.kt:212-229 | the running `prevX` after laying out icons of the given widths (a definition; its properties are the two lemmas below) |
| Geometry.RowOffsetStep | library/src/main/java/com/github/pgreze/reactions/ReactionViewGroup.kt:212-229 | each icon advances the running offset by its width plus one divider |
| Geometry.RowOffsetIsSum | library/src/main/java/com/github/pgreze/reactions/ReactionViewGroup.kt:212-229 | the offset after k icons is the sum of their widths plus k dividers |
| Geometry.BackgroundFrame | library/src/main/java/com/github/pgreze/reactions/ReactionViewGroup.kt:201-210 | the background starts at the popup's left plus the translation, is exactly the popup width wide, its bottom is the popup's bottom, and its height follows its layout height |
| Geometry.BackgroundBottomFixed | library/src/main/java/com/github/pgreze/reactions/ReactionViewGroup.kt:201-210 | resizing the background moves only its top; left, right and bottom stay |
| Geometry.IconPlace | library/src/main/java/com/github/pgreze/reactions/ReactionViewGroup.kt:221-226 | an icon starts at the popup's left plus the padding and offset, keeps its measured size, and stands on the bottom padding line |
| Geometry.ClampFrame | library/src/main/java/com/github/pgreze/reactions/ReactionViewGroup.kt:227 | right and bottom are cut at the bounds; left (and likewise top) stays where it is when it lies between the bounds' left and the frame's right, is raised to the bounds' left when it lies before it, and becomes the frame's right when the bounds start past the frame; a frame already inside the bounds is left as it is |
| Geometry.SizeTargets | library/src/main/java/com/github/pgreze/reactions/ReactionViewGroup.kt:446-452 | one target per icon: medium with no selection, large for the selected icon and small for the others |
| Geometry.SizePaths | library/src/main/java/com/github/pgreze/reactions/ReactionViewGroup.kt:446-452 | each icon animates from its current size to its target |
| Geometry.ProgressMove | library/src/main/java/com/github/pgreze/reactions/ReactionViewGroup.kt:505-509 | progress 0 gives the start, progress 1 the end, and progress in between stays between them |
| Geometry.SumTargetsPrefix | library/src/main/java/com/github/pgreze/reactions/ReactionViewGroup.kt:446-452 | the first k targets add up to k medium icons without a selection, or to one large and k-1 small icons once the selected icon is among them |
| Geometry.UniformRowFillsPopup | library/src/main/java/com/github/pgreze/reactions/ReactionViewGroup.kt:212-229 | icons at medium size end exactly one padding before the popup's right edge (a single icon leaves its one divider too) |
| Geometry.UniformRowRight | library/src/main/java/com/github/pgreze/reactions/ReactionViewGroup.kt:212-229 | the last of n medium icons ends n icons and n-1 dividers after the left padding |
| Geometry.LastIconRight | library/src/main/java/com/github/pgreze/reactions/ReactionViewGroup.kt:212-229 | the row ends after all icon widths and one divider between each pair of icons |
| Geometry.SelectedRowRight | library/src/main/java/com/github/pgreze/reactions/ReactionViewGroup.kt:63-68 | with a selection, the row plus padding is one large and n-1 small icons and the dividers wide |
| Geometry.SelectedRowFits | library/src/main/java/com/github/pgreze/reactions/ReactionViewGroup.kt:63-68 | a row with one icon selected stays inside the popup and falls short of its edge by less than one pixel per divider |
| Geometry.HitBox | library/src/main/java/com/github/pgreze/reactions/ReactionViewGroup.kt:351-355 | an icon's hit box reaches one padding left of and above the icon, one divider right of it, and a popup height plus a divider below it |
| Geometry.FirstHit | library/src/main/java/com/github/pgreze/reactions/ReactionViewGroup.kt:351-355 | the first box holding the point, with no earlier box holding it; nothing exactly when no box holds it |
| Geometry.InsideParent | library/src/main/java/com/github/pgreze/reactions/ReactionViewGroup.kt:345-349 | a point is inside the parent when it lies within the parent's bounds, edges included |
| Geometry.BelowFirstReaction | library/src/main/java/com/github/pgreze/reactions/ReactionViewGroup.kt:279-280 | a point is in the band right below the first icon: between its left and right, and from its bottom down one popup height, edges included |
| States.Assign | library/src/main/java/com/github/pgreze/reactions/ReactionViewGroup.kt:108-136 | assigning null or WaitingSelection twice does nothing; any other assignment stores the state and starts the animation that matches it, hiding the text; null only clears the state |
| States.IsRepeat | library/src/main/java/com/github/pgreze/reactions/ReactionViewGroup.kt:110 | the setter's equality test: the state objects are compared by identity, so only a repeated null or the `WaitingSelection` singleton counts as the same value; a new Appear, Disappear or Selected never does |
| States.AssignKeepsSceneValid | library/src/main/java/com/github/pgreze/reactions/ReactionViewGroup.kt:108-136 | every assignment keeps one size per icon and a running animator that matches the state |
| States.OnlyShootBlocks | library/src/main/java/com/github/pgreze/reactions/ReactionViewGroup.kt:372-381 | touches become blocked exactly when a Disappear with a selected view starts while the dismiss animation is enabled |
| States.ResizeHeadsForTargets | library/src/main/java/com/github/pgreze/reactions/ReactionViewGroup.kt:445-468 | entering WaitingSelection or Selected starts a resize that runs from the current icon sizes to the targets |
| States.AppearSettlesAtMedium | library/src/main/java/com/github/pgreze/reactions/ReactionViewGroup.kt:362-370 | after Appear, the WaitingSelection that ends it keeps every icon at medium size for the whole resize |
| States.StillPath | library/src/main/java/com/github/pgreze/reactions/ReactionViewGroup.kt:505-506 | a path from a size to itself stays at that size for any progress |
| States.SizesAt | library/src/main/java/com/github/pgreze/reactions/ReactionViewGroup.kt:458-465 | at a given progress every icon has its own path's interpolated size |
| States.ResizeRunsFromSizesToTargets | library/src/main/java/com/github/pgreze/reactions/ReactionViewGroup.kt:445-468 | the resize starts at the current sizes, ends at the targets, and every intermediate size lies between the two |
| States.DisappearFrom | library/src/main/java/com/github/pgreze/reactions/ReactionViewGroup.kt:339-342 | Disappear runs from 0 to the popup height and keeps a selected view exactly when the popup was in Selected |
| States.DismissScene | library/src/main/java/com/github/pgreze/reactions/ReactionViewGroup.kt:334-343 | a popup with no state is untouched; otherwise it starts to disappear, hides the text, keeps the icon sizes, and blocks touches only when shooting a selected icon |
| States.DismissTwiceDropsSelection | library/src/main/java/com/github/pgreze/reactions/ReactionViewGroup.kt:337-342 | a second dismiss replaces the Disappear with one that has no selected view |
| States.ReleaseScene | library/src/main/java/com/github/pgreze/reactions/ReactionViewGroup.kt:304-310 | when the listener keeps the popup open it waits again; otherwise a showing popup starts to disappear |
| States.TrackScene | library/src/main/java/com/github/pgreze/reactions/ReactionViewGroup.kt:289-294 | the state becomes Selected on the hit icon or WaitingSelection on no hit; staying on the selected icon changes nothing |
| States.TrackIsIdempotent | library/src/main/java/com/github/pgreze/reactions/ReactionViewGroup.kt:289-294 | moving again over the same icon, or over none, changes nothing further |
| ViewGroup.AfterReads | library/src/main/java/com/github/pgreze/reactions/ReactionViewGroup.kt:351-355 | the icons the search reads have had their location read, and the rest keep their cache |
| ViewGroup.HitBoxes | library/src/main/java/com/github/pgreze/reactions/ReactionViewGroup.kt:351-355 | one hit box per icon |
| ViewGroup.HitBoxesAre | library/src/main/java/com/github/pgreze/reactions/ReactionViewGroup.kt:351-355 | each icon's box is the hit box around the location a read would return |
| ViewGroup.FirstHitAt | library/src/main/java/com/github/pgreze/reactions/ReactionViewGroup.kt:351-355 | an icon whose box holds the point, with no earlier one holding it, is the one found |
| ViewGroup.ReactionViewGroup.Position | library/src/main/java/com/github/pgreze/reactions/ReactionViewGroup.kt:304-305 | -1 with no hit; otherwise the index of the first configured reaction equal to the hit one: no earlier reaction equals it, and it is never after the hit |
| ViewGroup.ReactionViewGroup.PositionIsHitIndex | library/src/main/java/com/github/pgreze/reactions/ReactionViewGroup.kt:304-305 | with distinct reactions the listener receives exactly the hit icon's index |
| ViewGroup.ReactionViewGroup.constructor | library/src/main/java/com/github/pgreze/reactions/ReactionViewGroup.kt:29-103 | one new icon per reaction with an empty location cache, the metrics of the configuration, no state or animator, medium icons, a full-height background and no listeners |
| ViewGroup.ReactionViewGroup.SetAnimator | library/src/main/java/com/github/pgreze/reactions/ReactionViewGroup.kt:138-145 | the new animator replaces the old one and the text is hidden |
| ViewGroup.ReactionViewGroup.SetState | library/src/main/java/com/github/pgreze/reactions/ReactionViewGroup.kt:108-136 | the `currentState` setter leaves the scene as the state assignment prescribes and keeps it valid |
| ViewGroup.ReactionViewGroup.ResetSizes | library/src/main/java/com/github/pgreze/reactions/ReactionViewGroup.kt:362-370 | every icon and the background go back to medium size |
| ViewGroup.ReactionViewGroup.AnimTranslationY | library/src/main/java/com/github/pgreze/reactions/ReactionViewGroup.kt:357-443 | a boundary animator starts; Appear resets the sizes while Disappear keeps them; touches become blocked only when shooting a selected icon with the dismiss animation enabled |
| ViewGroup.ReactionViewGroup.AnimSize | library/src/main/java/com/github/pgreze/reactions/ReactionViewGroup.kt:445-486 | a size animator starts along the paths from the current sizes to the targets for the selection, and the text is hidden |
| ViewGroup.ReactionViewGroup.OnSizeChanged | library/src/main/java/com/github/pgreze/reactions/ReactionViewGroup.kt:160-192 | stores the new size and places the popup at the positions the placement rules give |
| ViewGroup.ReactionViewGroup.MeasureChildren | library/src/main/java/com/github/pgreze/reactions/ReactionViewGroup.kt:194-198 | after a measure pass every icon is measured to its layout size |
| ViewGroup.ReactionViewGroup.OnLayout | library/src/main/java/com/github/pgreze/reactions/ReactionViewGroup.kt:200-230 | the background gets its frame, and each icon is placed after the widths and dividers of the icons before it, clamped to the bounds |
| ViewGroup.ReactionViewGroup.LayoutIcons | library/src/main/java/com/github/pgreze/reactions/ReactionViewGroup.kt:212-230 | each icon is placed after the widths and dividers of the icons before it, clamped to the bounds |
| ViewGroup.ReactionViewGroup.LayoutIcon | library/src/main/java/com/github/pgreze/reactions/ReactionViewGroup.kt:227 | laying out one icon changes no other icon's frame |
| ViewGroup.ReactionViewGroup.Show | library/src/main/java/com/github/pgreze/reactions/ReactionViewGroup.kt:251-267 | records the touch and the parent, re-arms both first-touch flags, places the popup and starts Appear from the popup height down to 0 |
| ViewGroup.ReactionViewGroup.Place | library/src/main/java/com/github/pgreze/reactions/ReactionViewGroup.kt:251-265 | records the touch and the parent, re-arms both first-touch flags, makes the popup visible and places it for the current size |
| ViewGroup.ReactionViewGroup.Dismiss | library/src/main/java/com/github/pgreze/reactions/ReactionViewGroup.kt:334-343 | always tells the state listener the popup is closing, then starts to disappear unless there is no state |
| ViewGroup.ReactionViewGroup.OnDismissed | library/src/main/java/com/github/pgreze/reactions/ReactionViewGroup.kt:324-330 | hides the popup, clears the state and the show point, and notifies the dismiss listener |
| ViewGroup.ReactionViewGroup.ResetChildrenToNormalSize | library/src/main/java/com/github/pgreze/reactions/ReactionViewGroup.kt:320-322 | goes back to WaitingSelection, which resizes every icon to medium |
| ViewGroup.ReactionViewGroup.OnBoundaryAnimationEnd | library/src/main/java/com/github/pgreze/reactions/ReactionViewGroup.kt:425-436 | the end of Appear waits for a selection; the end of Disappear dismisses unless a selected icon is still being shot, in which case nothing changes |
| ViewGroup.ReactionViewGroup.OnShootEnd | library/src/main/java/com/github/pgreze/reactions/ReactionViewGroup.kt:375-378 | the end of the shoot unblocks touches and dismisses the popup |
| ViewGroup.ReactionViewGroup.OnSizeAnimationProgress | library/src/main/java/com/github/pgreze/reactions/ReactionViewGroup.kt:458-468 | each icon takes its path's size at the progress and nothing else changes |
| ViewGroup.ReactionViewGroup.OnSizeAnimationEnd | library/src/main/java/com/github/pgreze/reactions/ReactionViewGroup.kt:472-479 | with a selection whose provider gives a text, that text is shown; a provider that throws propagates the error; otherwise nothing changes |
| ViewGroup.ReactionViewGroup.SelectionNotices | library/src/main/java/com/github/pgreze/reactions/ReactionViewGroup.kt:306-310 | the selection listener hears the position first; the state listener hears "closing" exactly when the popup closes |
| ViewGroup.ReactionViewGroup.KeepsOpen | library/src/main/java/com/github/pgreze/reactions/ReactionViewGroup.kt:306 | the popup stays open after an up only when a selection listener is set and answers false for the position |
| ViewGroup.ReactionViewGroup.InInsideParentView | library/src/main/java/com/github/pgreze/reactions/ReactionViewGroup.kt:345-349 | the touch lies within the parent view's bounds, edges included |
| ViewGroup.ReactionViewGroup.SetTouchFlags | library/src/main/java/com/github/pgreze/reactions/ReactionViewGroup.kt:298-300 | stores the inside-the-parent and ignore-first-reaction flags |
| ViewGroup.ReactionViewGroup.ReadIconLocation | library/src/main/java/com/github/pgreze/reactions/ReactionViewGroup.kt:353-354 | reading one icon's location changes no other icon's cache |
| ViewGroup.ReactionViewGroup.GetIntersectedIcon | library/src/main/java/com/github/pgreze/reactions/ReactionViewGroup.kt:351-355 | finds the first icon whose hit box holds the point; only the icons up to it have their location read |
| ViewGroup.ReactionViewGroup.Track | library/src/main/java/com/github/pgreze/reactions/ReactionViewGroup.kt:289-294 | the state follows the icon under the finger, and only the icons up to it have their location read |
| ViewGroup.ReactionViewGroup.AnswerSelection | library/src/main/java/com/github/pgreze/reactions/ReactionViewGroup.kt:306-310 | the listeners hear the position; the popup waits again if the listener says so, and otherwise is dismissed |
| ViewGroup.ReactionViewGroup.ReleasedPosition | library/src/main/java/com/github/pgreze/reactions/ReactionViewGroup.kt:304-305 | the position of the first icon under the finger, or -1 |
| ViewGroup.ReactionViewGroup.Release | library/src/main/java/com/github/pgreze/reactions/ReactionViewGroup.kt:304-310 | reports the icon under the finger, and the popup waits again or closes as the listener decides |
| ViewGroup.ReactionViewGroup.StoreFlagsAndTrack | library/src/main/java/com/github/pgreze/reactions/ReactionViewGroup.kt:281-294 | the first reaction is no longer ignored, and the icon under the finger is tracked |
| ViewGroup.ReactionViewGroup.TouchDownOrMove | library/src/main/java/com/github/pgreze/reactions/ReactionViewGroup.kt:275-295 | the first reaction stays ignored only while the touch stays inside the parent or below the first icon; unless ignored or appearing, the icon under the finger is tracked; otherwise the scene and the caches stay |
| ViewGroup.ReactionViewGroup.TouchUp | library/src/main/java/com/github/pgreze/reactions/ReactionViewGroup.kt:296-312 | both flags drop; an up that never left the parent changes nothing else; otherwise the icon under the finger is reported |
| ViewGroup.ReactionViewGroup.ReleaseAway | library/src/main/java/com/github/pgreze/reactions/ReactionViewGroup.kt:298-310 | both flags drop and the icon under the finger is reported |
| ViewGroup.ReactionViewGroup.TouchCancel | library/src/main/java/com/github/pgreze/reactions/ReactionViewGroup.kt:313-315 | a cancel returns to WaitingSelection and leaves the first-reaction flag alone |
| ViewGroup.ReactionViewGroup.DownOrMoveDone | library/src/main/java/com/github/pgreze/reactions/ReactionViewGroup.kt:275-295 | the outcome of a DOWN or MOVE, used as the ensures of TouchDownOrMove (a definition) |
| ViewGroup.ReactionViewGroup.Tracked | library/src/main/java/com/github/pgreze/reactions/ReactionViewGroup.kt:289-294 | the outcome of tracking: the scene follows the first icon under the finger and the icons up to it have had their location read (a definition) |
| ViewGroup.ReactionViewGroup.UpDone | library/src/main/java/com/github/pgreze/reactions/ReactionViewGroup.kt:296-312 | the outcome of an UP: inside the parent nothing else changes, otherwise Released holds (a definition) |
| ViewGroup.ReactionViewGroup.Released | library/src/main/java/com/github/pgreze/reactions/ReactionViewGroup.kt:304-310 | the outcome of a release: caches read up to the hit icon, listeners told the position, scene waits or closes as the listener decides (a definition) |
| ViewGroup.ReactionViewGroup.OnTouchEvent | library/src/main/java/com/github/pgreze/reactions/ReactionViewGroup.kt:270-318 | while the shoot animation runs the event is refused and nothing changes; otherwise it is consumed, and down, move, up, cancel and other actions have the effects above |

## Left out

- Floating-point animation is not modelled. This covers translation and alpha
  values, the interpolator, the durations, the background
  `ResizeAnimation` tween, and the shoot trajectory (`targetX`/`targetY`,
  scale 0.1). Only the background's target height and the animators that
  are running are recorded.
- The text label's placement above the selected icon
  (`ReactionViewGroup.kt:232-246`) is not modelled. Only the label's text
  and visibility are.
- Elevation and `z` ordering, the card's colour and radius, `dp`
  conversion, logging and `requestLayout` calls are drawing details. They
  are left out.
- The view group reads `config.iconDivider`, `config.scaleDuration`,
  `config.shootDuration`, `config.dismissDuration`, `config.onTooltip` and
  `config.textMarginBottom`. These fields are absent from `ReactionsConfig`
  in `model.kt`. The icon divider is taken as a constructor argument
  (`None` means the horizontal padding). The others only affect timing or
  the label's look, so they are left out.
- 32-bit `Int` overflow is not modelled: sizes and coordinates are
  unbounded integers. `Float` values are exact reals. Raw touch coordinates
  are taken already rounded to integers.
- Closures are compared by identity: a custom `onView` closure is an opaque
  identifier.
- A listener that throws is not modelled: listeners are total functions.
- Whether an animator that was replaced still delivers its end event
  depends on the platform. The end handlers take the boundary or selection
  they were created with, so both behaviours can be expressed. Android's
  rule for it is not modelled.
- `onMeasure` of the view group is modelled as measuring every icon to its
  layout size, as the measure pass does for these fixed layout params.
- ViewGroup.ReactionViewGroup.constructor: it requires at least one reaction.
  The source constructs a popup without reactions, but the first DOWN or
  MOVE after `show()` then fails at `reactions.first()`. `Build` never produces such a
  configuration.
- ViewGroup.ReactionViewGroup.OnLayout: it requires that the icon
  objects are indexed by position. This is a model-side invariant the
  constructor establishes.
- The first icon's bounds that DOWN and MOVE test (`ReactionViewGroup.kt:278-280`)
  are taken as the `first` parameter. They are not derived from the first icon's
  laid-out frame, because the translations they include are not modelled.
- The `reactionTexts` getter (`model.kt:143-144`) has no member of its own. It throws
  `NotImplementedError` just as `reactionsIds` does, which `ReactionsIds` models.
- `dsl.kt`, the sample application and the Gradle build files are not part
  of this model.
