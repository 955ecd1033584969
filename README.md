# Studio control panels: state-update logic

This project models the state-update core of the studio's transformation
control panels. Every record panel (AI magic, audio, image enhancements,
video basics, video enhancement) holds no state of its own: a control
builds a sparse patch and hands the parent `{...transforms, ...patch}`, a
section control spreads its patch one or two levels down, and a control at
its "off" value writes `undefined` so that the field disappears. The two
overlay panels keep an ordered list of overlay items and replace it on every
add, update-by-identifier and remove-by-identifier; only the image overlay
panel also has "Reset All", which empties its list.

Modules:

- `Sparse` — JavaScript objects as `map<string, Value>` (an absent key is
  `undefined`), patches as maps to `Option<Value>` (`None` is `undefined`),
  the object spread `Merge`, the one- and two-level section spreads
  `MergeAt`/`MergeAt2`, and the elision rules the controls share (switch,
  slider, select, text, `parseInt`-or-unset, `||` fallback,
  `replace("#", "")`).
- `AudioPanel`, `EnhancementsPanel`, `AiMagicPanel`, `VideoBasicsPanel`,
  `VideoEnhancementPanel` — one function per control (controls of the same
  shape share one function and a small enum naming the control), each
  stating the value it writes, that it keeps every other key, and that it
  keeps the panel's presence/absence invariant `Canonical` (no control
  stores its own off value).
- `OverlayLists` — `filter`, update-by-identifier and remove-by-identifier
  over a list of items, with the order and uniqueness lemmas.
- `ImageOverlays` — class `OverlaysPanel` (add replaces the list; the list is
  published with its `id`s) and the per-field patches for flip, colour and
  size.
- `VideoOverlays` — class `VideoOverlaysPanel` (add appends; items carry a
  UI-only `_uiId`, given on entry and stripped on publishing; identifiers stay
  unique) and the typography toggles.

The conversions `parseInt(text)` and `Number(text)` are parameters (`parsed`,
`None` standing for NaN); generated identifiers (`uuid()`) are parameters
that the caller promises fresh. Slider values are reals.

Switching "Remove Background" on and then off from `{}` leaves
`{background: {}}`, not `{}`, because the section object is spread back even
when its only field is unset (`AiMagicPanel.RemoveBackgroundRoundTrip`).

## Model

| member | source | states |
|---|---|---|
| Sparse.Merge | src/components/studio/audio-panel.tsx:33-35 | every key reads as the patch's value when the patch names it (unset when that value is `undefined`), and as the current record's otherwise; no other key appears |
| Sparse.MergeIdempotent | src/components/studio/audio-panel.tsx:33-35 | applying the same patch twice is the same as applying it once |
| Sparse.MergeCompose | src/components/studio/audio-panel.tsx:33-35 | two patches applied in turn equal one patch where the later one wins |
| Sparse.MergeEmpty | src/components/studio/audio-panel.tsx:33-35 | the empty patch changes nothing |
| Sparse.Unset | src/components/studio/audio-panel.tsx:37 | an all-`undefined` patch names exactly the given keys |
| Sparse.MergeUnset | src/components/studio/audio-panel.tsx:37 | an all-`undefined` patch removes exactly its keys |
| Sparse.MergeAt | src/components/studio/enhancements-panel.tsx:53-62 | a section update leaves a section object whose fields are the patch's over the old section's, and keeps every other top-level key |
| Sparse.MergeAt2 | src/components/studio/ai-magic-panel.tsx:72-84 | the two-level update changes only the inner object (patch over old), keeps the outer section's other keys and every other top-level key |
| Sparse.Switch | src/components/studio/audio-panel.tsx:64-65 | a switch writes `true` when on and `undefined` when off, never `false` |
| Sparse.Slider | src/components/studio/enhancements-panel.tsx:111-112 | a slider writes `undefined` exactly at its off value, and the value otherwise |
| Sparse.Choice | src/components/studio/video-basics-panel.tsx:139 | a select writes `undefined` exactly for its default entry, the choice otherwise |
| Sparse.TextOrUnset | src/components/studio/video-basics-panel.tsx:116 | a text input writes `undefined` exactly for "", the text otherwise |
| Sparse.ParsedOrUnset | src/components/studio/video-basics-panel.tsx:183-190 | a number input writes `undefined` exactly for "", the `parseInt` result otherwise |
| Sparse.OrElse | src/components/studio/video-enhancement-panel.tsx:203-204 | `v \|\| fallback`: a truthy value is kept, any falsy one becomes the fallback |
| Sparse.RemoveFirstHash | src/components/studio/video-enhancement-panel.tsx:231 | `replace("#", "")` removes exactly the first `#` (the text before it has none) and keeps every other character in order; text without `#` is unchanged |
| AudioPanel.Toggle | src/components/studio/audio-panel.tsx:64-82 | mute / extract-audio on stores `true`, off removes the key; nothing else changes; the invariant is kept |
| AudioPanel.Reset | src/components/studio/audio-panel.tsx:37 | both audio keys are removed and every other key kept |
| AudioPanel.ResetIdempotent | src/components/studio/audio-panel.tsx:37 | resetting twice equals resetting once |
| AudioPanel.ResetAfterToggle | src/components/studio/audio-panel.tsx:37-82 | a toggle followed by reset equals reset alone |
| EnhancementsPanel.Slide | src/components/studio/enhancements-panel.tsx:111-131 | blur / sharpen at 0 removes the key, any other value is stored; nothing else changes |
| EnhancementsPanel.SlideShadow | src/components/studio/enhancements-panel.tsx:163-217 | a shadow slider at 0 removes its field from `shadow`; other shadow fields and other keys are kept |
| EnhancementsPanel.ChooseBackgroundType | src/components/studio/enhancements-panel.tsx:242-243 | the type is stored, the background's other fields are kept |
| EnhancementsPanel.PickBackgroundColor | src/components/studio/enhancements-panel.tsx:266 | the colour is stored as given (with its `#`) |
| EnhancementsPanel.SlideBlurIntensity | src/components/studio/enhancements-panel.tsx:291-294 | blur intensity 0 stores "auto" (it is not cleared), other values are stored |
| EnhancementsPanel.SlideBrightness | src/components/studio/enhancements-panel.tsx:311-314 | brightness 0 clears the field |
| EnhancementsPanel.ResetAll | src/components/studio/enhancements-panel.tsx:75-82 | the four keys are removed, any other key kept, and the result satisfies the invariant |
| EnhancementsPanel.ResetAllForgetsShadow | src/components/studio/enhancements-panel.tsx:75-82 | a shadow edit followed by "Reset All" equals "Reset All" alone |
| AiMagicPanel.CanonicalFrame | src/components/studio/ai-magic-panel.tsx:48-104 | an edit confined to one section keeps the whole-record invariant when that section keeps its part |
| AiMagicPanel.UpdateShadowLighting | src/components/studio/ai-magic-panel.tsx:72-84 | the patch lands in `shadowLighting.dropShadow`; other drop-shadow fields, other `shadowLighting` fields and other sections are kept |
| AiMagicPanel.Toggle | src/components/studio/ai-magic-panel.tsx:166-170 | remove-background, retouch, upscale and variation switches store `true` or remove the key inside their section only |
| AiMagicPanel.EditText | src/components/studio/ai-magic-panel.tsx:202-209 | change-prompt, editing prompt, text prompt and object name: "" removes the field, other text is stored, in its section only |
| AiMagicPanel.Choose | src/components/studio/ai-magic-panel.tsx:176-186 | background mode and crop type: "none" removes the field, other choices are stored |
| AiMagicPanel.SetGenerativeFill | src/components/studio/ai-magic-panel.tsx:220-236 | on stores an empty fill object whatever was there, off removes `generativeFill`; other background fields kept |
| AiMagicPanel.EditFillPrompt | src/components/studio/ai-magic-panel.tsx:245-255 | "" removes the fill prompt, other text is stored; the fill's other fields and the background's other fields are kept |
| AiMagicPanel.EditFillSize | src/components/studio/ai-magic-panel.tsx:268-305 | fill width / height: "" removes it, other input stores the `parseInt` result |
| AiMagicPanel.ChooseFillCropMode | src/components/studio/ai-magic-panel.tsx:318-328 | fill crop mode "none" removes it, other choices stored |
| AiMagicPanel.SlideLight | src/components/studio/ai-magic-panel.tsx:462-514 | azimuth, elevation, saturation at 0 remove their field from the drop shadow |
| AiMagicPanel.SlideZoom | src/components/studio/ai-magic-panel.tsx:659-661 | crop zoom 1 removes the field |
| AiMagicPanel.EditCropSize | src/components/studio/ai-magic-panel.tsx:672-695 | crop width / height: "" removes it, other input stores the `parseInt` result |
| AiMagicPanel.ResetSection | src/components/studio/ai-magic-panel.tsx:116-140 | a section reset removes that section and keeps every other key |
| AiMagicPanel.ResetAll | src/components/studio/ai-magic-panel.tsx:106-114 | the five sections are removed, other keys kept, invariant holds |
| AiMagicPanel.ToggleKeepsCanonical | src/components/studio/ai-magic-panel.tsx:166-170 | switches keep the invariant |
| AiMagicPanel.EditTextKeepsCanonical | src/components/studio/ai-magic-panel.tsx:202-209 | text inputs keep the invariant |
| AiMagicPanel.ChooseKeepsCanonical | src/components/studio/ai-magic-panel.tsx:176-186 | selects keep the invariant |
| AiMagicPanel.SetGenerativeFillKeepsCanonical | src/components/studio/ai-magic-panel.tsx:220-236 | the fill switch keeps the invariant |
| AiMagicPanel.EditFillPromptKeepsCanonical | src/components/studio/ai-magic-panel.tsx:245-255 | the fill prompt keeps the invariant |
| AiMagicPanel.EditFillSizeKeepsCanonical | src/components/studio/ai-magic-panel.tsx:268-305 | the fill size inputs keep the invariant |
| AiMagicPanel.ChooseFillCropModeKeepsCanonical | src/components/studio/ai-magic-panel.tsx:318-328 | the fill crop mode keeps the invariant |
| AiMagicPanel.SlideLightKeepsCanonical | src/components/studio/ai-magic-panel.tsx:462-514 | the light sliders keep the invariant |
| AiMagicPanel.SlideZoomKeepsCanonical | src/components/studio/ai-magic-panel.tsx:659-661 | the zoom slider keeps the invariant |
| AiMagicPanel.EditCropSizeKeepsCanonical | src/components/studio/ai-magic-panel.tsx:672-695 | the crop size inputs keep the invariant |
| AiMagicPanel.ResetSectionKeepsCanonical | src/components/studio/ai-magic-panel.tsx:116-140 | section resets keep the invariant |
| AiMagicPanel.ResetAllIsEverySectionReset | src/components/studio/ai-magic-panel.tsx:106-140 | "Reset All" equals the five section resets in turn |
| AiMagicPanel.ResetSectionsCommute | src/components/studio/ai-magic-panel.tsx:116-140 | the order of section resets does not matter |
| AiMagicPanel.RemoveBackgroundRoundTrip | src/components/studio/ai-magic-panel.tsx:166-170 | from `{}`, on gives `{background: {remove: true}}` and off then gives `{background: {}}` |
| AiMagicPanel.FillWidthRoundTrip | src/components/studio/ai-magic-panel.tsx:268-280 | typing 512 into an empty fill stores exactly width 512; clearing gives the empty fill back |
| VideoBasicsPanel.EditText | src/components/studio/video-basics-panel.tsx:116-127 | width, height (and radius at line 457): "" removes the key, other text is stored as text |
| VideoBasicsPanel.Choose | src/components/studio/video-basics-panel.tsx:136-162 | aspect ratio "custom", focus "center", crop mode "maintain_ratio" (line 222) remove the key, other choices stored |
| VideoBasicsPanel.EditPosition | src/components/studio/video-basics-panel.tsx:183-206 | x / y: "" removes the key, other input stores the `parseInt` result |
| VideoBasicsPanel.SlideZoom | src/components/studio/video-basics-panel.tsx:251 | zoom 1 removes the key |
| VideoBasicsPanel.ChooseDpr | src/components/studio/video-basics-panel.tsx:258-278 | DPR "1" removes the key, "auto" is stored as a string, "2" as the number 2; other keys are kept and the invariant (DPR never 1) holds |
| VideoBasicsPanel.DprValue | src/components/studio/video-basics-panel.tsx:262-277 | of the select's three entries only "1" writes `undefined`, and no entry writes the number 1 |
| VideoBasicsPanel.ChooseRotation | src/components/studio/video-basics-panel.tsx:480-484 | every rotation, 0 included, is stored |
| VideoBasicsPanel.ChooseBackgroundType | src/components/studio/video-basics-panel.tsx:312-320 | the background type is stored, other background fields kept |
| VideoBasicsPanel.EditBackgroundText | src/components/studio/video-basics-panel.tsx:338-368 | background colour / blur intensity: "" removes the field |
| VideoBasicsPanel.EditBrightness | src/components/studio/video-basics-panel.tsx:376-388 | brightness: "" removes it, other input stores the `parseInt` result |
| VideoBasicsPanel.EditBorder | src/components/studio/video-basics-panel.tsx:420-446 | border width / colour: "" removes the field, the other border field is kept |
| VideoBasicsPanel.Reset | src/components/studio/video-basics-panel.tsx:81-95 | each reset button removes exactly its group's keys |
| VideoBasicsPanel.ResetAll | src/components/studio/video-basics-panel.tsx:96 | "Reset All" hands over `{}` |
| VideoBasicsPanel.OtherResetsKeepRotation | src/components/studio/video-basics-panel.tsx:81-95 | only the rotation reset clears the rotation |
| VideoBasicsPanel.ResetAllIsReplacement | src/components/studio/video-basics-panel.tsx:81-96 | the five resets give `{}` if and only if the record holds only keys those buttons own |
| VideoEnhancementPanel.EditTime | src/components/studio/video-enhancement-panel.tsx:76-84 | thumbnail time: "" removes it, other thumbnail fields kept |
| VideoEnhancementPanel.EditThumbnailSize | src/components/studio/video-enhancement-panel.tsx:96-127 | thumbnail width / height: "" removes it, other input stores the `parseInt` result |
| VideoEnhancementPanel.ChooseAspectRatio | src/components/studio/video-enhancement-panel.tsx:138-145 | "custom" removes the aspect ratio |
| VideoEnhancementPanel.ChooseCropMode | src/components/studio/video-enhancement-panel.tsx:165-172 | the crop mode is always stored, "maintain_ratio" included |
| VideoEnhancementPanel.EditBorderWidth | src/components/studio/video-enhancement-panel.tsx:196-209 | "" stores width 0, other input the `parseInt` result; the colour is kept when truthy, else "000000" |
| VideoEnhancementPanel.PickBorderColor | src/components/studio/video-enhancement-panel.tsx:224-236 | the colour without its `#`; the width is kept when truthy, else 0 |
| VideoEnhancementPanel.EditRadius | src/components/studio/video-enhancement-panel.tsx:247-258 | "max" is stored as a string, anything else as the `parseInt` result |
| VideoEnhancementPanel.PickBackground | src/components/studio/video-enhancement-panel.tsx:273-280 | the background colour without its `#` |
| VideoEnhancementPanel.EditTrim | src/components/studio/video-enhancement-panel.tsx:311-354 | start offset, end offset, duration: "" removes the field |
| VideoEnhancementPanel.ResetSection | src/components/studio/video-enhancement-panel.tsx:54-55 | the section is removed, every other key kept |
| VideoEnhancementPanel.ResetAll | src/components/studio/video-enhancement-panel.tsx:53 | "Reset All" hands over `{}` |
| VideoEnhancementPanel.BorderEditsComplete | src/components/studio/video-enhancement-panel.tsx:196-236 | after either border edit the border has both width and colour, and the width edit never leaves an empty colour |
| OverlayLists.Filter | src/components/studio/overlays-and-effects.tsx:153 | `filter`: an element is in the result exactly when it is in the input and passes |
| OverlayLists.FilterConcat | src/components/studio/overlays-and-effects.tsx:153 | filtering distributes over concatenation, so relative order is kept |
| OverlayLists.FilterKeepsAll | src/components/studio/overlays-and-effects.tsx:153 | a filter that passes everything returns the input |
| OverlayLists.FilterDropsOne | src/components/studio/overlays-and-effects.tsx:153 | rejecting exactly element k gives the input without element k |
| OverlayLists.UpdateWhere | src/components/studio/overlays-and-effects.tsx:146-150 | length and order kept; non-matching items unchanged; matching items take the patch's fields and keep their others |
| OverlayLists.UpdateMissing | src/components/studio/overlays-and-effects.tsx:148 | an identifier no item has leaves the list unchanged |
| OverlayLists.UpdateKeepsIds | src/components/studio/video-overlays-panel.tsx:123-127 | a patch without the identifier field keeps every identifier and their uniqueness |
| OverlayLists.RemoveWhere | src/components/studio/overlays-and-effects.tsx:152-154 | no item with the identifier is left, every other item is kept |
| OverlayLists.RemoveConcat | src/components/studio/overlays-and-effects.tsx:152-154 | removal keeps the relative order of the rest |
| OverlayLists.RemoveMissing | src/components/studio/overlays-and-effects.tsx:152-154 | removing an absent identifier changes nothing |
| OverlayLists.RemoveUnique | src/components/studio/video-overlays-panel.tsx:129-131 | with unique identifiers, removing item k's identifier gives the list without item k |
| OverlayLists.RemoveKeepsUnique | src/components/studio/video-overlays-panel.tsx:129-131 | removal keeps identifiers unique |
| ImageOverlays.DefaultOverlay | src/components/studio/overlays-and-effects.tsx:86-137 | each kind's defaults: text "Sample Text", 16, "000000", unstyled, rotation 0; solid "ff0000" 100×100 radius 0; gradient and image defaults; each item holds exactly these fields, so the image's `undefined` fields are absent |
| ImageOverlays.OverlaysPanel.constructor | src/components/studio/overlays-and-effects.tsx:77 | the list starts as the given overlays |
| ImageOverlays.OverlaysPanel.Published | src/components/studio/overlays-and-effects.tsx:79-81 | the published value is the list itself, `id`s included |
| ImageOverlays.OverlaysPanel.AddOverlay | src/components/studio/overlays-and-effects.tsx:83-144 | the list becomes exactly the one new default item, whatever it held |
| ImageOverlays.OverlaysPanel.UpdateOverlay | src/components/studio/overlays-and-effects.tsx:146-150 | the list becomes the update-by-`id` of the old list |
| ImageOverlays.OverlaysPanel.RemoveOverlay | src/components/studio/overlays-and-effects.tsx:152-154 | the list becomes the remove-by-`id` of the old list |
| ImageOverlays.OverlaysPanel.ResetAll | src/components/studio/overlays-and-effects.tsx:156-158 | the list becomes empty |
| ImageOverlays.FlipPatch | src/components/studio/overlays-and-effects.tsx:310-314 | flip "none" unsets the field, other choices are stored |
| ImageOverlays.ImageFlipPatch | src/components/studio/overlays-and-effects.tsx:760-761 | the image flip select stores every choice |
| ImageOverlays.ColorPatch | src/components/studio/overlays-and-effects.tsx:263-267 | colour pickers (also lines 393, 508, 527, 703) store the colour without its leading `#` |
| ImageOverlays.SolidSizePatch | src/components/studio/overlays-and-effects.tsx:408-449 | solid width / height / radius: "" unsets, other input stores the `parseInt` result |
| ImageOverlays.NumberOf | src/components/studio/overlays-and-effects.tsx:561-565 | `Number("")` is 0 |
| ImageOverlays.NumberSizePatch | src/components/studio/overlays-and-effects.tsx:561-595 | gradient sizes (and image width / height, lines 629-647) never unset; "" stores 0, other text what `Number(text)` gives |
| ImageOverlays.ImageRadiusPatch | src/components/studio/overlays-and-effects.tsx:731-738 | image radius "max" is stored as a string, other input as `Number(text)` |
| ImageOverlays.SolidAddEditRemove | src/components/studio/overlays-and-effects.tsx:99-154 | add solid, set width 250, remove: the item holds width 250 with its other defaults, then the list is empty |
| VideoOverlays.DefaultOverlay | src/components/studio/video-overlays-panel.tsx:58-118 | every new item has x 0, y 0, focus "center", zero offsets and duration, no `_uiId`; per-kind defaults (solid "ff0000" 100×100 opacity 100 radius 0, video 200×100, ...); each item holds exactly these fields |
| VideoOverlays.Stamp | src/components/studio/video-overlays-panel.tsx:51 | an item gains its `_uiId` and keeps every other field |
| VideoOverlays.Strip | src/components/studio/video-overlays-panel.tsx:55 | an item loses its `_uiId` and keeps every other field |
| VideoOverlays.Seed | src/components/studio/video-overlays-panel.tsx:50-52 | every incoming overlay gets its identifier and keeps all other fields |
| VideoOverlays.SeedUnique | src/components/studio/video-overlays-panel.tsx:50-52 | distinct generated identifiers give unique item identifiers |
| VideoOverlays.Publish | src/components/studio/video-overlays-panel.tsx:54-56 | same length and order, no `_uiId` in any item, other fields unchanged |
| VideoOverlays.PublishSeed | src/components/studio/video-overlays-panel.tsx:50-56 | publishing the freshly seeded list gives back exactly the overlays passed in |
| VideoOverlays.AppendKeepsUnique | src/components/studio/video-overlays-panel.tsx:120 | appending an item with a fresh identifier keeps identifiers unique |
| VideoOverlays.RemoveUndoesAdd | src/components/studio/video-overlays-panel.tsx:120-131 | removing an item just added restores the list |
| VideoOverlays.Toggled | src/components/studio/video-overlays-panel.tsx:358-386 | on appends the tag even when present (one more occurrence); off removes every occurrence and keeps the other tags |
| VideoOverlays.ToggleOffKeepsOrder | src/components/studio/video-overlays-panel.tsx:358-386 | off keeps the relative order of the other tags |
| VideoOverlays.ToggleOffAfterOn | src/components/studio/video-overlays-panel.tsx:358-386 | on then off equals off alone |
| VideoOverlays.ToggleOnOffRoundTrip | src/components/studio/video-overlays-panel.tsx:358-386 | on then off restores a tag list that lacked the tag |
| VideoOverlays.TypographyPatch | src/components/studio/video-overlays-panel.tsx:358-364 | the patch touches only `typography`, and applying it stores the toggled tag list in `typography` (an empty list stays stored as `[]`) |
| VideoOverlays.VideoOverlaysPanel.constructor | src/components/studio/video-overlays-panel.tsx:50-52 | the list is the seeded overlays and identifiers are unique |
| VideoOverlays.VideoOverlaysPanel.Published | src/components/studio/video-overlays-panel.tsx:54-56 | the parent gets the list with `_uiId` stripped, same length and order |
| VideoOverlays.VideoOverlaysPanel.AddOverlay | src/components/studio/video-overlays-panel.tsx:58-121 | appends the stamped default; the old items and their order are kept; identifiers stay unique |
| VideoOverlays.VideoOverlaysPanel.UpdateOverlay | src/components/studio/video-overlays-panel.tsx:123-127 | update by `_uiId`; identifiers stay unique |
| VideoOverlays.VideoOverlaysPanel.RemoveOverlay | src/components/studio/video-overlays-panel.tsx:129-131 | remove by `_uiId`; identifiers stay unique |
| VideoOverlays.VideoOverlaysPanel.ToggleTypography | src/components/studio/video-overlays-panel.tsx:358-386 | the toggled item stores the toggled tag list in `typography` and keeps its other fields; every other item is unchanged |

## Left out

- Rendering (JSX, widgets, icons, styles) and the values widgets display; only what handlers write is modelled.
- React scheduling (`useState`, `useEffect` timing, re-renders): the overlay list is a class field and publishing is a function of the current list.
- A handler reads the `transforms` prop it was rendered with; the model applies each handler to the record it is given and does not model stale props between renders.
- `parseInt` and `Number` are parameters (the result the caller computes), except that `Number("")` is 0; NaN is a value of its own and its comparison semantics are not modelled.
- Slider values and numbers are reals; floating-point rounding is not modelled.
- `uuid()` is a parameter; its freshness is a precondition of adding and seeding.
- A field the source sets to `undefined` in an object literal is absent in the model: JavaScript's difference between a missing key and a key holding `undefined` is not kept.
- The `default: return` branches of both `addOverlay`s are unreachable for the four kinds and are not modelled.
- Image-overlay edits other than flip, colour and size (text, font, padding, alignment, bold/italic/strike, rotation, position, opacity, border, source) each spread a one-key patch through `UpdateOverlay` and are covered by `OverlayLists.UpdateWhere` without a function of their own.
- Video-overlay per-field edits other than the typography toggles are likewise plain `UpdateOverlay` patches.
- VideoOverlays.Tags: `overlay.typography || []` is modelled for a list or a missing field; a non-list value in `typography` is read as `[]`.
