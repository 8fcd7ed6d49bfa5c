# Weather map viewer: frame sequencing and option updates

This project models the state logic of the top-level weather map view
(`WeatherMapClient`). The view holds six state cells: the fetched
weather-maps payload, the list of map frames, the animation position, the
playing flag, the options record and the timestamp label. The timestamp
label is left out; the model has the other five. The handlers update these
cells:

- the fetch callback stores the payload and sequences it;
- `initialize` builds the frame list. With kind `satellite` and an infrared
  list present it uses that list. Otherwise it uses radar `past` followed by
  `nowcast`. It moves the position to the last observed frame;
- `handleUpdateOptions` merges a partial options record, pins the colour
  scheme to 2, and re-sequences when data is held;
- play/stop, previous-frame and next-frame.

Modules:

- `Wrappers`: an `Option` type standing for a property that may be absent.
- `Frames` (`frames.dfy`): frames, the payload's three optional lists and the
  sequencer `Sequence`. Its contract regroups the result into `Observed` and
  `Forecast` frames. The branch promises themselves are stated against the
  payload's own fields by `InfraredSequence`, `RadarSequence` and
  `StartIsBoundary`.
- `ViewOptions` (`options.dfy`): the options record, partial updates (`OptionsPatch`),
  `Merge` and the kind used for re-sequencing (`EffectiveKind`).
- `WeatherMap` (`client.dfy`): a `State` snapshot, the handlers as `Event`s, their
  pure effect `Step`, and runs of handlers `Run`. The class
  `WeatherMapClient` has one field per state cell and one method per handler.
  Each handler method is proved to have exactly the effect `Step` gives.
  The exception is `Initialize`, which is not a handler: it is proved equal
  to the pure function `Initialized`. The lemmas are about runs of handlers:
  playback arithmetic, the pinned colour scheme, and the frames staying in
  step with the data and kind. That last property holds with the corrected
  fetch callback only; the callback as written breaks it (see ## Findings).

The payload is untyped JSON in the source. Here it is reduced to the three
lists the sequencer reads. A list counts as present when it exists, even if
it is empty: an empty array is truthy in JavaScript, so `Some([])` selects its
branch. On the satellite branch that makes the start position -1.

When a payload has no usable branch, the frame list is emptied but the
position is not reset: it keeps its old value (`NoBranchEmpties`,
`Initialized`). The model follows the code here, not a reset to 0.

## Model

| member | source | states |
|---|---|---|
| `Frames.Sequence` | src/components/WeatherMapClient.tsx:39-53 | the frames are the observed frames followed by the forecast frames; the start is the last observed index; the position is left alone exactly when no branch applies |
| `Frames.InfraredSequence` | src/components/WeatherMapClient.tsx:40-43 | kind satellite with infrared present: the frames are the infrared list as given, starting at its last index |
| `Frames.RadarSequence` | src/components/WeatherMapClient.tsx:44-51 | radar branch: the frames are `past ++ nowcast` (just `past` without nowcast), starting at `|past| - 1` |
| `Frames.SatelliteFallsBackToRadar` | src/components/WeatherMapClient.tsx:40-44 | kind satellite without infrared gives exactly the radar result |
| `Frames.OnlySatelliteKindMatters` | src/components/WeatherMapClient.tsx:40 | any two kinds that are both not "satellite" give the same result |
| `Frames.NoBranchEmpties` | src/components/WeatherMapClient.tsx:39-53 | with neither branch applicable the list is emptied and the position is not reset |
| `Frames.StartIsBoundary` | src/components/WeatherMapClient.tsx:42-51 | frames up to the start are observed frames, frames after it are forecast frames; the start indexes a frame iff the observed list is non-empty |
| `Frames.InfraredStartIsLast` | src/components/WeatherMapClient.tsx:41-43 | on the satellite branch the start is the last index of the frame list |
| `ViewOptions.InitialOptions` | src/components/WeatherMapClient.tsx:18-25 | the view starts with kind radar and colour scheme 2 |
| `ViewOptions.Merge` | src/components/WeatherMapClient.tsx:57-61 | each field named by the patch takes the new value, every other field keeps the old one, the colour scheme is always 2 |
| `ViewOptions.EffectiveKind` | src/components/WeatherMapClient.tsx:63 | the kind used for re-sequencing is the patch's kind or the previous kind, and is empty only if the previous kind was |
| `ViewOptions.EffectiveKindIsMergedKind` | src/components/WeatherMapClient.tsx:56-63 | for a patch not naming the empty kind, the kind re-sequenced with equals the kind stored |
| `ViewOptions.EmptyKindFallsBack` | src/components/WeatherMapClient.tsx:59-63 | a patch naming the empty kind stores it, but re-sequencing uses the previous kind |
| `ViewOptions.MergeIdempotent` | src/components/WeatherMapClient.tsx:56-61 | applying the same update twice equals applying it once (so the colour scheme stays 2) |
| `ViewOptions.SchemeChoiceIsOverwritten` | src/components/Controls.tsx:48-53 | a colour-scheme choice from the controls changes no field but writes 2 as the scheme |
| `ViewOptions.KindChoiceChangesKind` | src/components/Controls.tsx:61-62 | a kind choice from the controls changes only the kind, and pins the scheme |
| `WeatherMap.Initialized` | src/components/WeatherMapClient.tsx:36-54 | without a payload nothing changes; otherwise the frames are re-sequenced and the position moves to the last observed frame, or stays when no branch applies; data, playing flag and options are untouched |
| `WeatherMap.WeatherMapClient.constructor` | src/components/WeatherMapClient.tsx:14-25 | the initial state cells: no data, no frames, position 0, stopped, initial options |
| `WeatherMap.WeatherMapClient.Initialize` | src/components/WeatherMapClient.tsx:36-54 | the imperative `initialize` has exactly the effect of `Initialized`, including the no-payload early return |
| `WeatherMap.WeatherMapClient.DataArrived` | src/components/WeatherMapClient.tsx:30-33 | the fetch callback (corrected, see ## Findings) stores the payload and leaves the frames in step with it and the selected kind |
| `WeatherMap.WeatherMapClient.UpdateOptions` | src/components/WeatherMapClient.tsx:56-65 | options become the merge with the scheme pinned; re-sequencing happens only with data held, using the pre-update kind as fallback; playing flag untouched |
| `WeatherMap.WeatherMapClient.PlayStop` | src/components/WeatherMapClient.tsx:72 | flips the playing flag and changes nothing else |
| `WeatherMap.WeatherMapClient.PrevFrame` | src/components/WeatherMapClient.tsx:73 | the position decreases by exactly one, unchecked |
| `WeatherMap.WeatherMapClient.NextFrame` | src/components/WeatherMapClient.tsx:74 | the position increases by exactly one, unchecked |
| `WeatherMap.SteppingLeavesRange` | src/components/WeatherMapClient.tsx:73-74 | next from the last frame, or prev from the first, leaves the frame list |
| `WeatherMap.PlaybackRun` | src/components/WeatherMapClient.tsx:72-74 | over any run of playback buttons: data, frames and options unchanged; position moves by #next - #prev; playing flag flipped iff play/stop was pressed an odd number of times |
| `WeatherMap.PlaybackRunInRange` | src/components/WeatherMapClient.tsx:72-74 | after such a run the position indexes a frame iff the start plus the net step count lies inside the list |
| `WeatherMap.PlayStopRunKeepsPosition` | src/components/WeatherMapClient.tsx:72-74 | a run of play/stop presses with no prev or next leaves the position where it was |
| `WeatherMap.PlaybackRunDrift` | src/components/WeatherMapClient.tsx:72-74 | a run of playback presses moves the position by at most its length in either direction |
| `WeatherMap.StepKeepsConsistent` | src/components/WeatherMapClient.tsx:30-74 | with the corrected fetch callback (see ## Findings), every handler reachable from the controls keeps the frames equal to the sequencer's result for the held data and kind, and keeps the scheme at 2 |
| `WeatherMap.RunKeepsConsistent` | src/components/WeatherMapClient.tsx:30-74 | with the corrected fetch callback (see ## Findings), the same holds after any run of such handlers |
| `WeatherMap.ReachableIsConsistent` | src/components/WeatherMapClient.tsx:14-74 | with the corrected fetch callback (see ## Findings), every state reachable from mount through the controls is consistent |
| `WeatherMap.SchemeChoiceResequences` | src/components/WeatherMapClient.tsx:56-64 | choosing a colour scheme with data loaded keeps kind and frames, writes scheme 2, keeps playing, and moves the position back to the last observed frame |
| `WeatherMap.KindChoiceKeepsPlaying` | src/components/WeatherMapClient.tsx:56-64 | choosing a kind does not stop playback and re-sequences for the new kind when data is held |
| `WeatherMap.DataArrivedAsWritten` | src/components/WeatherMapClient.tsx:27-34 | the fetch callback as written sequences with the mount-time kind "radar" |
| `WeatherMap.StaleKindShowsRadarFrames` | src/components/WeatherMapClient.tsx:27-34 | as written, picking satellite before the data arrives leaves kind satellite with radar frames shown |
| `WeatherMap.DataArrivedSyncs` | src/components/WeatherMapClient.tsx:30-33 | the corrected callback leaves the frames equal to the sequencer's result for the selected kind |

## Findings

| source | as written | input that shows it | evidently intended | confidence | as-written member | corrected member |
|---|---|---|---|---|---|---|
| src/components/WeatherMapClient.tsx:27-34 | the fetch callback is registered once at mount (empty dependency list) and reads `options.kind` from the first render, which is always "radar" | choose "satellite" before the fetch resolves, then receive a payload with both `radar.past` and `satellite.infrared`: kind is "satellite" but the radar frames are shown | sequence with the kind selected when the data arrives | medium; not executed | `WeatherMap.StaleKindShowsRadarFrames` | `WeatherMap.DataArrivedSyncs` |

The rest of the model (`Step`, `WeatherMapClient.DataArrived`) uses the
corrected callback.

## Left out

- The network fetch and its promise chain. They are I/O. Their effect is the `DataArrived` method, which receives the parsed payload.
- A JSON `null` body from the fetch. The callback is modelled as always receiving a payload object.
- Arbitrary untyped JSON. Only the three optional frame lists are modelled; frames are opaque (time, path).
- A patch key that is present with the value `undefined`. A patch field is either named with a value or absent.
- React rendering, the dynamic map import and the map component. They are UI and a library collaborator.
- The playback timer and its wrap-around. They live in the map component, which is not part of this model.
- The timestamp label built from the wall clock. It is set by the map component.
- React's asynchronous, batched state updates. Each handler is one sequential step; `UpdateOptions` reads the pre-update kind, as the source's closure does.
- The controls' layout, icons and colour-scheme table. They are presentation. Only the patches the controls send are modelled (`KindChoice`, `SchemeChoice`).
- `DataArrived`: uses the corrected fetch callback, which sequences with the kind selected when the data arrives. The callback as written uses the mount-time kind and does not keep the frames in step (`DataArrivedAsWritten`, `StaleKindShowsRadarFrames`).
- `StepKeepsConsistent`: holds for the corrected fetch callback only, for the same reason as `DataArrived`.
- `RunKeepsConsistent`: holds for the corrected fetch callback only, for the same reason as `DataArrived`.
- `ReachableIsConsistent`: holds for the corrected fetch callback only, for the same reason as `DataArrived`.
- `StepKeepsConsistent`: assumes the controls never send the empty kind. A patch naming `""` stores it but re-sequences with the old kind (`EmptyKindFallsBack`), so the frames can disagree with the stored kind.
