# vue-audio: the cached download pipeline and the waveform drawer, in Dafny

This project models the two composables that hold the logic of vue-audio:

- `useCacheFile` (src/composables/cache-file.ts). Its `download` resolves one
  remote audio file through three cache tiers kept in a persistent key-value
  store (localforage). The tiers are the raw blob, its ArrayBuffer, and the
  normalised sample array stored as JSON text, each under a namespaced key.
  Only missing tiers are derived (fetch, byte materialisation, decode and
  normalise) and written back. The media metadata is recomputed from the
  blob every time. The `isDownloading` and `isCaching` flags are set along
  the way. The composable also exposes an object-URL handle over the blob and
  releases it on unmount.
- `useAudioCanvas` (src/composables/audio-canvas.ts). Its `draw` sizes the
  canvas, moves the origin to the middle, and emits one segment per sample.
  Each segment has a slot width of `offsetWidth / n`, an x of `i` slot
  widths, a non-linearly clamped height and a parity flag. The default
  segment drawer strokes a line and a half-circle arc whose side depends on
  the parity.

Files:

- `wrappers.dfy`: the Option type.
- `storage.dfy`: modules `Json` and `Storage`. `Json` holds the JSON
  document of the sample tier and the `Stringify`/`Parse` pair. `Storage`
  holds bytes, blobs, store values and `Get`.
- `cache_file.dfy`: module `CacheFile`. `DownloadRun` is the pipeline as a
  pure function, built from one function per tier. The class `CacheFile`
  holds the composable's refs as fields. Its `Download` method updates them
  step by step and is proved to end in `DownloadRun`'s state and effects.
- `cache_file_properties.dfy`: lemmas about `DownloadRun`.
- `audio_canvas.dfy`: module `AudioCanvas`. It holds the segment geometry as
  functions, the context and canvas as classes, and `Draw`, `DrawSegments`
  and `DrawLineSegment` as methods proved against `Segments` and `Render`.
- `audio_canvas_properties.dfy`: lemmas about the projection and the
  drawer.

How the model reads the source:

- Each `await` is one sequential step.
- The store is the map of entries as `download` finds it. Each `setItem` is
  fire-and-forget, so it is recorded as an issued write (a `SetItem` event)
  and not applied. `Committed` applies a log of issued writes in order.
  Within one download no stage reads a key that another stage wrote, because
  the three tier keys of one url are pairwise distinct (`TierKeysDistinct`).
- Every store read, store write, fetch, decode and flag assignment goes into
  the `effects` log, in order. This is how "no fetch", "no write" and
  "`isDownloading` never became true" are stated.
- The foreign calls become function-valued fields of `Options`: `fetch`, with
  the `response.blob()` of an ok response folded into its result, `decodeAudioData`, `normalizeAudioBuffer`,
  `parseBlob` and `generateMetadata`. Their results have abstract types
  (`AudioData`, `Tags`, `MetadataInit`). `Blob.arrayBuffer()` is the blob's
  own bytes.
- JavaScript truthiness is written out. `HasUrl` treats null and `""` as no
  url. A stored Blob or ArrayBuffer is a hit whatever its size. A sample
  text is a miss when it is absent, `null` or `[]` (`SamplesMissing`). An
  absent url renders as the text `null` in the namespaced key.
- The Web Audio API's `decodeAudioData` detaches the ArrayBuffer it is
  given. A detached buffer is modelled as one with no bytes (`Detached`),
  which the sample tier leaves in the `arrayBuffer` ref after a decode.
- Canvas numbers are `real`. The context is a class holding the log of
  commands it receives and the vertical offset of its origin. Setting a
  canvas's width or height resets its context's transform (HTML Living
  Standard, the canvas element). So `Draw` resets the origin before it
  translates.

Behaviours of the code that the model makes explicit:

- The clamp lets every height in `[0, H/2]` through unchanged and maps only
  heights above `H/2` to `H/4`, so it is not monotone (`ClampLaw`,
  `ClampDropsAboveHalf`).
- No empty-buffer guard is needed before drawing: with no samples the loop
  never runs and the non-finite slot width is never used (`DrawSegments`).
- The url `u + "/audioBuffer"` gets the same blob key as the sample-tier key
  of `u`, and likewise for `"/arrayBuffer"` (`TierKeysCollideAcrossUrls`).
  Within one tier, distinct urls get distinct keys (`BlobKeyInjective`,
  `TierKeysInjective`). The model does not reproduce what the source does
  once such a collision has put a value of the wrong kind under a key; see
  "Left out".
- A blob miss always fetches, even when the later tiers are stored
  (`MissingBlobFetchesOnce`). A stored ArrayBuffer is then preferred over
  the fresh blob's bytes (`ArrayBufferTierLaw`).
- After a decode, the `arrayBuffer` ref holds a detached, zero-length
  buffer; in the model the full bytes stay in the store (see "Left out")
  (`AudioBufferTierLaw`, `CommittedArrayBuffer`).
- A rejected `getItem` is not caught; see "Left out".

## Model

| member | source | states |
|---|---|---|
| `CacheFile.NamespacedName` | src/composables/cache-file.ts:22 | the blob key is the namespace, a `/`, then the url as a template literal renders it (null as `null`) |
| `CacheFileProperties.TierKeysDistinct` | src/composables/cache-file.ts:40-83 | the blob key, `key + "/arrayBuffer"` and `key + "/audioBuffer"` are pairwise distinct, so no stage can read another stage's write |
| `CacheFile.ArrayBufferKey` | src/composables/cache-file.ts:60-67 | no contract; the ArrayBuffer tier's key `${namespacedName}/arrayBuffer`. Its laws are `TierKeysDistinct`, `TierKeysInjective` and `TierKeysCollideAcrossUrls` |
| `CacheFile.AudioBufferKey` | src/composables/cache-file.ts:72-83 | no contract; the sample tier's key `${namespacedName}/audioBuffer`. Its laws are `TierKeysDistinct`, `TierKeysInjective` and `TierKeysCollideAcrossUrls` |
| `CacheFileProperties.BlobKeyInjective` | src/composables/cache-file.ts:22 | within one namespace, two non-empty urls with the same blob key are the same url |
| `CacheFileProperties.TierKeysInjective` | src/composables/cache-file.ts:61-83 | within one namespace, two non-empty urls with the same `/arrayBuffer` key, or the same `/audioBuffer` key, are the same url |
| `CacheFileProperties.TierKeysCollideAcrossUrls` | src/composables/cache-file.ts:22 | the blob key of `u + "/audioBuffer"` (or `"/arrayBuffer"`) equals the sample (or ArrayBuffer) tier key of `u` |
| `CacheFileProperties.EffectsUseTierKeys` | src/composables/cache-file.ts:40-87 | every store read and write `download` issues uses one of the three tier keys of `namespace/url` |
| `CacheFileProperties.MissingUrlFailsFirst` | src/composables/cache-file.ts:36-38 | with a null or empty url, `download` fails with no store read, fetch or write and no state change |
| `CacheFileProperties.FetchFailureWritesNothing` | src/composables/cache-file.ts:42-51 | on a blob miss with a non-ok response: the failure happens after exactly read, flag on, fetch, flag off; `isDownloading` is false; no write was issued; only `blob` and `isDownloading` changed |
| `CacheFileProperties.OutcomeLaw` | src/composables/cache-file.ts:35-93 | `download` fails for a missing url exactly when there is no url; it succeeds exactly when there is a url and either a stored blob or an ok response |
| `CacheFileProperties.StoredBlobSkipsFetch` | src/composables/cache-file.ts:40-59 | a stored blob is used; no fetch is issued, `isDownloading` is never set true and keeps its value, and the blob key is not written |
| `CacheFileProperties.MissingBlobFetchesOnce` | src/composables/cache-file.ts:42-58 | on a blob miss there is exactly one fetch, of the url, between `isDownloading` true and false; an ok body becomes the blob and is written to the blob key |
| `CacheFileProperties.ArrayBufferTierLaw` | src/composables/cache-file.ts:61-70 | the tier's bytes are the stored ArrayBuffer if there is one, even after a fresh download, and the blob's bytes otherwise; `/arrayBuffer` is written iff nothing was stored, and then with those bytes; every decode gets exactly those bytes |
| `CacheFileProperties.AbsentSamplesMiss` | src/composables/cache-file.ts:72-76 | example: an absent sample text reads as `[]` and so counts as a miss |
| `CacheFileProperties.AudioBufferTierLaw` | src/composables/cache-file.ts:72-87 | the `/audioBuffer` key is written iff the stored text is absent, null or empty; then the decoder runs exactly once, on the ArrayBuffer tier's bytes, the samples and their encoding are the normalised decode, and the `arrayBuffer` ref is left detached; otherwise nothing is decoded, the stored samples are used and the ref keeps the tier's bytes |
| `CacheFileProperties.SuccessRecomputesMetadata` | src/composables/cache-file.ts:89-92 | on success all three tiers are present, `isCaching` ends false, the last assignment is `isCaching = false`, and the metadata is `generateMetadata(parseBlob(blob))` |
| `CacheFileProperties.CommittedAppend` | src/composables/cache-file.ts:56-86 | letting two logs of issued writes land in order is letting their concatenation land |
| `CacheFileProperties.CommittedElsewhere` | src/composables/cache-file.ts:56-86 | a key that no issued write targets keeps its stored value |
| `CacheFileProperties.CommittedBlob` | src/composables/cache-file.ts:40-59 | after a successful download's writes land, the blob key holds the blob it ended with |
| `CacheFileProperties.CommittedArrayBuffer` | src/composables/cache-file.ts:61-70 | after a successful download's writes land, the `/arrayBuffer` key holds the ArrayBuffer tier's bytes, not the detached buffer the ref may end with |
| `CacheFileProperties.CommittedAudioBuffer` | src/composables/cache-file.ts:72-87 | after a successful download's writes land, the `/audioBuffer` text parses to the samples it ended with, if those are non-empty |
| `CacheFileProperties.DownloadIdempotent` | src/composables/cache-file.ts:40-92 | once a successful download's writes land, and its samples are non-empty, a second download only reads the three keys and clears `isCaching`: no fetch, no decode, no write; it ends in the first one's state with the `arrayBuffer` ref holding the stored bytes again, so exactly the same state when the first one did not decode |
| `CacheFileProperties.WarmStoreDoesNoWork` | src/composables/cache-file.ts:40-92 | with the blob, the ArrayBuffer and non-empty samples all stored, a download only reads the three keys and clears `isCaching`; it takes each stored value as it is and recomputes the metadata from the blob |
| `CacheFileProperties.NoDecodeKeepsBuffer` | src/composables/cache-file.ts:60-79 | a successful download that decoded nothing leaves the `arrayBuffer` ref holding the tier's bytes (stored buffer, else the blob's bytes) |
| `CacheFileProperties.EmptyStoreDerivesEverything` | src/composables/cache-file.ts:40-87 | with an empty store and an ok response, there is exactly one fetch and one decode (of the body's bytes), all three keys are written, the samples are the normalised decode, and the `arrayBuffer` ref ends detached |
| `CacheFile.HasUrl` | src/composables/cache-file.ts:36 | no contract; `!options.url` written out: null and `""` are no url. Its laws are `MissingUrlFailsFirst` and `OutcomeLaw` |
| `CacheFile.UrlText` | src/composables/cache-file.ts:22 | no contract; the template-literal text of the url. Its laws are `NamespacedName`'s ensures and `BlobKeyInjective` |
| `CacheFile.InitialState` | src/composables/cache-file.ts:24-31 | no contract; the initial ref values. `CacheFile.CacheFile.constructor` is proved to start in it |
| `CacheFile.AsBlob` | src/composables/cache-file.ts:40-42 | a stored value reads as a blob exactly when it is a Blob |
| `CacheFile.AsBuffer` | src/composables/cache-file.ts:61-63 | a stored value reads as an ArrayBuffer exactly when it is one |
| `CacheFile.StoredText` | src/composables/cache-file.ts:72-73 | an absent text reads as `"[]"` (`?? "[]"`) |
| `CacheFile.SamplesMissing` | src/composables/cache-file.ts:76 | no contract; the samples are null or of length 0, as the guard at that line tests. Its law is `AudioBufferTierLaw` |
| `CacheFile.DownloadRun` | src/composables/cache-file.ts:35-93 | a missing url changes nothing and issues nothing; a success leaves all three tiers and the media metadata set and `isCaching` false. Its laws are the `CacheFileProperties` lemmas, and `CacheFile.CacheFile.Download` is proved equal to it |
| `CacheFile.Committed` | src/composables/cache-file.ts:56-86 | letting issued writes land never removes a key. Its laws are `CommittedAppend`, `CommittedElsewhere` and `CommittedLastWrite` |
| `CacheFileProperties.CommittedLastWrite` | src/composables/cache-file.ts:56-86 | a log that ends by writing `v` to `k` leaves `v` at `k` |
| `CacheFileProperties.TierBytes` | src/composables/cache-file.ts:61-65 | no contract; the ArrayBuffer tier's bytes, the stored buffer or else the blob's. Its laws are `ArrayBufferTierLaw` and `CommittedArrayBuffer` |
| `Storage.Get` | src/composables/cache-file.ts:40 | `getItem` yields a value exactly when the key is stored, and then the stored value |
| `CacheFile.BlobTier` | src/composables/cache-file.ts:40-59 | the blob step never reports a missing url, and when it succeeds there is a blob |
| `CacheFile.ArrayBufferTier` | src/composables/cache-file.ts:61-70 | the ArrayBuffer step always leaves an ArrayBuffer and keeps the blob |
| `CacheFile.AudioBufferTier` | src/composables/cache-file.ts:72-87 | the sample step keeps the blob, and it either keeps the `arrayBuffer` ref or leaves it detached |
| `CacheFile.MetadataStep` | src/composables/cache-file.ts:89-92 | the metadata step keeps the three tiers |
| `CacheFile.ObjectUrlOf` | src/composables/cache-file.ts:33 | there is an object URL exactly when there is a blob, and it is over that blob |
| `CacheFile.CacheFile.constructor` | src/composables/cache-file.ts:21-31 | the refs start as null, `audioBuffer` as `[]` and both flags as false; the release hook is registered exactly when an `onUnmounted` was given |
| `CacheFile.CacheFile.Url` | src/composables/cache-file.ts:33 | the `url` handle is null exactly when `blob` is null |
| `CacheFile.CacheFile.Download` | src/composables/cache-file.ts:35-93 | the method's result, new fields and appended effects are `DownloadRun`'s for the old fields and the store |
| `CacheFile.CacheFile.LoadBlob` | src/composables/cache-file.ts:40-59 | the blob steps update the fields and effects as `BlobTier` says |
| `CacheFile.CacheFile.LoadArrayBuffer` | src/composables/cache-file.ts:61-70 | the ArrayBuffer steps update the fields and effects as `ArrayBufferTier` says |
| `CacheFile.CacheFile.LoadAudioBuffer` | src/composables/cache-file.ts:72-87 | the sample steps update the fields and effects as `AudioBufferTier` says, including detaching the ArrayBuffer after a decode |
| `CacheFile.CacheFile.LoadMetadata` | src/composables/cache-file.ts:89-92 | the metadata steps update the fields and effects as `MetadataStep` says |
| `CacheFile.CacheFile.Unmount` | src/composables/cache-file.ts:95-101 | with the hook registered, the URL revoked is the current handle, and nothing is revoked when it is null; without the hook nothing is revoked |
| `Json.Parse` | src/composables/cache-file.ts:72-74 | parsing gives null exactly for the `null` document |
| `Json.Stringify` | src/composables/cache-file.ts:83 | stringifying samples gives an array document |
| `Json.ParseStringify` | src/composables/cache-file.ts:72-83 | the sample text written at line 83 parses back, as at lines 72-74, to exactly the samples written |
| `Json.StringifyParse` | src/composables/cache-file.ts:72-83 | an array document is the encoding of the samples it parses to |
| `AudioCanvas.ClampHeight` | src/composables/audio-canvas.ts:53-59 | no contract; the clamp. Its laws are `ClampLaw` and `ClampDropsAboveHalf` |
| `AudioCanvas.IsEvenSlot` | src/composables/audio-canvas.ts:61 | no contract; `!!((i + 1) % 2)`. Its law is `IsEvenSlotIffEven` |
| `AudioCanvas.Samples` | src/composables/audio-canvas.ts:47 | no contract; the samples, with null read as empty. `Draw`'s ensures use it |
| `AudioCanvas.SegmentAt` | src/composables/audio-canvas.ts:49-61 | no contract; segment `i`'s arguments. Its law is `SegmentsLaw`, and `ProjectSample` is proved equal to it |
| `AudioCanvas.DefaultSegment` | src/composables/audio-canvas.ts:22-33 | no contract; the default drawer's commands. Its law is `DefaultSegmentGeometry`, and `DrawLineSegment` is proved to append them |
| `AudioCanvas.SegmentCommands` | src/composables/audio-canvas.ts:61 | no contract; one segment's drawing, by the custom or the default drawer. Its laws are `CustomDrawerCalledPerSegment` and `DefaultDrawerPerSegment` |
| `AudioCanvas.Render` | src/composables/audio-canvas.ts:51-62 | no contract; a row of segments drawn in order. `DrawSegments` is proved to append it; its laws are `RenderStep`, `DefaultDrawerPerSegment` and `DrawnTip` |
| `AudioCanvas.RenderStep` | src/composables/audio-canvas.ts:51-62 | drawing one more segment appends exactly that segment's commands |
| `AudioCanvas.Segments` | src/composables/audio-canvas.ts:47-61 | there is one segment per sample |
| `AudioCanvas.Draw` | src/composables/audio-canvas.ts:35-46 | nothing changes without a parent element or a canvas; otherwise the canvas gets the parent's width and height `H + 20`; with a context, it receives a clear, a translate by `(H + 20) / 2`, then the rendered segments of the samples (null read as empty), and its origin ends at `(H + 20) / 2` |
| `AudioCanvas.DrawSegments` | src/composables/audio-canvas.ts:47-62 | the loop appends exactly the commands of `Segments`, in index order, and leaves the origin alone |
| `AudioCanvas.ProjectSample` | src/composables/audio-canvas.ts:52-61 | the body of the loop computes segment `i` of `Segments` |
| `AudioCanvas.DrawSegment` | src/composables/audio-canvas.ts:61 | one segment: a caller-supplied drawer is one recorded call with the segment and the colour, otherwise the default drawer's commands; the origin is left alone |
| `AudioCanvas.DrawLineSegment` | src/composables/audio-canvas.ts:22-33 | the default drawer appends its eight commands with `y` negated for odd slots |
| `AudioCanvasProperties.ClampLaw` | src/composables/audio-canvas.ts:53-59 | for `H >= 0`: a negative height becomes 0, one above `H/2` becomes `H/4`, others pass through, and every result is in `[0, H/2]` |
| `AudioCanvasProperties.ClampDropsAboveHalf` | src/composables/audio-canvas.ts:55-59 | the clamp is not monotone: `0.75 H` is drawn lower than `0.5 H` |
| `AudioCanvasProperties.IsEvenSlotIffEven` | src/composables/audio-canvas.ts:61 | the parity flag is true exactly for even indices |
| `AudioCanvasProperties.SegmentsLaw` | src/composables/audio-canvas.ts:49-61 | segment `i` has slot width `offsetWidth / n`, x at `i` slot widths, the clamped height of `buffer[i] * H`, and the flag true iff `i` is even |
| `AudioCanvasProperties.FiveSlotsOfTwenty` | src/composables/audio-canvas.ts:49-52 | example of `SegmentsLaw`: five samples across 100 give slots of 20, with segment `i` at `20 i` |
| `AudioCanvasProperties.FourSamplesAlternate` | src/composables/audio-canvas.ts:61 | example of `SegmentsLaw`: of four segments, 0 and 2 are flagged even and 1 and 3 are not |
| `AudioCanvasProperties.CustomDrawerCalledPerSegment` | src/composables/audio-canvas.ts:61 | a caller's drawer is called once per segment, in order, with that segment's arguments and nothing else is drawn |
| `AudioCanvasProperties.DefaultDrawerPerSegment` | src/composables/audio-canvas.ts:51-61 | with the default drawer, block `i` of eight commands is segment `i`'s drawing |
| `AudioCanvasProperties.DefaultSegmentGeometry` | src/composables/audio-canvas.ts:26-31 | the stroke goes from `(x, 0)` to `y`, or `-y` when odd; the arc is centred at `x + width/2` with radius `width/2` and sweeps by the parity; the path ends at `(x + width, 1)` |
| `AudioCanvasProperties.DrawnTip` | src/composables/audio-canvas.ts:27-29 | in the rendered row, segment `i`'s stroke reaches its height, negated when its flag is false |
| `AudioCanvasProperties.DrawnSidesAlternate` | src/composables/audio-canvas.ts:51-61 | for `H >= 0` the default drawer takes even slots to one side and odd slots to the other, each by its clamped height, which lies in `[0, H/2]` |

## Left out

- src/composables/audio.ts, src/index.ts and src/main.ts are not part of this model. They hold the playback glue over the browser's audio element, plugin registration and app mount.
- Exceptions raised inside `fetch`, `response.blob()`, `decodeAudioData`, `parseBlob`, a rejected `getItem`, and `JSON.parse` of text that is not JSON all propagate out of `download` uncaught. The model has no such path.
- A store value of the wrong kind under a tier key is read by the model as a miss: it derives that tier again and issues a write over the entry. Such a value only arises when another url's entry lands on the key (the collision above). The source does something different for each key, none of which is modelled:
  - A text or ArrayBuffer under the blob key is truthy, so the source uses it as the blob. It then fails in `blob.arrayBuffer()` at cache-file.ts:65, or in `parseBlob` at :89.
  - A Blob or ArrayBuffer under `/audioBuffer` makes `JSON.parse` at :72-74 throw, because its string form (`"[object Blob]"`) is not JSON.
  - A Blob or non-empty text under `/arrayBuffer` is truthy, so the source takes it as a hit at :63 and writes nothing. It then fails in `decodeAudioData` at :79, but only on a sample miss. Otherwise `download` succeeds with the ref holding that value.
- The text of the sample tier is represented by the JSON document it denotes, either `null` or an array of numbers. Other JSON values (numbers, strings, objects) that `JSON.parse` can return are not modelled.
- `Json.Stringify`: samples are reals, so the model has no NaN or ±Infinity. `JSON.stringify` writes those as `null`, so samples from a normaliser that yields them (for example by dividing by a zero peak) do not parse back to themselves, and `Json.ParseStringify` and `CacheFileProperties.DownloadIdempotent` do not hold for them in the source.
- The write of the ArrayBuffer tier is recorded with the bytes it is issued with. Whether localforage copies the buffer before the later decode detaches it is not modelled.
- The promises of the un-awaited `setItem` calls, including their completion order and failures, are not modelled. A write is recorded as issued at its step.
- Overlapping `download` calls racing on one key are not modelled. This is concurrency, not pipeline logic.
- Vue reactivity is not modelled: refs becoming visible to watchers, and `computed` caching or recomputing the object URL.
- `URL.createObjectURL` is modelled as a handle over its blob, and `URL.revokeObjectURL` by the handle `Unmount` returns.
- `console.debug` and `console.warn` are logging only. The warning for a missing `onUnmounted` is modelled only as the release hook not being registered.
- Canvas pixels and floating-point rounding are not modelled; numbers are reals.
- The canvas element converts the assigned height (`options.height + 20`) to an integer. That is not modelled, and the model stores the real value.
- `offsetWidth` is a fixed input, so layout changes caused by resizing the canvas are not modelled.
- Of the context's state, only the commands it receives and its origin offset are modelled. The line width and stroke colour appear as commands.
- What a caller-supplied segment drawer draws is the caller's code. It is recorded as one call with its arguments.
- `AudioCanvas.Draw`: the final origin `(H + 20) / 2` assumes that a caller-supplied drawer leaves the context's transform alone. At audio-canvas.ts:61 the drawer is handed the context, and it may call `translate` or `setTransform`. `AudioCanvas.DrawSegments`' unchanged origin rests on the same assumption.
- `AudioCanvas.DrawSegment`: its unchanged origin assumes that a caller-supplied drawer leaves the context's transform alone. At audio-canvas.ts:61 that drawer receives the context, and the model records it as one command that cannot move the origin.
- The `samples` option is not read by `draw`, and the model carries it unused.
- `AudioCanvasProperties.ClampLaw`: the `[0, H/2]` bound is stated only for a non-negative configured height. With `H < 0`, a non-negative derived height becomes `H/4`, which is negative.
