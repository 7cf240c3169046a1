/**
 * `useCacheFile` (src/composables/cache-file.ts): a three-tier cache of one
 * remote audio file. `Download` looks up the raw blob, its ArrayBuffer and
 * the normalised sample array, each under its own namespaced key, and
 * derives (and writes back) only the tiers it does not find; the metadata
 * is recomputed from the blob every time.
 *
 * Every `await` is one sequential step. The pipeline is given first as the
 * pure function `DownloadRun`, stage by stage, and then as the class
 * `CacheFile`, whose `Download` method updates the fields step by step and
 * is proved to end in the state `DownloadRun` describes.
 */
module CacheFile {
  import opened Wrappers
  import opened Storage
  import Json

  /** The decoded audio that `decodeAudioData` returns (an AudioBuffer). */
  type AudioData
  /** The tags that `parseBlob` extracts (IAudioMetadata). */
  type Tags
  /** What the caller's `generateMetadata` builds (MediaMetadataInit). */
  type MetadataInit

  /** A `fetch` response: ok with its body, or not ok. */
  datatype Response = Ok(body: Blob) | NotOk

  /** `new MediaMetadata(init)`. */
  datatype MediaMetadata = MediaMetadata(init: MetadataInit)

  /** The handle `URL.createObjectURL(blob)` returns. */
  datatype ObjectUrl = ObjectUrl(target: Blob)

  /** The options of `useCacheFile`; the browser and library calls the
      pipeline makes are given as functions. */
  datatype Options = Options(
    url: Option<string>,
    namespace: string,
    fetch: string -> Response,
    decodeAudioData: seq<byte> -> AudioData,
    normalizeAudioBuffer: AudioData -> seq<real>,
    parseBlob: Blob -> Tags,
    generateMetadata: Option<Tags> -> MetadataInit,
    hasUnmountHook: bool)

  /** `options.url` is truthy: neither null nor the empty string. */
  predicate HasUrl(url: Option<string>)
  {
    url.Some? && url.value != ""
  }

  /** The url as a template literal renders it (`null` becomes "null"). */
  function UrlText(url: Option<string>): string
  {
    if url.Some? then url.value else "null"
  }

  /** `${namespace}/${url}`, the key of the blob tier. */
  function NamespacedName(namespace: string, url: Option<string>): (k: string)
    ensures |k| == |namespace| + 1 + |UrlText(url)|
    ensures k[..|namespace|] == namespace && k[|namespace|] == '/'
    ensures k[|namespace| + 1..] == UrlText(url)
  {
    namespace + "/" + UrlText(url)
  }

  function ArrayBufferKey(key: string): string
  {
    key + "/arrayBuffer"
  }

  function AudioBufferKey(key: string): string
  {
    key + "/audioBuffer"
  }

  /** One of the three tier keys of the resource whose blob key is `key`. */
  predicate IsTierKey(key: string, k: string)
  {
    k == key || k == ArrayBufferKey(key) || k == AudioBufferKey(key)
  }

  /** The refs that `useCacheFile` returns. */
  datatype State = State(
    blob: Option<Blob>,
    arrayBuffer: Option<seq<byte>>,
    audioBuffer: Option<seq<real>>,
    audioMetadata: Option<Tags>,
    mediaMetadata: Option<MediaMetadata>,
    isDownloading: bool,
    isCaching: bool)

  /** The refs as they are created; `audioBuffer` starts as `[]`. */
  function InitialState(): State
  {
    State(None, None, Some([]), None, None, false, false)
  }

  /** What `Download` did that the outside can observe, in order: store reads
      and (issued, not awaited) store writes, calls into the network and the
      decoder, and every assignment to the two flags. */
  datatype Event =
    | GetItem(key: string)
    | SetItem(key: string, value: Value)
    | Fetch(url: string)
    | Decode(input: seq<byte>)
    | Downloading(on: bool)
    | Caching(on: bool)

  /** How `download` ends: it resolves, or it throws one of its two errors. */
  datatype Outcome = Success | MissingSource | FetchFailed

  /** One stage's (or the whole pipeline's) outcome, final state and events. */
  datatype Run = Run(outcome: Outcome, state: State, effects: seq<Event>)

  /** A stored value read as a Blob; anything else is a miss. */
  function AsBlob(v: Option<Value>): (b: Option<Blob>)
    ensures b.Some? <==> v.Some? && v.value.BlobItem?
  {
    match v
    case Some(BlobItem(blob)) => Some(blob)
    case _ => None
  }

  /** A stored value read as an ArrayBuffer; anything else is a miss. */
  function AsBuffer(v: Option<Value>): (b: Option<seq<byte>>)
    ensures b.Some? <==> v.Some? && v.value.BufferItem?
  {
    match v
    case Some(BufferItem(bytes)) => Some(bytes)
    case _ => None
  }

  /** `getItem(...) ?? "[]"`: the stored text, or the empty array. */
  function StoredText(v: Option<Value>): (d: Json.Document)
    ensures v.None? ==> d == Json.EmptyArray
  {
    match v
    case Some(TextItem(d)) => d
    case _ => Json.EmptyArray
  }

  /** What a detached ArrayBuffer reads as: no bytes. */
  const Detached: seq<byte> := []

  /** `!audioBuffer || audioBuffer.length === 0`. */
  predicate SamplesMissing(samples: Option<seq<real>>)
  {
    samples.None? || samples.value == []
  }

  /** Lines 40-59: the blob tier. On a miss, fetch with `isDownloading` set
      around the call; a non-ok response throws; otherwise the body becomes
      the blob and is written back. */
  function BlobTier(o: Options, store: Store, key: string, s: State): (r: Run)
    requires HasUrl(o.url)
    ensures r.outcome != MissingSource
    ensures r.outcome == Success ==> r.state.blob.Some?
  {
    var stored := AsBlob(Get(store, key));
    var read := [GetItem(key)];
    if stored.Some? then
      Run(Success, s.(blob := stored), read)
    else
      var fetched := read + [Downloading(true), Fetch(o.url.value), Downloading(false)];
      match o.fetch(o.url.value)
      case NotOk =>
        Run(FetchFailed, s.(blob := None, isDownloading := false), fetched)
      case Ok(body) =>
        Run(Success, s.(blob := Some(body), isDownloading := false, isCaching := true),
            fetched + [Caching(true), SetItem(key, BlobItem(body))])
  }

  /** Lines 61-70: the ArrayBuffer tier, derived from the blob on a miss. */
  function ArrayBufferTier(store: Store, key: string, s: State): (r: Run)
    requires s.blob.Some?
    ensures r.outcome == Success && r.state.arrayBuffer.Some?
    ensures r.state.blob == s.blob
  {
    var stored := AsBuffer(Get(store, ArrayBufferKey(key)));
    var read := [GetItem(ArrayBufferKey(key))];
    if stored.Some? then
      Run(Success, s.(arrayBuffer := stored), read)
    else
      var bytes := s.blob.value.bytes;
      Run(Success, s.(arrayBuffer := Some(bytes), isCaching := true),
          read + [Caching(true), SetItem(ArrayBufferKey(key), BufferItem(bytes))])
  }

  /** Lines 72-87: the sample tier. A stored text that is absent, `null` or
      `[]` is a miss: decode the ArrayBuffer, normalise, write the text.
      The Web Audio API's `decodeAudioData` detaches the ArrayBuffer it is
      given, so after a decode the `arrayBuffer` ref holds a zero-length
      buffer. */
  function AudioBufferTier(o: Options, store: Store, key: string, s: State): (r: Run)
    requires s.arrayBuffer.Some?
    ensures r.outcome == Success && r.state.blob == s.blob
    ensures r.state.arrayBuffer == s.arrayBuffer || r.state.arrayBuffer == Some(Detached)
  {
    var stored := Json.Parse(StoredText(Get(store, AudioBufferKey(key))));
    var read := [GetItem(AudioBufferKey(key))];
    if SamplesMissing(stored) then
      var input := s.arrayBuffer.value;
      var samples := o.normalizeAudioBuffer(o.decodeAudioData(input));
      Run(Success, s.(audioBuffer := Some(samples), arrayBuffer := Some(Detached), isCaching := true),
          read + [Caching(true), Decode(input),
                  SetItem(AudioBufferKey(key), TextItem(Json.Stringify(samples)))])
    else
      Run(Success, s.(audioBuffer := stored), read)
  }

  /** Lines 89-92: metadata from the blob, then `isCaching` is cleared. */
  function MetadataStep(o: Options, s: State): (r: Run)
    requires s.blob.Some?
    ensures r.outcome == Success && r.state.blob == s.blob
    ensures r.state.arrayBuffer == s.arrayBuffer && r.state.audioBuffer == s.audioBuffer
  {
    var tags := o.parseBlob(s.blob.value);
    Run(Success,
        s.(audioMetadata := Some(tags),
           mediaMetadata := Some(MediaMetadata(o.generateMetadata(Some(tags)))),
           isCaching := false),
        [Caching(false)])
  }

  /** `download()` started in state `s` against the store contents `store`. */
  function DownloadRun(o: Options, store: Store, s: State): (r: Run)
    ensures r.outcome == MissingSource ==> r.state == s && r.effects == []
    ensures r.outcome == Success ==>
      && r.state.blob.Some? && r.state.arrayBuffer.Some? && r.state.audioBuffer.Some?
      && r.state.mediaMetadata.Some? && !r.state.isCaching
  {
    if !HasUrl(o.url) then
      Run(MissingSource, s, [])
    else
      var key := NamespacedName(o.namespace, o.url);
      var b := BlobTier(o, store, key, s);
      if b.outcome != Success then b
      else
        var a := ArrayBufferTier(store, key, b.state);
        var u := AudioBufferTier(o, store, key, a.state);
        var m := MetadataStep(o, u.state);
        Run(Success, m.state, b.effects + a.effects + u.effects + m.effects)
  }

  /** The `url` computed: an object URL exactly when there is a blob. */
  function ObjectUrlOf(blob: Option<Blob>): (u: Option<ObjectUrl>)
    ensures u.None? <==> blob.None?
    ensures u.Some? ==> u.value.target == blob.value
  {
    if blob.Some? then Some(ObjectUrl(blob.value)) else None
  }

  /** The store after every write in `effects` has landed, in issue order. */
  function Committed(store: Store, effects: seq<Event>): (landed: Store)
    ensures forall k :: k in store ==> k in landed
    decreases |effects|
  {
    if effects == [] then store
    else
      var next := match effects[0]
        case SetItem(k, v) => store[k := v]
        case _ => store;
      Committed(next, effects[1..])
  }

  /** The object `useCacheFile` returns, with its refs as fields. */
  class CacheFile {
    const options: Options
    const namespacedName: string := NamespacedName(options.namespace, options.url)
    /** Whether an `onUnmounted` hook was given, so that the release runs. */
    const releaseHookRegistered: bool

    var isDownloading: bool
    var isCaching: bool
    var blob: Option<Blob>
    var arrayBuffer: Option<seq<byte>>
    var audioBuffer: Option<seq<real>>
    var audioMetadata: Option<Tags>
    var mediaMetadata: Option<MediaMetadata>
    /** Everything observable that `Download` has done so far. */
    var effects: seq<Event>

    ghost function Snapshot(): State
      reads this
    {
      State(blob, arrayBuffer, audioBuffer, audioMetadata, mediaMetadata, isDownloading, isCaching)
    }

    /** `useCacheFile(options)`. */
    constructor (o: Options)
      ensures options == o
      ensures releaseHookRegistered == o.hasUnmountHook
      ensures Snapshot() == InitialState() && effects == []
    {
      options := o;
      releaseHookRegistered := o.hasUnmountHook;
      isDownloading, isCaching := false, false;
      blob, arrayBuffer, audioBuffer := None, None, Some([]);
      audioMetadata, mediaMetadata := None, None;
      effects := [];
    }

    /** The `url` computed handle. */
    function Url(): (u: Option<ObjectUrl>)
      reads this
      ensures u.None? <==> blob.None?
      ensures u.Some? ==> u.value.target == blob.value
    {
      ObjectUrlOf(blob)
    }

    /** `download()`, reading the store as it is given. */
    method Download(store: Store) returns (outcome: Outcome)
      modifies this
      ensures outcome == DownloadRun(options, store, old(Snapshot())).outcome
      ensures Snapshot() == DownloadRun(options, store, old(Snapshot())).state
      ensures effects == old(effects) + DownloadRun(options, store, old(Snapshot())).effects
    {
      ghost var s0, e0 := Snapshot(), effects;
      if !HasUrl(options.url) {
        return MissingSource;
      }
      var key := namespacedName;
      outcome := LoadBlob(store, key);
      ghost var b := BlobTier(options, store, key, s0);
      if outcome != Success {
        assert DownloadRun(options, store, s0) == b;
        return;
      }
      LoadArrayBuffer(store, key);
      ghost var a := ArrayBufferTier(store, key, b.state);
      LoadAudioBuffer(store, key);
      ghost var u := AudioBufferTier(options, store, key, a.state);
      LoadMetadata();
      ghost var m := MetadataStep(options, u.state);
      assert effects == e0 + (b.effects + a.effects + u.effects + m.effects);
    }

    /** Lines 40-59 of `download`. */
    method LoadBlob(store: Store, key: string) returns (outcome: Outcome)
      requires HasUrl(options.url)
      modifies this
      ensures outcome == BlobTier(options, store, key, old(Snapshot())).outcome
      ensures Snapshot() == BlobTier(options, store, key, old(Snapshot())).state
      ensures effects == old(effects) + BlobTier(options, store, key, old(Snapshot())).effects
    {
      ghost var s0, e0 := Snapshot(), effects;
      var url := options.url.value;
      blob := AsBlob(Get(store, key));
      effects := effects + [GetItem(key)];
      if blob.None? {
        isDownloading := true;
        effects := effects + [Downloading(true)];
        var response := options.fetch(url);
        effects := effects + [Fetch(url)];
        isDownloading := false;
        effects := effects + [Downloading(false)];
        ghost var fetched := [GetItem(key), Downloading(true), Fetch(url), Downloading(false)];
        assert effects == e0 + fetched;
        if response.NotOk? {
          assert Snapshot() == s0.(blob := None, isDownloading := false);
          return FetchFailed;
        }
        isCaching := true;
        effects := effects + [Caching(true)];
        blob := Some(response.body);
        effects := effects + [SetItem(key, BlobItem(response.body))];
        assert effects == e0 + (fetched + [Caching(true), SetItem(key, BlobItem(response.body))]);
      }
      outcome := Success;
    }

    /** Lines 61-70 of `download`. */
    method LoadArrayBuffer(store: Store, key: string)
      requires blob.Some?
      modifies this
      ensures Snapshot() == ArrayBufferTier(store, key, old(Snapshot())).state
      ensures effects == old(effects) + ArrayBufferTier(store, key, old(Snapshot())).effects
    {
      arrayBuffer := AsBuffer(Get(store, ArrayBufferKey(key)));
      effects := effects + [GetItem(ArrayBufferKey(key))];
      if arrayBuffer.None? {
        isCaching := true;
        effects := effects + [Caching(true)];
        arrayBuffer := Some(blob.value.bytes);
        effects := effects + [SetItem(ArrayBufferKey(key), BufferItem(arrayBuffer.value))];
      }
    }

    /** Lines 72-87 of `download`. */
    method LoadAudioBuffer(store: Store, key: string)
      requires arrayBuffer.Some?
      modifies this
      ensures Snapshot() == AudioBufferTier(options, store, key, old(Snapshot())).state
      ensures effects == old(effects) + AudioBufferTier(options, store, key, old(Snapshot())).effects
    {
      audioBuffer := Json.Parse(StoredText(Get(store, AudioBufferKey(key))));
      effects := effects + [GetItem(AudioBufferKey(key))];
      if SamplesMissing(audioBuffer) {
        isCaching := true;
        effects := effects + [Caching(true)];
        var decoded := options.decodeAudioData(arrayBuffer.value);
        effects := effects + [Decode(arrayBuffer.value)];
        arrayBuffer := Some(Detached);
        audioBuffer := Some(options.normalizeAudioBuffer(decoded));
        effects := effects + [SetItem(AudioBufferKey(key), TextItem(Json.Stringify(audioBuffer.value)))];
      }
    }

    /** Lines 89-92 of `download`. */
    method LoadMetadata()
      requires blob.Some?
      modifies this
      ensures Snapshot() == MetadataStep(options, old(Snapshot())).state
      ensures effects == old(effects) + MetadataStep(options, old(Snapshot())).effects
    {
      var tags := options.parseBlob(blob.value);
      audioMetadata := Some(tags);
      mediaMetadata := Some(MediaMetadata(options.generateMetadata(audioMetadata)));
      isCaching := false;
      effects := effects + [Caching(false)];
    }

    /** The `onUnmounted` callback: the object URL is revoked, and only when
        there is one. Returns the URL revoked, if any. */
    method Unmount() returns (revoked: Option<ObjectUrl>)
      ensures releaseHookRegistered ==> revoked == Url()
      ensures !releaseHookRegistered ==> revoked.None?
    {
      if !releaseHookRegistered {
        return None;
      }
      var u := Url();
      if u.None? {
        return None;
      }
      revoked := u;
    }
  }
}
