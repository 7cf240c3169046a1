/**
 * What `download` (src/composables/cache-file.ts) promises, proved about the
 * pipeline `CacheFile.DownloadRun`: which tiers it reads and writes and under
 * which keys, when it fetches and decodes, how it fails, the flag values it
 * leaves, and that a second download after the first one's writes have
 * landed does no work at all.
 */
module CacheFileProperties {
  import opened Wrappers
  import opened Storage
  import Json
  import opened CacheFile

  /** Reading an effects log: writes, fetches and decodes. */
  predicate WritesTo(es: seq<Event>, k: string)
  {
    exists i :: 0 <= i < |es| && es[i].SetItem? && es[i].key == k
  }

  predicate NoWrites(es: seq<Event>)
  {
    forall i :: 0 <= i < |es| ==> !es[i].SetItem?
  }

  predicate NoFetch(es: seq<Event>)
  {
    forall i :: 0 <= i < |es| ==> !es[i].Fetch?
  }

  predicate NoDecode(es: seq<Event>)
  {
    forall i :: 0 <= i < |es| ==> !es[i].Decode?
  }

  /** Exactly one fetch, and it is of `url`. */
  predicate FetchesOnce(es: seq<Event>, url: string)
  {
    exists i :: 0 <= i < |es| && es[i] == Fetch(url) &&
      forall j :: 0 <= j < |es| && es[j].Fetch? ==> j == i
  }

  /** Exactly one call into the decoder, and it is on `input`. */
  predicate DecodesOnce(es: seq<Event>, input: seq<byte>)
  {
    exists i :: 0 <= i < |es| && es[i] == Decode(input) &&
      forall j :: 0 <= j < |es| && es[j].Decode? ==> j == i
  }

  /** The bytes the ArrayBuffer tier settles on: the stored buffer when there
      is one, the blob's own bytes otherwise. */
  function TierBytes(store: Store, key: string, blob: Blob): seq<byte>
  {
    var stored := AsBuffer(Get(store, ArrayBufferKey(key)));
    if stored.Some? then stored.value else blob.bytes
  }

  /** Every store read and write in `es` uses a tier key of `key`. */
  predicate KeysWithin(es: seq<Event>, key: string)
  {
    forall i :: 0 <= i < |es| && (es[i].GetItem? || es[i].SetItem?) ==> IsTierKey(key, es[i].key)
  }

  /** `NoFetch` splits over two logs run one after the other. */
  lemma NoFetchAppend(x: seq<Event>, y: seq<Event>)
    ensures NoFetch(x + y) <==> NoFetch(x) && NoFetch(y)
  {
    if NoFetch(x) && NoFetch(y) {
      forall i | 0 <= i < |x + y| ensures !(x + y)[i].Fetch? {
        if i < |x| {
          assert (x + y)[i] == x[i];
        } else {
          assert (x + y)[i] == y[i - |x|];
        }
      }
    }
    if NoFetch(x + y) {
      forall i | 0 <= i < |x| ensures !x[i].Fetch? {
        assert (x + y)[i] == x[i];
      }
      forall i | 0 <= i < |y| ensures !y[i].Fetch? {
        assert (x + y)[|x| + i] == y[i];
      }
    }
  }

  // ---------------------------------------------------------------- keys

  /** The three tier keys of one resource are pairwise distinct, so no stage
      ever reads what another stage of the same download wrote. */
  lemma TierKeysDistinct(key: string)
    ensures key != ArrayBufferKey(key) && key != AudioBufferKey(key)
    ensures ArrayBufferKey(key) != AudioBufferKey(key)
  {
    assert |ArrayBufferKey(key)| == |key| + 12;
    assert ArrayBufferKey(key)[|key| + 2] == 'r';
    assert AudioBufferKey(key)[|key| + 2] == 'u';
  }

  /** Within one namespace, two urls share a blob key only if they are equal. */
  lemma BlobKeyInjective(namespace: string, u: Option<string>, v: Option<string>)
    requires HasUrl(u) && HasUrl(v)
    requires NamespacedName(namespace, u) == NamespacedName(namespace, v)
    ensures u == v
  {
    assert UrlText(u) == NamespacedName(namespace, u)[|namespace| + 1..];
  }

  /** Within one namespace, two urls share an ArrayBuffer key, or a sample
      key, only if they are equal. */
  lemma TierKeysInjective(namespace: string, u: Option<string>, v: Option<string>)
    requires HasUrl(u) && HasUrl(v)
    ensures ArrayBufferKey(NamespacedName(namespace, u)) == ArrayBufferKey(NamespacedName(namespace, v)) ==> u == v
    ensures AudioBufferKey(NamespacedName(namespace, u)) == AudioBufferKey(NamespacedName(namespace, v)) ==> u == v
  {
    var k1 := NamespacedName(namespace, u);
    var k2 := NamespacedName(namespace, v);
    SuffixCancels(k1, k2, "/arrayBuffer");
    SuffixCancels(k1, k2, "/audioBuffer");
    if k1 == k2 {
      BlobKeyInjective(namespace, u, v);
    }
  }

  lemma SuffixCancels(a: string, b: string, t: string)
    ensures a + t == b + t ==> a == b
  {
    if a + t == b + t {
      assert a == (a + t)[..|a|];
      assert b == (b + t)[..|b|];
    }
  }

  /** Across tiers the scheme is not collision-free: the blob key of the url
      `u + "/audioBuffer"` is the sample-tier key of the url `u`. */
  lemma {:induction false} TierKeysCollideAcrossUrls(namespace: string, u: string)
    ensures NamespacedName(namespace, Some(u + "/audioBuffer"))
         == AudioBufferKey(NamespacedName(namespace, Some(u)))
    ensures NamespacedName(namespace, Some(u + "/arrayBuffer"))
         == ArrayBufferKey(NamespacedName(namespace, Some(u)))
  {
    assert namespace + "/" + (u + "/audioBuffer") == (namespace + "/" + u) + "/audioBuffer";
    assert namespace + "/" + (u + "/arrayBuffer") == (namespace + "/" + u) + "/arrayBuffer";
  }

  /** Every store read and every store write uses one of the three keys. */
  lemma EffectsUseTierKeys(o: Options, store: Store, s: State)
    ensures KeysWithin(DownloadRun(o, store, s).effects, NamespacedName(o.namespace, o.url))
  {
    if HasUrl(o.url) {
      var key := NamespacedName(o.namespace, o.url);
      var b := BlobTier(o, store, key, s);
      if b.outcome == Success {
        var a := ArrayBufferTier(store, key, b.state);
        var u := AudioBufferTier(o, store, key, a.state);
        var m := MetadataStep(o, u.state);
        KeysWithinAppend(b.effects, a.effects, key);
        KeysWithinAppend(b.effects + a.effects, u.effects, key);
        KeysWithinAppend(b.effects + a.effects + u.effects, m.effects, key);
      }
    }
  }

  lemma KeysWithinAppend(a: seq<Event>, b: seq<Event>, key: string)
    requires KeysWithin(a, key) && KeysWithin(b, key)
    ensures KeysWithin(a + b, key)
  {
    forall i | 0 <= i < |a + b| && ((a + b)[i].GetItem? || (a + b)[i].SetItem?)
      ensures IsTierKey(key, (a + b)[i].key)
    {
      if i >= |a| {
        assert (a + b)[i] == b[i - |a|];
      }
    }
  }

  // ------------------------------------------------------------ failures

  /** Without a url, `download` throws before touching the store or the
      network, and changes nothing. */
  lemma MissingUrlFailsFirst(o: Options, store: Store, s: State)
    requires !HasUrl(o.url)
    ensures DownloadRun(o, store, s) == Run(MissingSource, s, [])
  {
  }

  /** A non-ok response throws with `isDownloading` already back to false,
      after the one fetch and before any write. */
  lemma FetchFailureWritesNothing(o: Options, store: Store, s: State)
    requires HasUrl(o.url)
    requires AsBlob(Get(store, NamespacedName(o.namespace, o.url))).None?
    requires o.fetch(o.url.value).NotOk?
    ensures var r := DownloadRun(o, store, s);
      && r.outcome == FetchFailed
      && r.state == s.(blob := None, isDownloading := false)
      && r.effects == [GetItem(NamespacedName(o.namespace, o.url)),
                       Downloading(true), Fetch(o.url.value), Downloading(false)]
      && NoWrites(r.effects)
  {
  }

  /** `download` resolves exactly when there is a url and either the blob is
      stored or the response is ok. */
  lemma OutcomeLaw(o: Options, store: Store, s: State)
    ensures var r := DownloadRun(o, store, s);
      && (r.outcome == MissingSource <==> !HasUrl(o.url))
      && (r.outcome == Success <==>
            HasUrl(o.url) &&
            (AsBlob(Get(store, NamespacedName(o.namespace, o.url))).Some? || o.fetch(o.url.value).Ok?))
  {
  }

  // ---------------------------------------------------------------- tiers

  /** The effects of a successful download, stage by stage. */
  lemma SuccessEffects(o: Options, store: Store, s: State)
    requires DownloadRun(o, store, s).outcome == Success
    ensures HasUrl(o.url)
    ensures var key := NamespacedName(o.namespace, o.url);
      var b := BlobTier(o, store, key, s);
      var a := ArrayBufferTier(store, key, b.state);
      var u := AudioBufferTier(o, store, key, a.state);
      var m := MetadataStep(o, u.state);
      && b.outcome == Success
      && DownloadRun(o, store, s) == Run(Success, m.state, b.effects + a.effects + u.effects + m.effects)
  {
  }

  /** A stored blob means no fetch, `isDownloading` is never set, and the blob
      key is not written. */
  lemma StoredBlobSkipsFetch(o: Options, store: Store, s: State, blob: Blob)
    requires HasUrl(o.url)
    requires Get(store, NamespacedName(o.namespace, o.url)) == Some(BlobItem(blob))
    ensures var r := DownloadRun(o, store, s);
      && r.outcome == Success
      && r.state.blob == Some(blob)
      && r.state.isDownloading == s.isDownloading
      && NoFetch(r.effects)
      && Downloading(true) !in r.effects
      && !WritesTo(r.effects, NamespacedName(o.namespace, o.url))
  {
    var key := NamespacedName(o.namespace, o.url);
    SuccessEffects(o, store, s);
    StageWrites(o, store, s);
    var b := BlobTier(o, store, key, s);
    var a := ArrayBufferTier(store, key, b.state);
    var u := AudioBufferTier(o, store, key, a.state);
    var m := MetadataStep(o, u.state);
    assert b.effects == [GetItem(key)];
    assert b.state.isDownloading == s.isDownloading;
    ArrayBufferTierEffects(store, key, b.state);
    AudioBufferTierEffects(o, store, key, a.state);
    NoFetchAppend(b.effects, a.effects);
    NoFetchAppend(b.effects + a.effects, u.effects);
    NoFetchAppend(b.effects + a.effects + u.effects, m.effects);
  }

  /** On a blob miss there is exactly one fetch, of the url, with
      `isDownloading` true around it and false again right after; an ok body
      becomes the blob and is written to the blob key. */
  lemma MissingBlobFetchesOnce(o: Options, store: Store, s: State)
    requires HasUrl(o.url)
    requires AsBlob(Get(store, NamespacedName(o.namespace, o.url))).None?
    ensures var r := DownloadRun(o, store, s);
      && |r.effects| >= 4
      && r.effects[..4] == [GetItem(NamespacedName(o.namespace, o.url)),
                            Downloading(true), Fetch(o.url.value), Downloading(false)]
      && FetchesOnce(r.effects, o.url.value)
      && !r.state.isDownloading
      && (o.fetch(o.url.value).Ok? ==>
            r.state.blob == Some(o.fetch(o.url.value).body) &&
            SetItem(NamespacedName(o.namespace, o.url), BlobItem(o.fetch(o.url.value).body)) in r.effects)
  {
    var r := DownloadRun(o, store, s);
    if r.outcome == Success {
      SuccessEffects(o, store, s);
    }
    assert r.effects[2] == Fetch(o.url.value);
  }

  /** The ArrayBuffer tier: a stored buffer is used as it is, even when the
      blob has just been downloaded, and is not written; otherwise the blob's
      bytes are used and written back. The decoder only ever sees these
      bytes. */
  lemma ArrayBufferTierLaw(o: Options, store: Store, s: State)
    requires DownloadRun(o, store, s).outcome == Success
    ensures var key := NamespacedName(o.namespace, o.url);
      var r := DownloadRun(o, store, s);
      var stored := AsBuffer(Get(store, ArrayBufferKey(key)));
      var bytes := TierBytes(store, key, r.state.blob.value);
      && (stored.Some? ==> bytes == stored.value)
      && (stored.None? ==> bytes == r.state.blob.value.bytes)
      && (WritesTo(r.effects, ArrayBufferKey(key)) <==> stored.None?)
      && (stored.None? ==> SetItem(ArrayBufferKey(key), BufferItem(bytes)) in r.effects)
      && (forall i :: 0 <= i < |r.effects| && r.effects[i].Decode? ==> r.effects[i].input == bytes)
  {
    var key := NamespacedName(o.namespace, o.url);
    SuccessEffects(o, store, s);
    StageWrites(o, store, s);
    var r := DownloadRun(o, store, s);
    var b := BlobTier(o, store, key, s);
    var a := ArrayBufferTier(store, key, b.state);
    var u := AudioBufferTier(o, store, key, a.state);
    var m := MetadataStep(o, u.state);
    var bytes := TierBytes(store, key, r.state.blob.value);
    AudioBufferTierEffects(o, store, key, a.state);
    if AsBuffer(Get(store, ArrayBufferKey(key))).None? {
      assert r.effects[|b.effects| + 2] == a.effects[2];
    }
    forall i | 0 <= i < |r.effects| && r.effects[i].Decode?
      ensures r.effects[i].input == bytes
    {
      var n := |b.effects| + |a.effects|;
      if n <= i < n + |u.effects| {
        assert r.effects[i] == u.effects[i - n];
      }
    }
  }

  /** Example: a stored text that is absent counts as a miss (it parses as
      `[]`); the general rule is `AudioBufferTierLaw`. */
  lemma AbsentSamplesMiss()
    ensures SamplesMissing(Json.Parse(StoredText(None)))
  {
  }

  /** The sample tier: if the stored text is absent, `null` or `[]`, the
      decoder and `normalizeAudioBuffer` run exactly once and the encoded
      result is written to the `/audioBuffer` key, and the ArrayBuffer ref is
      left detached; otherwise there is no decode, no write, and the stored
      samples are used. */
  lemma AudioBufferTierLaw(o: Options, store: Store, s: State)
    requires DownloadRun(o, store, s).outcome == Success
    ensures var key := NamespacedName(o.namespace, o.url);
      var r := DownloadRun(o, store, s);
      var stored := Json.Parse(StoredText(Get(store, AudioBufferKey(key))));
      var bytes := TierBytes(store, key, r.state.blob.value);
      var derived := o.normalizeAudioBuffer(o.decodeAudioData(bytes));
      && (WritesTo(r.effects, AudioBufferKey(key)) <==> SamplesMissing(stored))
      && (SamplesMissing(stored) ==>
            && DecodesOnce(r.effects, bytes)
            && r.state.audioBuffer == Some(derived)
            && r.state.arrayBuffer == Some(Detached)
            && SetItem(AudioBufferKey(key), TextItem(Json.Stringify(derived))) in r.effects)
      && (!SamplesMissing(stored) ==>
            NoDecode(r.effects) && r.state.audioBuffer == stored && r.state.arrayBuffer == Some(bytes))
  {
    var key := NamespacedName(o.namespace, o.url);
    if SamplesMissing(Json.Parse(StoredText(Get(store, AudioBufferKey(key))))) {
      SampleMiss(o, store, s);
    } else {
      SampleHit(o, store, s);
    }
  }

  /** The stages of a successful run, with the values the sample tier sees. */
  lemma SampleStages(o: Options, store: Store, s: State)
    requires DownloadRun(o, store, s).outcome == Success
    ensures var key := NamespacedName(o.namespace, o.url);
      var r := DownloadRun(o, store, s);
      var b := BlobTier(o, store, key, s);
      var a := ArrayBufferTier(store, key, b.state);
      var u := AudioBufferTier(o, store, key, a.state);
      && r.effects == b.effects + a.effects + u.effects + [Caching(false)]
      && r.state.blob == b.state.blob
      && r.state.arrayBuffer == u.state.arrayBuffer && r.state.audioBuffer == u.state.audioBuffer
      && a.state.arrayBuffer == Some(TierBytes(store, key, r.state.blob.value))
      && !WritesTo(b.effects, AudioBufferKey(key)) && !WritesTo(a.effects, AudioBufferKey(key))
      && NoDecode(b.effects) && NoDecode(a.effects)
  {
    var key := NamespacedName(o.namespace, o.url);
    SuccessEffects(o, store, s);
    var b := BlobTier(o, store, key, s);
    BlobTierEffects(o, store, key, s);
    ArrayBufferTierEffects(store, key, b.state);
  }

  lemma SampleMiss(o: Options, store: Store, s: State)
    requires DownloadRun(o, store, s).outcome == Success
    requires SamplesMissing(Json.Parse(StoredText(Get(store, AudioBufferKey(NamespacedName(o.namespace, o.url))))))
    ensures var key := NamespacedName(o.namespace, o.url);
      var r := DownloadRun(o, store, s);
      var bytes := TierBytes(store, key, r.state.blob.value);
      var derived := o.normalizeAudioBuffer(o.decodeAudioData(bytes));
      && WritesTo(r.effects, AudioBufferKey(key))
      && DecodesOnce(r.effects, bytes)
      && r.state.audioBuffer == Some(derived)
      && r.state.arrayBuffer == Some(Detached)
      && SetItem(AudioBufferKey(key), TextItem(Json.Stringify(derived))) in r.effects
  {
    var key := NamespacedName(o.namespace, o.url);
    SampleStages(o, store, s);
    var r := DownloadRun(o, store, s);
    var b := BlobTier(o, store, key, s);
    var a := ArrayBufferTier(store, key, b.state);
    var u := AudioBufferTier(o, store, key, a.state);
    var n := |b.effects| + |a.effects|;
    assert r.effects[n + 2] == u.effects[2];
    assert r.effects[n + 3] == u.effects[3];
  }

  lemma SampleHit(o: Options, store: Store, s: State)
    requires DownloadRun(o, store, s).outcome == Success
    requires !SamplesMissing(Json.Parse(StoredText(Get(store, AudioBufferKey(NamespacedName(o.namespace, o.url))))))
    ensures var key := NamespacedName(o.namespace, o.url);
      var r := DownloadRun(o, store, s);
      && !WritesTo(r.effects, AudioBufferKey(key))
      && NoDecode(r.effects)
      && r.state.audioBuffer == Json.Parse(StoredText(Get(store, AudioBufferKey(key))))
      && r.state.arrayBuffer == Some(TierBytes(store, key, r.state.blob.value))
  {
    SampleStages(o, store, s);
  }

  /** On success `isCaching` ends false and the metadata is recomputed from
      the blob, whether or not any tier was cached. */
  lemma SuccessRecomputesMetadata(o: Options, store: Store, s: State)
    requires DownloadRun(o, store, s).outcome == Success
    ensures var r := DownloadRun(o, store, s);
      && r.state.blob.Some? && r.state.arrayBuffer.Some? && r.state.audioBuffer.Some?
      && !r.state.isCaching
      && r.state.audioMetadata == Some(o.parseBlob(r.state.blob.value))
      && r.state.mediaMetadata == Some(MediaMetadata(o.generateMetadata(Some(o.parseBlob(r.state.blob.value)))))
      && r.effects[|r.effects| - 1] == Caching(false)
  {
  }

  // -------------------------------------------------------------- store

  lemma {:induction false} CommittedAppend(store: Store, a: seq<Event>, b: seq<Event>)
    ensures Committed(store, a + b) == Committed(Committed(store, a), b)
    decreases |a|
  {
    if a != [] {
      assert (a + b)[1..] == a[1..] + b;
      var next := match a[0]
        case SetItem(k, v) => store[k := v]
        case _ => store;
      CommittedAppend(next, a[1..], b);
    } else {
      assert a + b == b;
    }
  }

  /** A key no event writes keeps its stored value. */
  lemma {:induction false} CommittedElsewhere(store: Store, es: seq<Event>, k: string)
    requires !WritesTo(es, k)
    ensures Get(Committed(store, es), k) == Get(store, k)
    decreases |es|
  {
    if es != [] {
      var next := match es[0]
        case SetItem(k', v) => store[k' := v]
        case _ => store;
      assert Get(next, k) == Get(store, k);
      assert forall i :: 0 <= i < |es| - 1 ==> es[1..][i] == es[i + 1];
      CommittedElsewhere(next, es[1..], k);
    }
  }

  /** A log whose last event writes `v` to `k` leaves `v` at `k`. */
  lemma CommittedLastWrite(store: Store, es: seq<Event>, k: string, v: Value)
    requires es != [] && es[|es| - 1] == SetItem(k, v)
    ensures Get(Committed(store, es), k) == Some(v)
  {
    assert es == es[..|es| - 1] + [SetItem(k, v)];
    CommittedAppend(store, es[..|es| - 1], [SetItem(k, v)]);
  }

  /** A successful download's log, split at its stages, as the store sees it. */
  lemma CommittedStages(o: Options, store: Store, s: State)
    requires DownloadRun(o, store, s).outcome == Success
    ensures var key := NamespacedName(o.namespace, o.url);
      var b := BlobTier(o, store, key, s);
      var a := ArrayBufferTier(store, key, b.state);
      var u := AudioBufferTier(o, store, key, a.state);
      var m := MetadataStep(o, u.state);
      Committed(store, DownloadRun(o, store, s).effects)
        == Committed(Committed(Committed(Committed(store, b.effects), a.effects), u.effects), m.effects)
  {
    var key := NamespacedName(o.namespace, o.url);
    SuccessEffects(o, store, s);
    var b := BlobTier(o, store, key, s);
    var a := ArrayBufferTier(store, key, b.state);
    var u := AudioBufferTier(o, store, key, a.state);
    var m := MetadataStep(o, u.state);
    CommittedAppend(store, b.effects, a.effects);
    CommittedAppend(store, b.effects + a.effects, u.effects);
    CommittedAppend(store, b.effects + a.effects + u.effects, m.effects);
  }

  /** Which stage of a successful run writes which key: each tier writes at
      most its own key, and the metadata step writes nothing. */
  lemma StageWrites(o: Options, store: Store, s: State)
    requires DownloadRun(o, store, s).outcome == Success
    ensures var key := NamespacedName(o.namespace, o.url);
      var r := DownloadRun(o, store, s);
      var b := BlobTier(o, store, key, s);
      var a := ArrayBufferTier(store, key, b.state);
      var u := AudioBufferTier(o, store, key, a.state);
      var m := MetadataStep(o, u.state);
      && r.state.blob == b.state.blob && b.state.blob.Some?
      && a.state.arrayBuffer == Some(TierBytes(store, key, r.state.blob.value))
      && !WritesTo(b.effects, ArrayBufferKey(key)) && !WritesTo(b.effects, AudioBufferKey(key))
      && !WritesTo(a.effects, key) && !WritesTo(a.effects, AudioBufferKey(key))
      && !WritesTo(u.effects, key) && !WritesTo(u.effects, ArrayBufferKey(key))
      && NoWrites(m.effects)
  {
    var key := NamespacedName(o.namespace, o.url);
    SuccessEffects(o, store, s);
    var b := BlobTier(o, store, key, s);
    var a := ArrayBufferTier(store, key, b.state);
    BlobTierEffects(o, store, key, s);
    ArrayBufferTierEffects(store, key, b.state);
    AudioBufferTierEffects(o, store, key, a.state);
  }

  /** What each stage, on its own, does to the log. */
  lemma BlobTierEffects(o: Options, store: Store, key: string, s: State)
    requires HasUrl(o.url)
    ensures var b := BlobTier(o, store, key, s);
      && !WritesTo(b.effects, ArrayBufferKey(key)) && !WritesTo(b.effects, AudioBufferKey(key))
      && NoDecode(b.effects)
  {
    TierKeysDistinct(key);
  }

  lemma ArrayBufferTierEffects(store: Store, key: string, s: State)
    requires s.blob.Some?
    ensures var a := ArrayBufferTier(store, key, s);
      && !WritesTo(a.effects, key) && !WritesTo(a.effects, AudioBufferKey(key))
      && NoDecode(a.effects) && NoFetch(a.effects) && Downloading(true) !in a.effects
      && a.state.isDownloading == s.isDownloading
  {
    TierKeysDistinct(key);
  }

  lemma AudioBufferTierEffects(o: Options, store: Store, key: string, s: State)
    requires s.arrayBuffer.Some?
    ensures var u := AudioBufferTier(o, store, key, s);
      && !WritesTo(u.effects, key) && !WritesTo(u.effects, ArrayBufferKey(key))
      && NoFetch(u.effects) && Downloading(true) !in u.effects
      && u.state.isDownloading == s.isDownloading
      && (forall i :: 0 <= i < |u.effects| && u.effects[i].Decode? ==> u.effects[i].input == s.arrayBuffer.value)
  {
    TierKeysDistinct(key);
  }

  /** After a successful download's writes have landed, the blob key holds
      the blob it ended with. */
  lemma CommittedBlob(o: Options, store: Store, s: State)
    requires DownloadRun(o, store, s).outcome == Success
    ensures var r := DownloadRun(o, store, s);
      Get(Committed(store, r.effects), NamespacedName(o.namespace, o.url)) == Some(BlobItem(r.state.blob.value))
  {
    var key := NamespacedName(o.namespace, o.url);
    StageWrites(o, store, s);
    CommittedStages(o, store, s);
    var b := BlobTier(o, store, key, s);
    var a := ArrayBufferTier(store, key, b.state);
    var u := AudioBufferTier(o, store, key, a.state);
    var m := MetadataStep(o, u.state);
    var s1 := Committed(store, b.effects);
    var s2 := Committed(s1, a.effects);
    var s3 := Committed(s2, u.effects);
    if AsBlob(Get(store, key)).Some? {
      CommittedElsewhere(store, b.effects, key);
    } else {
      CommittedLastWrite(store, b.effects, key, BlobItem(b.state.blob.value));
    }
    CommittedElsewhere(s1, a.effects, key);
    CommittedElsewhere(s2, u.effects, key);
    CommittedElsewhere(s3, m.effects, key);
  }

  /** ... and the `/arrayBuffer` key the bytes of the ArrayBuffer tier (not
      the detached buffer the ref may end with). */
  lemma CommittedArrayBuffer(o: Options, store: Store, s: State)
    requires DownloadRun(o, store, s).outcome == Success
    ensures var r := DownloadRun(o, store, s);
      var key := NamespacedName(o.namespace, o.url);
      Get(Committed(store, r.effects), ArrayBufferKey(key))
        == Some(BufferItem(TierBytes(store, key, r.state.blob.value)))
  {
    var key := NamespacedName(o.namespace, o.url);
    StageWrites(o, store, s);
    CommittedStages(o, store, s);
    var b := BlobTier(o, store, key, s);
    var a := ArrayBufferTier(store, key, b.state);
    var u := AudioBufferTier(o, store, key, a.state);
    var m := MetadataStep(o, u.state);
    var abKey := ArrayBufferKey(key);
    var s1 := Committed(store, b.effects);
    var s2 := Committed(s1, a.effects);
    var s3 := Committed(s2, u.effects);
    CommittedElsewhere(store, b.effects, abKey);
    if AsBuffer(Get(store, abKey)).Some? {
      CommittedElsewhere(s1, a.effects, abKey);
    } else {
      CommittedLastWrite(s1, a.effects, abKey, BufferItem(a.state.arrayBuffer.value));
    }
    CommittedElsewhere(s2, u.effects, abKey);
    CommittedElsewhere(s3, m.effects, abKey);
  }

  /** ... and the `/audioBuffer` key a text that parses to its samples,
      provided those are not empty. */
  lemma CommittedAudioBuffer(o: Options, store: Store, s: State)
    requires DownloadRun(o, store, s).outcome == Success
    requires !SamplesMissing(DownloadRun(o, store, s).state.audioBuffer)
    ensures var r := DownloadRun(o, store, s);
      Json.Parse(StoredText(Get(Committed(store, r.effects), AudioBufferKey(NamespacedName(o.namespace, o.url)))))
        == r.state.audioBuffer
  {
    var key := NamespacedName(o.namespace, o.url);
    SampleStages(o, store, s);
    CommittedStages(o, store, s);
    var b := BlobTier(o, store, key, s);
    var a := ArrayBufferTier(store, key, b.state);
    var u := AudioBufferTier(o, store, key, a.state);
    var m := MetadataStep(o, u.state);
    var auKey := AudioBufferKey(key);
    var s1 := Committed(store, b.effects);
    var s2 := Committed(s1, a.effects);
    var s3 := Committed(s2, u.effects);
    CommittedElsewhere(store, b.effects, auKey);
    CommittedElsewhere(s1, a.effects, auKey);
    if SamplesMissing(Json.Parse(StoredText(Get(store, auKey)))) {
      CommittedLastWrite(s2, u.effects, auKey, TextItem(Json.Stringify(u.state.audioBuffer.value)));
      Json.ParseStringify(u.state.audioBuffer.value);
    } else {
      CommittedElsewhere(s2, u.effects, auKey);
    }
    CommittedElsewhere(s3, m.effects, auKey);
  }

  /** A warm store: with all three tiers stored (and non-empty samples),
      `download` only reads the three keys and recomputes the metadata. */
  lemma WarmStoreDoesNoWork(o: Options, store: Store, s: State, blob: Blob, bytes: seq<byte>)
    requires HasUrl(o.url)
    requires var key := NamespacedName(o.namespace, o.url);
      && Get(store, key) == Some(BlobItem(blob))
      && Get(store, ArrayBufferKey(key)) == Some(BufferItem(bytes))
      && !SamplesMissing(Json.Parse(StoredText(Get(store, AudioBufferKey(key)))))
    ensures var key := NamespacedName(o.namespace, o.url);
      var tags := o.parseBlob(blob);
      DownloadRun(o, store, s)
        == Run(Success,
               s.(blob := Some(blob), arrayBuffer := Some(bytes),
                  audioBuffer := Json.Parse(StoredText(Get(store, AudioBufferKey(key)))),
                  audioMetadata := Some(tags),
                  mediaMetadata := Some(MediaMetadata(o.generateMetadata(Some(tags)))),
                  isCaching := false),
               [GetItem(key), GetItem(ArrayBufferKey(key)), GetItem(AudioBufferKey(key)), Caching(false)])
  {
    var key := NamespacedName(o.namespace, o.url);
    var b := BlobTier(o, store, key, s);
    assert b == Run(Success, s.(blob := Some(blob)), [GetItem(key)]);
    var a := ArrayBufferTier(store, key, b.state);
    assert a == Run(Success, b.state.(arrayBuffer := Some(bytes)), [GetItem(ArrayBufferKey(key))]);
    var u := AudioBufferTier(o, store, key, a.state);
    assert u == Run(Success, a.state.(audioBuffer := Json.Parse(StoredText(Get(store, AudioBufferKey(key))))),
                    [GetItem(AudioBufferKey(key))]);
  }

  /** Idempotence: once a successful download's writes have landed, a second
      download on the same object reads the three tiers and does nothing
      else (no fetch, no decode, no write). It ends in the first one's state,
      except that the ArrayBuffer ref holds the stored bytes again where the
      first one's decode had detached it. This needs the samples to be
      non-empty, since `[]` reads as a miss. */
  lemma DownloadIdempotent(o: Options, store: Store, s: State)
    requires DownloadRun(o, store, s).outcome == Success
    requires !SamplesMissing(DownloadRun(o, store, s).state.audioBuffer)
    ensures var key := NamespacedName(o.namespace, o.url);
      var first := DownloadRun(o, store, s);
      var second := DownloadRun(o, Committed(store, first.effects), first.state);
      var bytes := TierBytes(store, key, first.state.blob.value);
      && second == Run(Success, first.state.(arrayBuffer := Some(bytes)),
                       [GetItem(key), GetItem(ArrayBufferKey(key)), GetItem(AudioBufferKey(key)), Caching(false)])
      && (NoDecode(first.effects) ==> second.state == first.state)
      && NoFetch(second.effects) && NoDecode(second.effects) && NoWrites(second.effects)
  {
    var key := NamespacedName(o.namespace, o.url);
    var first := DownloadRun(o, store, s);
    var bytes := TierBytes(store, key, first.state.blob.value);
    SecondRun(o, store, s);
    var second := DownloadRun(o, Committed(store, first.effects), first.state);
    var events := [GetItem(key), GetItem(ArrayBufferKey(key)), GetItem(AudioBufferKey(key)), Caching(false)];
    assert second.effects == events && second.state == first.state.(arrayBuffer := Some(bytes));
    ReadsOnly(key);
    NoDecodeKeepsBuffer(o, store, s);
  }

  /** The log of a run on a warm store neither fetches, decodes nor writes. */
  lemma ReadsOnly(key: string)
    ensures var events := [GetItem(key), GetItem(ArrayBufferKey(key)), GetItem(AudioBufferKey(key)), Caching(false)];
      NoFetch(events) && NoDecode(events) && NoWrites(events)
  {
  }

  /** A run that decoded nothing leaves the ArrayBuffer ref holding the tier's
      bytes. */
  lemma NoDecodeKeepsBuffer(o: Options, store: Store, s: State)
    requires DownloadRun(o, store, s).outcome == Success
    ensures var r := DownloadRun(o, store, s);
      NoDecode(r.effects) ==>
        r.state.arrayBuffer == Some(TierBytes(store, NamespacedName(o.namespace, o.url), r.state.blob.value))
  {
    var key := NamespacedName(o.namespace, o.url);
    var r := DownloadRun(o, store, s);
    if SamplesMissing(Json.Parse(StoredText(Get(store, AudioBufferKey(key))))) {
      SampleMiss(o, store, s);
      var i :| 0 <= i < |r.effects| && r.effects[i].Decode?;
      assert !NoDecode(r.effects);
    } else {
      SampleHit(o, store, s);
    }
  }

  /** The second run of `DownloadIdempotent`: three hits and no work. */
  lemma SecondRun(o: Options, store: Store, s: State)
    requires DownloadRun(o, store, s).outcome == Success
    requires !SamplesMissing(DownloadRun(o, store, s).state.audioBuffer)
    ensures var key := NamespacedName(o.namespace, o.url);
      var first := DownloadRun(o, store, s);
      var bytes := TierBytes(store, key, first.state.blob.value);
      DownloadRun(o, Committed(store, first.effects), first.state)
        == Run(Success, first.state.(arrayBuffer := Some(bytes)),
               [GetItem(key), GetItem(ArrayBufferKey(key)), GetItem(AudioBufferKey(key)), Caching(false)])
  {
    var key := NamespacedName(o.namespace, o.url);
    var first := DownloadRun(o, store, s);
    CommittedBlob(o, store, s);
    CommittedArrayBuffer(o, store, s);
    CommittedAudioBuffer(o, store, s);
    SuccessRecomputesMetadata(o, store, s);
    WarmStoreDoesNoWork(o, Committed(store, first.effects), first.state,
                        first.state.blob.value, TierBytes(store, key, first.state.blob.value));
  }

  /** A store that holds nothing gives a complete result from one fetch and
      one decode, writing all three tiers; the decode detaches the buffer. */
  lemma EmptyStoreDerivesEverything(o: Options, s: State)
    requires HasUrl(o.url) && o.fetch(o.url.value).Ok?
    ensures var key := NamespacedName(o.namespace, o.url);
      var r := DownloadRun(o, map[], s);
      var body := o.fetch(o.url.value).body;
      && r.outcome == Success
      && FetchesOnce(r.effects, o.url.value) && DecodesOnce(r.effects, body.bytes)
      && WritesTo(r.effects, key) && WritesTo(r.effects, ArrayBufferKey(key))
      && WritesTo(r.effects, AudioBufferKey(key))
      && r.state.audioBuffer == Some(o.normalizeAudioBuffer(o.decodeAudioData(body.bytes)))
      && r.state.arrayBuffer == Some(Detached)
  {
    var key := NamespacedName(o.namespace, o.url);
    var r := DownloadRun(o, map[], s);
    MissingBlobFetchesOnce(o, map[], s);
    ArrayBufferTierLaw(o, map[], s);
    AudioBufferTierLaw(o, map[], s);
    assert SetItem(key, BlobItem(o.fetch(o.url.value).body)) in r.effects;
  }
}
