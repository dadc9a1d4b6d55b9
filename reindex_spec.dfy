/**
 What `Reindex::reindex` does, as functions of its inputs: the resolved
 options, the settings each index receives, the translation of search hits
 into documents, and the trace of calls it makes on its collaborators
 (the source and target indices and the scroll search).
 */
module ReindexSpec {
  import opened PhpValues

  /** The caller's options array (`index_settings`, `expiry_time`, `size_per_shard`). */
  type Options = Dict

  /** The hit array of one search result (`_id`, `_source`, `_type`, `_index`, ...). */
  type Hit = Dict

  /** The arguments a `Document` is constructed from: id, source data, type and index. */
  datatype Document = Document(id: Value, data: Value, docType: Value, index: Value)

  /** One call made on a collaborator, in the order it is made. */
  datatype Event =
    | SetSettings(index: string, settings: Value)
    | Search(index: string, query: string, expiryTime: Value, sizePerShard: Value)
    | AddDocuments(index: string, documents: seq<Document>)
    | Refresh(index: string)

  /** The three values `reindex` works with once it has read its options. */
  datatype Resolved = Resolved(indexSettings: Value, expiryTime: Value, sizePerShard: Value)

  const DefaultExpiryTime: Value := Str("1m")
  const DefaultSizePerShard: Value := Str("1000")

  /** The query the scroll search runs against the source index. */
  const MatchAll: string := "*"

  /** The bulk-load profile: refresh switched off, merge factor 30. */
  const BulkIndexSettings: Value :=
    Arr([Entry(StrKey("index"), Arr([
      Entry(StrKey("refresh_interval"), Str("-1")),
      Entry(StrKey("merge.policy.merge_factor"), Int(30))]))])

  /**
   Option resolution. Each option replaces its default only when it is set
   (present and not null). A set `size_per_shard` is written over the expiry
   time, so it wins over `expiry_time`, and the size per shard keeps its
   default whatever the caller passes.
   */
  function ResolveOptions(options: Options): (r: Resolved)
    ensures r.sizePerShard == DefaultSizePerShard
    ensures Isset(options, "index_settings") ==> r.indexSettings == options["index_settings"]
    ensures !Isset(options, "index_settings") ==> r.indexSettings == Null
    ensures Isset(options, "size_per_shard") ==> r.expiryTime == options["size_per_shard"]
    ensures !Isset(options, "size_per_shard") && Isset(options, "expiry_time") ==>
              r.expiryTime == options["expiry_time"]
    ensures !Isset(options, "size_per_shard") && !Isset(options, "expiry_time") ==>
              r.expiryTime == DefaultExpiryTime
  {
    var expiryTime0, sizePerShard, indexSettings0 := DefaultExpiryTime, DefaultSizePerShard, Null;
    var indexSettings :=
      if Isset(options, "index_settings") then options["index_settings"] else indexSettings0;
    var expiryTime1 :=
      if Isset(options, "expiry_time") then options["expiry_time"] else expiryTime0;
    var expiryTime :=
      if Isset(options, "size_per_shard") then options["size_per_shard"] else expiryTime1;
    Resolved(indexSettings, expiryTime, sizePerShard)
  }

  /**
   The settings `setIndexSettings` hands to an index: the bulk-load profile
   in place of anything loosely equal to null, otherwise the caller's value.
   */
  function EffectiveSettings(indexSettings: Value): (s: Value)
    ensures !LooselyNull(s)
    ensures LooselyNull(indexSettings) ==> s == BulkIndexSettings
    ensures !LooselyNull(indexSettings) ==> s == indexSettings
  {
    if LooselyNull(indexSettings) then BulkIndexSettings else indexSettings
  }

  /**
   The document built from one hit: each of its four fields is the hit's
   value under the matching key, and null where the hit lacks that key.
   */
  function ToDocument(hit: Hit): (d: Document)
    ensures "_id" in hit ==> d.id == hit["_id"]
    ensures "_source" in hit ==> d.data == hit["_source"]
    ensures "_type" in hit ==> d.docType == hit["_type"]
    ensures "_index" in hit ==> d.index == hit["_index"]
    ensures "_id" !in hit ==> d.id == Null
    ensures "_source" !in hit ==> d.data == Null
    ensures "_type" !in hit ==> d.docType == Null
    ensures "_index" !in hit ==> d.index == Null
    ensures d.id != Null <==> Isset(hit, "_id")
    ensures d.index != Null <==> Isset(hit, "_index")
  {
    Document(Read(hit, "_id"), Read(hit, "_source"), Read(hit, "_type"), Read(hit, "_index"))
  }

  /**
   The documents of one batch: one per hit, in hit order, each carrying the
   id, source, type and original index of its hit.
   */
  function Translate(results: seq<Hit>): (documents: seq<Document>)
    ensures |documents| == |results|
    decreases |results|
  {
    if results == [] then []
    else Translate(results[..|results| - 1]) + [ToDocument(results[|results| - 1])]
  }

  /**
   Document `i` of a batch is built from hit `i` alone: its id, source and
   type, and the index the hit came from (not the target index).
   */
  lemma {:induction false} TranslateAt(results: seq<Hit>, i: nat)
    requires i < |results|
    ensures var document := Translate(results)[i];
            && document.id == Read(results[i], "_id")
            && document.data == Read(results[i], "_source")
            && document.docType == Read(results[i], "_type")
            && document.index == Read(results[i], "_index")
    decreases |results|
  {
    if i < |results| - 1 {
      TranslateAt(results[..|results| - 1], i);
    }
  }

  /** Translating one more hit appends its document. */
  lemma TranslateStep(results: seq<Hit>, j: nat)
    requires j < |results|
    ensures Translate(results[..j + 1]) == Translate(results[..j]) + [ToDocument(results[j])]
  {
    assert results[..j + 1][..j] == results[..j];
  }

  /** The calls made for the batches of the scroll: a bulk write then a refresh of the target, per batch. */
  function BatchEvents(targetIndex: string, scroll: seq<seq<Hit>>): (events: seq<Event>)
    ensures |events| == 2 * |scroll|
    decreases |scroll|
  {
    if scroll == [] then []
    else
      BatchEvents(targetIndex, scroll[..|scroll| - 1])
      + [AddDocuments(targetIndex, Translate(scroll[|scroll| - 1])), Refresh(targetIndex)]
  }

  /** Batch `k` of the scroll gives calls `2k` and `2k + 1`: its bulk write to the target, then a refresh of the target. */
  lemma {:induction false} BatchEventsAt(targetIndex: string, scroll: seq<seq<Hit>>, k: nat)
    requires k < |scroll|
    ensures var events := BatchEvents(targetIndex, scroll);
            && events[2 * k] == AddDocuments(targetIndex, Translate(scroll[k]))
            && events[2 * k + 1] == Refresh(targetIndex)
    decreases |scroll|
  {
    if k < |scroll| - 1 {
      BatchEventsAt(targetIndex, scroll[..|scroll| - 1], k);
    }
  }

  /** Consuming one more batch appends its bulk write and its refresh. */
  lemma BatchEventsStep(targetIndex: string, scroll: seq<seq<Hit>>, i: nat)
    requires i < |scroll|
    ensures BatchEvents(targetIndex, scroll[..i + 1])
            == BatchEvents(targetIndex, scroll[..i])
               + [AddDocuments(targetIndex, Translate(scroll[i])), Refresh(targetIndex)]
  {
    assert scroll[..i + 1][..i] == scroll[..i];
  }

  /** The calls made before the first batch: settings on both indices, then the scroll search. */
  function Prologue(sourceIndex: string, targetIndex: string, resolved: Resolved): (calls: seq<Event>)
    ensures |calls| == 3
    ensures calls[0].SetSettings? && calls[0].index == sourceIndex
    ensures calls[1].SetSettings? && calls[1].index == targetIndex
    ensures calls[0].settings == calls[1].settings && !LooselyNull(calls[0].settings)
    ensures calls[0].settings == EffectiveSettings(resolved.indexSettings)
    ensures calls[2].Search? && calls[2].index == sourceIndex && calls[2].query == MatchAll
    ensures calls[2].expiryTime == resolved.expiryTime && calls[2].sizePerShard == resolved.sizePerShard
  {
    var settings := EffectiveSettings(resolved.indexSettings);
    [ SetSettings(sourceIndex, settings),
      SetSettings(targetIndex, settings),
      Search(sourceIndex, MatchAll, resolved.expiryTime, resolved.sizePerShard) ]
  }

  /** Every call one `reindex` makes, in order, given the batches the scroll yields. */
  function ReindexTrace(sourceIndex: string, targetIndex: string, options: Options,
                        scroll: seq<seq<Hit>>): (trace: seq<Event>)
    ensures |trace| == 3 + 2 * |scroll|
    ensures var settings := EffectiveSettings(ResolveOptions(options).indexSettings);
            && trace[0] == SetSettings(sourceIndex, settings)
            && trace[1] == SetSettings(targetIndex, settings)
    ensures trace[2] == Search(sourceIndex, MatchAll,
                               ResolveOptions(options).expiryTime, DefaultSizePerShard)
  {
    Prologue(sourceIndex, targetIndex, ResolveOptions(options)) + BatchEvents(targetIndex, scroll)
  }

  /** The calls of a trace that address the index with the given name. */
  function EventsOn(trace: seq<Event>, index: string): seq<Event>
  {
    if trace == [] then []
    else EventsOn(trace[..|trace| - 1], index)
         + (if trace[|trace| - 1].index == index then [trace[|trace| - 1]] else [])
  }
}
