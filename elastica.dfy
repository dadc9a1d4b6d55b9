/**
 The `Reindex` class and the collaborators it drives. The search engine is
 reduced to a `Cluster` that records, in order, every call made on an index
 or a search; the reindexer is proved to make exactly the calls of
 `ReindexTrace`.
 */
module Elastica {
  import opened PhpValues
  import opened ReindexSpec

  /** The indices and searches of the cluster, seen through the calls made on them. */
  class Cluster {
    var log: seq<Event>

    constructor ()
      ensures log == []
    {
      log := [];
    }

    /** `Index::setSettings` on the named index. */
    method SetSettings(index: string, settings: Value)
      modifies this
      ensures log == old(log) + [Event.SetSettings(index, settings)]
    {
      log := log + [Event.SetSettings(index, settings)];
    }

    /** A `Search` over the named index with the given query, started with `scanAndScroll`. */
    method ScanAndScroll(index: string, query: string, expiryTime: Value, sizePerShard: Value)
      modifies this
      ensures log == old(log) + [Search(index, query, expiryTime, sizePerShard)]
    {
      log := log + [Search(index, query, expiryTime, sizePerShard)];
    }

    /** `Index::addDocuments`: one bulk write of the given documents. */
    method AddDocuments(index: string, documents: seq<Document>)
      modifies this
      ensures log == old(log) + [Event.AddDocuments(index, documents)]
    {
      log := log + [Event.AddDocuments(index, documents)];
    }

    /** `Index::refresh` on the named index. */
    method Refresh(index: string)
      modifies this
      ensures log == old(log) + [Event.Refresh(index)]
    {
      log := log + [Event.Refresh(index)];
    }
  }

  class Reindexer {
    const client: Cluster

    constructor (client: Cluster)
      ensures this.client == client
    {
      this.client := client;
    }

    /**
     Copies every document of the source index to the target index. `scroll`
     is what the scroll search over the source yields, one sequence of hits
     per batch.
     */
    method Reindex(sourceIndex: string, targetIndex: string, options: Options,
                   scroll: seq<seq<Hit>>)
      modifies client
      ensures client.log == old(client.log) + ReindexTrace(sourceIndex, targetIndex, options, scroll)
    {
      var resolved := ResolveOptions(options);

      SetIndexSettings(sourceIndex, resolved.indexSettings);
      SetIndexSettings(targetIndex, resolved.indexSettings);

      client.ScanAndScroll(sourceIndex, MatchAll, resolved.expiryTime, resolved.sizePerShard);

      ghost var prefix := old(client.log) + Prologue(sourceIndex, targetIndex, resolved);
      assert client.log == prefix;
      var i := 0;
      while i < |scroll|
        invariant 0 <= i <= |scroll|
        invariant client.log == prefix + BatchEvents(targetIndex, scroll[..i])
      {
        WriteBatch(targetIndex, scroll[i]);
        BatchEventsStep(targetIndex, scroll, i);
        i := i + 1;
      }
      assert scroll[..i] == scroll;
    }

    /**
     The body of the scroll loop: builds one document per hit, in hit order,
     writes them to the target in one bulk call, then refreshes the target.
     */
    method WriteBatch(targetIndex: string, results: seq<Hit>)
      modifies client
      ensures client.log
              == old(client.log) + [AddDocuments(targetIndex, Translate(results)), Refresh(targetIndex)]
    {
      var documents: seq<Document> := [];
      var j := 0;
      while j < |results|
        invariant 0 <= j <= |results|
        invariant documents == Translate(results[..j])
        invariant client.log == old(client.log)
      {
        var hit := results[j];
        documents := documents + [ToDocument(hit)];
        TranslateStep(results, j);
        j := j + 1;
      }
      assert results[..j] == results;

      client.AddDocuments(targetIndex, documents);
      client.Refresh(targetIndex);
    }

    /** Applies the given settings to an index, or the bulk-load profile when they are loosely null. */
    method SetIndexSettings(index: string, indexSettings: Value)
      modifies client
      ensures client.log == old(client.log) + [Event.SetSettings(index, EffectiveSettings(indexSettings))]
    {
      var settings := indexSettings;
      if LooselyNull(settings) {
        settings := BulkIndexSettings;
      }
      client.SetSettings(index, settings);
    }
  }
}
