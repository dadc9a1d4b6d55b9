/**
 Properties of the call trace of one reindex: which calls come first, which
 index each call addresses, and what the defaults are.
 */
module ReindexProperties {
  import opened PhpValues
  import opened ReindexSpec

  /** The per-batch calls are bulk writes and refreshes, and all of them address the target. */
  lemma {:induction false} BatchEventsOnlyTouchTarget(targetIndex: string, scroll: seq<seq<Hit>>)
    ensures forall e :: e in BatchEvents(targetIndex, scroll) ==>
              e.index == targetIndex && (e.AddDocuments? || e.Refresh?)
  {
    if scroll != [] {
      BatchEventsOnlyTouchTarget(targetIndex, scroll[..|scroll| - 1]);
    }
  }

  /**
   Settings are applied twice, to the source and then to the target, before
   anything else; the one search comes next; every later call is a write or
   a refresh of the target.
   */
  lemma SettingsComeFirst(sourceIndex: string, targetIndex: string, options: Options,
                          scroll: seq<seq<Hit>>)
    ensures var trace := ReindexTrace(sourceIndex, targetIndex, options, scroll);
            && trace[0].SetSettings? && trace[0].index == sourceIndex
            && trace[1].SetSettings? && trace[1].index == targetIndex
            && trace[0].settings == trace[1].settings
            && trace[2].Search? && trace[2].index == sourceIndex && trace[2].query == MatchAll
            && forall i :: 3 <= i < |trace| ==>
                 trace[i].index == targetIndex && (trace[i].AddDocuments? || trace[i].Refresh?)
  {
    var trace := ReindexTrace(sourceIndex, targetIndex, options, scroll);
    var batches := BatchEvents(targetIndex, scroll);
    assert trace[3..] == batches;
    BatchEventsOnlyTouchTarget(targetIndex, scroll);
    forall i | 3 <= i < |trace|
      ensures trace[i].index == targetIndex && (trace[i].AddDocuments? || trace[i].Refresh?)
    {
      assert trace[i] == batches[i - 3];
    }
  }

  /**
   Batch `k` of the scroll gives exactly one bulk write of its documents to
   the target, immediately followed by one refresh of the target, in batch
   order after the three opening calls.
   */
  lemma BatchCallsInOrder(sourceIndex: string, targetIndex: string, options: Options,
                          scroll: seq<seq<Hit>>, k: nat)
    requires k < |scroll|
    ensures var trace := ReindexTrace(sourceIndex, targetIndex, options, scroll);
            && trace[3 + 2 * k] == AddDocuments(targetIndex, Translate(scroll[k]))
            && trace[4 + 2 * k] == Refresh(targetIndex)
  {
    var trace := ReindexTrace(sourceIndex, targetIndex, options, scroll);
    var batches := BatchEvents(targetIndex, scroll);
    assert trace[3..] == batches;
    BatchEventsAt(targetIndex, scroll, k);
    assert trace[3 + 2 * k] == batches[2 * k];
    assert trace[4 + 2 * k] == batches[2 * k + 1];
  }

  /** Filtering a concatenation filters each part. */
  lemma {:induction false} EventsOnAppend(a: seq<Event>, b: seq<Event>, index: string)
    ensures EventsOn(a + b, index) == EventsOn(a, index) + EventsOn(b, index)
    decreases |b|
  {
    if b != [] {
      assert (a + b)[..|a + b| - 1] == a + b[..|b| - 1];
      EventsOnAppend(a, b[..|b| - 1], index);
    } else {
      assert a + b == a;
    }
  }

  /** A trace whose calls all address one index is its own filter on that index. */
  lemma {:induction false} EventsOnAll(trace: seq<Event>, index: string)
    requires forall i :: 0 <= i < |trace| ==> trace[i].index == index
    ensures EventsOn(trace, index) == trace
  {
    if trace != [] {
      var init := trace[..|trace| - 1];
      EventsOnAll(init, index);
      assert trace == init + [trace[|trace| - 1]];
    }
  }

  /** A trace none of whose calls address an index filters to nothing on it. */
  lemma {:induction false} EventsOnNone(trace: seq<Event>, index: string)
    requires forall i :: 0 <= i < |trace| ==> trace[i].index != index
    ensures EventsOn(trace, index) == []
  {
    if trace != [] {
      EventsOnNone(trace[..|trace| - 1], index);
    }
  }

  /** Before the first batch, the source sees its settings call and the search, the target its settings call. */
  lemma PrologueEventsPerIndex(sourceIndex: string, targetIndex: string, resolved: Resolved)
    requires sourceIndex != targetIndex
    ensures var prologue := Prologue(sourceIndex, targetIndex, resolved);
            && EventsOn(prologue, sourceIndex) == [prologue[0], prologue[2]]
            && EventsOn(prologue, targetIndex) == [prologue[1]]
  {
    var prologue := Prologue(sourceIndex, targetIndex, resolved);
    assert prologue[..2][..1] == [prologue[0]];
    assert prologue[..2] == [prologue[0], prologue[1]];
    assert EventsOn([prologue[0]], sourceIndex) == [prologue[0]];
    assert EventsOn([prologue[0]], targetIndex) == [];
  }

  /**
   When source and target differ, the source sees exactly its settings call
   and the search, and the target sees exactly its settings call followed by
   one bulk write and one refresh per batch: nothing is ever written to the
   source.
   */
  lemma EventsPerIndex(sourceIndex: string, targetIndex: string, options: Options,
                       scroll: seq<seq<Hit>>)
    requires sourceIndex != targetIndex
    ensures var resolved := ResolveOptions(options);
            var settings := EffectiveSettings(resolved.indexSettings);
            var trace := ReindexTrace(sourceIndex, targetIndex, options, scroll);
            && EventsOn(trace, sourceIndex)
               == [SetSettings(sourceIndex, settings),
                   Search(sourceIndex, MatchAll, resolved.expiryTime, DefaultSizePerShard)]
            && EventsOn(trace, targetIndex)
               == [SetSettings(targetIndex, settings)] + BatchEvents(targetIndex, scroll)
  {
    var resolved := ResolveOptions(options);
    var prologue := Prologue(sourceIndex, targetIndex, resolved);
    var batches := BatchEvents(targetIndex, scroll);
    BatchEventsOnlyTouchTarget(targetIndex, scroll);
    EventsOnAll(batches, targetIndex);
    EventsOnNone(batches, sourceIndex);
    EventsOnAppend(prologue, batches, sourceIndex);
    EventsOnAppend(prologue, batches, targetIndex);
    PrologueEventsPerIndex(sourceIndex, targetIndex, resolved);
  }

  /**
   Both indices receive the bulk-load profile when `index_settings`
   is unset or loosely equal to null (false, 0, "" or an empty array count
   as null); otherwise they receive the caller's settings unchanged.
   */
  lemma SettingsReceived(sourceIndex: string, targetIndex: string, options: Options,
                         scroll: seq<seq<Hit>>)
    ensures var trace := ReindexTrace(sourceIndex, targetIndex, options, scroll);
            var given := Read(options, "index_settings");
            && (LooselyNull(given) ==>
                  trace[0].settings == BulkIndexSettings && trace[1].settings == BulkIndexSettings)
            && (!LooselyNull(given) ==>
                  trace[0].settings == given && trace[1].settings == given)
  {
  }

  /**
   With no options, the expiry time is "1m", the size per shard "1000", and
   both indices get the bulk-load profile.
   */
  lemma EmptyOptionsUseDefaults(sourceIndex: string, targetIndex: string, scroll: seq<seq<Hit>>)
    ensures ResolveOptions(map[]) == Resolved(Null, Str("1m"), Str("1000"))
    ensures ReindexTrace(sourceIndex, targetIndex, map[], scroll)[..3]
            == [SetSettings(sourceIndex, BulkIndexSettings),
                SetSettings(targetIndex, BulkIndexSettings),
                Search(sourceIndex, MatchAll, Str("1m"), Str("1000"))]
  {
  }
}
