# Elastica reindex, modelled in Dafny

Elastica's `Reindex` class copies every document of a source index into a
target index. It reads three options (`index_settings`, `expiry_time`,
`size_per_shard`). It applies index settings to the source and then to the
target: the caller's settings, or a bulk-load profile that switches refresh
off and sets the merge factor to 30. It then opens a scan-and-scroll search
for `*` on the source. For every batch the scroll yields, it builds one
`Document` per hit, writes the batch to the target in one bulk call, and
refreshes the target.

The model is made of four modules:

- `PhpValues` (`php_values.dfy`) covers the PHP semantics the class relies on.
  It models the values that can appear in an options array, a settings
  array or a hit, plus `isset`, reading an array key (an absent key reads as
  null) and the loose comparison `null == $v`.
- `ReindexSpec` (`reindex_spec.dfy`) states what a reindex does as functions
  of its inputs. `ResolveOptions` resolves the options and
  `EffectiveSettings` picks the settings an index receives. `Translate`
  turns a batch of hits into documents. `ReindexTrace` gives the complete,
  ordered list of calls made on the collaborators.
- `ReindexProperties` (`reindex_properties.dfy`) proves properties of that
  trace: the call order, which index each call addresses, the defaults, and
  the settings choice.
- `Elastica` (`elastica.dfy`) holds the imperative code. `Cluster` stands for
  the collaborators. Its methods (`SetSettings`, `ScanAndScroll`,
  `AddDocuments`, `Refresh`) each append one `Event` to its `log`.
  `Reindexer` is the class itself. Its `Reindex` method loops over the
  batches, and `WriteBatch` loops over the hits and appends each document.
  `Reindex` is proved to append exactly `ReindexTrace(...)` to the log.

The batches the scroll yields are a parameter of `Reindex`
(`scroll: seq<seq<Hit>>`, one inner sequence per batch). They are not
computed from the source index, because the search engine is not modelled.

Behaviour kept as the code has it, where the intent seems different:

- A set `size_per_shard` is assigned to the expiry time
  (`lib/Elastica/Reindex.php:61-63`). So it wins over `expiry_time` and
  becomes the scroll's expiry argument. The size per shard passed to the
  scroll is always the string `"1000"`. The model keeps this behaviour,
  and `ResolveOptions` states it.
- Options are tested with `isset`, so an option set to null keeps its
  default. The settings test is the loose `null == $indexSettings`, so
  `false`, `0`, `""` and an empty array also select the bulk-load profile.
  The string `"0"` does not.
- Nothing restores the index settings after the copy, and nothing closes the
  scroll cursor. The size per shard is the string `"1000"`, not an integer.
  The model follows the code.
- The class's own doc comment (`lib/Elastica/Reindex.php:43`) names the
  options `indexSettings`, `expiryTime` and `sizePerShard`, but the code
  reads `index_settings`, `expiry_time` and `size_per_shard`. A caller who
  uses the documented names gets every default. The model reads the keys the
  code reads.
- A document keeps the `_index` of its hit, that is, the index the hit was
  found in. It is not given the target index.
- The code does not catch any errors and has no error types of its own.

## Model

| member | source | states |
|---|---|---|
| PhpValues.Read | lib/Elastica/Reindex.php:77-78 | reading `$hit['_id']` and the other keys: a present key gives its value; the result is non-null exactly when `isset` holds; an absent key reads as null |
| PhpValues.LooselyNull | lib/Elastica/Reindex.php:104 | `null == $v` holds exactly for null, false, 0, "" and the empty array |
| ReindexSpec.ResolveOptions | lib/Elastica/Reindex.php:49-63 | size per shard is always "1000"; `index_settings` is used if set, else null; a set `size_per_shard` becomes the expiry time whatever `expiry_time` says; otherwise a set `expiry_time`; otherwise "1m" |
| PhpValues.Isset | lib/Elastica/Reindex.php:53-61 | `isset($options[...])`: an absent key is never set; a present key is set exactly when its value is not null |
| ReindexSpec.ToDocument | lib/Elastica/Reindex.php:78 | `new Document($hit['_id'], $hit['_source'], $hit['_type'], $hit['_index'])`: each field is the hit's value under the matching key, null where the key is missing; id and index are non-null exactly when the hit sets them |
| ReindexSpec.Prologue | lib/Elastica/Reindex.php:65-72 | the calls before the loop are exactly three: settings on the source, the same settings on the target (`EffectiveSettings` of the resolved settings, so never loosely null), then the `*` search on the source with the resolved expiry and size per shard |
| ReindexSpec.EffectiveSettings | lib/Elastica/Reindex.php:95-106 | the settings handed to an index are never loosely null: the bulk profile `{index: {refresh_interval: "-1", merge.policy.merge_factor: 30}}` replaces loosely-null settings, any other settings pass through unchanged |
| ReindexSpec.Translate | lib/Elastica/Reindex.php:74-80 | a batch yields exactly as many documents as it has hits |
| ReindexSpec.TranslateAt | lib/Elastica/Reindex.php:76-79 | document i takes `_id`, `_source`, `_type` and `_index` from hit i, so its index is the index the hit was found in, not the target |
| ReindexSpec.TranslateStep | lib/Elastica/Reindex.php:79 | appending the next hit's document to the list built so far gives the translation of one more hit |
| ReindexSpec.BatchEvents | lib/Elastica/Reindex.php:72-84 | the scroll loop makes exactly two calls per batch, so an empty scroll makes none |
| ReindexSpec.BatchEventsAt | lib/Elastica/Reindex.php:82-83 | for batch k, call 2k is the bulk write of its documents to the target and call 2k+1 a refresh of the target |
| ReindexSpec.BatchEventsStep | lib/Elastica/Reindex.php:72-84 | one more loop iteration appends exactly one bulk write and one refresh of the target |
| ReindexSpec.ReindexTrace | lib/Elastica/Reindex.php:47-84 | a reindex makes 3 + 2 per batch calls: settings on the source, the same settings on the target, then the `*` search on the source with the resolved expiry and size "1000" |
| ReindexProperties.BatchEventsOnlyTouchTarget | lib/Elastica/Reindex.php:72-84 | every call made in the scroll loop is a bulk write or a refresh, and all of them address the target |
| ReindexProperties.SettingsComeFirst | lib/Elastica/Reindex.php:65-84 | settings go to the source and then to the target with the same value, before anything else; the search on the source with `*` comes third; every later call is a write or a refresh of the target, so settings are applied exactly twice and the search happens once |
| ReindexProperties.BatchCallsInOrder | lib/Elastica/Reindex.php:72-84 | batch k gives call 3+2k, the bulk write of its documents to the target, immediately followed by a refresh of the target, in batch order |
| ReindexProperties.PrologueEventsPerIndex | lib/Elastica/Reindex.php:65-72 | before the first batch, the source receives its settings call and the search, and the target receives only its settings call |
| ReindexProperties.EventsPerIndex | lib/Elastica/Reindex.php:65-84 | with distinct indices, the source receives only its settings call and the search, never a write or refresh; the target receives only its settings call and then the per-batch write/refresh pairs |
| ReindexProperties.SettingsReceived | lib/Elastica/Reindex.php:53-55 | both indices receive the bulk profile when `index_settings` is absent or loosely null, and the caller's settings unchanged otherwise |
| ReindexProperties.EmptyOptionsUseDefaults | lib/Elastica/Reindex.php:49-51 | with an empty options array: index settings null, expiry "1m", size per shard "1000", and both indices get the bulk profile |
| Elastica.Cluster.SetSettings | lib/Elastica/Reindex.php:108 | `Index::setSettings` is recorded as one call carrying the index and the settings |
| Elastica.Cluster.ScanAndScroll | lib/Elastica/Reindex.php:68-72 | the search over one index with a query, an expiry and a size per shard is recorded as one call |
| Elastica.Cluster.AddDocuments | lib/Elastica/Reindex.php:82 | `Index::addDocuments` is recorded as one bulk-write call with its documents in order |
| Elastica.Cluster.Refresh | lib/Elastica/Reindex.php:83 | `Index::refresh` is recorded as one call |
| Elastica.Reindexer.constructor | lib/Elastica/Reindex.php:32-35 | the reindexer keeps the client it is given |
| Elastica.Reindexer.SetIndexSettings | lib/Elastica/Reindex.php:95-109 | makes exactly one settings call on the index, carrying `EffectiveSettings` of the given settings |
| Elastica.Reindexer.WriteBatch | lib/Elastica/Reindex.php:73-83 | the loop over hits builds exactly `Translate(results)`; the batch makes one bulk write of those documents to the target, then one refresh of the target, and nothing else |
| Elastica.Reindexer.Reindex | lib/Elastica/Reindex.php:47-85 | the calls made on the collaborators are exactly `ReindexTrace(source, target, options, scroll)`, appended to what was recorded before |

## Left out

- Error behaviour of the collaborators is not modelled. The class catches
  nothing, so in the code the first failing call ends the reindex. The model
  assumes that every call succeeds.
- The scroll cursor's mechanics are not modelled: cursor ids, expiry timing,
  shard fan-out and batch sizes belong to the client library. The batches
  are an input, and no bound on their size is claimed.
- Elastica.Reindexer.Reindex receives all batches at once. The code fetches
  each batch lazily between bulk writes. The order of the recorded calls is
  the same either way, because scroll advances are not recorded.
- `Search::addIndex`, `Search::setQuery` and `scanAndScroll`
  (`lib/Elastica/Reindex.php:68-72`) are recorded together as one
  `Search` call. Building the `Search` object has no other effect in this
  class.
- HTTP transport, settings storage, what a refresh does, and how a document
  is serialised are not modelled. These are client and server internals. A
  `Document` is recorded as the four arguments its constructor receives.
- Float and object values are not part of the PHP value model. Options
  arrays are looked up only by string keys, and duplicate keys in a PHP
  array literal are not excluded.
- ReindexProperties.EventsPerIndex, ReindexProperties.PrologueEventsPerIndex:
  assume the source and target are different indices. When they are the same index, every call goes to that
  one index, and the trace is still given by `ReindexTrace`.
- Running several reindexes at the same time is not modelled. The class
  does nothing to coordinate them.
