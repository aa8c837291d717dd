# xiaomusic cache manager — a Dafny model

This project models the two-tier TTL cache of xiaomusic (`xiaomusic/utils/cache_manager.py`).

- **`CacheManager`** keeps records `{data, time, ttl}` in two tiers. One is an in-memory dictionary keyed by cache key. The other is a directory holding one `<md5(key)>.cache` file per key.
- **`get`** checks memory first, judging freshness by the record's own stored ttl, and evicts a stale entry. It then reads the file, judging freshness by the caller's ttl. A fresh file record is copied into memory; a stale one is deleted.
- **`set`** writes the record to both tiers.
- **`clear`** removes one key from both tiers, or empties memory and deletes every `*.cache` file.
- **`cleanup`** deletes the cache files that are unreadable or older than their stored ttl.
- **`MusicListCache`** is a client of `CacheManager`. It fixes the ttls (7200 s for the music list, 86400 s for song durations) and the key names (`all_music_list`, `duration:<filename>`). Its batch lookup sorts file names into cached hits and an ordered `uncached` list.

Module layout:

- `CacheSpec` (`cache_spec.dfy`) holds the cache state as a value `Tiers(memory, files, defaultTtl)`. It defines `get`, `set`, `clear` and `cleanup` as functions from the old state to the new one, and proves the lemmas about them.
- `Manager` (`cache_manager.dfy`) holds the class `CacheManager`. Its fields `memory` and `files` are updated in place. Every method is proved to leave the state given by the `CacheSpec` function of the same name. `clear()` and `cleanup` loop over the matching files as the source does.
- `MusicListSpec` (`music_list_spec.dfy`) states the client's operations as functions. `get_duration_batch` is a left-to-right fold (`BatchFrom`) of duration lookups, and each lookup sees the state the previous one left. A reference definition (`Misses`, `Hits`) looks each name up on its own in the initial state. The lemmas prove that the fold and the reference agree.
- `MusicList` (`music_list_cache.dfy`) holds the class `MusicListCache`. Its batch method is a loop proved against `Batch`.

Modelling choices:

- Python's `None` is `Value.Nil`. `get` answers `Nil` on a miss, so a stored `None` looks like a miss, as in the source. The batch lookup therefore lists a file whose cached duration is `None` as uncached.
- The directory is a map from file name to `FileSlot`, which is either `Stored(entry)` or `Corrupt`. `Corrupt` means the file could not be read as a record. The path of a key is `Digest(key) + ".cache"`. `Digest` stands in for MD5 and is only used as an injective map (`CachePathInjective`). Files whose names do not match `*.cache` may sit in the directory; `clear()` and `cleanup` leave them alone.
- The clock is an integer parameter `now` (whole seconds).
- How the file write in `set` ends is a parameter. `OpenFailed` leaves the file as it was. `DumpFailed` means the file was opened (and so truncated) but the record was not written, which leaves it unreadable.
- `clear` tests its key for truth, as Python's `if key:` does. So `clear("")` wipes everything, exactly like `clear()` (`ClearEmptyKeyClearsAll`).
- `ttl or default_ttl` turns both `None` and `0` into the default (`EffectiveTtl`).

## Model

| member | source | states |
|---|---|---|
| `CacheSpec.Digest` | xiaomusic/utils/cache_manager.py:29-31 | definition standing in for `_get_cache_key`'s MD5 digest; what the model relies on (distinct keys, distinct files) is stated by `CachePathInjective` |
| `CacheSpec.CachePath` | xiaomusic/utils/cache_manager.py:33-36 | definition of `_get_cache_path`; what it does is stated by `CachePathInjective` and `CachePathIsCacheFile` |
| `CacheSpec.IsCacheFile` | xiaomusic/utils/cache_manager.py:138 | definition of the `*.cache` pattern (also at line 126); what it does is stated by `CachePathIsCacheFile` and `CleanupDeletesExactly` |
| `CacheSpec.CacheFiles` | xiaomusic/utils/cache_manager.py:138 | definition of the `*.cache` glob (also at line 126); what it does is stated by `WithoutCacheFiles` and `CleanupDeletesExactly` |
| `CacheSpec.CachePathInjective` | xiaomusic/utils/cache_manager.py:29-36 | distinct keys get distinct cache files |
| `CacheSpec.CachePathIsCacheFile` | xiaomusic/utils/cache_manager.py:33-36 | every key's file matches the `*.cache` pattern used by `clear()` and `cleanup` |
| `CacheSpec.EffectiveTtl` | xiaomusic/utils/cache_manager.py:48 | an absent ttl and a ttl of 0 both become `default_ttl`; any other ttl is kept (the same rule `set` applies at line 90) |
| `CacheSpec.Fresh` | xiaomusic/utils/cache_manager.py:54-66 | definition of `get`'s freshness test (strict `<` at lines 54 and 66); what it does is stated by `GetMemoryHit`, `GetPromotesFreshFile` and `ExpiryBoundary` |
| `CacheSpec.Doomed` | xiaomusic/utils/cache_manager.py:139-152 | definition of `cleanup`'s deletion test (unreadable, or strict `>`); what it does is stated by `CleanupDeletesExactly` and `ExpiryBoundary` |
| `CacheSpec.MemoryHit` | xiaomusic/utils/cache_manager.py:52-54 | definition of the memory-tier hit: present and fresh by the record's own stored ttl; what it does is stated by `GetMemoryHit` and `GetEvictsStaleMemory` |
| `CacheSpec.FileHit` | xiaomusic/utils/cache_manager.py:60-66 | definition of the file-tier hit: the file exists, loads, and is fresh by the caller's ttl; what it does is stated by `GetPromotesFreshFile`, `GetDeletesStaleFile` and `StaleMemoryRevivedFromFile` |
| `CacheSpec.Get` | xiaomusic/utils/cache_manager.py:38-78 | `get` changes no memory key other than its own, never adds a file, and deletes at most its own key's file |
| `CacheSpec.GetMemoryHit` | xiaomusic/utils/cache_manager.py:52-56 | a memory entry younger than its stored ttl is returned, nothing changes, and the caller's ttl plays no part |
| `CacheSpec.GetEvictsStaleMemory` | xiaomusic/utils/cache_manager.py:52-57 | a memory entry that is stale by its stored ttl is removed; every other memory key keeps its entry; the key is back in memory only if the file tier answers it |
| `CacheSpec.GetPromotesFreshFile` | xiaomusic/utils/cache_manager.py:60-70 | on a memory miss, a readable file record younger than the caller's ttl is returned and copied into memory with its stored ttl; the file stays |
| `CacheSpec.GetDeletesStaleFile` | xiaomusic/utils/cache_manager.py:60-78 | on a memory miss, a readable but stale file is deleted and `Nil` is returned; an unreadable file is kept and `Nil` is returned |
| `CacheSpec.GetAnswersOnlyFromAHit` | xiaomusic/utils/cache_manager.py:51-78 | `get` returns `Nil` and leaves the key out of memory when neither tier answers; otherwise it returns the data of the tier that does |
| `CacheSpec.StaleMemoryRevivedFromFile` | xiaomusic/utils/cache_manager.py:54-70 | a record stale by its own ttl is still served, and put back into memory, when its file holds it and the caller's ttl exceeds its age |
| `CacheSpec.GetIsLocal` | xiaomusic/utils/cache_manager.py:52-66 | what `get` answers for a key depends only on that key's memory entry, its file and the default ttl |
| `CacheSpec.GetPreservesAnswers` | xiaomusic/utils/cache_manager.py:38-78 | after a `get`, every other key, and the same key asked with the same ttl, answers as before at the same instant |
| `CacheSpec.Set` | xiaomusic/utils/cache_manager.py:80-107 | `set` puts the record (data, now, effective ttl) in memory; on a good write it puts the same record in the file; a failed open leaves the files unchanged; a failed dump leaves the file unreadable; no other key changes |
| `CacheSpec.SetThenGet` | xiaomusic/utils/cache_manager.py:52-98 | after `set(k, d, ttl)` at t, `get(k)` at t' with t' − t below the effective ttl returns d from memory, whatever ttl it passes and however the write ended |
| `CacheSpec.SetPreservesOtherAnswers` | xiaomusic/utils/cache_manager.py:97-104 | a `set` changes no other key's answer |
| `CacheSpec.WithoutCacheFiles` | xiaomusic/utils/cache_manager.py:126-130 | deleting the `*.cache` files leaves exactly the other files, unchanged |
| `CacheSpec.Clear` | xiaomusic/utils/cache_manager.py:109-131 | `clear(k)` for a non-empty k removes k from memory and its file and nothing else; `clear()` and `clear("")` empty memory and delete every `*.cache` file |
| `CacheSpec.ClearKey` | xiaomusic/utils/cache_manager.py:115-122 | after `clear(k)`, `get(k)` misses and every other key answers as before |
| `CacheSpec.ClearAll` | xiaomusic/utils/cache_manager.py:123-131 | after `clear()` every key misses, memory is empty, and files that are not cache files remain |
| `CacheSpec.ClearEmptyKeyClearsAll` | xiaomusic/utils/cache_manager.py:115 | `clear("")` has the same effect as `clear()` |
| `CacheSpec.Swept` | xiaomusic/utils/cache_manager.py:138-152 | definition of the set of files the `cleanup` loop deletes; what it holds is stated by `CleanupDeletesExactly`, and `Manager.CacheManager.Cleanup` counts it |
| `CacheSpec.Cleanup` | xiaomusic/utils/cache_manager.py:133-155 | `cleanup` leaves memory alone, deletes exactly the swept files, keeps the rest unchanged, and leaves no unreadable or expired cache file |
| `CacheSpec.CleanupDeletesExactly` | xiaomusic/utils/cache_manager.py:138-152 | a file is deleted if and only if it matches `*.cache` and is unreadable or strictly older than its stored ttl |
| `CacheSpec.CleanupKeepsFreshRecords` | xiaomusic/utils/cache_manager.py:143 | a record younger than its own ttl survives `cleanup` unchanged |
| `CacheSpec.ExpiryBoundary` | xiaomusic/utils/cache_manager.py:143 | a record exactly ttl seconds old is expired for `get` (strict `<` at lines 54 and 66) but survives `cleanup` (strict `>`) |
| `Manager.CacheManager.constructor` | xiaomusic/utils/cache_manager.py:22-27 | memory starts empty, files already in the directory are kept, and the default ttl is fixed |
| `Manager.CacheManager.Get` | xiaomusic/utils/cache_manager.py:38-78 | answers and leaves the state `CacheSpec.Get` gives |
| `Manager.CacheManager.Set` | xiaomusic/utils/cache_manager.py:80-107 | leaves the state `CacheSpec.Set` gives |
| `Manager.CacheManager.Clear` | xiaomusic/utils/cache_manager.py:109-131 | leaves the state `CacheSpec.Clear` gives; the delete-all branch loops over the matching files |
| `Manager.CacheManager.Cleanup` | xiaomusic/utils/cache_manager.py:133-155 | leaves the state `CacheSpec.Cleanup` gives, touches only the files, and counts exactly the files it deleted |
| `MusicListSpec.DurationKey` | xiaomusic/utils/cache_manager.py:203-213 | definition of the `duration:<filename>` key; what it does is stated by `DurationKeysDistinct` |
| `MusicListSpec.DurationKeysDistinct` | xiaomusic/utils/cache_manager.py:181-213 | different file names get different `duration:` keys, and none of them is `all_music_list` |
| `MusicListSpec.GetAllMusic` | xiaomusic/utils/cache_manager.py:171-183 | with `force_refresh` the key is cleared from both tiers first, so the result is `None` |
| `MusicListSpec.SetAllMusic` | xiaomusic/utils/cache_manager.py:185-192 | definition of `set_all_music`; what it does is stated by `AllMusicRoundTrip` |
| `MusicListSpec.GetDuration` | xiaomusic/utils/cache_manager.py:194-203 | definition of `get_duration`; what it does is stated by `DurationRoundTrip` and `LookupKeepsAnswers` |
| `MusicListSpec.SetDuration` | xiaomusic/utils/cache_manager.py:205-215 | definition of `set_duration`; what it does is stated by `DurationRoundTrip` and `SetDurationKeepsOthers` |
| `MusicListSpec.AllMusicRoundTrip` | xiaomusic/utils/cache_manager.py:162-191 | a stored music list is returned by `get_all_music()` for 7200 seconds |
| `MusicListSpec.DurationRoundTrip` | xiaomusic/utils/cache_manager.py:165-213 | a stored duration is returned by `get_duration` for 86400 seconds |
| `MusicListSpec.SetDurationKeepsOthers` | xiaomusic/utils/cache_manager.py:205-215 | storing a duration changes neither the music list nor any other file's duration |
| `MusicListSpec.LookupKeepsAnswers` | xiaomusic/utils/cache_manager.py:194-203 | a duration lookup does not change what any duration lookup answers at the same instant |
| `MusicListSpec.BatchStep` | xiaomusic/utils/cache_manager.py:231-235 | definition of one iteration of the `get_duration_batch` loop; what it does is stated by `StepResult` |
| `MusicListSpec.BatchFrom` | xiaomusic/utils/cache_manager.py:230-235 | definition of the remaining iterations of the loop; what it does is stated by `BatchFromMisses` and `BatchFromHits` |
| `MusicListSpec.Batch` | xiaomusic/utils/cache_manager.py:226-235 | definition of the whole loop from an empty result; what it does is stated by `BatchResult` and `BatchKeepsAnswers` |
| `MusicListSpec.BatchDict` | xiaomusic/utils/cache_manager.py:237-238 | definition of the returned dictionary, with "uncached" written last; what it holds is stated by `BatchResult` |
| `MusicListSpec.Misses` | xiaomusic/utils/cache_manager.py:227-235 | a name is in the missed list if and only if it is an input whose own lookup misses; the list is no longer than the input |
| `MusicListSpec.Hits` | xiaomusic/utils/cache_manager.py:230-233 | reference definition of the hits: each name looked up on its own in the initial state, with the duration found; what it holds is stated by `BatchFromHits` and `BatchResult` |
| `MusicListSpec.BatchFromMisses` | xiaomusic/utils/cache_manager.py:230-235 | the loop's `uncached` list is the input names whose own lookup misses, in input order |
| `MusicListSpec.BatchFromHits` | xiaomusic/utils/cache_manager.py:230-233 | the loop's result holds exactly the names whose own lookup hits, each with the duration found |
| `MusicListSpec.BatchResult` | xiaomusic/utils/cache_manager.py:226-238 | every input name other than "uncached" is either in the result with its cached duration or in `uncached`, never both; `result["uncached"]` is always the ordered miss list, overwriting a hit for a file named "uncached" |
| `MusicListSpec.BatchKeepsAnswers` | xiaomusic/utils/cache_manager.py:230-231 | after a batch every duration lookup at the same instant answers as before |
| `MusicList.MusicListCache.constructor` | xiaomusic/utils/cache_manager.py:167-169 | the client wraps the given cache manager |
| `MusicList.MusicListCache.GetAllMusic` | xiaomusic/utils/cache_manager.py:171-183 | answers and leaves the state `MusicListSpec.GetAllMusic` gives |
| `MusicList.MusicListCache.SetAllMusic` | xiaomusic/utils/cache_manager.py:185-192 | stores the list under `all_music_list` with ttl 7200 |
| `MusicList.MusicListCache.GetDuration` | xiaomusic/utils/cache_manager.py:194-203 | looks up `duration:<filename>` with ttl 86400 |
| `MusicList.MusicListCache.SetDuration` | xiaomusic/utils/cache_manager.py:205-215 | stores the duration under `duration:<filename>` with ttl 86400 |
| `MusicList.MusicListCache.GetDurationBatch` | xiaomusic/utils/cache_manager.py:217-238 | returns `BatchDict(Batch(...))` and leaves the cache in the state the fold leaves; what that dictionary holds is stated by `BatchResult` |

## Left out

- The MD5 digest of `_get_cache_key`: `Digest` is the identity, an injective stand-in. MD5 collisions are not modelled.
- pickle and the file system. A file's content is a `FileSlot`. Every read failure is `Corrupt`. This includes a record that lacks the `time` or `ttl` field. In the source, a file record without `ttl` can still be promoted by `get`, and the next memory lookup then raises `KeyError`. That path is not modelled.
- Failures of `unlink`. Deleting a file always succeeds in the model. In the source, a failed unlink is caught in `get`, `clear()` and `cleanup`; in `clear(key)` it propagates. A `*.cache` entry that is a directory is not modelled either.
- Wall-clock time. `time.time()` is a float; here time is an integer `now` passed in. `get_duration_batch` uses one `now` for all its lookups, while the source reads the clock once per lookup. So `BatchResult`'s "never both" holds for a name listed twice only because of the single clock: in the source, its entry can expire between the two lookups, so the name hits the first time, misses the second, and ends up both in the result and in `uncached`. Distinct names are unaffected, because `GetIsLocal` makes each name's answer independent of the others' lookups.
- Payload types. Python's `Any` is the `Value` datatype, and durations are `real` values treated as opaque. The source stores the caller's objects by reference, so a later mutation of a stored list would show through the memory tier; the model stores values.
- `Manager.CacheManager.Cleanup` returns the number of deleted files. The source only logs that number and returns `None`.
- Logging, and the `async`/`await` machinery. The methods are modelled as ordinary sequential methods.
- The singleton accessors `get_cache_manager` and `get_music_list_cache` (lines 242-259). They only create the objects lazily; the default `cache_dir` and `default_ttl` of 3600 become constructor arguments.
- `xiaomusic/utils/async_http_client.py`, a wrapper over `aiohttp` network calls, is not part of this model.
