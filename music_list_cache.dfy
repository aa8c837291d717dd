/** `MusicListCache`: a client of one `CacheManager` that fixes the ttls and
    the key names. Each method leaves the cache in the state the function of
    the same name in MusicListSpec gives. */
module MusicList {
  import opened CacheSpec
  import opened Manager
  import opened MusicListSpec

  class MusicListCache {
    const cache: CacheManager

    constructor (cache: CacheManager)
      ensures this.cache == cache
    {
      this.cache := cache;
    }

    method GetAllMusic(forceRefresh: bool, now: int) returns (musicList: Value)
      modifies cache
      ensures Fetched(musicList, cache.State()) == MusicListSpec.GetAllMusic(old(cache.State()), forceRefresh, now)
    {
      if forceRefresh {
        cache.Clear(Some(ALL_MUSIC_KEY));
      }
      musicList := cache.Get(ALL_MUSIC_KEY, Some(MUSIC_LIST_TTL), now);
    }

    method SetAllMusic(musicList: seq<Value>, now: int, write: WriteOutcome)
      modifies cache
      ensures cache.State() == MusicListSpec.SetAllMusic(old(cache.State()), musicList, now, write)
    {
      cache.Set(ALL_MUSIC_KEY, List(musicList), Some(MUSIC_LIST_TTL), now, write);
    }

    method GetDuration(filename: string, now: int) returns (duration: Value)
      modifies cache
      ensures Fetched(duration, cache.State()) == MusicListSpec.GetDuration(old(cache.State()), filename, now)
    {
      duration := cache.Get(DurationKey(filename), Some(DURATION_TTL), now);
    }

    method SetDuration(filename: string, duration: real, now: int, write: WriteOutcome)
      modifies cache
      ensures cache.State() == MusicListSpec.SetDuration(old(cache.State()), filename, duration, now, write)
    {
      cache.Set(DurationKey(filename), Number(duration), Some(DURATION_TTL), now, write);
    }

    /** Every name is looked up in turn at the instant `now`; hits go into the
        result under their own name, misses onto the "uncached" list, which is
        stored last. */
    method GetDurationBatch(filenames: seq<string>, now: int) returns (result: map<string, BatchEntry>)
      modifies cache
      ensures result == BatchDict(Batch(old(cache.State()), filenames, now))
      ensures cache.State() == Batch(old(cache.State()), filenames, now).after
    {
      result := map[];
      var uncached: seq<string> := [];
      var i := 0;
      while i < |filenames|
        invariant 0 <= i <= |filenames|
        invariant BatchFrom(BatchRun(result, uncached, cache.State()), filenames[i..], now)
               == Batch(old(cache.State()), filenames, now)
      {
        var filename := filenames[i];
        ghost var before := BatchRun(result, uncached, cache.State());
        BatchUnfold(before, filenames[i..], now);
        assert filenames[i..][1..] == filenames[i + 1..];
        var duration := GetDuration(filename, now);
        if duration != Nil {
          result := result[filename := Duration(duration)];
        } else {
          uncached := uncached + [filename];
        }
        assert BatchRun(result, uncached, cache.State()) == BatchStep(before, filename, now);
        i := i + 1;
      }
      result := result[UNCACHED_KEY := UncachedList(uncached)];
    }
  }
}
