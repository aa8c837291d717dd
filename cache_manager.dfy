/** `CacheManager`: the memory tier and the cache directory as fields updated
    in place. Each method leaves the state that the function of the same name
    in CacheSpec gives for the old state. */
module Manager {
  import opened CacheSpec

  class CacheManager {
    /** `memory_cache`: key to record. */
    var memory: map<string, Entry>
    /** The cache directory: file name to what reading that file yields. */
    var files: map<string, FileSlot>
    const defaultTtl: int

    function State(): Tiers
      reads this
    {
      Tiers(memory, files, defaultTtl)
    }

    /** The directory is created if missing and kept if it exists, so the
        records of an earlier run are found again; memory starts empty. */
    constructor (defaultTtl: int, existing: map<string, FileSlot>)
      ensures State() == Tiers(map[], existing, defaultTtl)
    {
      this.defaultTtl := defaultTtl;
      memory := map[];
      files := existing;
    }

    method Get(key: string, ttl: Option<int>, now: int) returns (data: Value)
      modifies this
      ensures Fetched(data, State()) == CacheSpec.Get(old(State()), key, ttl, now)
    {
      var callerTtl := EffectiveTtl(ttl, defaultTtl);
      if key in memory {
        var record := memory[key];
        if now - record.time < record.ttl {
          return record.data;
        }
        memory := memory - {key};
      }
      var path := CachePath(key);
      if path in files {
        match files[path]
        case Corrupt =>
        case Stored(record) =>
          if now - record.time < callerTtl {
            memory := memory[key := record];
            return record.data;
          }
          files := files - {path};
      }
      return Nil;
    }

    method Set(key: string, data: Value, ttl: Option<int>, now: int, write: WriteOutcome)
      modifies this
      ensures State() == CacheSpec.Set(old(State()), key, data, ttl, now, write)
    {
      var record := Entry(data, now, EffectiveTtl(ttl, defaultTtl));
      memory := memory[key := record];
      var path := CachePath(key);
      match write
      case Written =>
        files := files[path := Stored(record)];
      case OpenFailed =>
      case DumpFailed =>
        files := files[path := Corrupt];
    }

    method Clear(key: Option<string>)
      modifies this
      ensures State() == CacheSpec.Clear(old(State()), key)
    {
      if key.Some? && key.value != "" {
        if key.value in memory {
          memory := memory - {key.value};
        }
        var path := CachePath(key.value);
        if path in files {
          files := files - {path};
        }
      } else {
        memory := map[];
        var pending := CacheFiles(files);
        while pending != {}
          invariant pending <= CacheFiles(old(files))
          invariant files == Without(old(files), CacheFiles(old(files)) - pending)
          invariant memory == map[]
          decreases pending
        {
          var name :| name in pending;
          files := files - {name};
          pending := pending - {name};
        }
      }
    }

    /** Deletes every unreadable cache file and every one older than its own
        ttl; answers how many were deleted (the count `cleanup` logs). */
    method Cleanup(now: int) returns (cleaned: nat)
      modifies this`files
      ensures State() == CacheSpec.Cleanup(old(State()), now)
      ensures cleaned == |Swept(old(files), now)|
    {
      ghost var doomed := Swept(files, now);
      ghost var removed: set<string> := {};
      cleaned := 0;
      var pending := CacheFiles(files);
      while pending != {}
        invariant pending <= CacheFiles(old(files))
        invariant Tally(removed, pending, doomed)
        invariant files == Without(old(files), removed)
        invariant cleaned == |removed|
        decreases pending
      {
        var name :| name in pending;
        var expired := match files[name]
          case Corrupt => true
          case Stored(record) => now - record.time > record.ttl;
        SweptMember(old(files), now, name);
        assert expired <==> name in doomed;
        TallyStep(removed, pending, doomed, name);
        if expired {
          WithoutOneMore(old(files), removed, name);
          files := files - {name};
          cleaned := cleaned + 1;
          removed := removed + {name};
        }
        pending := pending - {name};
      }
      assert removed == doomed by { assert Tally(removed, {}, doomed); }
      assert State() == old(State()).(files := files);
    }
  }

  /** The files already deleted are exactly the doomed ones no longer pending. */
  ghost predicate Tally(removed: set<string>, pending: set<string>, doomed: set<string>) {
    removed <= doomed && removed !! pending && doomed <= removed + pending
  }

  lemma TallyStep(removed: set<string>, pending: set<string>, doomed: set<string>, name: string)
    requires Tally(removed, pending, doomed) && name in pending
    ensures name in doomed ==> Tally(removed + {name}, pending - {name}, doomed) && |removed + {name}| == |removed| + 1
    ensures name !in doomed ==> Tally(removed, pending - {name}, doomed)
  {
  }

  lemma WithoutOneMore(files: map<string, FileSlot>, names: set<string>, name: string)
    ensures Without(files, names + {name}) == Without(files, names) - {name}
  {
  }

  lemma SweptMember(files: map<string, FileSlot>, now: int, name: string)
    requires name in CacheFiles(files)
    ensures name in files && (name in Swept(files, now) <==> Doomed(files[name], now))
  {
  }
}
