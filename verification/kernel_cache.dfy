/**
 The compiled-kernel cache (src/backend/cuda/kernel_cache.cpp): looked up by key
 equality inside a hash bucket, filled on a miss, counting successful compiles only.
 */
module KernelCaches {
  import opened Samples
  import opened Chains
  import opened Oracle
  import opened Kernels
  import opened KernelKeys
  import opened Programs

  datatype Entry = Entry(key: KernelKey, kernels: seq<Kernel>)

  datatype CacheState = CacheState(entries: seq<Entry>, compiles: nat)

  /** What the compiler and the driver answer when a miss is built. */
  datatype BuildReply = BuildOk | CompilerError | LoadError

  datatype GetResult = Found(kernels: seq<Kernel>) | Refused | NotCompiled | NotLoaded

  /** The position of the entry a key finds, or the number of entries. */
  function Find(entries: seq<Entry>, key: KernelKey): (i: nat)
    ensures i <= |entries|
    ensures i < |entries| ==> KeyEq(entries[i].key, key)
    ensures forall j :: 0 <= j < i ==> !KeyEq(entries[j].key, key)
  {
    if entries == [] then 0
    else if KeyEq(entries[0].key, key) then 0
    else 1 + Find(entries[1..], key)
  }

  /** A key that was not there is found at the end once it is added. */
  lemma {:induction false} FoundAtEnd(entries: seq<Entry>, entry: Entry)
    requires Find(entries, entry.key) == |entries|
    ensures Find(entries + [entry], entry.key) == |entries|
    decreases |entries|
  {
    var all := entries + [entry];
    if entries == [] {
      KeyEqIsEquivalence(entry.key, entry.key, entry.key);
      assert all[0] == entry;
    } else {
      assert all[0] == entries[0] && all[1..] == entries[1..] + [entry];
      FoundAtEnd(entries[1..], entry);
    }
  }

  /** A lookup, given what code generation makes of its key. */
  function CacheStore(cache: CacheState, key: KernelKey, program: Option<seq<Kernel>>, reply: BuildReply)
    : (CacheState, GetResult)
  {
    var i := Find(cache.entries, key);
    if i < |cache.entries| then (cache, Found(cache.entries[i].kernels))
    else if program.None? then (cache, Refused)
    else if reply == CompilerError then (cache, NotCompiled)
    else if reply == LoadError then (cache, NotLoaded)
    else (CacheState(cache.entries + [Entry(key, program.value)], cache.compiles + 1), Found(program.value))
  }

  /** KernelCache::get as a transition: what it answers and what it leaves behind. */
  function CacheGet(nm: Numerics, cache: CacheState, key: KernelKey, reply: BuildReply): (CacheState, GetResult) {
    CacheStore(cache, key, EmitProgram(nm, key), reply)
  }

  function CacheClear(cache: CacheState): CacheState {
    cache.(entries := [])
  }

  class KernelCache {
    var entries: seq<Entry>
    var compiles: nat

    ghost function State(): CacheState
      reads this
    {
      CacheState(entries, compiles)
    }

    /** Keys in the map are keys the program can form. */
    ghost predicate Valid()
      reads this
    {
      forall i :: 0 <= i < |entries| ==> KeyFits(entries[i].key)
    }

    constructor ()
      ensures Valid() && State() == CacheState([], 0)
    {
      entries, compiles := [], 0;
    }

    /** Bucket search: only entries whose hash matches are compared field by field. */
    method Search(key: KernelKey) returns (i: nat)
      requires Valid() && KeyFits(key)
      ensures i == Find(entries, key)
    {
      var wanted := HashKernelKey(key);
      i := 0;
      while i < |entries|
        invariant i <= |entries|
        invariant Find(entries, key) == i + Find(entries[i..], key)
      {
        var hash := HashKernelKey(entries[i].key);
        var same := false;
        if hash == wanted {
          same := KeysEqual(entries[i].key, key);
        } else if KeyEq(entries[i].key, key) {
          EqualKeysHashAlike(entries[i].key, key);
        }
        assert entries[i..][0] == entries[i] && entries[i..][1..] == entries[i + 1..];
        if same {
          return;
        }
        i := i + 1;
      }
    }

    method Get(nm: Numerics, key: KernelKey, reply: BuildReply) returns (result: GetResult)
      requires Valid() && KeyFits(key)
      modifies this
      ensures Valid()
      ensures (State(), result) == CacheGet(nm, old(State()), key, reply)
    {
      var i := Search(key);
      if i < |entries| {
        return Found(entries[i].kernels);
      }
      var program := EmitProgram(nm, key);
      if program.None? {
        return Refused;
      }
      match reply {
        case CompilerError => return NotCompiled;
        case LoadError => return NotLoaded;
        case BuildOk =>
          compiles := compiles + 1;
          entries := entries + [Entry(key, program.value)];
          return Found(program.value);
      }
    }

    method Clear()
      modifies this
      ensures Valid() && State() == CacheClear(old(State()))
    {
      entries := [];
    }
  }

  // ------------------------------------------------------------------ whole runs

  datatype CacheEvent = Lookup(key: KernelKey, reply: BuildReply) | Flush

  function RunCache(nm: Numerics, events: seq<CacheEvent>): CacheState {
    if events == [] then CacheState([], 0)
    else
      var before := RunCache(nm, events[..|events| - 1]);
      match events[|events| - 1]
      case Lookup(key, reply) => CacheGet(nm, before, key, reply).0
      case Flush => CacheClear(before)
  }

  predicate EventsFit(events: seq<CacheEvent>) {
    forall i :: 0 <= i < |events| && events[i].Lookup? ==> KeyFits(events[i].key)
  }

  /** Whether a lookup succeeds, given the keys built so far in this lifetime. */
  predicate Succeeds(built: set<seq<Byte>>, name: seq<Byte>, program: Option<seq<Kernel>>, reply: BuildReply) {
    name in built || (program.Some? && reply == BuildOk)
  }

  /** The distinct keys built since the last flush, told apart by their byte strings. */
  function BuiltKeys(nm: Numerics, events: seq<CacheEvent>): set<seq<Byte>> {
    if events == [] then {}
    else
      var before := BuiltKeys(nm, events[..|events| - 1]);
      match events[|events| - 1]
      case Lookup(key, reply) =>
        if Succeeds(before, KeyBytes(key), EmitProgram(nm, key), reply) then before + {KeyBytes(key)} else before
      case Flush => {}
  }

  /** The distinct keys built in all lifetimes that a flush has ended, added up. */
  function EndedTotal(nm: Numerics, events: seq<CacheEvent>): nat {
    if events == [] then 0
    else
      var init := events[..|events| - 1];
      EndedTotal(nm, init) + (if events[|events| - 1].Flush? then |BuiltKeys(nm, init)| else 0)
  }

  function Names(entries: seq<Entry>): (r: seq<seq<Byte>>)
    ensures |r| == |entries|
  {
    seq(|entries|, i requires 0 <= i < |entries| => KeyBytes(entries[i].key))
  }

  /** `all` holds exactly the members of `names`, none of which is there twice. */
  ghost predicate Lists<T>(names: seq<T>, all: set<T>) {
    && (forall i :: 0 <= i < |names| ==> names[i] in all)
    && (forall b :: b in all ==> b in names)
    && |all| == |names|
  }

  lemma ListsOneMore<T>(names: seq<T>, all: set<T>, name: T)
    requires Lists(names, all) && name !in all
    ensures Lists(names + [name], all + {name})
  {
  }

  predicate EntriesFit(entries: seq<Entry>) {
    forall i :: 0 <= i < |entries| ==> KeyFits(entries[i].key)
  }

  /** Entries are pairwise different keys, and `built` holds exactly their byte strings. */
  ghost predicate EntriesAre(entries: seq<Entry>, built: set<seq<Byte>>) {
    EntriesFit(entries) && Lists(Names(entries), built)
  }

  /** A key is found exactly when its byte string is among those built. */
  lemma FindsBuilt(entries: seq<Entry>, built: set<seq<Byte>>, key: KernelKey)
    requires EntriesAre(entries, built) && KeyFits(key)
    ensures Find(entries, key) < |entries| <==> KeyBytes(key) in built
  {
    var i := Find(entries, key);
    if i < |entries| {
      KeyBytesDecodable(entries[i].key, key);
      assert Names(entries)[i] in built;
    } else if KeyBytes(key) in built {
      var j :| 0 <= j < |entries| && Names(entries)[j] == KeyBytes(key);
      KeyBytesDecodable(entries[j].key, key);
      assert false;
    }
  }

  lemma BuiltOneMore(entries: seq<Entry>, built: set<seq<Byte>>, entry: Entry)
    requires EntriesAre(entries, built) && KeyFits(entry.key) && KeyBytes(entry.key) !in built
    ensures EntriesAre(entries + [entry], built + {KeyBytes(entry.key)})
  {
    ListsOneMore(Names(entries), built, KeyBytes(entry.key));
    assert Names(entries + [entry]) == Names(entries) + [KeyBytes(entry.key)];
  }

  /** The built keys after a lookup. */
  function BuiltAfter(built: set<seq<Byte>>, name: seq<Byte>, program: Option<seq<Kernel>>, reply: BuildReply): set<seq<Byte>> {
    if Succeeds(built, name, program, reply) then built + {name} else built
  }

  /** The entries after a lookup are the built keys, and the counter grew by what they grew. */
  ghost predicate InStep(cache: CacheState, after: (CacheState, GetResult), built: set<seq<Byte>>, built': set<seq<Byte>>) {
    EntriesAre(after.0.entries, built') && after.0.compiles + |built| == cache.compiles + |built'|
  }

  lemma HitKeepsStep(cache: CacheState, built: set<seq<Byte>>, key: KernelKey, program: Option<seq<Kernel>>, reply: BuildReply)
    requires EntriesAre(cache.entries, built) && Find(cache.entries, key) < |cache.entries| && KeyBytes(key) in built
    ensures InStep(cache, CacheStore(cache, key, program, reply), built, BuiltAfter(built, KeyBytes(key), program, reply))
    ensures CacheStore(cache, key, program, reply).1.Found?
  {
    assert built + {KeyBytes(key)} == built;
  }

  lemma BuildKeepsStep(cache: CacheState, built: set<seq<Byte>>, key: KernelKey, kernels: seq<Kernel>)
    requires EntriesAre(cache.entries, built) && KeyFits(key)
    requires Find(cache.entries, key) == |cache.entries| && KeyBytes(key) !in built
    ensures InStep(cache, CacheStore(cache, key, Some(kernels), BuildOk), built, built + {KeyBytes(key)})
    ensures CacheStore(cache, key, Some(kernels), BuildOk).1.Found?
  {
    BuiltOneMore(cache.entries, built, Entry(key, kernels));
  }

  lemma RefusedKeepsStep(cache: CacheState, built: set<seq<Byte>>, key: KernelKey, program: Option<seq<Kernel>>, reply: BuildReply)
    requires EntriesAre(cache.entries, built) && Find(cache.entries, key) == |cache.entries|
    requires program.None? || reply != BuildOk
    ensures InStep(cache, CacheStore(cache, key, program, reply), built, built)
    ensures !CacheStore(cache, key, program, reply).1.Found?
  {
  }

  /** One lookup keeps the entries and the built keys in step. */
  lemma LookupKeepsStep(cache: CacheState, built: set<seq<Byte>>, key: KernelKey, program: Option<seq<Kernel>>, reply: BuildReply)
    requires EntriesAre(cache.entries, built) && KeyFits(key)
    ensures InStep(cache, CacheStore(cache, key, program, reply), built, BuiltAfter(built, KeyBytes(key), program, reply))
    ensures CacheStore(cache, key, program, reply).1.Found? <==> Succeeds(built, KeyBytes(key), program, reply)
  {
    FindsBuilt(cache.entries, built, key);
    if KeyBytes(key) in built {
      HitKeepsStep(cache, built, key, program, reply);
    } else if program.Some? && reply == BuildOk {
      BuildKeepsStep(cache, built, key, program.value);
    } else {
      RefusedKeepsStep(cache, built, key, program, reply);
    }
  }

  /**
   Over any run of lookups and flushes the compile counter is the number of distinct
   keys built, added over the cache's lifetimes, and a lookup succeeds exactly when its
   key was built before in this lifetime or builds now. A failed build adds nothing.
   */
  lemma {:induction false} CompilesAreDistinctKeys(nm: Numerics, events: seq<CacheEvent>)
    requires EventsFit(events)
    ensures RunCache(nm, events).compiles == EndedTotal(nm, events) + |BuiltKeys(nm, events)|
    ensures EntriesAre(RunCache(nm, events).entries, BuiltKeys(nm, events))
    decreases |events|
  {
    if events != [] {
      var init, last := events[..|events| - 1], events[|events| - 1];
      CompilesAreDistinctKeys(nm, init);
      if last.Lookup? {
        LookupKeepsStep(RunCache(nm, init), BuiltKeys(nm, init), last.key, EmitProgram(nm, last.key), last.reply);
      }
    }
  }

  lemma LookupSucceeds(nm: Numerics, events: seq<CacheEvent>, key: KernelKey, reply: BuildReply)
    requires EventsFit(events) && KeyFits(key)
    ensures CacheGet(nm, RunCache(nm, events), key, reply).1.Found?
            <==> Succeeds(BuiltKeys(nm, events), KeyBytes(key), EmitProgram(nm, key), reply)
  {
    CompilesAreDistinctKeys(nm, events);
    LookupKeepsStep(RunCache(nm, events), BuiltKeys(nm, events), key, EmitProgram(nm, key), reply);
  }

  // ------------------------------------------------------------- transparency

  /** A baked key's equality is exact when its chain is canonical; a parameterized key's always. */
  predicate Cacheable(key: KernelKey) {
    key.constants == Baked ==> CanonicalChain(key.chain)
  }

  /** Every entry holds the program of its own key. */
  ghost predicate OwnPrograms(nm: Numerics, entries: seq<Entry>) {
    forall i :: 0 <= i < |entries| ==> EmitProgram(nm, entries[i].key) == Some(entries[i].kernels)
  }

  /** And of every key that finds it. */
  ghost predicate CacheHonest(nm: Numerics, entries: seq<Entry>) {
    OwnPrograms(nm, entries) && forall i :: 0 <= i < |entries| ==> Cacheable(entries[i].key)
  }

  /** Kernels that some key equal to this one generates. */
  ghost predicate KernelsFor(nm: Numerics, key: KernelKey, kernels: seq<Kernel>) {
    exists own: KernelKey :: KeyEq(own, key) && EmitProgram(nm, own) == Some(kernels)
  }

  /** Canonical or not, what a lookup returns is the program of a key equal to the one asked for. */
  lemma GetFindsEqual(nm: Numerics, cache: CacheState, key: KernelKey, reply: BuildReply)
    requires OwnPrograms(nm, cache.entries)
    ensures OwnPrograms(nm, CacheGet(nm, cache, key, reply).0.entries)
    ensures var result := CacheGet(nm, cache, key, reply).1; result.Found? ==> KernelsFor(nm, key, result.kernels)
  {
    var i := Find(cache.entries, key);
    if i < |cache.entries| {
      assert KeyEq(cache.entries[i].key, key);
    } else {
      KeyEqIsEquivalence(key, key, key);
    }
  }

  /** A lookup is refused exactly when nothing equal is cached and code generation refuses the key. */
  predicate Refuses(nm: Numerics, cache: CacheState, key: KernelKey) {
    Find(cache.entries, key) == |cache.entries| && EmitProgram(nm, key).None?
  }

  /** What a lookup returns is what compiling afresh would, and the cache stays honest. */
  lemma GetIsTransparent(nm: Numerics, cache: CacheState, key: KernelKey, reply: BuildReply)
    requires CacheHonest(nm, cache.entries) && Cacheable(key)
    ensures CacheHonest(nm, CacheGet(nm, cache, key, reply).0.entries)
    ensures var result := CacheGet(nm, cache, key, reply).1;
            result.Found? ==> EmitProgram(nm, key) == Some(result.kernels)
  {
    var i := Find(cache.entries, key);
    if i < |cache.entries| {
      EqualKeysGenerateAlike(nm, cache.entries[i].key, key);
    }
  }

  lemma {:induction false} RunsAreTransparent(nm: Numerics, events: seq<CacheEvent>, key: KernelKey, reply: BuildReply)
    requires forall i :: 0 <= i < |events| && events[i].Lookup? ==> Cacheable(events[i].key)
    requires Cacheable(key)
    ensures CacheHonest(nm, RunCache(nm, events).entries)
    ensures var result := CacheGet(nm, RunCache(nm, events), key, reply).1;
            result.Found? ==> EmitProgram(nm, key) == Some(result.kernels)
    decreases |events|
  {
    if events != [] {
      var init, last := events[..|events| - 1], events[|events| - 1];
      RunsAreTransparent(nm, init, key, reply);
      if last.Lookup? {
        GetIsTransparent(nm, RunCache(nm, init), last.key, last.reply);
      }
    }
    GetIsTransparent(nm, RunCache(nm, events), key, reply);
  }
}
