/** Model of the static registry of `XMLSchemaCache`: a default singleton
    with an "instantiated" flag, and a lazily filled map from a
    class-loader/locale key to a cache built for that key.

    A class loader and a locale are represented by their `toString()`;
    `None` stands for `null`. Building a cache is represented by a record of
    the arguments it was built with, plus a fresh identity number that
    stands for the new object's identity. */
module XmlSchemaCache {
  import opened Wrappers

  /** `String.valueOf`: the object's string form, or "null" for `null`. */
  function ValueOf(x: Option<string>): (s: string)
    ensures x.None? ==> s == "null"
    ensures x.Some? ==> s == x.value
  {
    match x
    case None => "null"
    case Some(str) => str
  }

  /** The per-key lookup key: the class loader's string form, a '-', and
      the locale's string form. */
  function CacheKey(classLoader: Option<string>, locale: Option<string>): (key: string)
    ensures |key| == |ValueOf(classLoader)| + 1 + |ValueOf(locale)|
    ensures key[|ValueOf(classLoader)|] == '-'
  {
    ValueOf(classLoader) + "-" + ValueOf(locale)
  }

  /** Two lookups with the same locale share a key only if their class
      loaders have the same string form. */
  lemma SameLocaleKeyDeterminesLoader(cl1: Option<string>, cl2: Option<string>, locale: Option<string>)
    requires CacheKey(cl1, locale) == CacheKey(cl2, locale)
    ensures ValueOf(cl1) == ValueOf(cl2)
  {
    var k := CacheKey(cl1, locale);
    var n := |ValueOf(cl1)|;
    assert |ValueOf(cl2)| == n;
    assert ValueOf(cl1) == k[..n] == ValueOf(cl2);
  }

  /** If two keys split at different separators, the longer locale part
      holds the other key's separator. */
  lemma SeparatorInLongerSuffix(a1: string, b1: string, a2: string, b2: string)
    requires a1 + "-" + b1 == a2 + "-" + b2
    requires |b1| < |b2|
    ensures '-' in b2
  {
    var k := a1 + "-" + b1;
    assert b2[|b2| - 1 - |b1|] == k[|k| - 1 - |b1|] == '-';
  }

  /** When the string form of the locale never contains '-' (as for locales
      without extensions), the key determines both string forms. */
  lemma KeyDeterminesArguments(cl1: Option<string>, l1: Option<string>, cl2: Option<string>, l2: Option<string>)
    requires '-' !in ValueOf(l1) && '-' !in ValueOf(l2)
    ensures CacheKey(cl1, l1) == CacheKey(cl2, l2) <==> ValueOf(cl1) == ValueOf(cl2) && ValueOf(l1) == ValueOf(l2)
  {
    if CacheKey(cl1, l1) == CacheKey(cl2, l2) {
      var k := CacheKey(cl1, l1);
      var a1, a2, b1, b2 := ValueOf(cl1), ValueOf(cl2), ValueOf(l1), ValueOf(l2);
      if |b1| < |b2| {
        SeparatorInLongerSuffix(a1, b1, a2, b2);
      } else if |b2| < |b1| {
        SeparatorInLongerSuffix(a2, b2, a1, b1);
      }
      assert b1 == k[|k| - |b1|..] == b2;
      assert a1 == k[..|a1|] == a2;
    }
  }

  /** The resource resolver a cache was built with. */
  datatype Resolver = NoResolver | SimpleResolver(classLoader: Option<string>)

  /** A constructed `XMLSchemaCache`: its identity, the locale its schema
      factory was given (`None`: the system default), whether it logs SAX
      errors, and its resource resolver. */
  datatype SchemaCacheEntry = SchemaCacheEntry(id: nat, factoryLocale: Option<string>, loggingErrorHandler: bool, resolver: Resolver)

  /** The singleton built by the no-argument constructor: US locale, a
      logging error handler and a resolver without a class loader. */
  function DefaultInstance(): (r: SchemaCacheEntry)
    ensures forall key: string, n: nat :: !BuiltFor(key, r, n)
  {
    SchemaCacheEntry(0, Some("en_US"), true, SimpleResolver(None))
  }

  /** The cache built on a miss: the locale's schema factory, no error
      handler, and a resolver only when a class loader was given. */
  function NewEntry(id: nat, classLoader: Option<string>, locale: Option<string>): (e: SchemaCacheEntry)
    ensures e.id == id && e.factoryLocale == locale && !e.loggingErrorHandler
    ensures e.resolver.SimpleResolver? <==> classLoader.Some?
    ensures 1 <= id ==> BuiltFor(CacheKey(classLoader, locale), e, id + 1)
  {
    SchemaCacheEntry(id, locale, false, if classLoader.None? then NoResolver else SimpleResolver(classLoader))
  }

  /** The class loader a per-key entry was built for, read off its resolver. */
  function LoaderOf(r: Resolver): (cl: Option<string>)
  {
    match r
    case NoResolver => None
    case SimpleResolver(cl) => cl
  }

  /** The result of `EChange`-returning operations. */
  datatype EChange = Changed | Unchanged

  /** The registry's static state. `nextId` is the identity the next
      constructed cache receives. */
  datatype RegistryState = RegistryState(perClassLoaderCache: map<string, SchemaCacheEntry>, defaultInstantiated: bool, nextId: nat)

  /** A per-key entry was built by a miss for the key it is stored under,
      before the current identity counter. */
  ghost predicate BuiltFor(key: string, e: SchemaCacheEntry, nextId: nat)
  {
    1 <= e.id < nextId && !e.loggingErrorHandler &&
    (e.resolver.SimpleResolver? ==> e.resolver.classLoader.Some?) &&
    key == CacheKey(LoaderOf(e.resolver), e.factoryLocale)
  }

  /** Every stored entry was built for its key, and no two keys share an
      entry (an entry is distinct from the default singleton, id 0). */
  ghost predicate ValidState(s: RegistryState)
  {
    var m := s.perClassLoaderCache;
    1 <= s.nextId &&
    (forall k | k in m :: BuiltFor(k, m[k], s.nextId)) &&
    (forall k1, k2 | k1 in m && k2 in m && m[k1].id == m[k2].id :: k1 == k2)
  }

  /** `getInstance()`: the singleton, and the flag is set. */
  function GetInstanceStep(s: RegistryState): (step: (RegistryState, SchemaCacheEntry))
    ensures step.0.defaultInstantiated
    ensures step.0.perClassLoaderCache == s.perClassLoaderCache && step.0.nextId == s.nextId
    ensures ValidState(s) ==> ValidState(step.0)
  {
    (s.(defaultInstantiated := true), DefaultInstance())
  }

  /** `getInstanceOf(classLoader, locale)`. */
  function GetInstanceOfStep(s: RegistryState, classLoader: Option<string>, locale: Option<string>): (step: (RegistryState, SchemaCacheEntry))
    ensures s.perClassLoaderCache.Keys <= step.0.perClassLoaderCache.Keys
    ensures step.0.nextId == s.nextId || step.0.nextId == s.nextId + 1
    ensures ValidState(s) ==> ValidState(step.0) && step.1.id < step.0.nextId
  {
    if classLoader.None? && locale.None? then GetInstanceStep(s)
    else
      var key := CacheKey(classLoader, locale);
      if key in s.perClassLoaderCache then (s, s.perClassLoaderCache[key])
      else
        var e := NewEntry(s.nextId, classLoader, locale);
        (s.(perClassLoaderCache := s.perClassLoaderCache[key := e], nextId := s.nextId + 1), e)
  }

  /** `clearPerClassLoaderCache()`: empties the map, reports a change
      exactly when it held an entry, and keeps the flag, the identity counter
      and the registry invariant. */
  function ClearStep(s: RegistryState): (step: (RegistryState, EChange))
    ensures step.0.perClassLoaderCache == map[]
    ensures step.1 == Changed <==> |s.perClassLoaderCache| > 0
    ensures step.0.defaultInstantiated == s.defaultInstantiated && step.0.nextId == s.nextId
    ensures ValidState(s) ==> ValidState(step.0)
  {
    (s.(perClassLoaderCache := map[]), if s.perClassLoaderCache == map[] then Unchanged else Changed)
  }

  /** With both arguments `null`, the lookup returns the singleton, sets the
      flag and leaves the map and the identity counter alone. */
  lemma DefaultLookupBypassesMap(s: RegistryState)
    ensures GetInstanceOfStep(s, None, None).1 == DefaultInstance()
    ensures GetInstanceOfStep(s, None, None).0.perClassLoaderCache == s.perClassLoaderCache
    ensures GetInstanceOfStep(s, None, None).0.nextId == s.nextId
    ensures GetInstanceOfStep(s, None, None).0.defaultInstantiated
  {
  }

  /** The flag only goes from false to true, and only through the default
      lookup; clearing never resets it. */
  lemma InstantiatedFlagIsMonotonic(s: RegistryState, classLoader: Option<string>, locale: Option<string>)
    ensures GetInstanceStep(s).0.defaultInstantiated
    ensures GetInstanceOfStep(s, classLoader, locale).0.defaultInstantiated
            == (s.defaultInstantiated || (classLoader.None? && locale.None?))
    ensures ClearStep(s).0.defaultInstantiated == s.defaultInstantiated
  {
  }

  /** Any other lookup goes through the map, and never yields the singleton:
      in particular `(null, locale)` is cached under "null-" + locale. */
  lemma NonDefaultLookupIsNotSingleton(s: RegistryState, classLoader: Option<string>, locale: Option<string>)
    requires ValidState(s)
    requires classLoader.Some? || locale.Some?
    ensures GetInstanceOfStep(s, classLoader, locale).1 != DefaultInstance()
    ensures CacheKey(classLoader, locale) in GetInstanceOfStep(s, classLoader, locale).0.perClassLoaderCache
  {
  }

  /** On a hit the stored entry is returned and nothing changes. */
  lemma LookupHit(s: RegistryState, classLoader: Option<string>, locale: Option<string>)
    requires classLoader.Some? || locale.Some?
    requires CacheKey(classLoader, locale) in s.perClassLoaderCache
    ensures GetInstanceOfStep(s, classLoader, locale) == (s, s.perClassLoaderCache[CacheKey(classLoader, locale)])
  {
  }

  /** On a miss exactly one entry is added, under the key, built with the
      locale and with a resolver only when a class loader was given, and
      with an identity no stored entry has; no other key changes. */
  lemma LookupMiss(s: RegistryState, classLoader: Option<string>, locale: Option<string>)
    requires ValidState(s)
    requires classLoader.Some? || locale.Some?
    requires CacheKey(classLoader, locale) !in s.perClassLoaderCache
    ensures var (s', e) := GetInstanceOfStep(s, classLoader, locale);
      && s'.perClassLoaderCache.Keys == s.perClassLoaderCache.Keys + {CacheKey(classLoader, locale)}
      && (forall k | k in s.perClassLoaderCache :: s'.perClassLoaderCache[k] == s.perClassLoaderCache[k])
      && s'.perClassLoaderCache[CacheKey(classLoader, locale)] == e
      && e.factoryLocale == locale
      && (e.resolver.SimpleResolver? <==> classLoader.Some?)
      && !e.loggingErrorHandler
      && (forall k | k in s.perClassLoaderCache :: s.perClassLoaderCache[k].id != e.id)
      && s'.defaultInstantiated == s.defaultInstantiated
  {
  }

  /** Repeating a lookup returns the identical entry and changes nothing
      more. */
  lemma LookupIsIdempotent(s: RegistryState, classLoader: Option<string>, locale: Option<string>)
    ensures var (s', e) := GetInstanceOfStep(s, classLoader, locale);
      GetInstanceOfStep(s', classLoader, locale) == (s', e)
  {
  }

  /** After a clear, looking up a previously cached key builds a new entry,
      distinct from the one cached before. */
  lemma ClearThenLookupBuildsFresh(s: RegistryState, classLoader: Option<string>, locale: Option<string>)
    requires ValidState(s)
    requires classLoader.Some? || locale.Some?
    requires CacheKey(classLoader, locale) in s.perClassLoaderCache
    ensures GetInstanceOfStep(ClearStep(s).0, classLoader, locale).1 != s.perClassLoaderCache[CacheKey(classLoader, locale)]
  {
  }

  /** A provider's class loader, `null` for a `null` provider. */
  datatype ClassLoaderProvider = ClassLoaderProvider(classLoader: Option<string>)

  function ProvidedLoader(provider: Option<ClassLoaderProvider>): (cl: Option<string>)
    ensures provider.None? ==> cl.None?
    ensures provider.Some? ==> cl == provider.value.classLoader
  {
    match provider
    case None => None
    case Some(p) => p.classLoader
  }

  /** The static state of `XMLSchemaCache`, locks elided. */
  class SchemaCacheRegistry {
    var perClassLoaderCache: map<string, SchemaCacheEntry>
    var defaultInstantiated: bool
    var nextId: nat

    function State(): (s: RegistryState)
      reads this
    {
      RegistryState(perClassLoaderCache, defaultInstantiated, nextId)
    }

    ghost predicate Valid()
      reads this
    {
      ValidState(State())
    }

    /** The state after class initialisation: nothing cached, flag unset. */
    constructor ()
      ensures Valid()
      ensures perClassLoaderCache == map[] && !defaultInstantiated && nextId == 1
    {
      perClassLoaderCache := map[];
      defaultInstantiated := false;
      nextId := 1;
    }

    method IsInstantiated() returns (instantiated: bool)
      ensures instantiated == defaultInstantiated
    {
      instantiated := defaultInstantiated;
    }

    method GetInstance() returns (r: SchemaCacheEntry)
      requires Valid()
      modifies this
      ensures Valid()
      ensures (State(), r) == GetInstanceStep(old(State()))
    {
      r := DefaultInstance();
      defaultInstantiated := true;
    }

    method GetInstanceOf(classLoader: Option<string>, locale: Option<string>) returns (r: SchemaCacheEntry)
      requires Valid()
      modifies this
      ensures Valid()
      ensures (State(), r) == GetInstanceOfStep(old(State()), classLoader, locale)
      ensures r.id < nextId
    {
      if classLoader.None? && locale.None? {
        r := GetInstance();
        return;
      }
      var key := CacheKey(classLoader, locale);
      if key in perClassLoaderCache {
        // found under the read lock
        r := perClassLoaderCache[key];
      } else {
        // computeIfAbsent under the write lock
        r := NewEntry(nextId, classLoader, locale);
        nextId := nextId + 1;
        perClassLoaderCache := perClassLoaderCache[key := r];
      }
    }

    method GetInstanceOfClassLoader(classLoader: Option<string>) returns (r: SchemaCacheEntry)
      requires Valid()
      modifies this
      ensures Valid()
      ensures (State(), r) == GetInstanceOfStep(old(State()), classLoader, None)
    {
      r := GetInstanceOf(classLoader, None);
    }

    method GetInstanceOfClassLoaderProvider(provider: Option<ClassLoaderProvider>) returns (r: SchemaCacheEntry)
      requires Valid()
      modifies this
      ensures Valid()
      ensures (State(), r) == GetInstanceOfStep(old(State()), ProvidedLoader(provider), None)
    {
      r := GetInstanceOfClassLoader(ProvidedLoader(provider));
    }

    method ClearPerClassLoaderCache() returns (change: EChange)
      requires Valid()
      modifies this
      ensures Valid()
      ensures (State(), change) == ClearStep(old(State()))
    {
      change := if perClassLoaderCache == map[] then Unchanged else Changed;
      perClassLoaderCache := map[];
    }
  }

  /** Two loaders, one locale: the second lookup of a key reuses its entry,
      a different loader gets its own, and after a clear the first key gets
      a third, new entry. The identities count the constructions. */
  method TwoLoadersScenario() returns (e1: SchemaCacheEntry, e1Again: SchemaCacheEntry, e2: SchemaCacheEntry, cleared: EChange, e3: SchemaCacheEntry)
    ensures e1 == e1Again && e1.id == 1
    ensures e2 != e1 && e2.id == 2
    ensures cleared == Changed
    ensures e3 != e1 && e3.id == 3
  {
    var registry := new SchemaCacheRegistry();
    e1 := registry.GetInstanceOf(Some("loaderA"), Some("en"));
    e1Again := registry.GetInstanceOf(Some("loaderA"), Some("en"));
    assert CacheKey(Some("loaderB"), Some("en"))[6] != CacheKey(Some("loaderA"), Some("en"))[6];
    e2 := registry.GetInstanceOf(Some("loaderB"), Some("en"));
    cleared := registry.ClearPerClassLoaderCache();
    e3 := registry.GetInstanceOf(Some("loaderA"), Some("en"));
  }
}
