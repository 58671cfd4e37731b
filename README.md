# ph-commons core, modelled in Dafny

This project models three small pieces of the ph-commons utility library
and proves properties of them.

- **`ArrayIterator`** (`array_iterator.dfy`, module `ArrayIterate`). An
  iterator over a private copy of an array, or of an offset/length slice of
  one. Its cursor only moves forward. The class keeps the copy as an
  immutable sequence and the cursor as a mutable `nat`. `Next` is tied to the
  pure function `NextStep`, and `NextCalls` folds any number of `next()`
  calls. The contracts and lemmas prove that draining the iterator returns the copy in
  order, that an exhausted iterator keeps failing, and that the cursor never
  passes the end.
- **`XMLSchemaCache`'s static registry** (`xml_schema_cache.dfy`, module
  `XmlSchemaCache`). It holds a default singleton with an "instantiated"
  flag, plus a lazily filled map from a key to a schema cache built for that
  key. The key is `String.valueOf(classLoader) + "-" + String.valueOf(locale)`.
  The static fields become the class `SchemaCacheRegistry`. Each of its
  state-changing methods is tied to a pure step function (`GetInstanceStep`,
  `GetInstanceOfStep`, `ClearStep`) on a `RegistryState` value, and the
  lemmas state what the source promises about those steps. Class loaders and
  locales appear as their `toString()` forms, with `None` for `null`. A built
  cache is a record of what it was built with: locale, error handler and
  resolver. It carries an identity number that stands for object identity.
  The default singleton has identity 0, and every miss takes the next number.
- **`IBiPredicate`'s default methods** (`bi_predicate.dfy`, module
  `BiPredicates`). A Java predicate can throw, so `test(t, u)` is modelled as
  a total function into `Result<bool, E>`. Short-circuiting then becomes "the
  composed result does not depend on `other`". Relaying an exception becomes
  "the composed result is the same `Failure`".

`wrappers.dfy` defines `Option`, `Result` and `Outcome`, which stand for
nullable references, returning normally versus throwing, and `void` calls.

## Model

| member | source | states |
|---|---|---|
| `ArrayIterate.ArrayIterator.constructor` | src/main/java/com/helger/commons/collection/iterate/ArrayIterator.java:46-51 | the new iterator holds a copy of the whole array, with the cursor at 0 |
| `ArrayIterate.ArrayIterator.OfsLen` | src/main/java/com/helger/commons/collection/iterate/ArrayIterator.java:63-71 | for an in-range offset/length, the iterator holds exactly `array[ofs .. ofs+len)`, with the cursor at 0 |
| `ArrayIterate.ArrayIterator.HasNext` | src/main/java/com/helger/commons/collection/iterate/ArrayIterator.java:73-76 | true exactly when the cursor is before the end of the copy; reads the state and changes nothing |
| `ArrayIterate.ArrayIterator.Next` | src/main/java/com/helger/commons/collection/iterate/ArrayIterator.java:78-84 | the result and the new cursor are those of `NextStep`; the copy is unchanged and the cursor stays within bounds |
| `ArrayIterate.NextStep` | src/main/java/com/helger/commons/collection/iterate/ArrayIterator.java:79-84 | before the end, returns the element at the cursor and advances the cursor by exactly 1; at the end, fails with NoSuchElement and leaves the cursor alone; the cursor never passes the end |
| `ArrayIterate.ArrayIterator.Remove` | src/main/java/com/helger/commons/collection/iterate/ArrayIterator.java:86-90 | always fails with UnsupportedOperation and changes nothing |
| `ArrayIterate.ArrayIterator.Equals` | src/main/java/com/helger/commons/collection/iterate/ArrayIterator.java:92-101 | equal exactly when the other iterator is non-null, its copy is element-wise equal and its cursor is the same |
| `ArrayIterate.Create` | src/main/java/com/helger/commons/collection/iterate/ArrayIterator.java:117-121 | a fresh iterator over a copy of the whole array, with the cursor at 0 |
| `ArrayIterate.CreateOfsLen` | src/main/java/com/helger/commons/collection/iterate/ArrayIterator.java:123-129 | succeeds exactly when `0 <= ofs`, `0 <= len` and `ofs + len <= length`, giving a fresh iterator over that slice with the cursor at 0; otherwise fails with IllegalArgument |
| `ArrayIterate.CallNext` | src/main/java/com/helger/commons/collection/iterate/ArrayIterator.java:79-84 | `n` calls of `next()` return what `NextCalls` says, in that order, and end at its cursor |
| `ArrayIterate.DrainYieldsCopyInOrder` | src/main/java/com/helger/commons/collection/iterate/ArrayIterator.java:73-84 | from any cursor, as many `next()` calls as there are elements left return those elements in order and leave the cursor at the end |
| `ArrayIterate.ExhaustedNextFails` | src/main/java/com/helger/commons/collection/iterate/ArrayIterator.java:81-82 | from the end, every further `next()` fails with NoSuchElement and the cursor does not move |
| `ArrayIterate.NextCalls` | src/main/java/com/helger/commons/collection/iterate/ArrayIterator.java:44-84 | `n` calls of `next()` give one result per call; from a cursor within bounds, the cursor advances one place per call and stops at the end, never moving back or passing it |
| `ArrayIterate.IsArrayOfsLen` | src/main/java/com/helger/commons/collection/iterate/ArrayIterator.java:58-67 | an accepted offset/length pair starts inside the array (or at its end) and leaves room for `len` elements |
| `ArrayIterate.IterateAll` | src/main/java/com/helger/commons/collection/iterate/ArrayIterator.java:73-121 | iterating a fresh iterator to the end returns the array's elements in order, after which `hasNext()` is false |
| `ArrayIterate.CopyIsIndependent` | src/main/java/com/helger/commons/collection/iterate/ArrayIterator.java:46-51 | overwriting every element of the source array after construction does not change what the iteration returns |
| `XmlSchemaCache.SchemaCacheRegistry.constructor` | ph-xml/src/main/java/com/helger/xml/schema/XMLSchemaCache.java:55-126 | initial static state: nothing cached, flag unset |
| `XmlSchemaCache.SchemaCacheRegistry.IsInstantiated` | ph-xml/src/main/java/com/helger/xml/schema/XMLSchemaCache.java:111-114 | returns the flag and changes nothing |
| `XmlSchemaCache.SchemaCacheRegistry.GetInstance` | ph-xml/src/main/java/com/helger/xml/schema/XMLSchemaCache.java:116-122 | returns the singleton and sets the flag; nothing else changes |
| `XmlSchemaCache.SchemaCacheRegistry.GetInstanceOf` | ph-xml/src/main/java/com/helger/xml/schema/XMLSchemaCache.java:140-163 | the result and the new state are those of `GetInstanceOfStep`; the registry invariant is kept |
| `XmlSchemaCache.SchemaCacheRegistry.GetInstanceOfClassLoader` | ph-xml/src/main/java/com/helger/xml/schema/XMLSchemaCache.java:134-138 | behaves as `getInstanceOf(classLoader, null)` |
| `XmlSchemaCache.SchemaCacheRegistry.GetInstanceOfClassLoaderProvider` | ph-xml/src/main/java/com/helger/xml/schema/XMLSchemaCache.java:128-132 | behaves as `getInstanceOf(provider's loader, null)`; a null provider counts as a null class loader |
| `XmlSchemaCache.SchemaCacheRegistry.ClearPerClassLoaderCache` | ph-xml/src/main/java/com/helger/xml/schema/XMLSchemaCache.java:165-169 | the result and the new state are those of `ClearStep`; the registry invariant is kept |
| `XmlSchemaCache.ValueOf` | ph-xml/src/main/java/com/helger/xml/schema/XMLSchemaCache.java:149 | `String.valueOf`: the string form of a present value, "null" for `null` |
| `XmlSchemaCache.CacheKey` | ph-xml/src/main/java/com/helger/xml/schema/XMLSchemaCache.java:149 | the key is the class loader's string form, then '-', then the locale's string form (length and separator position; the lemmas below give the parts) |
| `XmlSchemaCache.DefaultInstance` | ph-xml/src/main/java/com/helger/xml/schema/XMLSchemaCache.java:50-86 | the singleton built by the no-argument constructor (`Locale.US`, a logging error handler, a resolver without a class loader) is never an entry built for a key |
| `XmlSchemaCache.NewEntry` | ph-xml/src/main/java/com/helger/xml/schema/XMLSchemaCache.java:156-160 | the cache built on a miss has the locale's factory, no error handler, a resolver exactly when a class loader was given, the new identity, and is built for its key |
| `XmlSchemaCache.GetInstanceStep` | ph-xml/src/main/java/com/helger/xml/schema/XMLSchemaCache.java:116-122 | `getInstance()` sets the flag, leaves the map and the identity counter alone, and keeps the registry invariant |
| `XmlSchemaCache.GetInstanceOfStep` | ph-xml/src/main/java/com/helger/xml/schema/XMLSchemaCache.java:140-163 | a lookup never removes a key, constructs at most one cache, and keeps the invariant (every stored entry was built for its key, no two keys share an entry); the result's identity is below the counter |
| `XmlSchemaCache.ClearStep` | ph-xml/src/main/java/com/helger/xml/schema/XMLSchemaCache.java:165-169 | leaves the map empty, reports Changed exactly when it held an entry, and keeps the flag, the identity counter and the invariant |
| `XmlSchemaCache.ProvidedLoader` | ph-xml/src/main/java/com/helger/xml/schema/XMLSchemaCache.java:131 | a null provider gives a null class loader; otherwise the provider's class loader |
| `XmlSchemaCache.SameLocaleKeyDeterminesLoader` | ph-xml/src/main/java/com/helger/xml/schema/XMLSchemaCache.java:149 | two lookups with the same locale share a key only when their class loaders have the same string form |
| `XmlSchemaCache.KeyDeterminesArguments` | ph-xml/src/main/java/com/helger/xml/schema/XMLSchemaCache.java:149 | when locale strings contain no '-', two keys are equal exactly when both string forms are equal |
| `XmlSchemaCache.DefaultLookupBypassesMap` | ph-xml/src/main/java/com/helger/xml/schema/XMLSchemaCache.java:143-147 | `getInstanceOf(null, null)` returns the singleton, sets the flag, and leaves the map and the identity counter untouched |
| `XmlSchemaCache.InstantiatedFlagIsMonotonic` | ph-xml/src/main/java/com/helger/xml/schema/XMLSchemaCache.java:111-122 | the flag becomes true only through the default lookup, and no operation resets it |
| `XmlSchemaCache.NonDefaultLookupIsNotSingleton` | ph-xml/src/main/java/com/helger/xml/schema/XMLSchemaCache.java:143-162 | any other arguments, including `(null, locale)`, go through the map under their key and never yield the singleton |
| `XmlSchemaCache.LookupHit` | ph-xml/src/main/java/com/helger/xml/schema/XMLSchemaCache.java:151-152 | on a hit, returns the stored entry and the state is unchanged |
| `XmlSchemaCache.LookupMiss` | ph-xml/src/main/java/com/helger/xml/schema/XMLSchemaCache.java:153-162 | on a miss, exactly one entry is added under the key, built with the locale's factory, with no error handler, and with a resolver only when a class loader was given; its identity is new, and no other key or the flag changes |
| `XmlSchemaCache.LookupIsIdempotent` | ph-xml/src/main/java/com/helger/xml/schema/XMLSchemaCache.java:149-162 | repeating a lookup with the same arguments returns the identical entry and changes nothing further |
| `XmlSchemaCache.ClearThenLookupBuildsFresh` | ph-xml/src/main/java/com/helger/xml/schema/XMLSchemaCache.java:156-169 | after a clear, looking up a previously cached key builds a new entry, distinct from the old one |
| `XmlSchemaCache.TwoLoadersScenario` | ph-xml/src/main/java/com/helger/xml/schema/XMLSchemaCache.java:140-169 | same key: same entry; other loader: a second entry; clear reports Changed; the first key then gets a third entry; identities count the constructions 1, 2, 3 |
| `BiPredicates.And` | ph-commons/src/main/java/com/helger/commons/function/IBiPredicate.java:60-65 | fails with NullPointerException exactly when `other` is null |
| `BiPredicates.Or` | ph-commons/src/main/java/com/helger/commons/function/IBiPredicate.java:84-89 | fails with NullPointerException exactly when `other` is null |
| `BiPredicates.AndIsConjunction` | ph-commons/src/main/java/com/helger/commons/function/IBiPredicate.java:64 | where neither predicate throws, `p.and(q)` answers `p && q` |
| `BiPredicates.AndShortCircuits` | ph-commons/src/main/java/com/helger/commons/function/IBiPredicate.java:43-51 | when `p` answers false, `p.and(q)` answers false for every `q`, even one that throws |
| `BiPredicates.AndRelaysExceptions` | ph-commons/src/main/java/com/helger/commons/function/IBiPredicate.java:49-64 | an exception from `p` reaches the caller unchanged without evaluating `q`; once `p` is true, `q`'s answer or exception is the result |
| `BiPredicates.OrIsDisjunction` | ph-commons/src/main/java/com/helger/commons/function/IBiPredicate.java:88 | where neither predicate throws, `p.or(q)` answers the disjunction of `p` and `q` |
| `BiPredicates.OrShortCircuits` | ph-commons/src/main/java/com/helger/commons/function/IBiPredicate.java:67-75 | when `p` answers true, `p.or(q)` answers true for every `q`, even one that throws |
| `BiPredicates.OrRelaysExceptions` | ph-commons/src/main/java/com/helger/commons/function/IBiPredicate.java:73-88 | an exception from `p` reaches the caller unchanged without evaluating `q`; once `p` is false, `q`'s answer or exception is the result |
| `BiPredicates.Negate` | ph-commons/src/main/java/com/helger/commons/function/IBiPredicate.java:96-100 | the negated predicate; its meaning is stated by `NegateIsComplement` and `DoubleNegation` |
| `BiPredicates.NegateIsComplement` | ph-commons/src/main/java/com/helger/commons/function/IBiPredicate.java:96-100 | `p.negate()` answers `!p` wherever `p` answers, and throws what `p` throws |
| `BiPredicates.DoubleNegation` | ph-commons/src/main/java/com/helger/commons/function/IBiPredicate.java:96-100 | `p.negate().negate()` agrees with `p` on every input |
| `BiPredicates.NegatedAndIsOrOfNegations` | ph-commons/src/main/java/com/helger/commons/function/IBiPredicate.java:60-100 | `p.and(q).negate()` agrees with `p.negate().or(q.negate())` on every input, exceptions included |
| `BiPredicates.NegatedOrIsAndOfNegations` | ph-commons/src/main/java/com/helger/commons/function/IBiPredicate.java:60-100 | `p.or(q).negate()` agrees with `p.negate().and(q.negate())` on every input, exceptions included |

## Left out

- `ArrayIterator.hashCode` and `toString`: they rely on `HashCodeGenerator` and `ToStringGenerator`, which are not part of this model.
- A null array passed to `ArrayIterator`'s constructors: Dafny's non-null `array` type excludes it. The source marks the argument `@Nonnull` and rejects null with an exception.
- `ArrayIterate.CreateOfsLen`: `ValueEnforcer.isArrayOfsLen` is not part of this model. The private constructor's documentation names `ofs >= 0` and `len >= 0`; the model assumes the check also demands `ofs + len <= length`, in unbounded integers. A Java `int` overflow of `ofs + len` and any switch that disables the check are not modelled. The check sits in `CreateOfsLen`, the private constructor's only caller, and the Dafny constructor `OfsLen` requires it.
- `ArrayIterate.ArrayIterator.Equals`: compares only with another `ArrayIterator` of the same element type. Comparing with an object of another class (false in the source) is not expressible here. Elements are compared with Dafny equality, which stands for Java's element-wise `equals`.
- The private copy is an immutable sequence. The source's copy is a `final` array that nothing writes after construction, so update-in-place and aliasing of the copy do not arise.
- `CallNext`, `IterateAll` and `CopyIsIndependent` are callers of the iterator that state the iteration protocol. They are not members of the source.
- The read/write lock discipline and the double-checked insertion in `XMLSchemaCache`: the model is sequential. The second check inside `computeIfAbsent` always misses when no other thread runs, so it appears as a plain insert.
- `SchemaFactory.newInstance`, `EXMLParserProperty.GENERAL_LOCALE.applyTo`, `SimpleLSResourceResolver`, `LoggingSAXErrorHandler` and the `SchemaCache` superclass are foreign library code. An entry records only the locale, the error-handler kind and the resolver's class loader. A failure inside these calls is not modelled.
- `XmlSchemaCache.ClearStep`: `ICommonsMap.removeAll` is not part of this model. It is taken to report a change exactly when the map was non-empty.
- Class loaders and locales are their `toString()` forms. Two distinct objects with the same string form therefore share a key, as they do in the source. A class loader whose string form is "null" shares a key with a null class loader.
- `XmlSchemaCache.KeyDeterminesArguments`: injectivity is proved only for locale strings without '-'. Locales with extensions print a '-' and can make keys ambiguous.
- `IHasClassLoader` is modelled as a record holding the (possibly null) class loader it returns.
- Predicates are pure functions, so side effects of `test` beyond its answer or exception are not modelled. `Negate` has no contract of its own: a function's contract can quantify over `T` and `U` only if they are declared `(!new)`, which would rule out reference types; `NegateIsComplement` and `DoubleNegation` state its meaning for arbitrary `t`, `u`.
- `BiPredicates.And` / `BiPredicates.Or`: `Objects.requireNonNull(other)` is modelled as the error result `Failure(NullPointerException)`, not as a precondition. The exception the composition throws is computed when `and`/`or` is called, as in the source.
- The default instance is a separate singleton, not an entry of the per-key map. The no-argument constructor builds it with `Locale.US`, a `LoggingSAXErrorHandler` and a `SimpleLSResourceResolver`, and `getInstanceOf(null, null)` returns it without touching the map.
- A construction failure is not modelled. If `createXSDSchemaFactory` or the `XMLSchemaCache` constructor throws inside `computeIfAbsent`, the exception propagates to the caller of `getInstanceOf` and leaves the key uncached. In the model, construction never fails.
