# CachingBreedFetcher, modelled in Dafny

`CachingBreedFetcher` (package `dogapi`) wraps another `BreedFetcher` and
memoises its answers. A breed name is folded to lower case to form the cache
key, so "Hound", "hound" and "HOUND" share one entry. A hit returns the stored
sub-breed list without calling the wrapped fetcher. A miss increments
`callsMade` and then calls the wrapped fetcher with the name exactly as given.
A successful list, empty or not, is stored and returned. A
`BreedNotFoundException` is rethrown and nothing is cached. A `null` name
never hits the cache and is never stored.

The project has three modules:

- `CaseFold` (`case_fold.dfy`): the key normalisation (ASCII lowercasing). It
  is proved against an independent definition of "equal up to case": under
  the ASCII fold, two names fold to the same key exactly when they are equal
  up to ASCII letter case.
- `LookupSpec` (`lookup_spec.dfy`): the caching policy as a pure state
  machine. `State` holds the two fields. `Lookup` is one `getSubBreeds` call.
  `Run` is a sequence of calls on one instance. The lemmas state the caching
  rules for one call and for runs of calls.
- `DogApi` (`caching_breed_fetcher.dfy`): the class `CachingBreedFetcher`. Its
  `cache` map and `callsMade` counter are fields that `GetSubBreeds` updates in
  place. Its contract ties the new fields and the answer to `Lookup` applied to
  the old fields. Two client methods show what a caller can prove from those
  contracts alone.

The wrapped fetcher is an oracle of type `(nat, Option<string>) -> Response`.
Its first argument is the ordinal of the call (1 for its first call, and so
on). So a fetcher that gives different answers on different calls, such as a
network client, is covered. `Response` is one of the following:

- a returned list (`SubBreeds`);
- a returned `null` list (`NullList`);
- a `BreedNotFoundException` (`BreedNotFound`);
- any other exception that escapes the wrapped fetcher (`Unchecked`).

The source passes the last two kinds through unchanged, without caching. For
a non-null name, a `null` list makes the copy at line 43 throw
`NullPointerException` (`NullPointer`). That call is still counted, and
nothing is cached. For a `null` name, a `null` list is returned as it is
(line 47). A Java `null` name is `Option.None`.

The source increments the counter (`callsMade++`, line 36) before it calls the
wrapped fetcher (line 38). So the ordinal the fetcher receives is the value
`callsMade` has just reached.

## Model

| member | source | states |
|---|---|---|
| `CaseFold.LowerChar` | src/main/java/dogapi/CachingBreedFetcher.java:27 | the folded character is not an upper-case letter and is the same letter as the input up to case; this fixes it uniquely |
| `CaseFold.Lower` | src/main/java/dogapi/CachingBreedFetcher.java:27 | the folded name has the same length, and each character is the fold of the character at the same position |
| `CaseFold.LowerCharCollides` | src/main/java/dogapi/CachingBreedFetcher.java:26-27 | two characters fold alike if and only if they are the same letter up to case |
| `CaseFold.FoldCollides` | src/main/java/dogapi/CachingBreedFetcher.java:26-27 | under the ASCII fold, two names fold alike if and only if they are equal up to ASCII letter case (both directions) |
| `CaseFold.LowerIsVariant` | src/main/java/dogapi/CachingBreedFetcher.java:27 | a folded name is a case variant of the name it came from |
| `CaseFold.LowerIdempotent` | src/main/java/dogapi/CachingBreedFetcher.java:27 | folding a folded key changes nothing |
| `CaseFold.HoundSpellingsCollide` | src/main/java/dogapi/CachingBreedFetcher.java:26 | "Hound", "hound" and "HOUND" all fold to "hound", and the last two are case variants of the first |
| `LookupSpec.Key` | src/main/java/dogapi/CachingBreedFetcher.java:27 | a null name has no key; any other name has a key, which is a case variant of the name and already in folded form |
| `LookupSpec.KeyCollides` | src/main/java/dogapi/CachingBreedFetcher.java:26-27 | under the ASCII fold, two non-null names share a key if and only if they are equal up to case; a null name shares no name's key |
| `LookupSpec.IsHit` | src/main/java/dogapi/CachingBreedFetcher.java:30 | the hit test: the name has a key and the key is stored; a null name is never a hit |
| `LookupSpec.Initial` | src/main/java/dogapi/CachingBreedFetcher.java:17-18 | the field initialisers: no call made, every lookup is a miss, and the (empty) cache is normalised |
| `LookupSpec.Lookup` | src/main/java/dogapi/CachingBreedFetcher.java:25-52 | one `getSubBreeds` call; its contract says that the cache only grows, gains at most this name's key, and holds the returned list under that key after a non-null name gets a list; the lemmas `HitServesStoredList`, `MissCallsFetcherOnce`, `MissStoresSuccess`, `FailureIsNotCached`, `NullListThrows`, `NullIsNeverCached` and `LookupExtends` give its full behaviour |
| `LookupSpec.Run` | src/main/java/dogapi/CachingBreedFetcher.java:17-18 | over any sequence of calls there is one answer per call, the cache keeps every earlier entry with its value, and the counter grows by at most one per call |
| `LookupSpec.HitServesStoredList` | src/main/java/dogapi/CachingBreedFetcher.java:30-33 | on a hit the answer is the stored list, the cache and counter are unchanged, and the outcome is the same whatever the wrapped fetcher does |
| `LookupSpec.MissCallsFetcherOnce` | src/main/java/dogapi/CachingBreedFetcher.java:35-38 | on a miss the counter grows by exactly one, and the caller receives the wrapped fetcher's response to the un-normalised name, success or failure; the one change is a null list for a non-null name, which becomes `NullPointerException` |
| `LookupSpec.MissStoresSuccess` | src/main/java/dogapi/CachingBreedFetcher.java:40-44 | a miss whose fetch yields a list stores that list under the folded name and returns it; the set of other keys is unchanged |
| `LookupSpec.FailureIsNotCached` | src/main/java/dogapi/CachingBreedFetcher.java:48-50 | a miss whose fetch does not yield a list leaves the cache exactly as it was, and the name stays a miss; a thrown exception reaches the caller unchanged |
| `LookupSpec.NullListThrows` | src/main/java/dogapi/CachingBreedFetcher.java:36-43 | a null list for a non-null name counts a call, stores nothing, and yields `NullPointerException` |
| `LookupSpec.NullIsNeverCached` | src/main/java/dogapi/CachingBreedFetcher.java:41-47 | a null name is never a hit; it counts a call and adds no entry, and the wrapped fetcher's response, a null list included, is returned as it is |
| `LookupSpec.HitIffVariantStored` | src/main/java/dogapi/CachingBreedFetcher.java:26-30 | while every key is folded (the class invariant), a name is a hit if and only if the cache stores an entry for a case variant of it |
| `LookupSpec.LookupExtends` | src/main/java/dogapi/CachingBreedFetcher.java:30-44 | one call keeps every existing entry with its value, grows the counter by one on a miss and by none on a hit, and keeps every key in folded form |
| `LookupSpec.CaseVariantHits` | src/main/java/dogapi/CachingBreedFetcher.java:26-33 | after a successful lookup of a name, any case variant of it is a hit that returns the same list and changes nothing, whatever the wrapped fetcher does |
| `LookupSpec.EmptyResultIsCached` | src/main/java/dogapi/CachingBreedFetcher.java:40-43 | after an empty list is fetched, a second lookup of that name is a hit returning the empty list; the two calls cost one fetch |
| `LookupSpec.CachedRunIsFree` | src/main/java/dogapi/CachingBreedFetcher.java:29-33 | any run of lookups of spellings of a cached key leaves the state unchanged and answers the stored list every time |
| `LookupSpec.RepeatedLookupsCallOnce` | src/main/java/dogapi/CachingBreedFetcher.java:26-44 | repeated lookups of one breed, in any mix of case variants, make exactly one fetch, and every call returns the list that fetch gave |
| `LookupSpec.UncachedRunCallsEveryTime` | src/main/java/dogapi/CachingBreedFetcher.java:35-50 | lookups that all miss and are never stored (null name, or a fetch that yields no list) grow the counter by the number of calls and leave the cache unchanged; each call delivers its own fetch's response |
| `LookupSpec.NotFoundEveryTime` | src/main/java/dogapi/CachingBreedFetcher.java:10-11 | if a breed is never found, N lookups make N fetches, the cache is unchanged, and each lookup fails with not-found |
| `LookupSpec.HoundExample` | src/main/java/dogapi/CachingBreedFetcher.java:26-27 | on a fresh instance, "Hound" then "hound" then "HOUND" make one fetch and give three equal answers |
| `DogApi.CachingBreedFetcher.constructor` | src/main/java/dogapi/CachingBreedFetcher.java:16-22 | the new instance keeps the given fetcher, has an empty cache and a zero counter |
| `DogApi.CachingBreedFetcher.GetSubBreeds` | src/main/java/dogapi/CachingBreedFetcher.java:25-52 | the fields and the answer after the call are those `LookupSpec.Lookup` gives for the fields before it; the cache keeps every earlier entry; the counter grows by one on a miss and by none on a hit; keys stay folded |
| `DogApi.CachingBreedFetcher.GetCallsMade` | src/main/java/dogapi/CachingBreedFetcher.java:54-56 | returns the counter and changes nothing |

## Left out

- `CaseFold.Lower`: folds ASCII letters only. `toLowerCase(Locale.ROOT)` also lowercases non-ASCII letters, and a few of them change the length of the string. The "if" direction of `CaseFold.FoldCollides` and `LookupSpec.KeyCollides` carries over to Java: names that differ in ASCII letter case collide. The "only if" direction does not. Java also maps some characters that differ in more than ASCII case to one key: KELVIN SIGN (U+212A) and "k" collide there but not in the model.
- `DogApi.CachingBreedFetcher.constructor`: Dafny has no null function value, so the `Objects.requireNonNull` check (line 21) and its `NullPointerException` have no counterpart.
- `callsMade` is an unbounded `nat`. The Java `int` would wrap to a negative value after 2^31 - 1 misses.
- List elements are non-null strings. A Java list may hold `null` elements, which the copies at lines 32, 43 and 44 keep. The model cannot express them.
- Defensive copies (`new ArrayList<>(...)`, lines 32, 43-44): Dafny sequences are values, so a caller can never alter the stored list through an answer. Aliasing of Java lists is not modelled.
- An exception object is represented by its message. Its identity, stack trace and class hierarchy are not modelled.
- The `BreedFetcher` interface and its implementations are not part of this model. The wrapped fetcher is an oracle whose answers may depend on the call ordinal and the name. It cannot depend on any other hidden state.
- `HashMap` internals and concurrent use are not modelled. The class is not thread-safe, and the model assumes one caller at a time.
