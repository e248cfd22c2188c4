/** CachingBreedFetcher: a memoising wrapper around another breed fetcher.
    It keeps a map from folded breed name to sub-breed list and a counter of
    the calls it has made to the wrapped fetcher; both are updated in place by
    GetSubBreeds, whose effect is specified by LookupSpec.Lookup. */
module DogApi {
  import opened CaseFold
  import opened LookupSpec

  class CachingBreedFetcher {
    /** The wrapped fetcher. */
    const delegate: Fetcher
    /** Folded breed name to the sub-breed list its first successful fetch gave. */
    var cache: map<string, seq<string>>
    /** How many times the wrapped fetcher has been called. */
    var callsMade: nat

    /** The fields as a value of the specification's state type. */
    function Model(): State
      reads this
    {
      State(cache, callsMade)
    }

    /** The object invariant: every key is in folded form. */
    ghost predicate Valid()
      reads this
    {
      Normalized(Model())
    }

    constructor (fetcher: Fetcher)
      ensures Valid()
      ensures delegate == fetcher
      ensures Model() == Initial()
    {
      delegate := fetcher;
      cache := map[];
      callsMade := 0;
    }

    /** Looks up the sub-breeds of a breed (null allowed), serving repeated
        lookups of a name, in any case, from the cache. */
    method GetSubBreeds(breed: Option<string>) returns (r: Response)
      requires Valid()
      modifies this
      ensures Valid()
      ensures Step(Model(), r) == Lookup(old(Model()), delegate, breed)
      ensures Extends(old(cache), cache)
      ensures callsMade == old(callsMade) + (if IsHit(old(Model()), breed) then 0 else 1)
    {
      LookupExtends(Model(), delegate, breed);
      var key := Key(breed);
      if key.Some? && key.value in cache {
        return SubBreeds(cache[key.value]);
      }
      callsMade := callsMade + 1;
      var result := delegate(callsMade, breed);
      if result.SubBreeds? && key.Some? {
        cache := cache[key.value := result.names];
        r := result;
      } else if result.NullList? && key.Some? {
        // copying a null list for the cache throws
        r := NullPointer;
      } else {
        r := result;
      }
    }

    /** The number of calls made to the wrapped fetcher so far. */
    method GetCallsMade() returns (n: nat)
      ensures n == callsMade
      ensures n == Model().callsMade
    {
      n := callsMade;
    }
  }

  /** A client: three spellings of one breed cost one call to the wrapped
      fetcher and give equal lists. The wrapped fetcher here answers only its
      first call with a list. */
  method CaseInsensitiveClient()
  {
    var fetcher := new CachingBreedFetcher(
      (call: nat, breed: Option<string>) =>
        if call == 1 then SubBreeds(["afghan", "basset"]) else BreedNotFound("asked again"));
    HoundSpellingsCollide();
    assert Key(Some("Hound")) == Key(Some("hound")) == Key(Some("HOUND")) == Some("hound");
    var a := fetcher.GetSubBreeds(Some("Hound"));
    assert fetcher.cache == map["hound" := ["afghan", "basset"]];
    var b := fetcher.GetSubBreeds(Some("hound"));
    var c := fetcher.GetSubBreeds(Some("HOUND"));
    var calls := fetcher.GetCallsMade();
    assert a == b == c == SubBreeds(["afghan", "basset"]);
    assert calls == 1;
  }

  /** A breed that is never found costs a call each time it is asked for and
      is never cached. */
  method NotFoundClient()
  {
    var fetcher := new CachingBreedFetcher(
      (call: nat, breed: Option<string>) => BreedNotFound("no such breed"));
    var d := fetcher.GetSubBreeds(Some("Poodle"));
    var e := fetcher.GetSubBreeds(Some("Poodle"));
    var calls := fetcher.GetCallsMade();
    assert d == e == BreedNotFound("no such breed");
    assert calls == 2;
    assert fetcher.cache == map[];
  }
}
