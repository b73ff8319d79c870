/**
 * The two-tier cache in front of Aqua's registry list (pkg/aqua/client.go): memory, then the shared
 * file, then the API; and the lookup that asks again when a cached list lacks the registry. The file
 * is the one of FileCache, with its interleaved system calls.
 */
module RegistryCache {
  import opened Wrappers
  import opened Text
  import opened Mirrors
  import opened FileCacheProtocol
  import opened FileCacheSafety
  import opened AquaAnswers
  import opened FileCache

  // ----- searching a list -----

  /** The test of one prefix, after both sides are normalised. */
  predicate PrefixMatches(containerRegistry: string, prefix: string) {
    var r, p := NormalizeRegistryURL(containerRegistry), NormalizeRegistryURL(prefix);
    r == p || p + "/" <= r || r <= p
  }

  /**
   * What the test comes to: the prefix is the registry or a parent of it, element by element; or
   * the registry is the beginning of the prefix, not necessarily a whole element of it.
   */
  lemma PrefixMatchesPaths(containerRegistry: string, prefix: string)
    ensures var r, p := NormalizeRegistryURL(containerRegistry), NormalizeRegistryURL(prefix);
            PrefixMatches(containerRegistry, prefix) <==> Split(p, '/') <= Split(r, '/') || r <= p
  {
    hide NormalizeRegistryURL, Split, Join;
    var r, p := NormalizeRegistryURL(containerRegistry), NormalizeRegistryURL(prefix);
    UnderPath(p, r, '/');
    assert p + ['/'] == p + "/";
    JoinSplit(p, '/');
    JoinSplit(r, '/');
    if Split(p, '/') <= Split(r, '/') && !(Split(p, '/') < Split(r, '/')) {
      assert Split(p, '/') == Split(r, '/');
    }
  }

  predicate Serves(registry: Registry, containerRegistry: string) {
    exists i :: 0 <= i < |registry.prefixes| && PrefixMatches(containerRegistry, registry.prefixes[i])
  }

  /** The prefix loop. */
  predicate SomeMatches(containerRegistry: string, prefixes: seq<string>) {
    prefixes != [] && (PrefixMatches(containerRegistry, prefixes[0]) || SomeMatches(containerRegistry, prefixes[1..]))
  }

  /** findRegistryInList: the name of the first registry with a matching prefix, or "". */
  function FindRegistry(containerRegistry: string, registries: seq<Registry>): string {
    if registries == [] then ""
    else if SomeMatches(containerRegistry, registries[0].prefixes) then registries[0].name
    else FindRegistry(containerRegistry, registries[1..])
  }

  lemma {:induction false} SomeMatchesIsSearch(containerRegistry: string, prefixes: seq<string>)
    ensures SomeMatches(containerRegistry, prefixes) <==>
              exists i :: 0 <= i < |prefixes| && PrefixMatches(containerRegistry, prefixes[i])
  {
    hide PrefixMatches;
    if prefixes == [] {
    } else {
      var rest := prefixes[1..];
      SomeMatchesIsSearch(containerRegistry, rest);
      if i :| 0 <= i < |rest| && PrefixMatches(containerRegistry, rest[i]) {
        assert PrefixMatches(containerRegistry, prefixes[i + 1]);
      }
      if i :| 1 <= i < |prefixes| && PrefixMatches(containerRegistry, prefixes[i]) {
        assert PrefixMatches(containerRegistry, rest[i - 1]);
      }
    }
  }

  /** Registry `i` is the first that serves; `i == |registries|` when none does. */
  ghost predicate FirstServing(containerRegistry: string, registries: seq<Registry>, i: int) {
    && 0 <= i <= |registries|
    && (forall k :: 0 <= k < i ==> !Serves(registries[k], containerRegistry))
    && (i < |registries| ==> Serves(registries[i], containerRegistry))
  }

  /**
   * The search, without recursion. A first match that has no name counts as not found, even when a
   * later registry would match.
   */
  lemma {:induction false} FirstServingIsFound(containerRegistry: string, registries: seq<Registry>, i: int)
    requires FirstServing(containerRegistry, registries, i)
    ensures FindRegistry(containerRegistry, registries) == if i == |registries| then "" else registries[i].name
  {
    hide PrefixMatches;
    if registries == [] {
    } else {
      SomeMatchesIsSearch(containerRegistry, registries[0].prefixes);
      if i > 0 {
        var rest := registries[1..];
        forall k | 0 <= k < i - 1 ensures !Serves(rest[k], containerRegistry) {
          assert rest[k] == registries[k + 1];
        }
        FirstServingIsFound(containerRegistry, rest, i - 1);
      }
    }
  }

  // ----- the caches and the API -----

  /** Where a list came from: which answer it repeats, and for a cached one its stamp and when that was checked. */
  datatype Origin =
    | Fetched(answer: nat)
    | FromMemory(answer: nat, stamp: int, checked: int)
    | FromFile(answer: nat, stamp: int, checked: int)

  /** Why a lookup failed. */
  datatype Failure = FetchFailed | NotFound

  class AquaClient {
    const registry: string
    const cacheTTL: int
    const fileCache: FileCache
    // shared with other goroutines
    var cache: Option<Record>
    // history of the running call
    ghost var began: int
    ghost var mine: set<nat>
    ghost var requests: nat
    ghost var failures: nat
    ghost var puts: seq<Record>         // what it has put into memory

    ghost predicate Valid()
      reads this, fileCache.host
    {
      && fileCache.Valid() && fileCache.host.oneServer && fileCache.ttl == cacheTTL
      && (cache.Some? ==> Genuine(fileCache.host.api, fileCache.host.now, cache.value))
      && began <= fileCache.host.now && (forall i :: i in mine ==> i < |fileCache.host.api|)
    }

    constructor (registry: string, cacheTTL: int, fileCache: FileCache)
      requires fileCache.Valid() && fileCache.host.oneServer && fileCache.ttl == cacheTTL
      ensures Valid() && cache == None && this.fileCache == fileCache
      ensures this.registry == registry && this.cacheTTL == cacheTTL
    {
      this.registry, this.cacheTTL, this.fileCache := registry, cacheTTL, fileCache;
      cache, began, mine, requests, failures, puts := None, fileCache.host.now, {}, 0, 0, [];
    }

    /** Time passes, others get answers, use the file, and replace what is in memory by genuine records. */
    method Await()
      requires Valid()
      modifies `cache, fileCache.host
      ensures fileCache.host.readErrors == old(fileCache.host.readErrors)
      ensures old(fileCache.host.s.next) <= fileCache.host.s.next
      ensures Valid()
      ensures fileCache.host.Since(old(fileCache.host.s.log), old(fileCache.host.now), old(fileCache.host.api))
    {
      hide Genuine, Host.Valid;
      ghost var api, now := fileCache.host.api, fileCache.host.now;
      fileCache.host.Await(None);
      StayGenuine(api, fileCache.host.api, now, fileCache.host.now);
      Replaced();
    }

    method Replaced()
      requires Valid()
      modifies `cache
      ensures Valid()
    {
      hide Genuine, Host.Valid;
      var some := SomeRecord();
      var replaced: bool := *;
      if replaced {
        cache := some;
      }
    }

    /** An operation of the file cache stored this list, or came to nothing. */
    ghost predicate Filed(id: nat, registries: seq<Registry>)
      reads fileCache.host
    {
      || Over(fileCache.host.s, id)
      || exists i :: 0 <= i < |fileCache.host.s.log| && fileCache.host.s.log[i].Renamed?
                     && fileCache.host.s.log[i].id == id && fileCache.host.s.log[i].record.registries == registries
    }

    /** Nothing, or any genuine record. */
    method SomeRecord() returns (r: Option<Record>)
      ensures r.Some? ==> Genuine(fileCache.host.api, fileCache.host.now, r.value)
    {
      hide Genuine;
      var i: int, stamp: int := *, *;
      r := None;
      if 0 <= i < |fileCache.host.api| && fileCache.host.api[i].at <= stamp <= fileCache.host.now {
        r := Some(Record(fileCache.host.api[i].registries, stamp));
        AnswerIsGenuine(fileCache.host.api, fileCache.host.now, i, r.value);
      }
    }

    /** `list` comes from where `o` says; a cached one was fresh when it was checked, during this call. */
    ghost predicate Backed(list: seq<Registry>, o: Origin)
      reads this, fileCache.host
    {
      var api, now := fileCache.host.api, fileCache.host.now;
      && o.answer < |api| && api[o.answer].registries == list
      && match o
         case Fetched(i) => i in mine
         case FromMemory(i, stamp, checked) => api[i].at <= stamp && checked - stamp < cacheTTL
           && began <= checked <= now
         case FromFile(i, stamp, checked) =>
           fileCache.enabled && api[i].at <= stamp && checked - stamp <= cacheTTL && began <= checked <= now
    }

    /** The record repeats this answer and was stamped after it was given. */
    ghost predicate PutFetched(record: Record, i: nat)
      reads fileCache.host
    {
      var api := fileCache.host.api;
      i < |api| && record.registries == api[i].registries && api[i].at <= record.fetchedAt <= fileCache.host.now
    }

    /** The cache file held a record after `since` changes that was fresh at `checked`. */
    ghost predicate FreshFile(since: nat, checked: int)
      reads fileCache.host
    {
      && fileCache.enabled && since <= |fileCache.host.s.log|
      && var current := Current(fileCache.host.s.log[..since]);
         current.Some? && checked - current.value.fetchedAt <= cacheTTL
    }

    /** The file cache's Get: what it finds is genuine. */
    method ReadFileCache() returns (found: Option<Record>, ghost since: nat, ghost checked: int)
      requires Valid()
      modifies `cache, fileCache.host
      ensures Valid()
      ensures fileCache.host.Since(old(fileCache.host.s.log), old(fileCache.host.now), old(fileCache.host.api))
      ensures |old(fileCache.host.s.log)| <= since <= |fileCache.host.s.log|
      ensures old(fileCache.host.now) <= checked <= fileCache.host.now
      ensures found.Some? ==> fileCache.enabled && Genuine(fileCache.host.api, fileCache.host.now, found.value)
                              && checked - found.value.fetchedAt <= cacheTTL
      ensures fileCache.host.readErrors >= old(fileCache.host.readErrors)
      ensures fileCache.host.readErrors == old(fileCache.host.readErrors) && FreshFile(since, checked) ==>
                found == Current(fileCache.host.s.log[..since])
    {
      hide Genuine, Reaches, Honest, InThePast, Current;
      Await();
      ghost var api, now := fileCache.host.api, fileCache.host.now;
      var result, moment, when := fileCache.Get();
      since, checked := moment, when;
      StayGenuine(api, fileCache.host.api, now, fileCache.host.now);
      Replaced();
      if !result.Hit? {
        return None, since, checked;
      }
      CurrentIsGenuine(fileCache.host.s, fileCache.host.api, fileCache.host.now, since);
      return Some(result.record), since, checked;
    }

    /** fetchRegistries: at most one request; a failure leaves the caches to others, a success puts the list in both. */
    method FetchRegistries() returns (r: Result<seq<Registry>, Failure>, ghost o: Origin, ghost filed: nat)
      requires Valid()
      modifies this, fileCache.host
      ensures fileCache.host.readErrors == old(fileCache.host.readErrors)
      ensures r.Ok? && fileCache.enabled ==> filed >= old(fileCache.host.s.next) && Filed(filed, r.value)
      ensures Valid()
      ensures fileCache.host.Since(old(fileCache.host.s.log), old(fileCache.host.now), old(fileCache.host.api))
      ensures began == old(began)
      ensures old(requests) <= requests <= old(requests) + 1
      ensures failures == old(failures) + if r.Err? then 1 else 0
      ensures r.Err? ==> r.error.FetchFailed? && mine == old(mine) && puts == old(puts)
      ensures r.Ok? ==> o.Fetched? && Backed(r.value, o)
      ensures r.Ok? ==> o.answer >= |old(fileCache.host.api)| && mine == old(mine) + {o.answer}
      ensures r.Ok? ==> |puts| == |old(puts)| + 1 && old(puts) < puts && PutFetched(puts[|puts| - 1], o.answer)
    {
      hide Genuine, Host.Valid;
      o, filed := Fetched(0), 0;
      Await();
      var authorized: bool, answered: bool := *, *;
      if !authorized {
        failures := failures + 1;
        return Err(FetchFailed), o, filed;
      }
      requests := requests + 1;
      Await();
      if !answered {
        failures := failures + 1;
        return Err(FetchFailed), o, filed;
      }
      var registries: seq<Registry> := *;
      o := Receive(registries);
      Await();
      filed := Store(registries, o.answer);
      return Ok(registries), o, filed;
    }

    /** The response arrives. */
    method Receive(registries: seq<Registry>) returns (ghost o: Origin)
      requires Valid()
      modifies `mine, fileCache.host
      ensures Valid() && o == Fetched(|old(fileCache.host.api)|) && mine == old(mine) + {|old(fileCache.host.api)|}
      ensures fileCache.host.now == old(fileCache.host.now) && fileCache.host.s == old(fileCache.host.s)
      ensures fileCache.host.readErrors == old(fileCache.host.readErrors)
      ensures fileCache.host.api == old(fileCache.host.api) + [Answer(registries, fileCache.host.now)]
    {
      hide Genuine, Host.Valid;
      ghost var api := fileCache.host.api;
      o := Fetched(|api|);
      mine := mine + {|api|};
      fileCache.host.Answers(registries);
      StayGenuine(api, fileCache.host.api, fileCache.host.now, fileCache.host.now);
    }

    /** Both caches are updated, each with a timestamp of its own; the file may fail to be written. */
    method Store(registries: seq<Registry>, ghost i: nat) returns (ghost filed: nat)
      requires Valid() && i < |fileCache.host.api| && fileCache.host.api[i].registries == registries
      requires fileCache.host.api[i].at <= fileCache.host.now
      modifies `cache, `puts, fileCache.host
      ensures Valid()
      ensures fileCache.host.Since(old(fileCache.host.s.log), old(fileCache.host.now), old(fileCache.host.api))
      ensures puts == old(puts) + [Record(registries, old(fileCache.host.now))]
      ensures fileCache.host.readErrors == old(fileCache.host.readErrors)
      ensures fileCache.enabled ==> filed >= old(fileCache.host.s.next) && Filed(filed, registries)
    {
      hide Genuine, Host.Valid;
      cache, puts := Some(Record(registries, fileCache.host.now)), puts + [Record(registries, fileCache.host.now)];
      AnswerIsGenuine(fileCache.host.api, fileCache.host.now, i, cache.value);
      Await();
      ghost var api, now := fileCache.host.api, fileCache.host.now;
      assert api[i].registries == registries;
      var written, id, at := fileCache.Set(registries);
      filed := id;
      StayGenuine(api, fileCache.host.api, now, fileCache.host.now);
      Replaced();
    }

    /** What memory holds is less than `cacheTTL` old. */
    ghost predicate FreshMemory()
      reads this, fileCache.host
    {
      cache.Some? && fileCache.host.now - cache.value.fetchedAt < cacheTTL
    }

    /**
     * GetRegistries: memory if fresh, else the file if fresh, else the API. What is fresh in memory when
     * the call looks is returned as it is, and nothing else happens. Otherwise a record that is fresh in
     * the file at the moments `since` and `checked` of the call is returned, unless the file cannot be
     * read, and goes into memory with its own stamp; that costs no request either. Only then the API is
     * asked, once.
     */
    method GetRegistries()
      returns (r: Result<seq<Registry>, Failure>, ghost o: Origin, ghost since: nat, ghost checked: int)
      requires Valid()
      modifies this, fileCache.host
      ensures Valid()
      ensures fileCache.host.Since(old(fileCache.host.s.log), old(fileCache.host.now), old(fileCache.host.api))
      ensures began == old(began) && old(requests) <= requests <= old(requests) + 1
      ensures failures == old(failures) + if r.Err? then 1 else 0
      ensures old(FreshMemory()) ==>
                && r == Ok(old(cache).value.registries) && o.FromMemory? && requests == old(requests)
                && puts == old(puts) && cache == old(cache) && fileCache.host.s == old(fileCache.host.s)
                && fileCache.host.api == old(fileCache.host.api)
      ensures !old(FreshMemory()) ==>
                && |old(fileCache.host.s.log)| <= since <= |fileCache.host.s.log|
                && old(fileCache.host.now) <= checked <= fileCache.host.now
                && (FreshFile(since, checked) && fileCache.host.readErrors == old(fileCache.host.readErrors) ==>
                      var current := Current(fileCache.host.s.log[..since]).value;
                      r == Ok(current.registries) && o.FromFile? && o.stamp == current.fetchedAt)
      ensures r.Err? ==> r.error.FetchFailed?
      ensures r.Ok? ==> Backed(r.value, o) && (o.Fetched? ==> o.answer >= |old(fileCache.host.api)|)
      ensures r.Ok? && !o.Fetched? ==> requests == old(requests)
      ensures r.Ok? && o.FromFile? ==>
                puts == old(puts) + [Record(r.value, o.stamp)] && cache == Some(Record(r.value, o.stamp))
      ensures r.Ok? && o.Fetched? ==> |puts| == |old(puts)| + 1 && PutFetched(puts[|puts| - 1], o.answer)
    {
      hide Genuine, Host.Valid, Current;
      since, checked := 0, 0;
      if cache.Some? && fileCache.host.now - cache.value.fetchedAt < cacheTTL {
        ghost var i := Source(fileCache.host.api, fileCache.host.now, cache.value);
        return Ok(cache.value.registries), FromMemory(i, cache.value.fetchedAt, fileCache.host.now), since, checked;
      }
      var found, moment, when := ReadFileCache();
      since, checked := moment, when;
      if found.Some? {
        ghost var i := Source(fileCache.host.api, fileCache.host.now, found.value);
        cache, puts := Some(found.value), puts + [found.value];
        return Ok(found.value.registries), FromFile(i, found.value.fetchedAt, checked), since, checked;
      }
      ghost var log, filed := fileCache.host.s.log, 0;
      r, o, filed := FetchRegistries();
      assert fileCache.host.s.log[..since] == log[..since];
    }

    /**
     * FindRegistryByPrefix. With a default registry that is the answer, and nothing is asked. Without
     * one: a name is the first match in a list the API really returned, fetched in this call or fresh
     * by its stamp when checked, and in the latter case nothing is asked either; a match in a list that
     * is fresh in memory when the call looks is the answer; "not found" always rests on a list fetched
     * in this call; there are at most two requests, and it fails exactly when one could not be made or
     * was not answered.
     */
    method FindRegistryByPrefix(containerRegistry: string) returns (r: Result<string, Failure>,
                                ghost list: seq<Registry>, ghost o: Origin)
      requires Valid()
      modifies this, fileCache.host
      ensures Valid()
      ensures fileCache.host.Since(old(fileCache.host.s.log), old(fileCache.host.now), old(fileCache.host.api))
      ensures began == old(fileCache.host.now) && requests <= 2
      ensures r == Err(FetchFailed) <==> failures > 0
      ensures registry != "" ==> r == Ok(registry) && requests == 0 && fileCache.host.api == old(fileCache.host.api)
      ensures registry == "" && r.Ok? ==> Backed(list, o) && r.value == FindRegistry(containerRegistry, list) != ""
      ensures registry == "" && r.Ok? && !o.Fetched? ==> requests == 0
      ensures registry == "" && old(FreshMemory())
              && FindRegistry(containerRegistry, old(cache).value.registries) != "" ==>
                r == Ok(FindRegistry(containerRegistry, old(cache).value.registries)) && requests == 0
      ensures r == Err(NotFound) ==> Backed(list, o) && o.Fetched? && o.answer >= |old(fileCache.host.api)|
                                     && FindRegistry(containerRegistry, list) == ""
    {
      hide Genuine, FindRegistry, Host.Valid, Current;
      Begin();
      list, o := [], Fetched(0);
      if registry != "" {
        return Ok(registry), list, o;
      }
      ghost var since, checked, filed;
      var registries;
      registries, o, since, checked := GetRegistries();
      if registries.Err? {
        return Err(FetchFailed), list, o;
      }
      list := registries.value;
      var name := FindRegistry(containerRegistry, registries.value);
      if name != "" {
        return Ok(name), list, o;
      }
      registries, o, filed := FetchRegistries();
      if registries.Err? {
        return Err(FetchFailed), list, o;
      }
      list := registries.value;
      name := FindRegistry(containerRegistry, registries.value);
      if name != "" {
        return Ok(name), list, o;
      }
      return Err(NotFound), list, o;
    }

    /** A call begins. */
    ghost method Begin()
      requires Valid()
      modifies `began, `mine, `requests, `failures
      ensures Valid() && began == fileCache.host.now && mine == {} && requests == 0 && failures == 0
    {
      began, mine, requests, failures := fileCache.host.now, {}, 0, 0;
    }
  }
}
