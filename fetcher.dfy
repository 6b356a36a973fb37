/** The fetcher: it runs every provider's gather(), merges their proxies into
    one duplicate-free list, passes that list to the filterer and the filterer's
    output to the validator, and reports an empty validated result as
    NoProxiesFound. Providers, filterer and validator are given from outside:
    their code is not part of this model. */
module Fetcher {
  import opened Proxies

  /** The providers the fetcher can be given; the first six are its default
      list, any other implementation of the provider interface is Custom. */
  datatype Provider =
    | SSLProxies | FreeProxyList | Geonode | USProxy | ProxyListDownload | SocksProxy
    | Custom(name: string)

  /** The default provider list, in its declared order. */
  const DefaultProviders: seq<Provider> :=
    [SSLProxies, FreeProxyList, Geonode, USProxy, ProxyListDownload, SocksProxy]

  /** What one provider's gather() produced during a call: its proxies, or the
      exception it raised. */
  datatype GatherOutcome = Gathered(proxies: seq<Proxy>) | Raised(error: Error)

  /** ProxyFilterer.filter(proxies, protocols, anonymities). */
  type FilterFn = (seq<Proxy>, seq<string>, seq<string>) -> seq<Proxy>

  /** ProxyValidator.filter_valid_proxies(proxies, limit). */
  type ValidateFn = (seq<Proxy>, int) -> seq<Proxy>

  /** An event loop, known only by its identity. */
  type EventLoop = nat

  /** What the library builds when the caller supplies nothing: a fresh
      ProxyFilterer, a ProxyValidator bound to a given loop, and the loop that
      get_event_loop() hands out. */
  datatype Defaults = Defaults(filterer: FilterFn, validatorFor: EventLoop -> ValidateFn, eventLoop: EventLoop)

  /** What the gather() call on the provider at a given position of the list
      produced; two equal entries of the list are still called separately. */
  type GatherFn = (nat, Provider) -> GatherOutcome

  /** `executor.map(lambda provider: provider.gather(), providers)`, after the
      pool has waited for every worker: one outcome per provider, in order. */
  function GatherAll(providers: seq<Provider>, gather: GatherFn): (outcomes: seq<GatherOutcome>)
  {
    seq(|providers|, i requires 0 <= i < |providers| => gather(i, providers[i]))
  }

  predicate AllGathered(outcomes: seq<GatherOutcome>)
  {
    forall i :: 0 <= i < |outcomes| ==> outcomes[i].Gathered?
  }

  /** Outcome `i` is the first one, in provider order, that raised. */
  predicate FirstRaised(outcomes: seq<GatherOutcome>, i: int)
  {
    0 <= i < |outcomes| && outcomes[i].Raised? &&
    forall k :: 0 <= k < i ==> outcomes[k].Gathered?
  }

  /** Proxy `p` came from at least one provider. */
  ghost predicate Supplied(p: Proxy, outcomes: seq<GatherOutcome>)
  {
    exists i :: 0 <= i < |outcomes| && outcomes[i].Gathered? && p in outcomes[i].proxies
  }

  predicate Distinct(s: seq<Proxy>)
  {
    forall i, j :: 0 <= i < j < |s| ==> s[i] != s[j]
  }

  /** `m` is one of the lists `list(set(...))` may produce from the providers'
      proxies: every proxy some provider supplied, each exactly once, in an
      order Python leaves unspecified. */
  ghost predicate IsMerge(m: seq<Proxy>, outcomes: seq<GatherOutcome>)
  {
    Distinct(m) && forall p :: p in m <==> Supplied(p, outcomes)
  }

  /** `chain.from_iterable` over the mapped results: the proxies of every
      provider, in provider order; reading the result of the first provider
      that raised re-raises its exception. */
  function Chain(outcomes: seq<GatherOutcome>): (r: Result<seq<Proxy>, Error>)
    ensures r.Success? <==> AllGathered(outcomes)
    ensures r.Failure? ==> exists i :: FirstRaised(outcomes, i) && r.error == outcomes[i].error
    ensures r.Success? ==> forall p :: p in r.value <==> Supplied(p, outcomes)
  {
    if outcomes == [] then Success([])
    else
      match outcomes[0]
      case Raised(e) =>
        assert FirstRaised(outcomes, 0);
        Failure(e)
      case Gathered(ps) =>
        var rest := Chain(outcomes[1..]);
        if rest.Failure? then
          var i :| FirstRaised(outcomes[1..], i) && rest.error == outcomes[1..][i].error;
          assert FirstRaised(outcomes, i + 1);
          rest
        else
          assert forall p :: Supplied(p, outcomes[1..]) ==> Supplied(p, outcomes) by {
            forall p | Supplied(p, outcomes[1..]) ensures Supplied(p, outcomes) {
              var i :| 0 <= i < |outcomes[1..]| && outcomes[1..][i].Gathered? && p in outcomes[1..][i].proxies;
              assert outcomes[i + 1] == outcomes[1..][i];
            }
          }
          assert forall p :: Supplied(p, outcomes) && p !in ps ==> Supplied(p, outcomes[1..]) by {
            forall p | Supplied(p, outcomes) && p !in ps ensures Supplied(p, outcomes[1..]) {
              var i :| 0 <= i < |outcomes| && outcomes[i].Gathered? && p in outcomes[i].proxies;
              assert i != 0;
              assert outcomes[1..][i - 1] == outcomes[i];
            }
          }
          Success(ps + rest.value)
  }

  /** `list(set(s))`: each proxy of `s` once. This model keeps the last
      occurrence of each proxy; nothing that uses it depends on that order. */
  function Dedup(s: seq<Proxy>): (r: seq<Proxy>)
    ensures Distinct(r)
    ensures forall p :: p in r <==> p in s
    ensures |r| <= |s|
  {
    if s == [] then []
    else if s[0] in s[1..] then Dedup(s[1..])
    else [s[0]] + Dedup(s[1..])
  }

  /** How a call of `_gather` with these arguments may end, given the
      providers' outcomes, the filterer and the validator. The first provider
      (in provider order) that raised aborts the call with its exception.
      Otherwise the filterer receives some duplicate-free list of exactly the
      supplied proxies with the caller's protocols and anonymities, the
      validator receives the filterer's output with the caller's limit, and its
      result is returned as is, unless it is empty, which raises
      NoProxiesFound. */
  ghost predicate Delivers(r: Result<seq<Proxy>, Error>, outcomes: seq<GatherOutcome>,
                           filterer: FilterFn, validator: ValidateFn,
                           protocols: seq<string>, anonymities: seq<string>, limit: int)
  {
    && (!AllGathered(outcomes) ==>
          exists i :: FirstRaised(outcomes, i) && r == Failure(outcomes[i].error))
    && (AllGathered(outcomes) ==>
          && (r.Failure? ==>
                r.error == NoProxiesFound &&
                exists m :: IsMerge(m, outcomes) && validator(filterer(m, protocols, anonymities), limit) == [])
          && (r.Success? ==>
                r.value != [] &&
                exists m :: IsMerge(m, outcomes) && r.value == validator(filterer(m, protocols, anonymities), limit)))
  }

  /** Two lists `list(set(...))` may produce from the same outcomes differ
      only in order. */
  lemma MergesArePermutations(m1: seq<Proxy>, m2: seq<Proxy>, outcomes: seq<GatherOutcome>)
    requires IsMerge(m1, outcomes) && IsMerge(m2, outcomes)
    ensures multiset(m1) == multiset(m2)
  {
    forall p ensures multiset(m1)[p] == multiset(m2)[p] {
      DistinctMultiplicity(m1, p);
      DistinctMultiplicity(m2, p);
    }
  }

  lemma {:induction false} DistinctMultiplicity(s: seq<Proxy>, p: Proxy)
    requires Distinct(s)
    ensures multiset(s)[p] == if p in s then 1 else 0
  {
    if s != [] {
      assert s == [s[0]] + s[1..];
      DistinctMultiplicity(s[1..], p);
    }
  }

  class ProxyFetcher {
    var providers: seq<Provider>
    var filterer: FilterFn
    var validator: ValidateFn
    var loop: Option<EventLoop>

    /** The dataclass defaults and `__post_init__` without its connectivity
        check: without a provider list the six default providers are used; a
        filterer or a validator the caller did not supply is created; creating the validator
        (`__new_validator`) reuses the caller's loop or, failing that, takes
        the current event loop and stores it. */
    constructor (providers: Option<seq<Provider>>, filterer: Option<FilterFn>, validator: Option<ValidateFn>,
                 loop: Option<EventLoop>, defaults: Defaults)
      ensures this.providers == providers.GetOr(DefaultProviders)
      ensures this.filterer == filterer.GetOr(defaults.filterer)
      ensures validator.Some? ==> this.validator == validator.value && this.loop == loop
      ensures validator.None? ==>
        this.loop == Some(loop.GetOr(defaults.eventLoop)) &&
        this.validator == defaults.validatorFor(loop.GetOr(defaults.eventLoop))
    {
      this.providers := providers.GetOr(DefaultProviders);
      this.filterer := filterer.GetOr(defaults.filterer);
      if validator.Some? {
        this.validator := validator.value;
        this.loop := loop;
      } else {
        var l := if loop.Some? then loop.value else defaults.eventLoop;
        this.loop := Some(l);
        this.validator := defaults.validatorFor(l);
      }
    }

    /** `max(len(providers), 1)`: the size of the gathering pool. */
    function MaxWorkers(): (n: nat)
      reads this
      ensures n >= 1 && n >= |providers|
      ensures n == |providers| || (|providers| == 0 && n == 1)
    {
      if |providers| > 1 then |providers| else 1
    }

    /** `_get_all_proxies_from_providers`: no exception of a provider is
        caught, so the first one (in provider order) aborts the call;
        otherwise the result holds every supplied proxy exactly once. */
    function GetAllProxiesFromProviders(gather: GatherFn): (r: Result<seq<Proxy>, Error>)
      reads this
      ensures r.Failure? <==> !AllGathered(GatherAll(providers, gather))
      ensures r.Failure? ==>
        exists i :: FirstRaised(GatherAll(providers, gather), i) && r.error == gather(i, providers[i]).error
      ensures r.Success? ==> IsMerge(r.value, GatherAll(providers, gather))
    {
      var all := Chain(GatherAll(providers, gather));
      if all.Failure? then Failure(all.error) else Success(Dedup(all.value))
    }

    /** `_gather`: providers, then filterer, then validator; empty means
        NoProxiesFound. */
    function Gather(gather: GatherFn, protocols: seq<string>, anonymities: seq<string>,
                    limit: int): (r: Result<seq<Proxy>, Error>)
      reads this
      ensures Delivers(r, GatherAll(providers, gather), filterer, validator, protocols, anonymities, limit)
    {
      match GetAllProxiesFromProviders(gather)
      case Failure(e) => Failure(e)
      case Success(proxies) =>
        var valid := validator(filterer(proxies, protocols, anonymities), limit);
        if valid == [] then Failure(NoProxiesFound) else Success(valid)
    }

    /** `get_one`: `_gather` with limit 1. Its result is the validator's list,
        not one proxy taken out of it. */
    function GetOne(gather: GatherFn, protocols: seq<string>, anonymities: seq<string>)
      : (r: Result<seq<Proxy>, Error>)
      reads this
      ensures Delivers(r, GatherAll(providers, gather), filterer, validator, protocols, anonymities, 1)
      ensures r == Get(gather, protocols, anonymities, 1)
    {
      Gather(gather, protocols, anonymities, 1)
    }

    /** `get`: `_gather` with the caller's limit (0, meaning no limit, when
        the caller gives none). */
    function Get(gather: GatherFn, protocols: seq<string>, anonymities: seq<string>,
                 limit: int): (r: Result<seq<Proxy>, Error>)
      reads this
      ensures Delivers(r, GatherAll(providers, gather), filterer, validator, protocols, anonymities, limit)
    {
      Gather(gather, protocols, anonymities, limit)
    }

    /** With no providers the pool still has one worker and nothing is merged,
        so the filterer and validator see an empty list. */
    lemma NoProviders(gather: GatherFn)
      requires providers == []
      ensures MaxWorkers() == 1
      ensures GetAllProxiesFromProviders(gather) == Success([])
    {
    }
  }
}
