# ballyregan: proxy gathering pipeline, modelled in Dafny

This project models two pieces of ballyregan, a library that collects free
public proxies, filters them and checks that they are alive.

- **The proxy-list.download provider** (`ProxyListDownload`,
  `proxy_list_download.dfy`). `GetRawProxies` asks the site for each protocol
  in turn, tags every line of each reply as `<protocol>:<line>`, and fails with
  `ProxyGatherException` as soon as one request raises or is not ok.
  `RawProxyToObject` splits a raw string on `':'`. It builds a `Proxy` when
  there are exactly three fields, with the protocol lower-cased, and otherwise
  fails with `ProxyParseException`. The lemmas prove the round trip between
  tagging and parsing, the length and order of the tagged list, and which
  strings the parser accepts.
- **The fetcher** (`Fetcher`, `fetcher.dfy`). `ProxyFetcher` runs every
  provider's `gather()` and merges the results into a list without
  duplicates. It hands that list to the filterer, hands the filterer's output
  to the validator with the caller's limit, and turns an empty validated
  result into `NoProxiesFound`. `get_one` is the same pipeline with limit 1.
  `get` passes the caller's limit through.

Shared values live in `Proxies` (`proxies.dfy`). `Text` (`text.dfy`) holds
the two string operations the parser calls, `str.split` on one character
(`Split`) and `str.lower` restricted to ASCII (`Lower`), together with
`Count` (occurrences of a character) and `Join` (the inverse of `Split`),
which exist only to state and prove the parser's contracts.

The outside world is passed in as parameters:
- `fetch: string -> Response` is what the HTTP session returned for each
  protocol.
- `gather: (nat, Provider) -> GatherOutcome` is what the `gather()` call on
  the provider at each position of the list produced.
- `FilterFn` and `ValidateFn` are the filterer and the validator. Their code
  is not part of this model.
- `Defaults` holds what the library builds when the caller supplies nothing.

The merged list comes from a Python `set`, so its order is unspecified. For
that reason `Delivers`, the contract of `Gather`, `Get` and `GetOne`, only
promises that the filterer received *some* duplicate-free list of exactly the
supplied proxies (`IsMerge`). `MergesArePermutations` shows that any two such
lists differ only in order.

Two behaviours of the code are worth stating on their own:
- No exception from a provider's `gather()` is caught
  (src/ballyregan/fetcher.py:64-71), so the first failing provider, in
  provider order, aborts the whole call.
- `get_one` is annotated `-> Proxy` and documented as "Get one proxy"
  (src/ballyregan/fetcher.py:102-109), but it returns the validator's list
  unchanged, and so does `GetOne`.

## Model

| member | source | states |
|---|---|---|
| `Text.Split` | src/ballyregan/providers/proxy_list_download.py:37 | `str.split(':')` gives one more field than there are colons, no field holds a colon, and joining the fields with colons gives back the input |
| `Text.SplitJoin` | src/ballyregan/providers/proxy_list_download.py:37 | splitting undoes joining when no field holds the separator |
| `Text.Lower` | src/ballyregan/providers/proxy_list_download.py:43 | lower-casing keeps the length, turns every upper-case ASCII letter into the same letter in lower case, and keeps every other character |
| `Text.LowerIdempotent` | src/ballyregan/providers/proxy_list_download.py:43 | lower-casing an already lower-cased protocol changes nothing |
| `Text.LowerCount` | src/ballyregan/providers/proxy_list_download.py:43 | lower-casing neither adds nor removes a character that is not an ASCII letter, such as the ':' separator |
| `ProxyListDownload.GetRawProxies` | src/ballyregan/providers/proxy_list_download.py:17-32 | the call fails exactly when some protocol's request raised or was not ok, and then with ProxyGatherException and no partial list; otherwise it returns the tagged lines of every protocol in order (`RawProxies`) |
| `ProxyListDownload.WithProtocolEntries` | src/ballyregan/providers/proxy_list_download.py:29 | untagging: for a colon-free protocol, splitting a tagged entry on ':' gives the protocol followed by the fields of the original line |
| `ProxyListDownload.RawProxiesMembers` | src/ballyregan/providers/proxy_list_download.py:28-30 | a string is in the result if and only if it is some protocol, a colon, and some line of that protocol's reply |
| `ProxyListDownload.RawProxiesLength` | src/ballyregan/providers/proxy_list_download.py:28-30 | the result has one entry per line received, over all protocols |
| `ProxyListDownload.RawProxiesAppend` | src/ballyregan/providers/proxy_list_download.py:20-30 | the result follows protocol order, and within one protocol it follows line order |
| `ProxyListDownload.RawProxyToObject` | src/ballyregan/providers/proxy_list_download.py:34-44 | parsing succeeds if and only if the string holds exactly two colons; failure is ProxyParseException; on success the string is `p:ip:port` with colon-free fields, the protocol is `p` lower-cased, and ip and port are kept verbatim |
| `ProxyListDownload.RawProxyRoundTrip` | src/ballyregan/providers/proxy_list_download.py:37-43 | colon-free protocol, ip and port joined with colons parse back to `(ip, port, lower(protocol))` |
| `ProxyListDownload.TaggedLineParses` | src/ballyregan/providers/proxy_list_download.py:29-43 | a line tagged with a colon-free protocol parses if and only if the line holds exactly one colon |
| `ProxyListDownload.TaggedLineParsesBack` | src/ballyregan/providers/proxy_list_download.py:29-43 | a tagged line `protocol:ip:port` parses back to that protocol lower-cased, that ip and that port |
| `ProxyListDownload.BadStringRejected` | src/ballyregan/providers/proxy_list_download.py:36-39 | `"bad-string"` is rejected with ProxyParseException |
| `Fetcher.Chain` | src/ballyregan/fetcher.py:64-71 | flattening the mapped results succeeds exactly when every provider gathered; otherwise it fails with the first failing provider's exception; on success it holds exactly the proxies some provider supplied |
| `Fetcher.Dedup` | src/ballyregan/fetcher.py:71 | `list(set(...))` has no duplicates, holds exactly the input's proxies, and is no longer than the input |
| `Fetcher.MergesArePermutations` | src/ballyregan/fetcher.py:71 | any two duplicate-free lists of the supplied proxies are permutations of each other |
| `Fetcher.ProxyFetcher.constructor` | src/ballyregan/fetcher.py:20-58 | without a provider list the six default providers are used, in their declared order; a filterer or validator the caller did not supply is created; a new validator is bound to the caller's loop, or to the current event loop, which is then stored |
| `Fetcher.ProxyFetcher.MaxWorkers` | src/ballyregan/fetcher.py:64 | the pool size is the number of providers, and at least one |
| `Fetcher.ProxyFetcher.GetAllProxiesFromProviders` | src/ballyregan/fetcher.py:60-71 | outcome i is `gather(i, providers[i])`, read in provider order; the call fails exactly when some provider raised, and then with the first such provider's exception; otherwise the result is duplicate-free and holds exactly the proxies some provider supplied: nothing lost, nothing invented |
| `Fetcher.ProxyFetcher.NoProviders` | src/ballyregan/fetcher.py:64-71 | with zero providers the pool has one worker and the merged list is empty |
| `Fetcher.ProxyFetcher.Gather` | src/ballyregan/fetcher.py:73-100 | a provider exception propagates unchanged; otherwise the filterer receives a merge with the caller's protocols and anonymities, the validator receives the filterer's output with the caller's limit, and the call raises NoProxiesFound if and only if the validator returned an empty list, returning that list unchanged otherwise |
| `Fetcher.ProxyFetcher.GetOne` | src/ballyregan/fetcher.py:102-115 | the same outcome as `_gather` with limit 1, equal to `get` with limit 1; the result is the validator's list, not one proxy |
| `Fetcher.ProxyFetcher.Get` | src/ballyregan/fetcher.py:117-133 | the same outcome as `_gather` with the caller's limit, returned unchanged |

## Left out

- HTTP requests (`self._session.get`, `response.ok`, `response.text`) are not modelled. They become the `fetch` parameter: a reply with its ok flag and its lines, or a raised exception.
- `str.splitlines` is not modelled; a reply carries its lines already split.
- The `Protocols` enumeration is not part of this model. The sequence `Protocols.values()` is a parameter of `GetRawProxies`.
- The `ThreadPoolExecutor` scheduling is not modelled. Its only visible effect is a map over the providers that ends when every worker has finished.
- The asyncio event loop is only an identity (`EventLoop`).
- The connectivity check in `__post_init__` (`has_internet_connection`, `NoInternetConnection`) is I/O and is left out of the constructor.
- The `__setattr__` hook that reinitialises logging when `debug` is written is left out, and so are all logging calls.
- `ProxyFilterer.filter`, `ProxyValidator.filter_valid_proxies` and the other providers' `gather()` are not part of this model. They are parameters, so no contract here says what they keep or how many proxies the validator returns for a limit.
- `Proxy` is a three-field value with value equality. Any conversion or validation that the real `Proxy` class applies to its fields (such as turning the port into a number) is not part of this model.
- Text.Lower: lower-cases ASCII letters only, because Python's Unicode case mapping is outside the model.
- Fetcher.Dedup: keeps one fixed order (last occurrence), because Python's set iteration order is unspecified. The contracts of `Gather`, `Get` and `GetOne` do not depend on that order.
- Python's default arguments of `_gather`, `get_one` and `get` (empty protocol and anonymity lists, limit 0) are not modelled; callers pass every argument.
