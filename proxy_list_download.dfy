/** The proxy-list.download provider: it asks the site for the raw proxy list
    of every protocol, tags each returned line with its protocol, and parses a
    tagged line `<protocol>:<ip>:<port>` back into a Proxy. */
module ProxyListDownload {
  import opened Proxies
  import opened Text

  /** What the HTTP session returned for one protocol: a reply with its `ok`
      flag and its body already broken into lines, or an exception raised by
      the request itself. */
  datatype Response = Reply(ok: bool, lines: seq<string>) | Raised

  predicate Succeeded(response: Response)
  {
    response.Reply? && response.ok
  }

  /** Every protocol's request succeeded. */
  predicate AllSucceeded(protocols: seq<string>, fetch: string -> Response)
  {
    forall i :: 0 <= i < |protocols| ==> Succeeded(fetch(protocols[i]))
  }

  /** The lines of a successful reply; nothing otherwise. */
  function LinesOf(response: Response): (lines: seq<string>)
  {
    if Succeeded(response) then response.lines else []
  }

  /** `[f'{protocol}:{proxy}' for proxy in lines]` */
  function WithProtocol(protocol: string, lines: seq<string>): (tagged: seq<string>)
  {
    seq(|lines|, j requires 0 <= j < |lines| => protocol + ":" + lines[j])
  }

  /** Untagging: splitting a tagged entry on ':' gives back the protocol name
      as its first field, followed by the fields of the original line. */
  lemma WithProtocolEntries(protocol: string, lines: seq<string>, j: nat)
    requires ':' !in protocol && j < |lines|
    ensures Split(WithProtocol(protocol, lines)[j], ':') == [protocol] + Split(lines[j], ':')
  {
    SplitAfterPiece(protocol, ':', lines[j]);
  }

  /** The list the provider accumulates when every request succeeds: the tagged
      lines of each protocol in turn, in protocol order. */
  function RawProxies(protocols: seq<string>, fetch: string -> Response): (raw: seq<string>)
  {
    if protocols == [] then []
    else
      var last := protocols[|protocols| - 1];
      RawProxies(protocols[..|protocols| - 1], fetch) + WithProtocol(last, LinesOf(fetch(last)))
  }

  /** Total number of lines returned over all protocols. */
  function TotalLines(protocols: seq<string>, fetch: string -> Response): (n: nat)
  {
    if protocols == [] then 0
    else TotalLines(protocols[1..], fetch) + |LinesOf(fetch(protocols[0]))|
  }

  /** `_get_raw_proxies`: one request per protocol, in the order given by
      `Protocols.values()`; the response for each protocol is `fetch(protocol)`.
      A failed request (an exception, or a reply that is not ok) aborts with
      ProxyGatherException and the lines gathered so far are dropped. */
  method GetRawProxies(protocols: seq<string>, fetch: string -> Response)
    returns (r: Result<seq<string>, Error>)
    ensures r.Failure? <==> !AllSucceeded(protocols, fetch)
    ensures r.Failure? ==> r.error == ProxyGatherException
    ensures r.Success? ==> r.value == RawProxies(protocols, fetch)
  {
    var proxies: seq<string> := [];
    for i := 0 to |protocols|
      invariant AllSucceeded(protocols[..i], fetch)
      invariant proxies == RawProxies(protocols[..i], fetch)
    {
      var response := fetch(protocols[i]);
      if !Succeeded(response) {
        return Failure(ProxyGatherException);
      }
      assert protocols[..i + 1][..i] == protocols[..i];
      proxies := proxies + WithProtocol(protocols[i], response.lines);
    }
    assert protocols[..|protocols|] == protocols;
    return Success(proxies);
  }

  /** Every raw proxy is one protocol's name, a colon and one line of that
      protocol's response, and every such pairing occurs. */
  lemma {:induction false} RawProxiesMembers(protocols: seq<string>, fetch: string -> Response, s: string)
    ensures s in RawProxies(protocols, fetch) <==>
      exists i, j :: 0 <= i < |protocols| && 0 <= j < |LinesOf(fetch(protocols[i]))| &&
        s == protocols[i] + ":" + LinesOf(fetch(protocols[i]))[j]
  {
    if protocols != [] {
      var n := |protocols| - 1;
      var init := protocols[..n];
      RawProxiesMembers(init, fetch, s);
      if exists i, j :: (0 <= i < |protocols| && 0 <= j < |LinesOf(fetch(protocols[i]))| &&
        s == protocols[i] + ":" + LinesOf(fetch(protocols[i]))[j])
      {
        var i, j :| 0 <= i < |protocols| && 0 <= j < |LinesOf(fetch(protocols[i]))| &&
          s == protocols[i] + ":" + LinesOf(fetch(protocols[i]))[j];
        if i < n {
          assert init[i] == protocols[i];
        } else {
          assert WithProtocol(protocols[n], LinesOf(fetch(protocols[n])))[j] == s;
        }
      }
      if s in RawProxies(protocols, fetch) && s !in RawProxies(init, fetch) {
        var tail := WithProtocol(protocols[n], LinesOf(fetch(protocols[n])));
        assert s in tail;
        var j :| 0 <= j < |tail| && tail[j] == s;
        assert s == protocols[n] + ":" + LinesOf(fetch(protocols[n]))[j];
      }
    }
  }

  /** The provider returns one raw proxy per line received. */
  lemma {:induction false} RawProxiesLength(protocols: seq<string>, fetch: string -> Response)
    ensures |RawProxies(protocols, fetch)| == TotalLines(protocols, fetch)
  {
    if protocols != [] {
      var n := |protocols| - 1;
      RawProxiesLength(protocols[..n], fetch);
      TotalLinesSnoc(protocols[..n], protocols[n], fetch);
      assert protocols[..n] + [protocols[n]] == protocols;
    }
  }

  lemma {:induction false} TotalLinesSnoc(protocols: seq<string>, p: string, fetch: string -> Response)
    ensures TotalLines(protocols + [p], fetch) == TotalLines(protocols, fetch) + |LinesOf(fetch(p))|
  {
    if protocols == [] {
      assert ([] + [p])[1..] == [];
    } else {
      assert (protocols + [p])[1..] == protocols[1..] + [p];
      TotalLinesSnoc(protocols[1..], p, fetch);
    }
  }

  /** Order: the raw proxies of a longer protocol list are those of its first
      part followed by those of the rest; with a single protocol they are its
      lines in order, each tagged. */
  lemma {:induction false} RawProxiesAppend(front: seq<string>, back: seq<string>, fetch: string -> Response)
    ensures RawProxies(front + back, fetch) == RawProxies(front, fetch) + RawProxies(back, fetch)
    ensures |back| == 1 ==> RawProxies(back, fetch) == WithProtocol(back[0], LinesOf(fetch(back[0])))
  {
    if back == [] {
      assert front + back == front;
    } else {
      var n := |back| - 1;
      assert (front + back)[..|front + back| - 1] == front + back[..n];
      RawProxiesAppend(front, back[..n], fetch);
      assert RawProxies(back[..n], fetch) + WithProtocol(back[n], LinesOf(fetch(back[n])))
          == RawProxies(back, fetch);
    }
    if |back| == 1 {
      assert back[..0] == [];
    }
  }

  /** `raw_proxy_to_object`: split on ':' into exactly three fields, else
      ProxyParseException; the protocol is lower-cased, ip and port are kept. */
  function RawProxyToObject(raw: string): (r: Result<Proxy, Error>)
    ensures r.Success? <==> Count(raw, ':') == 2
    ensures r.Failure? ==> r.error == ProxyParseException
    ensures r.Success? ==>
      ':' !in r.value.ip && ':' !in r.value.port &&
      exists protocol :: ':' !in protocol && r.value.protocol == Lower(protocol) &&
        raw == protocol + ":" + r.value.ip + ":" + r.value.port
  {
    var fields := Split(raw, ':');
    if |fields| != 3 then Failure(ProxyParseException)
    else
      assert fields == [fields[0], fields[1], fields[2]];
      JoinThree(fields[0], fields[1], fields[2], ':');
      Success(Proxy(ip := fields[1], port := fields[2], protocol := Lower(fields[0])))
  }

  /** Round trip: a protocol, an address and a port with no colon in them,
      joined with colons, parse back to those fields, the protocol lower-cased. */
  lemma RawProxyRoundTrip(protocol: string, ip: string, port: string)
    requires ':' !in protocol && ':' !in ip && ':' !in port
    ensures RawProxyToObject(protocol + ":" + ip + ":" + port) == Success(Proxy(ip, port, Lower(protocol)))
  {
    JoinThree(protocol, ip, port, ':');
    SplitJoin([protocol, ip, port], ':');
  }

  /** A line tagged by the provider with a colon-free protocol name parses
      exactly when the line itself holds one colon. */
  lemma TaggedLineParses(protocol: string, line: string)
    requires ':' !in protocol
    ensures RawProxyToObject(protocol + ":" + line).Success? <==> Count(line, ':') == 1
  {
    CountZero(protocol, ':');
    CountConcat(protocol, ":", ':');
    CountConcat(protocol + ":", line, ':');
  }

  /** A tagged line `protocol:ip:port` parses back to that protocol
      (lower-cased), that address and that port. */
  lemma TaggedLineParsesBack(protocol: string, line: string, ip: string, port: string)
    requires ':' !in protocol && ':' !in ip && ':' !in port
    requires line == ip + ":" + port
    ensures RawProxyToObject(protocol + ":" + line) == Success(Proxy(ip, port, Lower(protocol)))
  {
    assert protocol + ":" + line == protocol + ":" + ip + ":" + port;
    RawProxyRoundTrip(protocol, ip, port);
  }

  /** Nothing that the provider's parser accepts holds more or fewer than two
      colons: a string without colons, such as "bad-string", is rejected. */
  lemma BadStringRejected()
    ensures RawProxyToObject("bad-string") == Failure(ProxyParseException)
  {
  }
}
