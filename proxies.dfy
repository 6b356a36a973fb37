/** Values shared by the provider and the fetcher: the proxy record, the
    exceptions the library raises, and the wrappers used for results that
    may fail. */
module Proxies {

  /** The outcome of an operation that may raise: the value, or the exception. */
  datatype Result<+T, +E> = Success(value: T) | Failure(error: E)

  /** An optional value; stands for a field or argument that may be None. */
  datatype Option<+T> = None | Some(value: T) {
    function GetOr(default: T): T {
      match this
      case Some(v) => v
      case None => default
    }
  }

  /** A proxy as a provider builds it. Equality is value equality on the three
      fields, which is what the fetcher's set-based deduplication relies on.
      The port is kept as the text the provider read; no conversion happens
      where proxies are built from raw strings. */
  datatype Proxy = Proxy(ip: string, port: string, protocol: string)

  /** The exceptions that cross the modelled code. */
  datatype Error =
    | ProxyGatherException
    | ProxyParseException
    | NoProxiesFound
    | OtherException(name: string)  // anything else a provider's gather() lets escape
}
