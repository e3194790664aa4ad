/**
 * The Guzzle HTTP client as the course catalog uses it: a request is an HTTP method (its verb),
 * a URI and a PHP options array; sending it either delivers a response or
 * throws. Only the outcome is modelled, never the transport.
 */
module Http {
  import opened Php

  datatype HttpRequest = HttpRequest(verb: string, uri: string, options: Value)

  datatype Response = Response(status: int, headers: seq<(string, string)>, body: string)

  /**
   * What `request` throws: Guzzle's RequestException (which covers non-2xx
   * responses) or any other \Exception.
   */
  datatype Exception = RequestException(message: string) | OtherException(message: string)

  datatype Transport = Delivered(response: Response) | Thrown(exception: Exception)

  /** A ClientInterface, seen through `request` alone: what it does with each request. */
  type Client = HttpRequest -> Transport
}
