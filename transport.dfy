/**
 * What the client sends to and gets back from the remote API, with the HTTP
 * and JSON layers reduced to their outcomes, and the request URI join.
 */
module Transport {
  import opened ApiErrors
  import opened Resources

  /** The errors an operation of the client returns to its caller. */
  datatype Error =
    | TransportError(reason: string)  // the request could not be built or sent
    | DecodeError(reason: string)     // the response body did not decode
    | ApiFailure(api: ApiError)       // the remote rejected a POST

  datatype Result<T> = Success(value: T) | Failure(error: Error)

  /** The result of an operation that returns only an error or nil. */
  datatype Outcome = Pass | Fail(error: Error)

  /** A response body as the JSON decoder reads it into one target type. */
  datatype Decoded<T> = Decoded(value: T) | Malformed(reason: string)

  /** The JSON-visible fields of a ScalewayAPIError body. */
  datatype ErrorBody = ErrorBody(message: string, errorType: string)

  /**
   * The remote's answer to one request: no response at all, or a status code
   * with the body read as the type the caller expects and as an error body.
   */
  datatype Reply<T> =
    | Unreachable(reason: string)
    | Answered(status: int, body: Decoded<T>, errorBody: Decoded<ErrorBody>)

  /** The JSON payload of a POST. */
  datatype Payload = ServerAction(action: string) | ServerCreation(definition: ServerDefinition)

  /** One request sent to the remote API. */
  datatype Request = Get(uri: string) | Post(uri: string, payload: Payload)

  predicate AllSlashes(s: string) {
    forall i :: 0 <= i < |s| ==> s[i] == '/'
  }

  /** The endpoint with every trailing '/' removed. */
  function TrimSlashes(s: string): (t: string)
    ensures t <= s
    ensures t == [] || t[|t| - 1] != '/'
    ensures AllSlashes(s[|t|..])
  {
    if s != [] && s[|s| - 1] == '/' then TrimSlashes(s[..|s| - 1]) else s
  }

  /**
   * The URI of `resource` under `endpoint`: the endpoint without its trailing
   * slashes, exactly one '/', then the resource.
   */
  function Uri(endpoint: string, resource: string): (uri: string)
    ensures |uri| > |resource|
    ensures uri[|uri| - |resource| - 1..] == "/" + resource
    ensures var base := uri[..|uri| - |resource| - 1];
            base <= endpoint && AllSlashes(endpoint[|base|..]) &&
            (base == [] || base[|base| - 1] != '/')
  {
    var base := TrimSlashes(endpoint);
    var uri := base + "/" + resource;
    assert |uri| - |resource| - 1 == |base|;
    assert uri[..|base|] == base;
    assert uri[|base|..] == "/" + resource;
    uri
  }

  /** Slashes at the end of the endpoint never change a request URI. */
  lemma {:induction false} UriIgnoresTrailingSlashes(endpoint: string, slashes: string, resource: string)
    requires AllSlashes(slashes)
    ensures Uri(endpoint + slashes, resource) == Uri(endpoint, resource)
  {
    if slashes == [] {
      assert endpoint + slashes == endpoint;
    } else {
      var longer, shorter := endpoint + slashes, slashes[..|slashes| - 1];
      assert longer[|longer| - 1] == '/';
      assert longer[..|longer| - 1] == endpoint + shorter;
      assert TrimSlashes(longer) == TrimSlashes(endpoint + shorter);
      UriIgnoresTrailingSlashes(endpoint, shorter, resource);
    }
  }
}
