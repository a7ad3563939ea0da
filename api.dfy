/**
 * The Scaleway API client: reads that warm the name-resolution cache,
 * resolution of names with at most one refresh, and the POSTs that act on
 * and create servers. Every request the client sends is appended to the
 * ghost log `requests`; the answer it gets is a parameter of the operation.
 */
module Api {
  import opened Wrappers
  import opened ApiErrors
  import opened Resources
  import opened Transport
  import opened Cache

  /** The resource GetServers asks for: the running-state filter is requested exactly when `all` is unset. */
  function ServersResource(all: bool): (resource: string)
    ensures |resource| >= |"servers?"| && resource[..|"servers?"|] == "servers?"
    ensures all <==> resource == "servers?"
    ensures !all ==> resource[|"servers?"|..] == "state=running"
  {
    "servers?" + (if all then "" else "state=running")
  }

  /** The records of a GET reply, or the error of sending or decoding it; the status is not consulted. */
  function Fetched<T>(reply: Reply<T>): (r: Result<T>)
    ensures r.Success? <==> reply.Answered? && reply.body.Decoded?
    ensures r.Success? ==> r.value == reply.body.value
    ensures reply.Unreachable? ==> r == Failure(TransportError(reply.reason))
    ensures reply.Answered? && reply.body.Malformed? ==> r == Failure(DecodeError(reply.body.reason))
  {
    match reply
    case Unreachable(why) => Failure(TransportError(why))
    case Answered(_, Malformed(why), _) => Failure(DecodeError(why))
    case Answered(_, Decoded(v), _) => Success(v)
  }

  /** A GET's outcome is the same whatever status code came with the body. */
  lemma FetchedIgnoresStatus<T>(reply: Reply<T>, status: int)
    requires reply.Answered?
    ensures Fetched(reply.(status := status)) == Fetched(reply)
  {
  }

  /** The error a rejected POST returns: the decoded body, stamped with the response status. */
  function Rejection(body: ErrorBody, status: int): (e: ApiError)
    ensures e.apiMessage == body.message && e.errorType == body.errorType
    ensures e.statusCode == status && e.message == ""
    ensures e.Renderable() <==> body.message != "" || status != 0
  {
    ApiError(body.message, body.errorType, status, "")
  }

  /** The error a non-success POST response turns into. */
  function Rejected(errorBody: Decoded<ErrorBody>, status: int): (err: Error)
    ensures errorBody.Malformed? ==> err == DecodeError(errorBody.reason)
    ensures errorBody.Decoded? ==> err.ApiFailure? && err.api == Rejection(errorBody.value, status)
  {
    match errorBody
    case Malformed(why) => DecodeError(why)
    case Decoded(body) => ApiFailure(Rejection(body, status))
  }

  /** What PostServerAction returns for a given reply: success exactly on status 202. */
  function ActionOutcome(reply: Reply<()>): (r: Outcome)
    ensures r.Pass? <==> reply.Answered? && reply.status == 202
    ensures reply.Unreachable? ==> r == Fail(TransportError(reply.reason))
    ensures reply.Answered? && reply.status != 202 && reply.errorBody.Malformed? ==>
              r == Fail(DecodeError(reply.errorBody.reason))
    ensures r.Fail? && r.error.ApiFailure? ==>
              reply.Answered? && reply.status != 202 && reply.errorBody.Decoded? &&
              r.error.api.statusCode == reply.status &&
              r.error.api.apiMessage == reply.errorBody.value.message &&
              r.error.api.message == ""
    ensures reply.Answered? && reply.status != 202 && reply.errorBody.Decoded? ==>
              r == Fail(ApiFailure(ApiError(reply.errorBody.value.message, reply.errorBody.value.errorType,
                                            reply.status, "")))
  {
    match reply
    case Unreachable(why) => Fail(TransportError(why))
    case Answered(status, _, errorBody) =>
      if status == 202 then Pass else Fail(Rejected(errorBody, status))
  }

  /** What PostServer returns for a given reply: the new server's identifier exactly on status 201. */
  function CreateOutcome(reply: Reply<Server>): (r: Result<string>)
    ensures r.Success? <==> reply.Answered? && reply.status == 201 && reply.body.Decoded?
    ensures r.Success? ==> r.value == reply.body.value.identifier
    ensures reply.Unreachable? ==> r == Failure(TransportError(reply.reason))
    ensures reply.Answered? && reply.status == 201 && reply.body.Malformed? ==>
              r == Failure(DecodeError(reply.body.reason))
    ensures reply.Answered? && reply.status != 201 && reply.errorBody.Malformed? ==>
              r == Failure(DecodeError(reply.errorBody.reason))
    ensures r.Failure? && r.error.ApiFailure? ==>
              reply.Answered? && reply.status != 201 && reply.errorBody.Decoded? &&
              r.error.api.statusCode == reply.status &&
              r.error.api.apiMessage == reply.errorBody.value.message &&
              r.error.api.message == ""
    ensures reply.Answered? && reply.status != 201 && reply.errorBody.Decoded? ==>
              r == Failure(ApiFailure(ApiError(reply.errorBody.value.message, reply.errorBody.value.errorType,
                                               reply.status, "")))
  {
    match reply
    case Unreachable(why) => Failure(TransportError(why))
    case Answered(status, body, errorBody) =>
      if status == 201 then
        match body
        case Malformed(why) => Failure(DecodeError(why))
        case Decoded(server) => Success(server.identifier)
      else
        Failure(Rejected(errorBody, status))
  }

  /**
   * An error a POST builds from a response can always be printed: Error
   * shows the remote's message, or else names the (non-zero) status.
   */
  lemma RejectionRenders(body: ErrorBody, status: int)
    requires status != 0
    ensures Rejection(body, status).Renderable()
    ensures body.message != "" ==> Rejection(body, status).Error() == body.message
    ensures body.message == "" ==>
              var msg := Rejection(body, status).Error();
              msg[..|InvalidCodePrefix|] == InvalidCodePrefix &&
              ParseInt(msg[|InvalidCodePrefix|..]) == Some(status)
  {
  }

  class ScalewayAPI {
    const endpoint: string
    const organization: string
    const token: string
    const cache: ScalewayCache

    /** Every request attempted so far, oldest first, whether or not it could be built and sent. */
    ghost var requests: seq<Request>

    /** NewScalewayAPI, given the cache it would have loaded. */
    constructor (endpoint: string, organization: string, token: string, cache: ScalewayCache)
      ensures this.endpoint == endpoint && this.organization == organization
      ensures this.token == token && this.cache == cache
      ensures requests == []
    {
      this.endpoint, this.organization, this.token := endpoint, organization, token;
      this.cache := cache;
      requests := [];
    }

    /** Attempts one GET for `resource`. */
    method GetResponse(resource: string)
      modifies this
      ensures requests == old(requests) + [Get(Uri(endpoint, resource))]
    {
      requests := requests + [Get(Uri(endpoint, resource))];
    }

    /** Attempts one POST of `payload` to `resource`. */
    method PostResponse(resource: string, payload: Payload)
      modifies this
      ensures requests == old(requests) + [Post(Uri(endpoint, resource), payload)]
    {
      requests := requests + [Post(Uri(endpoint, resource), payload)];
    }

    /**
     * Lists servers (running ones unless `all`), inserts every listed server
     * into the cache, then keeps at most `limit` of them when `limit` is positive.
     */
    method GetServers(all: bool, limit: int, reply: Reply<seq<Server>>) returns (r: Result<seq<Server>>)
      modifies this, cache
      ensures requests == old(requests) + [Get(Uri(endpoint, ServersResource(all)))]
      ensures cache.lookups == old(cache.lookups)
      ensures Fetched(reply).Failure? ==> r == Fetched(reply) && cache.Gained(ServerKind, [])
      ensures Fetched(reply).Success? ==>
                var listed := Fetched(reply).value;
                r == Success(Truncate(listed, limit)) &&
                cache.Gained(ServerKind, Entries(listed, ServerEntry))
    {
      GetResponse(ServersResource(all));
      var fetched := Fetched(reply);
      if fetched.Failure? {
        return fetched;
      }
      var servers := fetched.value;
      for i := 0 to |servers|
        invariant requests == old(requests) + [Get(Uri(endpoint, ServersResource(all)))]
        invariant cache.lookups == old(cache.lookups)
        invariant cache.Gained(ServerKind, Entries(servers[..i], ServerEntry))
      {
        cache.Insert(ServerKind, servers[i].identifier, servers[i].name);
        assert servers[..i + 1][..i] == servers[..i];
      }
      assert servers[..|servers|] == servers;
      if limit > 0 && limit < |servers| {
        servers := servers[..limit];
      }
      r := Success(servers);
    }

    /** Fetches one server and inserts it into the cache. */
    method GetServer(serverId: string, reply: Reply<Server>) returns (r: Result<Server>)
      modifies this, cache
      ensures requests == old(requests) + [Get(Uri(endpoint, "servers/" + serverId))]
      ensures cache.lookups == old(cache.lookups)
      ensures r == Fetched(reply)
      ensures r.Failure? ==> cache.Gained(ServerKind, [])
      ensures r.Success? ==> cache.Gained(ServerKind, [ServerEntry(r.value)])
    {
      GetResponse("servers/" + serverId);
      r := Fetched(reply);
      if r.Success? {
        cache.Insert(ServerKind, r.value.identifier, r.value.name);
      }
    }

    /** Lists images and inserts every one into the cache. */
    method GetImages(reply: Reply<seq<Image>>) returns (r: Result<seq<Image>>)
      modifies this, cache
      ensures requests == old(requests) + [Get(Uri(endpoint, "images?"))]
      ensures cache.lookups == old(cache.lookups)
      ensures r == Fetched(reply)
      ensures r.Failure? ==> cache.Gained(ImageKind, [])
      ensures r.Success? ==> cache.Gained(ImageKind, Entries(r.value, ImageEntry))
    {
      GetResponse("images?");
      r := Fetched(reply);
      if r.Failure? {
        return;
      }
      var images := r.value;
      for i := 0 to |images|
        invariant requests == old(requests) + [Get(Uri(endpoint, "images?"))]
        invariant cache.lookups == old(cache.lookups)
        invariant cache.Gained(ImageKind, Entries(images[..i], ImageEntry))
      {
        cache.Insert(ImageKind, images[i].identifier, images[i].name);
        assert images[..i + 1][..i] == images[..i];
      }
      assert images[..|images|] == images;
    }

    /** Fetches one image and inserts it into the cache. */
    method GetImage(imageId: string, reply: Reply<Image>) returns (r: Result<Image>)
      modifies this, cache
      ensures requests == old(requests) + [Get(Uri(endpoint, "images/" + imageId))]
      ensures cache.lookups == old(cache.lookups)
      ensures r == Fetched(reply)
      ensures r.Failure? ==> cache.Gained(ImageKind, [])
      ensures r.Success? ==> cache.Gained(ImageKind, [ImageEntry(r.value)])
    {
      GetResponse("images/" + imageId);
      r := Fetched(reply);
      if r.Success? {
        cache.Insert(ImageKind, r.value.identifier, r.value.name);
      }
    }

    /** Lists snapshots and inserts every one into the cache. */
    method GetSnapshots(reply: Reply<seq<Snapshot>>) returns (r: Result<seq<Snapshot>>)
      modifies this, cache
      ensures requests == old(requests) + [Get(Uri(endpoint, "snapshots?"))]
      ensures cache.lookups == old(cache.lookups)
      ensures r == Fetched(reply)
      ensures r.Failure? ==> cache.Gained(SnapshotKind, [])
      ensures r.Success? ==> cache.Gained(SnapshotKind, Entries(r.value, SnapshotEntry))
    {
      GetResponse("snapshots?");
      r := Fetched(reply);
      if r.Failure? {
        return;
      }
      var snapshots := r.value;
      for i := 0 to |snapshots|
        invariant requests == old(requests) + [Get(Uri(endpoint, "snapshots?"))]
        invariant cache.lookups == old(cache.lookups)
        invariant cache.Gained(SnapshotKind, Entries(snapshots[..i], SnapshotEntry))
      {
        cache.Insert(SnapshotKind, snapshots[i].identifier, snapshots[i].name);
        assert snapshots[..i + 1][..i] == snapshots[..i];
      }
      assert snapshots[..|snapshots|] == snapshots;
    }

    /** Fetches one snapshot and inserts it into the cache. */
    method GetSnapshot(snapshotId: string, reply: Reply<Snapshot>) returns (r: Result<Snapshot>)
      modifies this, cache
      ensures requests == old(requests) + [Get(Uri(endpoint, "snapshots/" + snapshotId))]
      ensures cache.lookups == old(cache.lookups)
      ensures r == Fetched(reply)
      ensures r.Failure? ==> cache.Gained(SnapshotKind, [])
      ensures r.Success? ==> cache.Gained(SnapshotKind, [SnapshotEntry(r.value)])
    {
      GetResponse("snapshots/" + snapshotId);
      r := Fetched(reply);
      if r.Success? {
        cache.Insert(SnapshotKind, r.value.identifier, r.value.name);
      }
    }

    /** Lists bootscripts and inserts every one into the cache under its title. */
    method GetBootscripts(reply: Reply<seq<Bootscript>>) returns (r: Result<seq<Bootscript>>)
      modifies this, cache
      ensures requests == old(requests) + [Get(Uri(endpoint, "bootscripts?"))]
      ensures cache.lookups == old(cache.lookups)
      ensures r == Fetched(reply)
      ensures r.Failure? ==> cache.Gained(BootscriptKind, [])
      ensures r.Success? ==> cache.Gained(BootscriptKind, Entries(r.value, BootscriptEntry))
    {
      GetResponse("bootscripts?");
      r := Fetched(reply);
      if r.Failure? {
        return;
      }
      var bootscripts := r.value;
      for i := 0 to |bootscripts|
        invariant requests == old(requests) + [Get(Uri(endpoint, "bootscripts?"))]
        invariant cache.lookups == old(cache.lookups)
        invariant cache.Gained(BootscriptKind, Entries(bootscripts[..i], BootscriptEntry))
      {
        cache.Insert(BootscriptKind, bootscripts[i].identifier, bootscripts[i].title);
        assert bootscripts[..i + 1][..i] == bootscripts[..i];
      }
      assert bootscripts[..|bootscripts|] == bootscripts;
    }

    /** Fetches one bootscript and inserts it into the cache under its title. */
    method GetBootscript(bootscriptId: string, reply: Reply<Bootscript>) returns (r: Result<Bootscript>)
      modifies this, cache
      ensures requests == old(requests) + [Get(Uri(endpoint, "bootscripts/" + bootscriptId))]
      ensures cache.lookups == old(cache.lookups)
      ensures r == Fetched(reply)
      ensures r.Failure? ==> cache.Gained(BootscriptKind, [])
      ensures r.Success? ==> cache.Gained(BootscriptKind, [BootscriptEntry(r.value)])
    {
      GetResponse("bootscripts/" + bootscriptId);
      r := Fetched(reply);
      if r.Success? {
        cache.Insert(BootscriptKind, r.value.identifier, r.value.title);
      }
    }

    /**
     * The identifiers of the servers matching `needle`: from the cache when it
     * knows any, otherwise after exactly one listing of all servers.
     */
    method ResolveServer(needle: string, listing: Reply<seq<Server>>) returns (r: Result<seq<string>>)
      modifies this, cache
      ensures old(cache.Matches(ServerKind, needle)) != [] ==>
                r == Success(old(cache.Matches(ServerKind, needle))) &&
                requests == old(requests) && cache.Gained(ServerKind, []) &&
                cache.lookups == old(cache.lookups) + [Query(ServerKind, needle)]
      ensures old(cache.Matches(ServerKind, needle)) == [] ==>
                requests == old(requests) + [Get(Uri(endpoint, ServersResource(true)))]
      ensures old(cache.Matches(ServerKind, needle)) == [] && Fetched(listing).Failure? ==>
                r == Failure(Fetched(listing).error) && cache.Gained(ServerKind, []) &&
                cache.lookups == old(cache.lookups) + [Query(ServerKind, needle)]
      ensures old(cache.Matches(ServerKind, needle)) == [] && Fetched(listing).Success? ==>
                cache.Gained(ServerKind, Entries(Fetched(listing).value, ServerEntry)) &&
                cache.lookups == old(cache.lookups) + [Query(ServerKind, needle), Query(ServerKind, needle)] &&
                r == Success(cache.Matches(ServerKind, needle))
    {
      var servers := cache.LookUp(ServerKind, needle);
      if |servers| == 0 {
        var listed := GetServers(true, 0, listing);
        if listed.Failure? {
          return Failure(listed.error);
        }
        servers := cache.LookUp(ServerKind, needle);
      }
      r := Success(servers);
    }

    /**
     * The identifiers of the images matching `needle`: from the cache when it
     * knows any, otherwise after exactly one listing of the images.
     */
    method ResolveImage(needle: string, listing: Reply<seq<Image>>) returns (r: Result<seq<string>>)
      modifies this, cache
      ensures old(cache.Matches(ImageKind, needle)) != [] ==>
                r == Success(old(cache.Matches(ImageKind, needle))) &&
                requests == old(requests) && cache.Gained(ImageKind, []) &&
                cache.lookups == old(cache.lookups) + [Query(ImageKind, needle)]
      ensures old(cache.Matches(ImageKind, needle)) == [] ==>
                requests == old(requests) + [Get(Uri(endpoint, "images?"))]
      ensures old(cache.Matches(ImageKind, needle)) == [] && Fetched(listing).Failure? ==>
                r == Failure(Fetched(listing).error) && cache.Gained(ImageKind, []) &&
                cache.lookups == old(cache.lookups) + [Query(ImageKind, needle)]
      ensures old(cache.Matches(ImageKind, needle)) == [] && Fetched(listing).Success? ==>
                cache.Gained(ImageKind, Entries(Fetched(listing).value, ImageEntry)) &&
                cache.lookups == old(cache.lookups) + [Query(ImageKind, needle), Query(ImageKind, needle)] &&
                r == Success(cache.Matches(ImageKind, needle))
    {
      var images := cache.LookUp(ImageKind, needle);
      if |images| == 0 {
        var listed := GetImages(listing);
        if listed.Failure? {
          return Failure(listed.error);
        }
        images := cache.LookUp(ImageKind, needle);
      }
      r := Success(images);
    }

    /**
     * The identifiers of the bootscripts matching `needle`: from the cache when
     * it knows any, otherwise after exactly one listing of the bootscripts.
     */
    method ResolveBootscript(needle: string, listing: Reply<seq<Bootscript>>) returns (r: Result<seq<string>>)
      modifies this, cache
      ensures old(cache.Matches(BootscriptKind, needle)) != [] ==>
                r == Success(old(cache.Matches(BootscriptKind, needle))) &&
                requests == old(requests) && cache.Gained(BootscriptKind, []) &&
                cache.lookups == old(cache.lookups) + [Query(BootscriptKind, needle)]
      ensures old(cache.Matches(BootscriptKind, needle)) == [] ==>
                requests == old(requests) + [Get(Uri(endpoint, "bootscripts?"))]
      ensures old(cache.Matches(BootscriptKind, needle)) == [] && Fetched(listing).Failure? ==>
                r == Failure(Fetched(listing).error) && cache.Gained(BootscriptKind, []) &&
                cache.lookups == old(cache.lookups) + [Query(BootscriptKind, needle)]
      ensures old(cache.Matches(BootscriptKind, needle)) == [] && Fetched(listing).Success? ==>
                cache.Gained(BootscriptKind, Entries(Fetched(listing).value, BootscriptEntry)) &&
                cache.lookups == old(cache.lookups) + [Query(BootscriptKind, needle), Query(BootscriptKind, needle)] &&
                r == Success(cache.Matches(BootscriptKind, needle))
    {
      var bootscripts := cache.LookUp(BootscriptKind, needle);
      if |bootscripts| == 0 {
        var listed := GetBootscripts(listing);
        if listed.Failure? {
          return Failure(listed.error);
        }
        bootscripts := cache.LookUp(BootscriptKind, needle);
      }
      r := Success(bootscripts);
    }

    /** Asks the remote to perform `action` on a server. */
    method PostServerAction(serverId: string, action: string, reply: Reply<()>) returns (r: Outcome)
      modifies this
      ensures requests == old(requests) + [Post(Uri(endpoint, "servers/" + serverId + "/action"), ServerAction(action))]
      ensures r == ActionOutcome(reply)
    {
      PostResponse("servers/" + serverId + "/action", ServerAction(action));
      match reply {
        case Unreachable(why) =>
          return Fail(TransportError(why));
        case Answered(status, _, errorBody) =>
          if status == 202 {
            return Pass;
          }
          r := Fail(Rejected(errorBody, status));
      }
    }

    /** Asks the remote to create a server, always on behalf of the client's organization. */
    method PostServer(definition: ServerDefinition, reply: Reply<Server>) returns (r: Result<string>)
      modifies this
      ensures requests == old(requests) + [Post(Uri(endpoint, "servers"), ServerCreation(definition.(organization := organization)))]
      ensures r == CreateOutcome(reply)
    {
      var sent := definition.(organization := organization);
      PostResponse("servers", ServerCreation(sent));
      match reply {
        case Unreachable(why) =>
          return Failure(TransportError(why));
        case Answered(status, body, errorBody) =>
          if status == 201 {
            match body {
              case Malformed(why) => return Failure(DecodeError(why));
              case Decoded(server) => return Success(server.identifier);
            }
          }
          r := Failure(Rejected(errorBody, status));
      }
    }
  }

  /**
   * Resolving a server name twice in a row: once the first resolution found
   * something, the second answers the same from the cache, so the pair sends
   * at most the one listing the first may have needed.
   */
  method ResolveServerTwice(api: ScalewayAPI, needle: string, first: Reply<seq<Server>>, second: Reply<seq<Server>>)
    returns (r1: Result<seq<string>>, r2: Result<seq<string>>)
    modifies api, api.cache
    ensures r1.Success? && r1.value != [] ==>
              r2 == r1 &&
              api.requests == old(api.requests) +
                (if old(api.cache.Matches(ServerKind, needle)) == [] then [Get(Uri(api.endpoint, ServersResource(true)))] else [])
  {
    ghost var before := api.cache.Index(ServerKind);
    r1 := api.ResolveServer(needle, first);
    assert before + [] == before;
    r2 := api.ResolveServer(needle, second);
  }
}
