/**
 * The name-resolution cache as the client uses it. Its own implementation is
 * not part of this model: an index is the history of the pairs inserted into
 * it (after those loaded from disk), and a lookup is an arbitrary function,
 * fixed for the cache's lifetime, of that history and the needle.
 */
module Cache {
  import opened Resources

  /** One lookup the client made. */
  datatype Query = Query(kind: Kind, needle: string)

  class ScalewayCache {
    /** The cache's matching rule, left uninterpreted. */
    const matcher: (Kind, seq<Entry>, string) -> seq<string>

    var servers: seq<Entry>
    var images: seq<Entry>
    var snapshots: seq<Entry>
    var bootscripts: seq<Entry>

    /** Every lookup made so far, oldest first. */
    ghost var lookups: seq<Query>

    /** A cache holding what was loaded from disk. */
    constructor (matcher: (Kind, seq<Entry>, string) -> seq<string>, loaded: Kind -> seq<Entry>)
      ensures this.matcher == matcher
      ensures forall k :: Index(k) == loaded(k)
      ensures lookups == []
    {
      this.matcher := matcher;
      servers, images := loaded(ServerKind), loaded(ImageKind);
      snapshots, bootscripts := loaded(SnapshotKind), loaded(BootscriptKind);
      lookups := [];
    }

    /** The index kept for one kind of resource. */
    function Index(k: Kind): seq<Entry>
      reads this`servers, this`images, this`snapshots, this`bootscripts
    {
      match k
      case ServerKind => servers
      case ImageKind => images
      case SnapshotKind => snapshots
      case BootscriptKind => bootscripts
    }

    /** What a lookup of `needle` among the resources of kind `k` answers now. */
    function Matches(k: Kind, needle: string): seq<string>
      reads this`servers, this`images, this`snapshots, this`bootscripts
    {
      matcher(k, Index(k), needle)
    }

    /** Since the old state, the index of `k` grew by `es` and no other index changed. */
    twostate predicate Gained(k: Kind, es: seq<Entry>)
      reads this
    {
      && Index(k) == old(Index(k)) + es
      && forall k' :: k' != k ==> Index(k') == old(Index(k'))
    }

    /** Records one (identifier, name) pair in the index of kind `k`. */
    method Insert(k: Kind, identifier: string, name: string)
      modifies this
      ensures Gained(k, [Entry(identifier, name)])
      ensures lookups == old(lookups)
    {
      match k
      case ServerKind => servers := servers + [Entry(identifier, name)];
      case ImageKind => images := images + [Entry(identifier, name)];
      case SnapshotKind => snapshots := snapshots + [Entry(identifier, name)];
      case BootscriptKind => bootscripts := bootscripts + [Entry(identifier, name)];
    }

    /** The identifiers matching `needle` among the resources of kind `k`. */
    method LookUp(k: Kind, needle: string) returns (ids: seq<string>)
      modifies this
      ensures ids == old(Matches(k, needle)) == Matches(k, needle)
      ensures Gained(k, [])
      ensures lookups == old(lookups) + [Query(k, needle)]
    {
      ids := matcher(k, Index(k), needle);
      lookups := lookups + [Query(k, needle)];
    }
  }
}
