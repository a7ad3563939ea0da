/**
 * The resources the client lists and fetches, reduced to what the
 * name-resolution cache keeps of them: an identifier and a name.
 */
module Resources {
  import opened Wrappers

  /** The four kinds of resource the cache keeps an index for. */
  datatype Kind = ServerKind | ImageKind | SnapshotKind | BootscriptKind

  /** One (identifier, name) pair as the cache records it. */
  datatype Entry = Entry(identifier: string, name: string)

  datatype Server = Server(identifier: string, name: string)
  datatype Image = Image(identifier: string, name: string)
  datatype Snapshot = Snapshot(identifier: string, name: string)
  /** A bootscript has no name; its title plays that part in the cache. */
  datatype Bootscript = Bootscript(identifier: string, title: string)

  /** What PostServer sends to create a server. */
  datatype ServerDefinition = ServerDefinition(name: string, image: string, bootscript: Option<string>, organization: string)

  function ServerEntry(s: Server): Entry { Entry(s.identifier, s.name) }
  function ImageEntry(i: Image): Entry { Entry(i.identifier, i.name) }
  function SnapshotEntry(s: Snapshot): Entry { Entry(s.identifier, s.name) }
  function BootscriptEntry(b: Bootscript): Entry { Entry(b.identifier, b.title) }

  /** The cache entries of a listing, one per record and in the listing's order. */
  function Entries<T>(xs: seq<T>, entryOf: T -> Entry): (es: seq<Entry>)
    ensures |es| == |xs|
    ensures forall i :: 0 <= i < |xs| ==> es[i] == entryOf(xs[i])
  {
    if xs == [] then [] else Entries(xs[..|xs| - 1], entryOf) + [entryOf(xs[|xs| - 1])]
  }

  /**
   * The servers GetServers hands back: all of them unless a positive
   * limit is smaller than the listing, then the first `limit` of them.
   */
  function Truncate<T>(xs: seq<T>, limit: int): (r: seq<T>)
    ensures r <= xs
    ensures limit <= 0 || limit >= |xs| ==> r == xs
    ensures 0 < limit < |xs| ==> |r| == limit
  {
    if limit > 0 && limit < |xs| then xs[..limit] else xs
  }

  /**
   * Truncation happens after warming: the entries of a listing are those of
   * the servers handed back followed by those of the servers cut off.
   */
  lemma WarmedBeyondLimit<T>(xs: seq<T>, limit: int, entryOf: T -> Entry)
    ensures var kept := Truncate(xs, limit);
            Entries(xs, entryOf) == Entries(kept, entryOf) + Entries(xs[|kept|..], entryOf)
  {
  }
}
