// `ai/transposition_table.rs`: the search's cache of evaluated positions,
// keyed by the position hash, with a count of the lookups that found an
// entry.
module TranspositionTables {
  import opened Wrappers
  import opened PieceMoves

  /** The largest `u64`; the hit counter cannot step past it. */
  const U64_MAX: nat := 0xFFFF_FFFF_FFFF_FFFF

  /**
   * `TranspositionTableEntry`: the depth searched, the value found (an `f32`
   * in the engine, an integer stand-in here: the table never looks at it)
   * and the best move, if any.
   */
  datatype Entry = Entry(depth: nat, value: int, bestMove: Option<PieceMove>)

  /** The table's state: the entries by position hash (a `u64`) and the hit count. */
  datatype Table = Table(entries: map<nat, Entry>, hits: nat)

  /** The state of a lookup: the table afterwards and the entry found. */
  datatype Lookup = Lookup(table: Table, entry: Option<Entry>)

  /** `new`: no entries, no hits. */
  function EmptyTable(): (t: Table)
  {
    Table(map[], 0)
  }

  /** `store`: the entry for the hash is set, replacing any earlier one. */
  function Stored(t: Table, hash: nat, entry: Entry): (r: Table)
  {
    t.(entries := t.entries[hash := entry])
  }

  /** `retrieve`: the entry for the hash, counting a hit when there is one. */
  function Retrieved(t: Table, hash: nat): (r: Lookup)
  {
    if hash in t.entries then Lookup(t.(hits := t.hits + 1), Some(t.entries[hash]))
    else Lookup(t, None)
  }

  /** `TranspositionTable`, with its map and its counter updated in place. */
  class TranspositionTable {
    var table: map<nat, Entry>
    var hits: nat

    /** The table's state as a value. */
    function Clone(): (t: Table)
      reads this
    {
      Table(table, hits)
    }

    constructor()
      ensures Clone() == EmptyTable()
    {
      table := map[];
      hits := 0;
    }

    method Store(hash: nat, entry: Entry)
      modifies this
      ensures Clone() == Stored(old(Clone()), hash, entry)
    {
      table := table[hash := entry];
    }

    /** The counter is a `u64`: one more hit must still fit. */
    method Retrieve(hash: nat) returns (entry: Option<Entry>)
      requires hits < U64_MAX
      modifies this
      ensures Lookup(Clone(), entry) == Retrieved(old(Clone()), hash)
    {
      entry := if hash in table then Some(table[hash]) else None;
      if entry.Some? {
        hits := hits + 1;
      }
    }

    method GetHits() returns (count: nat)
      ensures count == Clone().hits
    {
      count := hits;
    }
  }

  /** A stored entry is what the next lookup of its hash returns. */
  lemma StoreThenRetrieve(t: Table, hash: nat, entry: Entry)
    ensures Retrieved(Stored(t, hash, entry), hash).entry == Some(entry)
  {
    var s := Stored(t, hash, entry);
    assert hash in s.entries && s.entries[hash] == entry;
  }

  /** Storing under one hash leaves every other hash's lookup as it was. */
  lemma StoreKeepsOthers(t: Table, hash: nat, entry: Entry, other: nat)
    requires other != hash
    ensures Retrieved(Stored(t, hash, entry), other).entry == Retrieved(t, other).entry
  {
    var s := Stored(t, hash, entry);
    assert other in s.entries <==> other in t.entries;
    if other in t.entries {
      assert s.entries[other] == t.entries[other];
    }
  }

  /**
   * A lookup changes no entry, finds one exactly when the hash is present,
   * and adds one hit exactly then.
   */
  lemma RetrieveCounts(t: Table, hash: nat)
    ensures Retrieved(t, hash).table.entries == t.entries
    ensures Retrieved(t, hash).entry.Some? <==> hash in t.entries
    ensures Retrieved(t, hash).table.hits == t.hits + (if hash in t.entries then 1 else 0)
  {
  }

  /** The calls a search makes on the table. */
  datatype Call = StoreCall(hash: nat, entry: Entry) | RetrieveCall(hash: nat)

  /** The table after a sequence of calls. */
  function Run(t: Table, calls: seq<Call>): (r: Table)
    decreases |calls|
  {
    if |calls| == 0 then t
    else
      var next := match calls[0]
        case StoreCall(hash, entry) => Stored(t, hash, entry)
        case RetrieveCall(hash) => Retrieved(t, hash).table;
      Run(next, calls[1..])
  }

  /** The lookups among the calls that find an entry, each table state taken as the calls go. */
  function Hits(t: Table, calls: seq<Call>): (n: nat)
    decreases |calls|
  {
    if |calls| == 0 then 0
    else
      match calls[0]
      case StoreCall(hash, entry) => Hits(Stored(t, hash, entry), calls[1..])
      case RetrieveCall(hash) =>
        (if hash in t.entries then 1 else 0) + Hits(Retrieved(t, hash).table, calls[1..])
  }

  /**
   * The hit count never goes down: after any calls it has grown by exactly
   * the number of lookups that found an entry.
   */
  lemma {:induction false} HitsOnlyGrow(t: Table, calls: seq<Call>)
    ensures Run(t, calls).hits == t.hits + Hits(t, calls)
    ensures Run(t, calls).hits >= t.hits
    decreases |calls|
  {
    if |calls| > 0 {
      match calls[0]
      case StoreCall(hash, entry) =>
        HitsOnlyGrow(Stored(t, hash, entry), calls[1..]);
      case RetrieveCall(hash) =>
        HitsOnlyGrow(Retrieved(t, hash).table, calls[1..]);
    }
  }

  /** Entries are only ever added or replaced: a hash once stored stays present. */
  lemma {:induction false} StoredStays(t: Table, calls: seq<Call>, hash: nat)
    requires hash in t.entries
    ensures hash in Run(t, calls).entries
    decreases |calls|
  {
    if |calls| > 0 {
      match calls[0]
      case StoreCall(h, entry) =>
        StoredStays(Stored(t, h, entry), calls[1..], hash);
      case RetrieveCall(h) =>
        StoredStays(Retrieved(t, h).table, calls[1..], hash);
    }
  }
}
