/** The member-count store: one record per guild, the latest write wins.
    The plugin's store and its update action are not part of this model
    beyond that overwrite behaviour. */
module Store {
  import opened Counts

  datatype Option<T> = None | Some(value: T)

  /** The store's contents: guild id to the last record written for it. */
  type Table = map<string, MemberCounts>

  /** Every entry sits under the guild id its record names. */
  predicate Keyed(m: Table)
  {
    forall k :: k in m ==> m[k].guildId == k
  }

  /** `memberCountsStore.getMemberCounts(id)`: the record, or nothing. */
  function Lookup(m: Table, id: string): Option<MemberCounts>
  {
    if id in m then Some(m[id]) else None
  }

  /** `memberCountsActions.updateMemberCounts(r)`: insert or overwrite the
      entry of `r.guildId`. */
  function Put(m: Table, r: MemberCounts): (m': Table)
    ensures m'.Keys == m.Keys + {r.guildId}
    ensures Keyed(m) ==> Keyed(m')
  {
    m[r.guildId := r]
  }

  /** After a write, a lookup of that guild gives the record written and a
      lookup of any other guild gives what it gave before. */
  lemma LookupAfterPut(m: Table, r: MemberCounts, id: string)
    ensures Lookup(Put(m, r), id) == if id == r.guildId then Some(r) else Lookup(m, id)
  {
  }

  /** Writing the same record twice leaves the store as writing it once. */
  lemma PutIdempotent(m: Table, r: MemberCounts)
    ensures Put(Put(m, r), r) == Put(m, r)
  {
  }

  /** Of two writes for the same guild, the later one wins. */
  lemma PutOverwrites(m: Table, r1: MemberCounts, r2: MemberCounts)
    requires r1.guildId == r2.guildId
    ensures Put(Put(m, r1), r2) == Put(m, r2)
  {
  }

  /** The store after every update of `es` has been ingested, in delivery order. */
  function Ingest(m: Table, es: seq<MemberListUpdate>): Table
  {
    if es == [] then m else Put(Ingest(m, es[..|es| - 1]), ToRecord(es[|es| - 1]))
  }

  /** The index of the last update of `es` for guild `id`, or -1 if none is. */
  function LastFor(id: string, es: seq<MemberListUpdate>): (k: int)
    ensures -1 <= k < |es|
    ensures k >= 0 ==> es[k].guildId == id
    ensures forall j :: k < j < |es| ==> es[j].guildId != id
  {
    if es == [] then -1
    else if es[|es| - 1].guildId == id then |es| - 1
    else LastFor(id, es[..|es| - 1])
  }

  /** Ingesting a run of updates leaves each guild with the record of its
      last update; a guild with no update keeps what it had. */
  lemma {:induction false} IngestLastWins(m: Table, es: seq<MemberListUpdate>, id: string)
    ensures var k := LastFor(id, es);
            Lookup(Ingest(m, es), id) == if k >= 0 then Some(ToRecord(es[k])) else Lookup(m, id)
  {
    if es != [] {
      var pre := es[..|es| - 1];
      IngestLastWins(m, pre, id);
      LookupAfterPut(Ingest(m, pre), ToRecord(es[|es| - 1]), id);
      if es[|es| - 1].guildId != id {
        assert LastFor(id, es) == LastFor(id, pre);
        var k := LastFor(id, pre);
        if k >= 0 {
          assert es[k] == pre[k];
        }
      }
    }
  }

  /** Ingestion keeps every entry under its own guild id. */
  lemma {:induction false} IngestKeyed(m: Table, es: seq<MemberListUpdate>)
    requires Keyed(m)
    ensures Keyed(Ingest(m, es))
    ensures Ingest(m, es).Keys >= m.Keys
  {
    if es != [] {
      IngestKeyed(m, es[..|es| - 1]);
    }
  }
}
