/**
 * The subscription book: records and server lists in memory, mirrored in the vault.
 * Refreshing releases the lock during the fetch, so saves and deletes come between.
 */
module Subscriptions {
  import opened Text
  import opened References
  import Vault

  type Bytes = seq<byte>
  type Id = string
  type Spec = string

  const MAX_SUBSCRIPTIONS: nat := 100
  const CHUNK: nat := 61440

  datatype Settings = Settings(name: string, agent: string, auto: bool, interval: int)

  datatype Record = Record(id: Id, url: string, settings: Settings, created: int, attempted: int, succeeded: int,
                           failures: nat, error: Option<string>, info: string, servers: seq<string>, parts: nat)

  /** One parsed server: what clients see, the digest its reference carries, its credential document. */
  datatype Server = Server(spec: Spec, digest: string, document: Bytes)

  /** The stored formats, as functions; round trips are assumed where needed. */
  datatype Codec = Codec(record: Record -> Bytes, recordOf: Bytes -> Option<Record>,
                         list: seq<Spec> -> Bytes, listOf: Bytes -> Option<seq<Spec>>)

  ghost predicate RoundTrips(c: Codec)
  {
    && (forall r: Record :: c.recordOf(c.record(r)) == Some(r))
    && (forall l: seq<Spec> :: c.listOf(c.list(l)) == Some(l))
    && c.list([]) == []
  }

  datatype Book = Book(records: map<Id, Record>, lists: map<Id, seq<Spec>>, updating: set<Id>, vault: map<Ref, Bytes>)

  const EMPTY := Book(map[], map[], {}, map[])

  function ListOf(lists: map<Id, seq<Spec>>, id: Id): seq<Spec> { if id in lists then lists[id] else [] }

  // ---- Chunks ----

  function Chunks(raw: Bytes): seq<Bytes>
  {
    if raw == [] then [] else if |raw| <= CHUNK then [raw] else [raw[..CHUNK]] + Chunks(raw[CHUNK..])
  }

  function Glued(chunks: seq<Bytes>): Bytes
  {
    if chunks == [] then [] else chunks[0] + Glued(chunks[1..])
  }

  /** Chunks glue back together, and each one is a secret the vault can hold. */
  lemma {:induction false} ChunksGlue(raw: Bytes)
    ensures Glued(Chunks(raw)) == raw
    ensures forall k :: 0 <= k < |Chunks(raw)| ==> Vault.Storable(Chunks(raw)[k])
  {
    if |raw| > CHUNK {
      ChunksGlue(raw[CHUNK..]);
      assert Chunks(raw)[1..] == Chunks(raw[CHUNK..]);
      assert raw == raw[..CHUNK] + raw[CHUNK..];
    } else if raw != [] {
      assert [raw][1..] == [];
      assert Glued([raw]) == raw + [] == raw;
    }
  }

  // ---- Vault changes ----

  function Digests(servers: seq<Server>): (d: seq<string>)
    ensures |d| == |servers| && forall i :: 0 <= i < |d| ==> d[i] == servers[i].digest
  {
    seq(|servers|, i requires 0 <= i < |servers| => servers[i].digest)
  }

  function Specs(servers: seq<Server>): seq<Spec>
  {
    seq(|servers|, i requires 0 <= i < |servers| => servers[i].spec)
  }

  predicate Below(a: string, b: string)
  {
    a == [] || (b != [] && (a[0] < b[0] || (a[0] == b[0] && Below(a[1..], b[1..]))))
  }

  function Insert(d: string, sorted: seq<string>): (r: seq<string>)
    ensures multiset(r) == multiset(sorted) + multiset{d}
  {
    if sorted == [] || Below(d, sorted[0]) then [d] + sorted
    else
      assert sorted == [sorted[0]] + sorted[1..];
      [sorted[0]] + Insert(d, sorted[1..])
  }

  /** sort.Strings on the references of one subscription. */
  function Sorted(digests: seq<string>): (r: seq<string>)
    ensures multiset(r) == multiset(digests)
  {
    if digests == [] then []
    else
      assert digests == [digests[0]] + digests[1..];
      Insert(digests[0], Sorted(digests[1..]))
  }

  lemma SortedKeepsMembers(digests: seq<string>, d: string)
    ensures d in Sorted(digests) <==> d in digests
  {
    assert d in multiset(Sorted(digests)) <==> d in Sorted(digests);
    assert d in multiset(digests) <==> d in digests;
  }

  /** One credential per server; of two servers with one digest the later document stays. */
  function Credentials(id: Id, servers: seq<Server>): map<Ref, Bytes>
  {
    if servers == [] then map[]
    else
      var last := servers[|servers| - 1];
      Credentials(id, servers[..|servers| - 1])[Cred(id, last.digest) := last.document]
  }

  function PartsOf(id: Id, chunks: seq<Bytes>): map<Ref, Bytes>
  {
    if chunks == [] then map[]
    else PartsOf(id, chunks[..|chunks| - 1])[Part(id, |chunks| - 1) := chunks[|chunks| - 1]]
  }

  lemma {:induction false} CredentialKeys(id: Id, servers: seq<Server>, r: Ref)
    ensures r in Credentials(id, servers) <==> r.Cred? && r.id == id && r.digest in Digests(servers)
  {
    if servers != [] {
      var front, last := servers[..|servers| - 1], servers[|servers| - 1];
      CredentialKeys(id, front, r);
      assert Digests(servers) == Digests(front) + [last.digest];
    }
  }

  lemma {:induction false} PartKeys(id: Id, chunks: seq<Bytes>, r: Ref)
    ensures r in PartsOf(id, chunks) <==> r.Part? && r.id == id && r.part < |chunks|
    ensures r in PartsOf(id, chunks) ==> PartsOf(id, chunks)[r] == chunks[r.part]
  {
    if chunks != [] {
      PartKeys(id, chunks[..|chunks| - 1], r);
    }
  }

  /** Everything a record names. */
  function Everything(rec: Record): set<Ref>
  {
    {Rec(rec.id)} + (set d | d in rec.servers :: Cred(rec.id, d)) + (set k | 0 <= k < rec.parts :: Part(rec.id, k))
  }

  /** Credentials of servers the provider dropped, and chunks past the new end. */
  function Stale(rec: Record, keep: seq<string>, parts: nat): set<Ref>
  {
    (set d | d in rec.servers && d !in keep :: Cred(rec.id, d)) + (set k | parts <= k < rec.parts :: Part(rec.id, k))
  }

  function Updated(c: Codec, rec: Record, info: string, servers: seq<Server>): Record
  {
    rec.(servers := Sorted(Digests(servers)), parts := |Chunks(c.list(Specs(servers)))|, info := info,
         succeeded := rec.attempted, failures := 0, error := None)
  }

  function UpdatePuts(c: Codec, rec: Record, info: string, servers: seq<Server>): map<Ref, Bytes>
  {
    var updated := Updated(c, rec, info, servers);
    (Credentials(rec.id, servers) + PartsOf(rec.id, Chunks(c.list(Specs(servers)))))[Rec(rec.id) := c.record(updated)]
  }

  function UpdateDeletes(c: Codec, rec: Record, servers: seq<Server>): set<Ref>
  {
    Stale(rec, Digests(servers), |Chunks(c.list(Specs(servers)))|)
  }

  // ---- Steps ----

  datatype SaveResult = Duplicate | NeedsLink | Full | NotFound | WriteFailed | Saved(fetchNow: bool)

  /** A save request; `link` is normalized, or empty when the request carries none. */
  datatype SaveInput = SaveInput(id: Id, link: string, settings: Settings)

  predicate LinkTaken(records: map<Id, Record>, link: string, id: Id)
  {
    exists other :: other in records && records[other].url == link && other != id
  }

  function Refusal(b: Book, input: SaveInput): Option<SaveResult>
  {
    if input.link != "" && LinkTaken(b.records, input.link, input.id) then Some(Duplicate)
    else if input.id == "" && input.link == "" then Some(NeedsLink)
    else if input.id == "" && |b.records| >= MAX_SUBSCRIPTIONS then Some(Full)
    else if input.id != "" && input.id !in b.records then Some(NotFound)
    else None
  }

  predicate Relinks(b: Book, input: SaveInput)
  {
    input.id == "" || (input.id in b.records && input.link != "" && input.link != b.records[input.id].url)
  }

  /** The record a save writes; `fresh_` is the identifier a new subscription gets. */
  function Edited(b: Book, input: SaveInput, fresh_: Id, now: int): Record
    requires input.id == "" || input.id in b.records
  {
    var base :=
      if input.id == "" then Record(fresh_, input.link, input.settings, now, 0, 0, 0, None, "", [], 0)
      else if Relinks(b, input) then b.records[input.id].(url := input.link, failures := 0, error := None)
      else b.records[input.id];
    base.(settings := input.settings)
  }

  /** persistLocked with no further changes: only the record entry is rewritten. */
  function Persisted(c: Codec, b: Book, rec: Record): Book
  {
    b.(records := b.records[rec.id := rec], vault := Vault.Changed(b.vault, map[Rec(rec.id) := c.record(rec)], {}))
  }

  function AfterSave(c: Codec, b: Book, input: SaveInput, fresh_: Id, now: int, writable: bool): Book
  {
    if Refusal(b, input).Some? || !writable then b else Persisted(c, b, Edited(b, input, fresh_, now))
  }

  function AfterDelete(b: Book, id: Id, writable: bool): Book
  {
    if id !in b.records || !writable then b
    else b.(records := b.records - {id}, lists := b.lists - {id},
            vault := Vault.Changed(b.vault, map[], Everything(b.records[id])))
  }

  predicate Begins(b: Book, id: Id) { id in b.records && id !in b.updating }

  function AfterBegin(b: Book, id: Id): Book { if Begins(b, id) then b.(updating := b.updating + {id}) else b }

  /** What the fetch brought: nothing, an answer that could not be parsed, or a list of servers. */
  datatype Fetched = Unreachable(why: string) | Unparsable(info: string, why: string) | Listed(info: string, servers: seq<Server>)

  /** Discarded when the subscription was deleted or relinked during the fetch. */
  predicate Current(b: Book, id: Id, link: string) { id in b.records && b.records[id].url == link }

  function Failing(rec: Record, f: Fetched): Record
  {
    rec.(failures := rec.failures + 1, error := Some(if f.Listed? then "vault" else f.why),
         info := if f.Unreachable? then rec.info else f.info)
  }

  function AfterUpdate(c: Codec, b: Book, next: Record, info: string, servers: seq<Server>): Book
  {
    b.(records := b.records[next.id := Updated(c, next, info, servers)],
       lists := b.lists[next.id := Specs(servers)],
       vault := Vault.Changed(b.vault, UpdatePuts(c, next, info, servers), UpdateDeletes(c, next, servers)))
  }

  /** `stored` and `noted` are the outcomes of the update write and of the failure write. */
  function AfterEnd(c: Codec, b: Book, id: Id, link: string, f: Fetched, now: int, stored: bool, noted: bool): Book
  {
    var free := b.(updating := b.updating - {id});
    if !Current(b, id, link) then free
    else
      var next := b.records[id].(attempted := now);
      if f.Listed? && stored then AfterUpdate(c, free, next, f.info, f.servers)
      else if noted then Persisted(c, free, Failing(next, f))
      else free
  }

  // ---- Consistency ----

  /** Memory names a reference: a record, one of its servers, or one of its chunks. */
  predicate Names(records: map<Id, Record>, r: Ref)
  {
    r.id in records &&
    match r
    case Rec(_) => true
    case Part(id, part) => part < records[id].parts
    case Cred(id, digest) => digest in records[id].servers
  }

  /** The vault entries of one subscription say what memory says. */
  ghost predicate Stored(c: Codec, b: Book, id: Id)
    requires id in b.records
  {
    var rec := b.records[id];
    var chunks := Chunks(c.list(ListOf(b.lists, id)));
    && Hex(id, ID_LENGTH) && rec.id == id
    && Rec(id) in b.vault && b.vault[Rec(id)] == c.record(rec)
    && rec.parts == |chunks|
    && (forall k :: 0 <= k < |chunks| ==> Part(id, k) in b.vault && b.vault[Part(id, k)] == chunks[k])
    && (forall i :: 0 <= i < |rec.servers| ==> Hex(rec.servers[i], DIGEST_LENGTH))
  }

  /** The vault holds exactly what memory names, with the contents memory has. */
  ghost predicate Consistent(c: Codec, b: Book)
  {
    && (forall r :: r in b.vault <==> Names(b.records, r))
    && (forall id :: id in b.records ==> Stored(c, b, id))
    && b.lists.Keys <= b.records.Keys
  }

  /** Two subscriptions never share a link. */
  ghost predicate DistinctLinks(records: map<Id, Record>)
  {
    forall a, b :: a in records && b in records && records[a].url == records[b].url ==> a == b
  }

  /** Two books agree on everything but one subscription. */
  ghost predicate SameElsewhere(b: Book, v: Book, id: Id)
  {
    && (forall o :: o != id ==> (o in v.records <==> o in b.records) && (o in b.records ==> v.records[o] == b.records[o]))
    && (forall o :: o != id ==> (o in v.lists <==> o in b.lists) && (o in b.lists ==> v.lists[o] == b.lists[o]))
    && (forall r: Ref :: r.id != id ==> (r in v.vault <==> r in b.vault) && (r in b.vault ==> v.vault[r] == b.vault[r]))
  }

  lemma ConfinedChange(vault: map<Ref, Bytes>, puts: map<Ref, Bytes>, deletes: set<Ref>, id: Id)
    requires forall r :: r in puts || r in deletes ==> r.id == id
    ensures var v := Vault.Changed(vault, puts, deletes);
            forall r: Ref :: r.id != id ==> (r in v <==> r in vault) && (r in vault ==> v[r] == vault[r])
  {
  }

  lemma StoredElsewhere(c: Codec, b: Book, v: Book, id: Id, o: Id)
    requires SameElsewhere(b, v, id) && o != id && o in b.records && Stored(c, b, o)
    ensures o in v.records && Stored(c, v, o)
  {
    hide Chunks;
  }

  ghost predicate NamedAt(b: Book, id: Id)
  {
    forall r: Ref :: r.id == id ==> (r in b.vault <==> Names(b.records, r))
  }

  lemma ConsistentAt(c: Codec, b: Book, id: Id)
    requires Consistent(c, b)
    ensures NamedAt(b, id)
    ensures if id in b.records then Stored(c, b, id) else id !in b.lists
  {
    hide Stored, Names;
  }

  /** A change confined to one subscription keeps the book consistent if it leaves that subscription consistent. */
  lemma OneSubscriptionChanges(c: Codec, b: Book, v: Book, id: Id)
    requires Consistent(c, b) && SameElsewhere(b, v, id)
    requires NamedAt(v, id)
    requires if id in v.records then Stored(c, v, id) else id !in v.lists
    ensures Consistent(c, v)
  {
    hide Stored, Names;
    forall o | o in v.records
      ensures Stored(c, v, o)
    {
      if o != id { StoredElsewhere(c, b, v, id, o); }
    }
    forall r: Ref | r.id != id
      ensures r in v.vault <==> Names(v.records, r)
    {
      NamesElsewhere(b, v, id, r);
    }
  }

  lemma NamesElsewhere(b: Book, v: Book, id: Id, r: Ref)
    requires SameElsewhere(b, v, id) && r.id != id
    ensures Names(b.records, r) <==> Names(v.records, r)
  {
  }

  predicate SameHoldings(b: Book, rec: Record)
  {
    if rec.id in b.records then rec.servers == b.records[rec.id].servers && rec.parts == b.records[rec.id].parts
    else rec.servers == [] && rec.parts == 0
  }

  lemma PersistAt(c: Codec, b: Book, rec: Record)
    requires c.list([]) == [] && NamedAt(b, rec.id) && Hex(rec.id, ID_LENGTH) && SameHoldings(b, rec)
    requires if rec.id in b.records then Stored(c, b, rec.id) else rec.id !in b.lists
    ensures var v := Persisted(c, b, rec);
            NamedAt(v, rec.id) && Stored(c, v, rec.id)
  {
    assert Chunks([]) == [];
    hide Chunks;
    var v := Persisted(c, b, rec);
    forall r: Ref | r.id == rec.id
      ensures r in v.vault <==> Names(v.records, r)
    {
      assert r in b.vault <==> Names(b.records, r);
    }
  }

  lemma PersistElsewhere(c: Codec, b: Book, rec: Record)
    ensures SameElsewhere(b, Persisted(c, b, rec), rec.id)
  {
    ConfinedChange(b.vault, map[Rec(rec.id) := c.record(rec)], {}, rec.id);
  }

  lemma PersistKeepsConsistency(c: Codec, b: Book, rec: Record)
    requires c.list([]) == [] && Consistent(c, b) && Hex(rec.id, ID_LENGTH) && SameHoldings(b, rec)
    ensures Consistent(c, Persisted(c, b, rec))
  {
    hide Consistent, Stored, NamedAt, SameElsewhere, SameHoldings, Hex;
    ConsistentAt(c, b, rec.id);
    PersistAt(c, b, rec);
    PersistElsewhere(c, b, rec);
    OneSubscriptionChanges(c, b, Persisted(c, b, rec), rec.id);
  }

  lemma EditedIsSound(c: Codec, b: Book, input: SaveInput, fresh_: Id, now: int)
    requires Consistent(c, b) && Hex(fresh_, ID_LENGTH) && fresh_ !in b.records && Refusal(b, input).None?
    ensures var rec := Edited(b, input, fresh_, now); Hex(rec.id, ID_LENGTH) && SameHoldings(b, rec)
  {
    ConsistentAt(c, b, input.id);
    hide Consistent, NamedAt, Chunks, Hex;
  }

  lemma SaveKeepsConsistency(c: Codec, b: Book, input: SaveInput, fresh_: Id, now: int, writable: bool)
    requires c.list([]) == [] && Consistent(c, b) && Hex(fresh_, ID_LENGTH) && fresh_ !in b.records
    ensures Consistent(c, AfterSave(c, b, input, fresh_, now, writable))
  {
    hide Persisted, Consistent;
    if Refusal(b, input).None? && writable {
      EditedIsSound(c, b, input, fresh_, now);
      hide Edited;
      PersistKeepsConsistency(c, b, Edited(b, input, fresh_, now));
    }
  }

  lemma DeleteAt(b: Book, id: Id)
    requires id in b.records && b.records[id].id == id && NamedAt(b, id)
    ensures NamedAt(AfterDelete(b, id, true), id)
  {
    forall r: Ref | r.id == id
      ensures r !in AfterDelete(b, id, true).vault
    {
      assert r in b.vault ==> Names(b.records, r);
    }
  }

  lemma DeleteElsewhere(b: Book, id: Id)
    requires id in b.records && b.records[id].id == id
    ensures SameElsewhere(b, AfterDelete(b, id, true), id)
  {
    ConfinedChange(b.vault, map[], Everything(b.records[id]), id);
  }

  lemma DeleteKeepsConsistency(c: Codec, b: Book, id: Id, writable: bool)
    requires Consistent(c, b)
    ensures Consistent(c, AfterDelete(b, id, writable))
  {
    hide Consistent, NamedAt, SameElsewhere, Everything;
    if id in b.records && writable {
      ConsistentAt(c, b, id);
      DeleteAt(b, id);
      DeleteElsewhere(b, id);
      OneSubscriptionChanges(c, b, AfterDelete(b, id, true), id);
    }
  }

  predicate GoodServers(f: Fetched)
  {
    f.Listed? ==> forall i :: 0 <= i < |f.servers| ==> Hex(f.servers[i].digest, DIGEST_LENGTH)
  }

  /** The references an update writes. */
  predicate Written(id: Id, servers: seq<Server>, parts: nat, r: Ref)
  {
    r.id == id && (r.Rec? || (r.Part? && r.part < parts) || (r.Cred? && r.digest in Digests(servers)))
  }

  lemma UpdateKeys(c: Codec, rec: Record, info: string, servers: seq<Server>, r: Ref)
    ensures var puts, chunks := UpdatePuts(c, rec, info, servers), Chunks(c.list(Specs(servers)));
            && (r in puts <==> Written(rec.id, servers, |chunks|, r))
            && (r in puts && r.Part? ==> puts[r] == chunks[r.part])
            && (r == Rec(rec.id) ==> puts[r] == c.record(Updated(c, rec, info, servers)))
  {
    hide Chunks, Updated;
    CredentialKeys(rec.id, servers, r);
    PartKeys(rec.id, Chunks(c.list(Specs(servers))), r);
    hide Credentials, PartsOf;
  }

  lemma UpdateAt(c: Codec, b: Book, next: Record, info: string, servers: seq<Server>)
    requires next.id in b.records && NamedAt(b, next.id) && Stored(c, b, next.id) && SameHoldings(b, next)
    requires forall i :: 0 <= i < |servers| ==> Hex(servers[i].digest, DIGEST_LENGTH)
    ensures var v := AfterUpdate(c, b, next, info, servers);
            NamedAt(v, next.id) && Stored(c, v, next.id)
  {
    hide Chunks, Sorted, UpdatePuts;
    var v := AfterUpdate(c, b, next, info, servers);
    forall r: Ref | r.id == next.id
      ensures r in v.vault <==> Names(v.records, r)
    {
      UpdateKeys(c, next, info, servers, r);
      assert r in b.vault <==> Names(b.records, r);
      if r.Cred? { SortedKeepsMembers(Digests(servers), r.digest); }
    }
    UpdateStores(c, b, next, info, servers);
  }

  lemma UpdateStores(c: Codec, b: Book, next: Record, info: string, servers: seq<Server>)
    requires Hex(next.id, ID_LENGTH) && forall i :: 0 <= i < |servers| ==> Hex(servers[i].digest, DIGEST_LENGTH)
    ensures Stored(c, AfterUpdate(c, b, next, info, servers), next.id)
  {
    hide Chunks, Sorted, UpdatePuts, UpdateDeletes, Hex;
    var v, id := AfterUpdate(c, b, next, info, servers), next.id;
    UpdateKeys(c, next, info, servers, Rec(id));
    forall k | 0 <= k < |Chunks(c.list(Specs(servers)))|
      ensures Part(id, k) in v.vault && v.vault[Part(id, k)] == Chunks(c.list(Specs(servers)))[k]
    {
      UpdateKeys(c, next, info, servers, Part(id, k));
    }
    forall i | 0 <= i < |v.records[id].servers|
      ensures Hex(v.records[id].servers[i], DIGEST_LENGTH)
    {
      SortedKeepsMembers(Digests(servers), v.records[id].servers[i]);
    }
  }

  lemma UpdateElsewhere(c: Codec, b: Book, next: Record, info: string, servers: seq<Server>)
    ensures SameElsewhere(b, AfterUpdate(c, b, next, info, servers), next.id)
  {
    var puts, deletes := UpdatePuts(c, next, info, servers), UpdateDeletes(c, next, servers);
    forall r | r in puts
      ensures r.id == next.id
    {
      UpdateKeys(c, next, info, servers, r);
    }
    ConfinedChange(b.vault, puts, deletes, next.id);
  }

  lemma UpdateKeepsConsistency(c: Codec, b: Book, next: Record, info: string, servers: seq<Server>)
    requires Consistent(c, b) && next.id in b.records && SameHoldings(b, next)
    requires forall i :: 0 <= i < |servers| ==> Hex(servers[i].digest, DIGEST_LENGTH)
    ensures Consistent(c, AfterUpdate(c, b, next, info, servers))
  {
    hide Consistent, Stored, NamedAt, SameElsewhere, SameHoldings, UpdatePuts, UpdateDeletes, Updated;
    ConsistentAt(c, b, next.id);
    UpdateAt(c, b, next, info, servers);
    UpdateElsewhere(c, b, next, info, servers);
    OneSubscriptionChanges(c, b, AfterUpdate(c, b, next, info, servers), next.id);
  }

  /** Who is being updated does not matter to the vault. */
  lemma UpdatingIsIrrelevant(c: Codec, b: Book, updating: set<Id>)
    requires Consistent(c, b)
    ensures Consistent(c, b.(updating := updating))
  {
    hide Chunks, Names;
    forall id | id in b.records
      ensures Stored(c, b.(updating := updating), id)
    {
      assert Stored(c, b, id);
    }
  }

  lemma EndKeepsConsistency(c: Codec, b: Book, id: Id, link: string, f: Fetched, now: int, stored: bool, noted: bool)
    requires c.list([]) == [] && Consistent(c, b) && GoodServers(f)
    ensures Consistent(c, AfterEnd(c, b, id, link, f, now, stored, noted))
  {
    var free := b.(updating := b.updating - {id});
    UpdatingIsIrrelevant(c, b, b.updating - {id});
    if Current(b, id, link) {
      ConsistentAt(c, b, id);
      var next := b.records[id].(attempted := now);
      hide Consistent, NamedAt, UpdatePuts, UpdateDeletes, Updated, Chunks;
      if f.Listed? && stored {
        UpdateKeepsConsistency(c, free, next, f.info, f.servers);
      } else if noted {
        PersistKeepsConsistency(c, free, Failing(next, f));
      }
    }
  }

  // ---- What steps keep ----

  lemma SavingLeavesUpdating(c: Codec, b: Book, input: SaveInput, fresh_: Id, now: int, writable: bool)
    ensures AfterSave(c, b, input, fresh_, now, writable).updating == b.updating
  {
  }

  lemma EndingFrees(c: Codec, b: Book, id: Id, link: string, f: Fetched, now: int, stored: bool, noted: bool)
    ensures AfterEnd(c, b, id, link, f, now, stored, noted).updating == b.updating - {id}
  {
  }

  /** A failed refresh leaves every credential and every list chunk of every subscription as it was. */
  lemma FailedRefreshKeepsServers(c: Codec, b: Book, id: Id, link: string, f: Fetched, now: int, stored: bool, noted: bool, r: Ref)
    requires !(f.Listed? && stored) && !r.Rec? && (id in b.records ==> b.records[id].id == id)
    ensures var v := AfterEnd(c, b, id, link, f, now, stored, noted);
            && (r in v.vault <==> r in b.vault) && (r in b.vault ==> v.vault[r] == b.vault[r])
            && v.lists == b.lists
            && (id in b.records ==> v.records[id].servers == b.records[id].servers && v.records[id].parts == b.records[id].parts)
  {
  }

  lemma {:induction false} CredentialBody(id: Id, servers: seq<Server>, k: nat)
    requires k < |servers| && forall i :: k < i < |servers| ==> servers[i].digest != servers[k].digest
    ensures Cred(id, servers[k].digest) in Credentials(id, servers)
    ensures Credentials(id, servers)[Cred(id, servers[k].digest)] == servers[k].document
  {
    if k < |servers| - 1 {
      CredentialBody(id, servers[..|servers| - 1], k);
    }
  }

  lemma UpdateWritesDocument(c: Codec, b: Book, next: Record, info: string, servers: seq<Server>, k: nat)
    requires k < |servers| && forall i :: k < i < |servers| ==> servers[i].digest != servers[k].digest
    ensures var r, v := Cred(next.id, servers[k].digest), AfterUpdate(c, b, next, info, servers).vault;
            r in v && v[r] == servers[k].document
  {
    CredentialBody(next.id, servers, k);
    PartKeys(next.id, Chunks(c.list(Specs(servers))), Cred(next.id, servers[k].digest));
    hide Chunks, PartsOf, Credentials, UpdateDeletes, Updated;
  }

  /** A refresh that succeeds stores the document of each listed server and none of a dropped one. */
  lemma RefreshStoresDocuments(c: Codec, b: Book, id: Id, link: string, f: Fetched, now: int, noted: bool, k: nat)
    requires c.list([]) == [] && Consistent(c, b) && Current(b, id, link) && f.Listed? && GoodServers(f)
    requires k < |f.servers| && forall i :: k < i < |f.servers| ==> f.servers[i].digest != f.servers[k].digest
    ensures var v := AfterEnd(c, b, id, link, f, now, true, noted);
            && Cred(id, f.servers[k].digest) in v.vault && v.vault[Cred(id, f.servers[k].digest)] == f.servers[k].document
            && (forall d :: Cred(id, d) in v.vault ==> d in Digests(f.servers))
  {
    ConsistentAt(c, b, id);
    hide Consistent, Chunks, UpdatePuts, UpdateDeletes, Stored, Sorted;
    var next := b.records[id].(attempted := now);
    UpdateWritesDocument(c, b.(updating := b.updating - {id}), next, f.info, f.servers, k);
    EndKeepsConsistency(c, b, id, link, f, now, true, noted);
    var v := AfterEnd(c, b, id, link, f, now, true, noted);
    assert v.records[id].servers == Sorted(Digests(f.servers));
    OnlyListedServersRemain(c, v, id, Digests(f.servers));
  }

  lemma OnlyListedServersRemain(c: Codec, b: Book, id: Id, digests: seq<string>)
    requires Consistent(c, b) && id in b.records && b.records[id].servers == Sorted(digests)
    ensures forall d :: Cred(id, d) in b.vault ==> d in digests
  {
    hide Stored, Sorted;
    forall d | Cred(id, d) in b.vault
      ensures d in digests
    {
      assert Names(b.records, Cred(id, d));
      SortedKeepsMembers(digests, d);
    }
  }

  lemma SaveKeepsLinksDistinct(c: Codec, b: Book, input: SaveInput, fresh_: Id, now: int, writable: bool)
    requires "" !in b.records && (input.id in b.records ==> b.records[input.id].id == input.id)
    requires DistinctLinks(b.records) && fresh_ !in b.records
    ensures DistinctLinks(AfterSave(c, b, input, fresh_, now, writable).records)
  {
    if Refusal(b, input).None? && writable {
      var rec := Edited(b, input, fresh_, now);
      forall o | o in b.records && o != rec.id
        ensures b.records[o].url != rec.url
      {
      }
    }
  }

  lemma EndKeepsLinks(c: Codec, b: Book, id: Id, link: string, f: Fetched, now: int, stored: bool, noted: bool)
    requires id in b.records ==> b.records[id].id == id
    ensures var v := AfterEnd(c, b, id, link, f, now, stored, noted);
            v.records.Keys == b.records.Keys && forall o :: o in b.records ==> v.records[o].url == b.records[o].url
  {
    hide UpdatePuts, UpdateDeletes, Chunks;
  }

  // ---- Reload ----

  /** The chunks of a list, glued; nothing when one is missing. */
  function Gathered(vault: map<Ref, Bytes>, id: Id, parts: nat): Option<Bytes>
  {
    if parts == 0 then Some([])
    else
      var front := Gathered(vault, id, parts - 1);
      if front.None? || Part(id, parts - 1) !in vault then None
      else Some(front.value + vault[Part(id, parts - 1)])
  }

  function LoadedList(c: Codec, vault: map<Ref, Bytes>, rec: Record): seq<Spec>
  {
    var raw := Gathered(vault, rec.id, rec.parts);
    if raw.None? then [] else match c.listOf(raw.value) case Some(l) => l case None => []
  }

  lemma {:induction false} GlueFront(chunks: seq<Bytes>)
    requires chunks != []
    ensures Glued(chunks) == Glued(chunks[..|chunks| - 1]) + chunks[|chunks| - 1]
  {
    if |chunks| == 1 {
      assert chunks[1..] == [];
    } else {
      GlueFront(chunks[1..]);
      assert chunks[1..][..|chunks| - 2] == chunks[..|chunks| - 1][1..];
    }
  }

  lemma {:induction false} GatheredGlues(vault: map<Ref, Bytes>, id: Id, chunks: seq<Bytes>, parts: nat)
    requires parts <= |chunks| && forall k :: 0 <= k < |chunks| ==> Part(id, k) in vault && vault[Part(id, k)] == chunks[k]
    ensures Gathered(vault, id, parts) == Some(Glued(chunks[..parts]))
  {
    if parts > 0 {
      GatheredGlues(vault, id, chunks, parts - 1);
      GlueFront(chunks[..parts]);
      assert chunks[..parts][..parts - 1] == chunks[..parts - 1];
    }
  }

  /** Reloading a list from the vault gives the list memory had. */
  lemma ListSurvivesReload(c: Codec, b: Book, id: Id)
    requires RoundTrips(c) && id in b.records && Stored(c, b, id)
    ensures LoadedList(c, b.vault, b.records[id]) == ListOf(b.lists, id)
  {
    var raw := c.list(ListOf(b.lists, id));
    var chunks := Chunks(raw);
    GatheredGlues(b.vault, id, chunks, |chunks|);
    assert chunks[..|chunks|] == chunks;
    ChunksGlue(raw);
  }

  /** The record a vault entry holds under its own name. */
  function RecordAt(c: Codec, vault: map<Ref, Bytes>, id: Id): Option<Record>
  {
    if Rec(id) !in vault then None
    else match c.recordOf(vault[Rec(id)])
         case None => None
         case Some(rec) => if rec.id == id != "" then Some(rec) else None
  }

  /** A book started on a vault: every record found, its list gathered, nothing updating. */
  function Reloaded(c: Codec, vault: map<Ref, Bytes>): Book
  {
    var ids := set r | r in vault && r.Rec? && RecordAt(c, vault, r.id).Some? :: r.id;
    Book(map id | id in ids :: RecordAt(c, vault, id).value,
         map id | id in ids :: LoadedList(c, vault, RecordAt(c, vault, id).value), {}, vault)
  }

  lemma ReloadedAt(c: Codec, b: Book, id: Id)
    requires RoundTrips(c) && Consistent(c, b)
    ensures id in b.records <==> RecordAt(c, b.vault, id).Some?
    ensures id in b.records ==> RecordAt(c, b.vault, id) == Some(b.records[id])
                                && LoadedList(c, b.vault, b.records[id]) == ListOf(b.lists, id)
    ensures id !in b.records ==> ListOf(b.lists, id) == []
  {
    ConsistentAt(c, b, id);
    assert Names(b.records, Rec(id)) <==> id in b.records;
    if id in b.records {
      hide Consistent, LoadedList;
      ListSurvivesReload(c, b, id);
    }
  }

  /** Restarting on the vault of a consistent book gives back its records and lists. */
  lemma ReloadKeepsTheBook(c: Codec, b: Book)
    requires RoundTrips(c) && Consistent(c, b)
    ensures var v := Reloaded(c, b.vault);
            && v.records == b.records && v.vault == b.vault && v.updating == {}
            && (forall id :: ListOf(v.lists, id) == ListOf(b.lists, id))
            && Consistent(c, v)
  {
    var v := Reloaded(c, b.vault);
    forall id
      ensures id in v.records <==> id in b.records
      ensures id in b.records ==> v.records[id] == b.records[id]
      ensures ListOf(v.lists, id) == ListOf(b.lists, id)
    {
      ReloadedAt(c, b, id);
      hide Consistent, LoadedList, RoundTrips;
      assert RecordAt(c, b.vault, id).Some? ==> Rec(id) in b.vault && Rec(id).Rec?;
    }
    assert v.records == b.records && v.lists.Keys == b.records.Keys;
    hide Reloaded, RoundTrips;
    SameBookIsConsistent(c, b, v);
  }

  lemma SameBookIsConsistent(c: Codec, b: Book, v: Book)
    requires Consistent(c, b) && v.records == b.records && v.vault == b.vault && v.lists.Keys <= v.records.Keys
    requires forall id :: ListOf(v.lists, id) == ListOf(b.lists, id)
    ensures Consistent(c, v)
  {
    forall id | id in v.records ensures Stored(c, v, id) {
      assert Stored(c, b, id);
      hide Chunks;
    }
  }
}
