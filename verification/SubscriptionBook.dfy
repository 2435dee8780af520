/** The subscription book as the object that updates its maps under its lock. */
module SubscriptionBook {
  import opened Text
  import opened References
  import opened Subscriptions
  import opened VaultFile
  import Vault

  /** The vault file is the image of a consistent book, read with formats that round-trip. */
  ghost predicate Faithful(c: Codec, file: File, b: Book)
  {
    RoundTrips(c) && Consistent(c, b) && Mirrors(file, b.vault)
  }

  /** The chunks a record counts, as far as the file has them. */
  function ChunksIn(file: File, rec: Record): map<Ref, Bytes>
  {
    map r | r in (set k | 0 <= k < rec.parts :: Part(rec.id, k)) && Render(r) in file :: file[Render(r)]
  }

  function ListIn(c: Codec, file: File, rec: Record): seq<Spec> { LoadedList(c, ChunksIn(file, rec), rec) }

  method LoadList(c: Codec, file: File, rec: Record) returns (list: seq<Spec>)
    ensures list == ListIn(c, file, rec)
  {
    hide Render;
    var raw: Bytes := [];
    ghost var chunks := ChunksIn(file, rec);
    for part := 0 to rec.parts
      invariant Gathered(chunks, rec.id, part) == Some(raw)
    {
      if Render(Part(rec.id, part)) !in file {
        MissingPart(chunks, rec.id, part + 1, rec.parts);
        return [];
      }
      raw := raw + file[Render(Part(rec.id, part))];
    }
    match c.listOf(raw)
    case Some(l) => list := l;
    case None => list := [];
  }

  lemma {:induction false} MissingPart(vault: map<Ref, Bytes>, id: Id, part: nat, parts: nat)
    requires part <= parts && Gathered(vault, id, part).None?
    ensures Gathered(vault, id, parts).None?
  {
    if part < parts {
      MissingPart(vault, id, part, parts - 1);
    }
  }

  lemma {:induction false} SameChunks(a: map<Ref, Bytes>, b: map<Ref, Bytes>, id: Id, parts: nat)
    requires forall k :: 0 <= k < parts ==> (Part(id, k) in a <==> Part(id, k) in b) && (Part(id, k) in a ==> a[Part(id, k)] == b[Part(id, k)])
    ensures Gathered(a, id, parts) == Gathered(b, id, parts)
  {
    if parts > 0 {
      SameChunks(a, b, id, parts - 1);
    }
  }

  lemma ListInMirror(c: Codec, file: File, vault: map<Ref, Bytes>, rec: Record)
    requires Mirrors(file, vault) && Hex(rec.id, ID_LENGTH)
    ensures ListIn(c, file, rec) == LoadedList(c, vault, rec)
  {
    hide Mirrors, Render, Hex;
    forall k | 0 <= k < rec.parts
      ensures var r := Part(rec.id, k); (r in ChunksIn(file, rec) <==> r in vault) && (r in vault ==> ChunksIn(file, rec)[r] == vault[r])
    {
      MirrorsExactly(file, vault, Part(rec.id, k));
    }
    SameChunks(ChunksIn(file, rec), vault, rec.id, rec.parts);
  }

  predicate LooksLikeRecord(name: string) { HasPrefix(name, "u1_") && HasSuffix(name, "_rec") }

  /** What a name of a faithful file that looks like a record's decodes to. */
  lemma EntryOf(c: Codec, file: File, b: Book, n: string)
    requires Faithful(c, file, b) && n in file && LooksLikeRecord(n)
    ensures exists id :: id in b.records && n == Render(Rec(id)) && b.records[id].id == id != ""
                         && c.recordOf(file[n]) == Some(b.records[id]) && ListIn(c, file, b.records[id]) == ListOf(b.lists, id)
  {
    var r := Owner(b.vault.Keys, n);
    LoaderFindsExactlyRecords(r);
    hide Mirrors, Consistent, Render, LooksLikeRecord;
    VaultEntry(c, file, b, r);
  }

  lemma VaultEntry(c: Codec, file: File, b: Book, r: Ref)
    requires Faithful(c, file, b) && r in b.vault && r.Rec?
    ensures r.id in b.records && b.records[r.id].id == r.id != "" && Render(r) in file
    ensures c.recordOf(file[Render(r)]) == Some(b.records[r.id])
    ensures ListIn(c, file, b.records[r.id]) == ListOf(b.lists, r.id)
  {
    assert Names(b.records, r);
    ConsistentAt(c, b, r.id);
    ListSurvivesReload(c, b, r.id);
    hide Chunks, LoadedList, Consistent, Render, ListIn;
    ListInMirror(c, file, b.vault, b.records[r.id]);
  }

  /** Every record of a faithful file has an entry that looks like one. */
  lemma RecordsHaveEntries(c: Codec, file: File, b: Book, id: Id)
    requires Faithful(c, file, b) && id in b.records
    ensures Rec(id) in b.vault && LooksLikeRecord(Render(Rec(id)))
  {
    assert Names(b.records, Rec(id));
    ConsistentAt(c, b, id);
    LoaderFindsExactlyRecords(Rec(id));
  }

  /** A vault entry the loader takes for a record: named like one, decodable, with an id. */
  predicate RecordEntry(c: Codec, file: File, n: string, rec: Record)
  {
    n in file && LooksLikeRecord(n) && c.recordOf(file[n]) == Some(rec) && rec.id != ""
  }

  /**
   * Exactly the record entries among `done` are in memory, each under the id it decodes to (any one of
   * several with the same id) and with the list its chunks give; every other entry is passed over.
   */
  ghost predicate LoadedFrom(c: Codec, file: File, done: set<string>, records: map<Id, Record>, lists: map<Id, seq<Spec>>)
  {
    && (forall id :: id in records ==> records[id].id == id && exists n :: n in done && RecordEntry(c, file, n, records[id]))
    && (forall n, rec :: n in done && RecordEntry(c, file, n, rec) ==> rec.id in records)
    && lists.Keys == records.Keys
    && (forall id :: id in records ==> lists[id] == ListIn(c, file, records[id]))
  }

  /** Reads every stored subscription of any file, in any order; a faithful file gives back its book. */
  method Load(c: Codec, file: File, ghost b: Book) returns (records: map<Id, Record>, lists: map<Id, seq<Spec>>)
    ensures LoadedFrom(c, file, file.Keys, records, lists)
    ensures Faithful(c, file, b) ==> records == b.records && forall id :: ListOf(lists, id) == ListOf(b.lists, id)
  {
    hide ListIn, Render, HasPrefix, HasSuffix, Faithful, LoadedFrom;
    records, lists := map[], map[];
    var todo := file.Keys;
    NothingLoaded(c, file);
    assert file.Keys - todo == {};
    while todo != {}
      invariant todo <= file.Keys
      invariant LoadedFrom(c, file, file.Keys - todo, records, lists)
      decreases |todo|
    {
      var n :| n in todo;
      OneMoreLoaded(c, file, file.Keys - todo, records, lists, n);
      assert file.Keys - (todo - {n}) == (file.Keys - todo) + {n};
      todo := todo - {n};
      if HasPrefix(n, "u1_") && HasSuffix(n, "_rec") {
        var decoded := c.recordOf(file[n]);
        if decoded.Some? && decoded.value.id != "" {
          var list := LoadList(c, file, decoded.value);
          records := records[decoded.value.id := decoded.value];
          lists := lists[decoded.value.id := list];
        }
      }
    }
    assert file.Keys - todo == file.Keys;
    if Faithful(c, file, b) { AllLoaded(c, file, b, records, lists); }
  }

  lemma NothingLoaded(c: Codec, file: File)
    ensures LoadedFrom(c, file, {}, map[], map[])
  {
  }

  /** One more entry: stored under its id when it is a record, passed over otherwise. */
  lemma OneMoreLoaded(c: Codec, file: File, done: set<string>, records: map<Id, Record>, lists: map<Id, seq<Spec>>, n: string)
    requires LoadedFrom(c, file, done, records, lists) && n in file
    ensures forall rec :: RecordEntry(c, file, n, rec) ==>
              LoadedFrom(c, file, done + {n}, records[rec.id := rec], lists[rec.id := ListIn(c, file, rec)])
    ensures (forall rec :: !RecordEntry(c, file, n, rec)) ==> LoadedFrom(c, file, done + {n}, records, lists)
  {
    hide ListIn, LooksLikeRecord;
    forall rec | RecordEntry(c, file, n, rec)
      ensures LoadedFrom(c, file, done + {n}, records[rec.id := rec], lists[rec.id := ListIn(c, file, rec)])
    {
      var more := records[rec.id := rec];
      forall id | id in more
        ensures more[id].id == id && exists m :: m in done + {n} && RecordEntry(c, file, m, more[id])
      {
        if id == rec.id {
          assert RecordEntry(c, file, n, more[id]);
        } else {
          var m :| m in done && RecordEntry(c, file, m, records[id]);
          assert RecordEntry(c, file, m, more[id]);
        }
      }
    }
    if forall rec :: !RecordEntry(c, file, n, rec) {
      forall id | id in records ensures exists m :: m in done + {n} && RecordEntry(c, file, m, records[id]) {
        var m :| m in done && RecordEntry(c, file, m, records[id]);
        assert m in done + {n};
      }
    }
  }

  lemma LoadedIsKept(c: Codec, file: File, b: Book, rec: Record, n: string)
    requires Faithful(c, file, b) && RecordEntry(c, file, n, rec)
    ensures rec.id in b.records && rec == b.records[rec.id] && ListIn(c, file, rec) == ListOf(b.lists, rec.id)
  {
    hide Faithful, ListIn, Render, LooksLikeRecord;
    EntryOf(c, file, b, n);
  }

  lemma KeptIsLoaded(c: Codec, file: File, b: Book, id: Id)
    requires Faithful(c, file, b) && id in b.records
    ensures RecordEntry(c, file, Render(Rec(id)), b.records[id]) && b.records[id].id == id
  {
    hide Faithful, ListIn, Render, LooksLikeRecord;
    RecordsHaveEntries(c, file, b, id);
    VaultEntry(c, file, b, Rec(id));
  }

  lemma AllRecordsLoaded(c: Codec, file: File, b: Book, records: map<Id, Record>, lists: map<Id, seq<Spec>>)
    requires Faithful(c, file, b) && LoadedFrom(c, file, file.Keys, records, lists)
    ensures records == b.records
  {
    hide Faithful, ListIn, Render, LooksLikeRecord;
    forall id | id in records ensures id in b.records && records[id] == b.records[id] {
      var n :| n in file.Keys && RecordEntry(c, file, n, records[id]);
      LoadedIsKept(c, file, b, records[id], n);
    }
    forall id | id in b.records ensures id in records {
      KeptIsLoaded(c, file, b, id);
      assert Render(Rec(id)) in file.Keys;
    }
    hide RecordEntry, LoadedFrom;
  }

  lemma AllLoaded(c: Codec, file: File, b: Book, records: map<Id, Record>, lists: map<Id, seq<Spec>>)
    requires Faithful(c, file, b) && LoadedFrom(c, file, file.Keys, records, lists)
    ensures records == b.records && forall id :: ListOf(lists, id) == ListOf(b.lists, id)
  {
    assert lists.Keys == records.Keys && forall id :: id in records ==> lists[id] == ListIn(c, file, records[id]);
    hide Faithful, ListIn, Render, LoadedFrom, RecordEntry;
    AllRecordsLoaded(c, file, b, records, lists);
    forall id ensures ListOf(lists, id) == ListOf(b.lists, id) {
      if id in records {
        KeptIsLoaded(c, file, b, id);
        LoadedIsKept(c, file, b, records[id], Render(Rec(id)));
      } else {
        FaithfulIsConsistent(c, file, b);
        AbsentLists(c, b);
      }
    }
  }

  lemma FaithfulIsConsistent(c: Codec, file: File, b: Book)
    requires Faithful(c, file, b)
    ensures Consistent(c, b)
  {
  }

  lemma AbsentLists(c: Codec, b: Book)
    requires Consistent(c, b)
    ensures forall id :: id !in b.records ==> ListOf(b.lists, id) == []
  {
    hide Stored, Names;
  }

  lemma FirstChunk(raw: Bytes, start: nat, end: nat)
    requires start < end <= |raw| && end == if start + CHUNK < |raw| then start + CHUNK else |raw|
    ensures Chunks(raw[start..]) == [raw[start..end]] + Chunks(raw[end..])
  {
    var rest := raw[start..];
    assert rest[..end - start] == raw[start..end] && rest[end - start..] == raw[end..];
    if |rest| <= CHUNK {
      assert rest == raw[start..end] && raw[end..] == [];
    }
  }

  lemma NoChunks()
    ensures Chunks([]) == []
  {
  }

  /** What a save writes does not depend on the vault. */
  lemma SameEdit(b: Book, v: Book, input: SaveInput, fresh_: Id, now: int)
    requires (input.id == "" || input.id in b.records) && v.records == b.records
    ensures Edited(v, input, fresh_, now) == Edited(b, input, fresh_, now) && Relinks(v, input) == Relinks(b, input)
  {
  }

  lemma OneMoreName(refs: set<Ref>, names: seq<string>, r: Ref)
    requires Vault.Gone(names) == NameSet(refs)
    ensures Vault.Gone(names + [Render(r)]) == NameSet(refs + {r})
  {
    hide Render;
    assert Vault.Gone(names + [Render(r)]) == Vault.Gone(names) + {Render(r)};
  }

  lemma PutsAreFormed(puts: map<Ref, Bytes>, r: Ref, material: Bytes)
    requires AllFormed(puts[r := material].Keys)
    ensures AllFormed(puts.Keys)
  {
    assert forall q :: q in puts ==> q in puts[r := material];
  }

  class Keeper {
    const codec: Codec
    const store: Vault.Store
    var records: map<Id, Record>
    var lists: map<Id, seq<Spec>>
    var updating: set<Id>
    ghost var vault: map<Ref, Bytes>

    ghost function View(): Book reads this { Book(records, lists, updating, vault) }

    ghost function Held(): Desk reads this, store { Desk(View(), store.disk, store.closed) }

    /** The subscription section of the stored file is the rendered vault. */
    ghost predicate Valid()
      reads this, store, Vault.Bufs(store.items)
    {
      store.Valid() && Mirrors(store.disk, vault) && WellKept(records)
    }

    constructor (codec: Codec, store: Vault.Store, ghost b: Book)
      requires store.Valid() && !store.closed
      ensures this.codec == codec && this.store == store && vault == b.vault && updating == {}
      ensures LoadedFrom(codec, store.disk, store.disk.Keys, records, lists)
      ensures Faithful(codec, store.disk, b) ==>
                Valid() && records == b.records && forall id :: ListOf(lists, id) == ListOf(b.lists, id)
    {
      this.codec := codec;
      this.store := store;
      this.vault := b.vault;
      this.updating := {};
      var loaded, gathered := Load(codec, store.disk, b);
      this.records := loaded;
      this.lists := gathered;
      new;
      if Faithful(codec, store.disk, b) { ConsistentIsWellKept(codec, b); }
    }

    method Save(input: SaveInput, fresh_: Id, now: int, writable: bool) returns (r: SaveResult)
      requires Valid() && Hex(fresh_, ID_LENGTH)
      modifies this, store, Vault.Bufs(store.items)
      ensures Valid() && Held() == DeskAfterSave(codec, old(Held()), input, fresh_, now, writable)
      ensures var was := old(Held());
              r == match Refusal(was.book, input)
                   case Some(refused) => refused
                   case None => if SaveWrites(codec, was.file, was.book, input, fresh_, now, writable && !was.closed)
                                then Saved(Relinks(was.book, input)) else WriteFailed
    {
      var refused := Check(input);
      if refused.Some? { return refused.value; }
      assert input.id == "" || input.id in records;
      hide Edited, Relinks, Mirrors, WellKept, Fits, Rewritten, Hex, Persisted, Refusal;
      var book := Book(records, lists, updating, map[]);
      var rec := Edited(book, input, fresh_, now);
      var fetchNow := Relinks(book, input);
      SameEdit(View(), book, input, fresh_, now);
      EditedKeepsItsId(View(), input, fresh_, now);
      var ok := Keep(rec, writable);
      return if ok then Saved(fetchNow) else WriteFailed;
    }

    /** Everything a save can be refused for before it writes. */
    method Check(input: SaveInput) returns (refused: Option<SaveResult>)
      ensures refused == Refusal(View(), input)
    {
      if input.link != "" {
        var taken := FindLink(input.link, input.id);
        if taken { return Some(Duplicate); }
      }
      if input.id == "" {
        if input.link == "" { return Some(NeedsLink); }
        if |records| >= MAX_SUBSCRIPTIONS { return Some(Full); }
      } else if input.id !in records {
        return Some(NotFound);
      }
      return None;
    }

    method FindLink(link: string, id: Id) returns (taken: bool)
      ensures taken == LinkTaken(records, link, id)
    {
      var todo := records.Keys;
      while todo != {}
        invariant todo <= records.Keys
        invariant forall o :: o in records && o !in todo ==> !(records[o].url == link && o != id)
        decreases |todo|
      {
        var o :| o in todo;
        if records[o].url == link && o != id { return true; }
        todo := todo - {o};
      }
      return false;
    }

    /** Stores one record, in the vault and then in memory. */
    method Keep(rec: Record, writable: bool) returns (ok: bool)
      requires Valid() && Hex(rec.id, ID_LENGTH) && WellKept(records[rec.id := rec])
      modifies this`records, this`vault, store, Vault.Bufs(store.items)
      ensures var was, put := old(Held()), RecordPut(codec, rec);
              && ok == Takes(was, put, {}, writable)
              && Held() == if ok then Wrote(was, put, {}, true).(book := Persisted(codec, was.book, rec)) else was
      ensures Valid()
    {
      hide Mirrors, Fits, Rewritten, Vault.Changed, Hex, WellKept;
      assert RecordPut(codec, rec) == (map[])[Rec(rec.id) := codec.record(rec)];
      ok := Persist(rec, map[], {}, writable);
      if ok { records := records[rec.id := rec]; }
    }

    /** persistLocked: the record and the update's changes in one vault write. */
    method Persist(rec: Record, puts: map<Ref, Bytes>, deletes: set<Ref>, writable: bool) returns (ok: bool)
      requires Valid() && Hex(rec.id, ID_LENGTH) && AllFormed(puts.Keys) && AllFormed(deletes)
      modifies this`vault, store, Vault.Bufs(store.items)
      ensures var was, all := old(Held()), puts[Rec(rec.id) := codec.record(rec)];
              ok == Takes(was, all, deletes, writable) && Held() == Wrote(was, all, deletes, ok)
      ensures Valid()
      ensures !ok ==> store.items == old(store.items)
    {
      hide Mirrors, Fits, Rewritten, Vault.Changed, Hex, WellKept;
      ok := Write(puts[Rec(rec.id) := codec.record(rec)], deletes, writable);
    }

    /** One change of the vault, under the names the store sees. */
    method Write(puts: map<Ref, Bytes>, deletes: set<Ref>, writable: bool) returns (ok: bool)
      requires Valid() && AllFormed(puts.Keys) && AllFormed(deletes)
      modifies this`vault, store, Vault.Bufs(store.items)
      ensures Valid() && ok == Takes(old(Held()), puts, deletes, writable) && Held() == Wrote(old(Held()), puts, deletes, ok)
      ensures !ok ==> store.items == old(store.items)
    {
      hide AllFormed, Mirrors, WellKept, Named, NameSet, Vault.Changed, Vault.Acceptable, Vault.Wiped, Vault.Gone;
      var named := RenderPuts(puts);
      var names := RenderAll(deletes);
      WriteMirrors(store.disk, vault, puts, deletes);
      ok := store.Apply(named, names, writable);
      if ok { vault := Vault.Changed(vault, puts, deletes); }
    }

    method RenderPuts(puts: map<Ref, Bytes>) returns (named: File)
      requires AllFormed(puts.Keys)
      ensures named == Named(puts)
    {
      hide Render, WellFormed;
      named := map[];
      var todo := puts.Keys;
      while todo != {}
        invariant todo <= puts.Keys && named.Keys == NameSet(puts.Keys - todo)
        invariant forall r :: r in puts && r !in todo ==> Render(r) in named && named[Render(r)] == puts[r]
        decreases |todo|
      {
        var r :| r in todo;
        forall q | q in puts && Render(q) == Render(r) ensures q == r { RenderIsInjective(q, r); }
        named := named[Render(r) := puts[r]];
        todo := todo - {r};
      }
      assert puts.Keys - todo == puts.Keys;
      forall r | r in puts ensures Named(puts)[Render(r)] == named[Render(r)] { NameHolds(puts, r); }
      assert named.Keys == Named(puts).Keys;
    }

    method RenderAll(refs: set<Ref>) returns (names: seq<string>)
      ensures Vault.Gone(names) == NameSet(refs)
    {
      hide Render;
      names := [];
      var todo := refs;
      while todo != {}
        invariant todo <= refs && Vault.Gone(names) == NameSet(refs - todo)
        decreases |todo|
      {
        hide NameSet, Vault.Gone;
        var r :| r in todo;
        OneMoreName(refs - todo, names, r);
        assert refs - (todo - {r}) == (refs - todo) + {r};
        names := names + [Render(r)];
        todo := todo - {r};
      }
      assert refs - todo == refs;
    }

    method Delete(id: Id, writable: bool) returns (ok: bool)
      requires Valid()
      modifies this, store, Vault.Bufs(store.items)
      ensures Valid() && Held() == DeskAfterDelete(old(Held()), id, writable)
      ensures var was := old(Held()); ok == DeleteWrites(was.file, was.book, id, writable && !was.closed)
    {
      if id !in records { return false; }
      EverythingIsFormed(records, id);
      hide Mirrors, Fits, Rewritten, Vault.Changed, Everything, WellKept, AllFormed;
      var deletes := CollectAll(records[id]);
      ok := Drop(id, deletes, writable);
    }

    /** Removes entries from the vault and then the subscription from memory. */
    method Drop(id: Id, deletes: set<Ref>, writable: bool) returns (ok: bool)
      requires Valid() && AllFormed(deletes)
      modifies this`records, this`lists, this`vault, store, Vault.Bufs(store.items)
      ensures var was := old(Held());
              && ok == Takes(was, map[], deletes, writable)
              && Held() == if ok then Without(Wrote(was, map[], deletes, true), id) else was
      ensures Valid()
    {
      hide Mirrors, Fits, Rewritten, Vault.Changed;
      ok := Write(map[], deletes, writable);
      if ok {
        records := records - {id};
        lists := lists - {id};
      }
    }

    /** The names of everything a subscription has stored. */
    method CollectAll(rec: Record) returns (deletes: set<Ref>)
      ensures deletes == Everything(rec)
    {
      deletes := {Rec(rec.id)};
      for i := 0 to |rec.servers|
        invariant deletes == {Rec(rec.id)} + set d | d in rec.servers[..i] :: Cred(rec.id, d)
      {
        assert rec.servers[..i + 1] == rec.servers[..i] + [rec.servers[i]];
        deletes := deletes + {Cred(rec.id, rec.servers[i])};
      }
      assert rec.servers[..|rec.servers|] == rec.servers;
      ghost var servers := deletes;
      for part := 0 to rec.parts
        invariant deletes == servers + set k | 0 <= k < part :: Part(rec.id, k)
      {
        deletes := deletes + {Part(rec.id, part)};
      }
    }

    /** The first half of refresh; the fetch itself runs with the lock released. */
    method RefreshBegin(id: Id, fetcher: bool) returns (started: bool, link: string)
      modifies this`updating
      ensures View() == if fetcher then AfterBegin(old(View()), id) else old(View())
      ensures old(Valid()) ==> Valid()
      ensures started == (fetcher && Begins(old(View()), id)) && (started ==> link == records[id].url)
    {
      if id !in records || id in updating || !fetcher { return false, ""; }
      updating := updating + {id};
      return true, records[id].url;
    }

    /** The second half: discard, store the update, or note the failure. */
    method RefreshEnd(id: Id, link: string, f: Fetched, now: int, stored: bool, noted: bool) returns (ok: bool)
      requires Valid() && GoodServers(f)
      modifies this, store, Vault.Bufs(store.items)
      ensures Valid() && Held() == DeskAfterEnd(codec, old(Held()), id, link, f, now, stored, noted)
      ensures var was := old(Held()); ok == EndStores(codec, was.file, was.book, id, link, f, now, stored && !was.closed)
    {
      hide AfterUpdate, Mirrors, Fits, Rewritten, Persisted, Hex, UpdatePuts, UpdateDeletes;
      updating := updating - {id};
      if id !in records || records[id].url != link { return false; }
      var next := records[id].(attempted := now);
      if f.Listed? {
        ok := ApplyUpdate(next, f.info, f.servers, stored);
        if ok { return; }
      }
      var written := Keep(Failing(next, f), noted);
      return false;
    }

    method ApplyUpdate(rec: Record, info: string, servers: seq<Server>, stored: bool) returns (ok: bool)
      requires Valid() && Hex(rec.id, ID_LENGTH) && forall d :: d in rec.servers ==> Hex(d, DIGEST_LENGTH)
      requires forall i :: 0 <= i < |servers| ==> Hex(servers[i].digest, DIGEST_LENGTH)
      modifies this`records, this`lists, this`vault, store, Vault.Bufs(store.items)
      ensures var was, puts, deletes := old(Held()), UpdatePuts(codec, rec, info, servers), UpdateDeletes(codec, rec, servers);
              && ok == Takes(was, puts, deletes, stored)
              && Held() == if ok then Wrote(was, puts, deletes, true).(book := AfterUpdate(codec, was.book, rec, info, servers)) else was
      ensures Valid()
      ensures !ok ==> store.items == old(store.items)
    {
      hide Vault.Changed, Mirrors, Fits, Rewritten, Hex, WellKept, AllFormed, UpdatePuts, UpdateDeletes, Updated;
      var puts, deletes, updated, specs := Prepare(rec, info, servers);
      UpdateIsFormed(codec, rec, info, servers);
      UpdatedIsWellKept(codec, records, rec, info, servers);
      PutsAreFormed(puts, Rec(rec.id), codec.record(updated));
      ok := Persist(updated, puts, deletes, stored);
      if ok {
        records := records[rec.id := updated];
        lists := lists[rec.id := specs];
      }
    }

    /** What an update writes: credentials and chunks to put, stale entries to delete, and the new record. */
    method Prepare(rec: Record, info: string, servers: seq<Server>)
      returns (puts: map<Ref, Bytes>, deletes: set<Ref>, updated: Record, specs: seq<Spec>)
      ensures updated == Updated(codec, rec, info, servers) && updated.id == rec.id && specs == Specs(servers)
      ensures puts[Rec(rec.id) := codec.record(updated)] == UpdatePuts(codec, rec, info, servers)
      ensures deletes == UpdateDeletes(codec, rec, servers)
    {
      hide Chunks, Sorted, Credentials, PartsOf, Specs, Digests, Stale;
      var credentials;
      credentials, specs := CollectServers(rec.id, servers);
      var raw := codec.list(specs);
      var pieces := Split(rec.id, raw);
      var parts := |pieces|;
      deletes := CollectStale(rec, Digests(servers), parts);
      puts := credentials + pieces;
      updated := rec.(servers := Sorted(Digests(servers)), parts := parts, info := info,
                      succeeded := rec.attempted, failures := 0, error := None);
    }

    method CollectServers(id: Id, servers: seq<Server>) returns (credentials: map<Ref, Bytes>, specs: seq<Spec>)
      ensures credentials == Credentials(id, servers) && specs == Specs(servers)
    {
      credentials, specs := map[], [];
      for i := 0 to |servers|
        invariant credentials == Credentials(id, servers[..i]) && specs == Specs(servers[..i])
      {
        assert servers[..i + 1][..i] == servers[..i];
        credentials := credentials[Cred(id, servers[i].digest) := servers[i].document];
        specs := specs + [servers[i].spec];
      }
      assert servers[..|servers|] == servers;
    }

    /** Cuts the encoded list into chunks that fit a vault entry. */
    method Split(id: Id, raw: Bytes) returns (pieces: map<Ref, Bytes>)
      ensures pieces == PartsOf(id, Chunks(raw)) && |pieces| == |Chunks(raw)|
    {
      assert raw[0..] == raw;
      hide Chunks;
      pieces := map[];
      var start, parts := 0, 0;
      ghost var done: seq<Bytes> := [];
      while start < |raw|
        invariant start <= |raw| && parts == |done| == |pieces|
        invariant pieces == PartsOf(id, done) && Chunks(raw) == done + Chunks(raw[start..])
        decreases |raw| - start
      {
        var end := if start + CHUNK < |raw| then start + CHUNK else |raw|;
        FirstChunk(raw, start, end);
        PartKeys(id, done, Part(id, parts));
        assert (done + [raw[start..end]])[..parts] == done;
        done := done + [raw[start..end]];
        pieces := pieces[Part(id, parts) := raw[start..end]];
        parts := parts + 1;
        start := end;
      }
      NoChunks();
      assert raw[start..] == [] && done + [] == done;
    }

    method CollectStale(rec: Record, keep: seq<string>, parts: nat) returns (deletes: set<Ref>)
      ensures deletes == Stale(rec, keep, parts)
    {
      deletes := {};
      for i := 0 to |rec.servers|
        invariant deletes == set d | d in rec.servers[..i] && d !in keep :: Cred(rec.id, d)
      {
        assert rec.servers[..i + 1] == rec.servers[..i] + [rec.servers[i]];
        if rec.servers[i] !in keep {
          deletes := deletes + {Cred(rec.id, rec.servers[i])};
        }
      }
      assert rec.servers[..|rec.servers|] == rec.servers;
      ghost var servers := deletes;
      var part := parts;
      while part < rec.parts
        invariant parts <= part && (part <= rec.parts || part == parts)
        invariant deletes == servers + set k | parts <= k < part :: Part(rec.id, k)
      {
        deletes := deletes + {Part(rec.id, part)};
        part := part + 1;
      }
    }
  }
}
