/**
 * Runs of the subscription book: saves, deletes, both halves of refreshes and restarts of the core in
 * any order, with any vault writes failing.
 */
module SubscriptionRuns {
  import opened References
  import opened Subscriptions
  import Vault

  /** A fetch in flight: the subscription and the link it was started with. */
  datatype Fetch = Fetch(id: Id, link: string)

  /** The book, the fetches in flight, and for the record the last document stored for each server. */
  datatype System = System(book: Book, fetches: multiset<Fetch>, documents: map<Ref, Bytes>)

  datatype Event =
    | Save(input: SaveInput, fresh_: Id, now: int, writable: bool)
    | Delete(id: Id, writable: bool)
    | Begin(id: Id)
    | End(fetch: Fetch, got: Fetched, now: int, stored: bool, noted: bool)
    | Restart

  const NEW := System(EMPTY, multiset{}, map[])

  /** The document of the last server with a digest. */
  function LastWith(servers: seq<Server>, digest: string): Bytes
    requires digest in Digests(servers)
  {
    var last := servers[|servers| - 1];
    if last.digest == digest then last.document
    else
      assert servers == servers[..|servers| - 1] + [last];
      LastWith(servers[..|servers| - 1], digest)
  }

  function DocumentsOf(id: Id, servers: seq<Server>): map<Ref, Bytes>
  {
    map r | r in (set d | d in Digests(servers) :: Cred(id, d)) :: LastWith(servers, r.digest)
  }

  /** The documents of every other subscription. */
  function Without(documents: map<Ref, Bytes>, id: Id): map<Ref, Bytes>
  {
    map r | r in documents && r.id != id :: documents[r]
  }

  function Next(c: Codec, s: System, e: Event): System
  {
    match e
    case Save(input, fresh_, now, writable) => s.(book := AfterSave(c, s.book, input, fresh_, now, writable))
    case Delete(id, writable) =>
      s.(book := AfterDelete(s.book, id, writable),
         documents := if id in s.book.records && writable then Without(s.documents, id) else s.documents)
    case Begin(id) =>
      if Begins(s.book, id)
      then s.(book := AfterBegin(s.book, id), fetches := s.fetches + multiset{Fetch(id, s.book.records[id].url)}) else s
    case End(fetch, got, now, stored, noted) =>
      if fetch !in s.fetches then s
      else System(AfterEnd(c, s.book, fetch.id, fetch.link, got, now, stored, noted), s.fetches - multiset{fetch},
                  if Current(s.book, fetch.id, fetch.link) && got.Listed? && stored
                  then Without(s.documents, fetch.id) + DocumentsOf(fetch.id, got.servers) else s.documents)
    case Restart => System(Reloaded(c, s.book.vault), multiset{}, s.documents)
  }

  function RunFrom(c: Codec, s: System, events: seq<Event>): System
  {
    if events == [] then s else Next(c, RunFrom(c, s, events[..|events| - 1]), events[|events| - 1])
  }

  function Run(c: Codec, events: seq<Event>): System { RunFrom(c, NEW, events) }

  /**
   * New identifiers are random hex in use by no record and no fetch, parsed servers carry hex digests,
   * and an update is stored only if the vault takes its documents.
   */
  predicate Sane(s: System, e: Event)
  {
    && (e.Save? ==> Hex(e.fresh_, ID_LENGTH) && e.fresh_ !in s.book.records && e.fresh_ !in s.book.updating)
    && (e.End? ==> GoodServers(e.got))
    && (e.End? && e.got.Listed? && e.stored ==>
          forall d :: d in Digests(e.got.servers) ==> Vault.Storable(LastWith(e.got.servers, d)))
  }

  predicate SaneFrom(c: Codec, s: System, events: seq<Event>)
  {
    events == [] || (SaneFrom(c, s, events[..|events| - 1]) && Sane(RunFrom(c, s, events[..|events| - 1]), events[|events| - 1]))
  }

  ghost predicate Reachable(c: Codec, s: System)
  {
    exists events :: SaneFrom(c, NEW, events) && Run(c, events) == s
  }

  // ---- The vault and memory ----

  lemma NextKeepsConsistency(c: Codec, s: System, e: Event)
    requires RoundTrips(c) && Consistent(c, s.book) && Sane(s, e)
    ensures Consistent(c, Next(c, s, e).book)
  {
    hide Consistent, AfterSave, AfterDelete, AfterEnd, Reloaded, Without, DocumentsOf;
    match e
    case Save(input, fresh_, now, writable) => SaveKeepsConsistency(c, s.book, input, fresh_, now, writable);
    case Delete(id, writable) => DeleteKeepsConsistency(c, s.book, id, writable);
    case Begin(id) => UpdatingIsIrrelevant(c, s.book, s.book.updating + {id});
    case End(fetch, got, now, stored, noted) =>
      EndKeepsConsistency(c, s.book, fetch.id, fetch.link, got, now, stored, noted);
    case Restart => ReloadKeepsTheBook(c, s.book);
  }

  /** Each credential in the vault is the last document stored for its server, and none is missing. */
  ghost predicate Documented(s: System)
  {
    && (forall r :: r in s.documents ==> r.Cred?)
    && forall r: Ref :: r.Cred? ==>
         (r in s.book.vault <==> r in s.documents) && (r in s.documents ==> s.book.vault[r] == s.documents[r])
  }

  lemma {:induction false} LastDocument(servers: seq<Server>, digest: string) returns (k: nat)
    requires digest in Digests(servers)
    ensures k < |servers| && servers[k].digest == digest && servers[k].document == LastWith(servers, digest)
    ensures forall i :: k < i < |servers| ==> servers[i].digest != digest
  {
    k := |servers| - 1;
    if servers[k].digest != digest {
      assert servers == servers[..k] + [servers[k]];
      k := LastDocument(servers[..k], digest);
    }
  }

  lemma DocumentsAre(id: Id, servers: seq<Server>, r: Ref)
    ensures r in DocumentsOf(id, servers) <==> r.Cred? && r.id == id && r.digest in Digests(servers)
  {
  }

  lemma SaveKeepsDocuments(c: Codec, s: System, e: Event)
    requires Documented(s) && e.Save?
    ensures Documented(Next(c, s, e))
  {
    hide Refusal, Edited;
  }

  lemma DeleteKeepsDocuments(c: Codec, s: System, id: Id, writable: bool)
    requires Documented(s) && Consistent(c, s.book)
    ensures Documented(Next(c, s, Delete(id, writable)))
  {
    hide Documented, Consistent, Without;
    if id in s.book.records && writable {
      DeletedEntries(c, s.book, id);
      hide AfterDelete;
      DocumentsDropped(s, Next(c, s, Delete(id, writable)), id);
    }
  }

  lemma DeletedEntries(c: Codec, b: Book, id: Id)
    requires Consistent(c, b) && id in b.records
    ensures var v := AfterDelete(b, id, true);
            && (forall r: Ref :: r.id == id ==> r !in v.vault)
            && (forall r: Ref :: r.id != id ==> (r in v.vault <==> r in b.vault) && (r in b.vault ==> v.vault[r] == b.vault[r]))
  {
    ConsistentAt(c, b, id);
    hide Consistent, Stored;
    DeleteAt(b, id);
    DeleteElsewhere(b, id);
    var v := AfterDelete(b, id, true);
    assert id !in v.records;
    hide AfterDelete;
    assert forall r: Ref :: r.id == id ==> !Names(v.records, r);
  }

  lemma DocumentsDropped(s: System, v: System, id: Id)
    requires Documented(s) && v.documents == Without(s.documents, id)
    requires forall r: Ref :: r.id == id ==> r !in v.book.vault
    requires forall r: Ref :: r.id != id ==> (r in v.book.vault <==> r in s.book.vault) && (r in s.book.vault ==> v.book.vault[r] == s.book.vault[r])
    ensures Documented(v)
  {
  }

  /** A stored update leaves exactly the documents it brought. */
  lemma UpdateKeepsDocuments(c: Codec, s: System, fetch: Fetch, got: Fetched, now: int, noted: bool)
    requires RoundTrips(c) && Documented(s) && Consistent(c, s.book) && got.Listed? && GoodServers(got)
    requires Current(s.book, fetch.id, fetch.link) && fetch in s.fetches
    ensures Documented(Next(c, s, End(fetch, got, now, true, noted)))
  {
    var id, link, v := fetch.id, fetch.link, Next(c, s, End(fetch, got, now, true, noted));
    hide Next, AfterEnd, Consistent, Without, DocumentsOf, Documented, LastWith, RoundTrips, Current;
    StoredEnd(c, s, fetch, got, now, noted);
    OthersUntouched(c, s.book, id, link, got, now, noted);
    NewDocuments(c, s.book, id, link, got, now, noted);
    OnlyTheirs(c, s.book, id, link, got, now, noted);
    DocumentsSettle(s, v, id, got.servers);
  }

  lemma StoredEnd(c: Codec, s: System, fetch: Fetch, got: Fetched, now: int, noted: bool)
    requires Current(s.book, fetch.id, fetch.link) && fetch in s.fetches && got.Listed?
    ensures var v := Next(c, s, End(fetch, got, now, true, noted));
            && v.book == AfterEnd(c, s.book, fetch.id, fetch.link, got, now, true, noted)
            && v.documents == Without(s.documents, fetch.id) + DocumentsOf(fetch.id, got.servers)
  {
    hide AfterEnd, Without, DocumentsOf;
  }

  lemma OthersUntouched(c: Codec, b: Book, id: Id, link: string, f: Fetched, now: int, noted: bool)
    requires Consistent(c, b) && Current(b, id, link) && f.Listed? && GoodServers(f)
    ensures var v := AfterEnd(c, b, id, link, f, now, true, noted);
            forall r: Ref :: r.id != id ==> (r in v.vault <==> r in b.vault) && (r in b.vault ==> v.vault[r] == b.vault[r])
  {
    ConsistentAt(c, b, id);
    var free, next := b.(updating := b.updating - {id}), b.records[id].(attempted := now);
    assert AfterEnd(c, b, id, link, f, now, true, noted) == AfterUpdate(c, free, next, f.info, f.servers);
    hide Consistent, AfterUpdate, AfterEnd;
    UpdateElsewhere(c, free, next, f.info, f.servers);
  }

  lemma NewDocuments(c: Codec, b: Book, id: Id, link: string, f: Fetched, now: int, noted: bool)
    requires RoundTrips(c) && Consistent(c, b) && Current(b, id, link) && f.Listed? && GoodServers(f)
    ensures var v := AfterEnd(c, b, id, link, f, now, true, noted);
            forall d :: d in Digests(f.servers) ==> Cred(id, d) in v.vault && v.vault[Cred(id, d)] == LastWith(f.servers, d)
  {
    hide Consistent, AfterEnd, LastWith, Current, RoundTrips;
    EmptyListCodes(c);
    var v := AfterEnd(c, b, id, link, f, now, true, noted);
    forall d | d in Digests(f.servers)
      ensures Cred(id, d) in v.vault && v.vault[Cred(id, d)] == LastWith(f.servers, d)
    {
      var k := LastDocument(f.servers, d);
      RefreshStoresDocuments(c, b, id, link, f, now, noted, k);
    }
  }

  lemma EmptyListCodes(c: Codec)
    requires RoundTrips(c)
    ensures c.list([]) == []
  {
  }

  lemma OnlyTheirs(c: Codec, b: Book, id: Id, link: string, f: Fetched, now: int, noted: bool)
    requires RoundTrips(c) && Consistent(c, b) && Current(b, id, link) && f.Listed? && GoodServers(f)
    ensures forall d :: Cred(id, d) in AfterEnd(c, b, id, link, f, now, true, noted).vault ==> d in Digests(f.servers)
  {
    ConsistentAt(c, b, id);
    var v := AfterEnd(c, b, id, link, f, now, true, noted);
    assert id in v.records && v.records[id].servers == Sorted(Digests(f.servers));
    EndKeepsConsistency(c, b, id, link, f, now, true, noted);
    hide Consistent, AfterEnd, Stored, Sorted;
    OnlyListedServersRemain(c, v, id, Digests(f.servers));
  }

  lemma DocumentsSettle(s: System, v: System, id: Id, servers: seq<Server>)
    requires Documented(s) && v.documents == Without(s.documents, id) + DocumentsOf(id, servers)
    requires forall r: Ref :: r.id != id ==> (r in v.book.vault <==> r in s.book.vault) && (r in s.book.vault ==> v.book.vault[r] == s.book.vault[r])
    requires forall d :: d in Digests(servers) ==> Cred(id, d) in v.book.vault && v.book.vault[Cred(id, d)] == LastWith(servers, d)
    requires forall d :: Cred(id, d) in v.book.vault ==> d in Digests(servers)
    ensures Documented(v)
  {
    assert forall r :: r in v.documents ==> r.Cred?;
    forall r: Ref | r.Cred?
      ensures (r in v.book.vault <==> r in v.documents) && (r in v.documents ==> v.book.vault[r] == v.documents[r])
    {
      DocumentsAre(id, servers, r);
    }
  }

  lemma EndKeepsDocuments(c: Codec, s: System, e: Event)
    requires RoundTrips(c) && Documented(s) && Consistent(c, s.book) && Sane(s, e) && e.End?
    ensures Documented(Next(c, s, e))
  {
    hide Consistent, RoundTrips, Documented;
    var id, link := e.fetch.id, e.fetch.link;
    if e.fetch in s.fetches {
      if Current(s.book, id, link) && e.got.Listed? && e.stored {
        UpdateKeepsDocuments(c, s, e.fetch, e.got, e.now, e.noted);
      } else {
        ConsistentAt(c, s.book, id);
        UnstoredEnd(c, s, e);
      }
    }
  }

  lemma UnstoredEnd(c: Codec, s: System, e: Event)
    requires Documented(s) && e.End? && (e.fetch.id in s.book.records ==> s.book.records[e.fetch.id].id == e.fetch.id)
    requires !(Current(s.book, e.fetch.id, e.fetch.link) && e.got.Listed? && e.stored)
    ensures Documented(Next(c, s, e))
  {
    var v := AfterEnd(c, s.book, e.fetch.id, e.fetch.link, e.got, e.now, e.stored, e.noted);
    forall r: Ref | r.Cred? ensures (r in v.vault <==> r in s.book.vault) && (r in s.book.vault ==> v.vault[r] == s.book.vault[r]) {
      if !(e.got.Listed? && e.stored) {
        FailedRefreshKeepsServers(c, s.book, e.fetch.id, e.fetch.link, e.got, e.now, e.stored, e.noted, r);
      }
    }
    hide AfterEnd;
  }

  lemma NextKeepsDocuments(c: Codec, s: System, e: Event)
    requires RoundTrips(c) && Documented(s) && Consistent(c, s.book) && Sane(s, e)
    ensures Documented(Next(c, s, e))
  {
    hide Consistent, Documented, RoundTrips, Sane;
    match e
    case Save(_, _, _, _) => SaveKeepsDocuments(c, s, e);
    case Delete(id, writable) => DeleteKeepsDocuments(c, s, id, writable);
    case End(_, _, _, _, _) => EndKeepsDocuments(c, s, e);
    case Begin(_) => SameEntries(s, Next(c, s, e));
    case Restart => SameEntries(s, Next(c, s, e));
  }

  lemma SameEntries(s: System, v: System)
    requires Documented(s) && v.book.vault == s.book.vault && v.documents == s.documents
    ensures Documented(v)
  {
  }

  /**
   * After any run, with any writes failing and any restarts, the vault holds exactly what memory names:
   * each record and list as memory has it, and each credential as it was last stored.
   */
  lemma {:induction false} VaultMatchesMemory(c: Codec, events: seq<Event>)
    requires RoundTrips(c) && SaneFrom(c, NEW, events)
    ensures Consistent(c, Run(c, events).book) && Documented(Run(c, events))
  {
    if events != [] {
      hide Consistent, Documented, Next, Sane, RoundTrips;
      VaultMatchesMemory(c, events[..|events| - 1]);
      var s, e := Run(c, events[..|events| - 1]), events[|events| - 1];
      NextKeepsConsistency(c, s, e);
      NextKeepsDocuments(c, s, e);
    }
  }

  lemma ReachableIsConsistent(c: Codec, s: System)
    requires RoundTrips(c) && Reachable(c, s)
    ensures Consistent(c, s.book) && Documented(s) && OneFetchEach(s) && NoStaleMark(s) && DistinctLinks(s.book.records)
  {
    hide Consistent, Documented, RoundTrips, OneFetchEach, NoStaleMark, DistinctLinks, Run, SaneFrom;
    var events :| SaneFrom(c, NEW, events) && Run(c, events) == s;
    VaultMatchesMemory(c, events);
    FetchesNeverOverlap(c, events);
    LinksStayDistinct(c, events);
  }

  // ---- Fetches ----

  ghost predicate OneFetchEach(s: System)
  {
    && (forall f :: f in s.fetches ==> s.fetches[f] == 1 && f.id in s.book.updating)
    && (forall f, g :: f in s.fetches && g in s.fetches && f.id == g.id ==> f == g)
  }

  /** No subscription is marked as updating without a fetch in flight. */
  ghost predicate NoStaleMark(s: System)
  {
    forall id :: id in s.book.updating ==> exists f :: f in s.fetches && f.id == id
  }

  lemma BeginKeepsOneFetchEach(s: System, v: System, id: Id, link: string)
    requires OneFetchEach(s) && id !in s.book.updating
    requires v.book.updating == s.book.updating + {id} && v.fetches == s.fetches + multiset{Fetch(id, link)}
    ensures OneFetchEach(v)
  {
    assert Fetch(id, link) !in s.fetches;
    assert forall f :: f in v.fetches <==> f in s.fetches || f == Fetch(id, link);
  }

  lemma EndKeepsOneFetchEach(s: System, v: System, fetch: Fetch)
    requires OneFetchEach(s) && fetch in s.fetches
    requires v.book.updating == s.book.updating - {fetch.id} && v.fetches == s.fetches - multiset{fetch}
    ensures OneFetchEach(v)
  {
    assert forall f :: f in v.fetches <==> f in s.fetches && f != fetch;
  }

  lemma BeginLeavesNoStaleMark(s: System, v: System, id: Id, link: string)
    requires NoStaleMark(s)
    requires v.book.updating == s.book.updating + {id} && v.fetches == s.fetches + multiset{Fetch(id, link)}
    ensures NoStaleMark(v)
  {
    forall o | o in v.book.updating
      ensures exists f :: f in v.fetches && f.id == o
    {
      if o == id {
        assert Fetch(id, link) in v.fetches;
      } else {
        var f :| f in s.fetches && f.id == o;
        assert f in v.fetches;
      }
    }
  }

  lemma EndLeavesNoStaleMark(s: System, v: System, fetch: Fetch)
    requires NoStaleMark(s)
    requires v.book.updating == s.book.updating - {fetch.id} && v.fetches == s.fetches - multiset{fetch}
    ensures NoStaleMark(v)
  {
    forall o | o in v.book.updating
      ensures exists f :: f in v.fetches && f.id == o
    {
      var f :| f in s.fetches && f.id == o;
      assert f in v.fetches;
    }
  }

  lemma SameFetches(s: System, v: System)
    requires v.book.updating == s.book.updating && v.fetches == s.fetches
    ensures OneFetchEach(s) ==> OneFetchEach(v)
    ensures NoStaleMark(s) ==> NoStaleMark(v)
  {
  }

  lemma NextKeepsFetches(c: Codec, s: System, e: Event)
    requires OneFetchEach(s) && NoStaleMark(s)
    ensures OneFetchEach(Next(c, s, e)) && NoStaleMark(Next(c, s, e))
  {
    hide OneFetchEach, NoStaleMark, AfterSave, AfterEnd, Reloaded;
    var v := Next(c, s, e);
    match e
    case Save(input, fresh_, now, writable) =>
      SavingLeavesUpdating(c, s.book, input, fresh_, now, writable);
      SameFetches(s, v);
    case Delete(_, _) => SameFetches(s, v);
    case Begin(id) =>
      if Begins(s.book, id) {
        BeginKeepsOneFetchEach(s, v, id, s.book.records[id].url);
        BeginLeavesNoStaleMark(s, v, id, s.book.records[id].url);
      }
    case End(fetch, got, now, stored, noted) =>
      if fetch in s.fetches {
        EndingFrees(c, s.book, fetch.id, fetch.link, got, now, stored, noted);
        EndKeepsOneFetchEach(s, v, fetch);
        EndLeavesNoStaleMark(s, v, fetch);
      }
    case Restart =>
      NothingUpdating(c, s.book.vault);
      NoFetches(v);
  }

  lemma NothingUpdating(c: Codec, vault: map<Ref, Bytes>)
    ensures Reloaded(c, vault).updating == {}
  {
  }

  lemma NoFetches(s: System)
    requires s.book.updating == {} && s.fetches == multiset{}
    ensures OneFetchEach(s) && NoStaleMark(s)
  {
  }

  /** At most one fetch per subscription is in flight, and `updating` marks exactly those. */
  lemma {:induction false} FetchesNeverOverlap(c: Codec, events: seq<Event>)
    ensures OneFetchEach(Run(c, events)) && NoStaleMark(Run(c, events))
  {
    if events == [] {
      NoFetches(NEW);
    } else {
      hide Next, OneFetchEach, NoStaleMark;
      FetchesNeverOverlap(c, events[..|events| - 1]);
      NextKeepsFetches(c, Run(c, events[..|events| - 1]), events[|events| - 1]);
    }
  }

  // ---- Links ----

  /** In every run two subscriptions never share a link. */
  lemma {:induction false} LinksStayDistinct(c: Codec, events: seq<Event>)
    requires RoundTrips(c) && SaneFrom(c, NEW, events)
    ensures DistinctLinks(Run(c, events).book.records)
  {
    hide DistinctLinks, Consistent, Next, Sane, Documented, RoundTrips;
    if events == [] {
      NoLinks(c);
    } else {
      var s, e := Run(c, events[..|events| - 1]), events[|events| - 1];
      LinksStayDistinct(c, events[..|events| - 1]);
      VaultMatchesMemory(c, events[..|events| - 1]);
      NextKeepsLinks(c, s, e);
    }
  }

  lemma NoLinks(c: Codec)
    ensures DistinctLinks(Run(c, []).book.records)
  {
  }

  lemma NextKeepsLinks(c: Codec, s: System, e: Event)
    requires RoundTrips(c) && Consistent(c, s.book) && Sane(s, e) && DistinctLinks(s.book.records)
    ensures DistinctLinks(Next(c, s, e).book.records)
  {
    if e.End? {
      ConsistentAt(c, s.book, e.fetch.id);
      EndKeepsLinks(c, s.book, e.fetch.id, e.fetch.link, e.got, e.now, e.stored, e.noted);
      hide AfterEnd, Consistent, DistinctLinks;
    } else if e.Save? {
      ConsistentAt(c, s.book, "");
      ConsistentAt(c, s.book, e.input.id);
      SaveKeepsLinksDistinct(c, s.book, e.input, e.fresh_, e.now, e.writable);
      hide AfterSave, Consistent, DistinctLinks;
    } else if e.Restart? {
      ReloadKeepsTheBook(c, s.book);
      hide Reloaded, Consistent, DistinctLinks;
    } else {
      hide Consistent;
    }
  }
}
