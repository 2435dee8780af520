/** What becomes of a refresh when its subscription changes while the fetch is running. */
module RefreshRaces {
  import opened Text
  import opened References
  import opened Subscriptions
  import opened SubscriptionRuns
  import Vault

  /** Vault, records and lists are as they were; only the mark of the ended fetch may be gone. */
  predicate Untouched(s: System, v: System)
  {
    && v.book.vault == s.book.vault && v.book.records == s.book.records && v.book.lists == s.book.lists
    && v.documents == s.documents
  }

  lemma ReachableNext(c: Codec, s: System, e: Event)
    requires Reachable(c, s) && Sane(s, e)
    ensures Reachable(c, Next(c, s, e))
  {
    hide Next, Sane;
    var events :| SaneFrom(c, NEW, events) && Run(c, events) == s;
    var longer := events + [e];
    assert longer[..|longer| - 1] == events;
    assert SaneFrom(c, NEW, longer) && Run(c, longer) == Next(c, s, e);
  }

  lemma {:induction false} ReachableRun(c: Codec, s: System, events: seq<Event>)
    requires Reachable(c, s) && SaneFrom(c, s, events)
    ensures Reachable(c, RunFrom(c, s, events))
  {
    hide Reachable, Next, Sane;
    if events != [] {
      ReachableRun(c, s, events[..|events| - 1]);
      ReachableNext(c, RunFrom(c, s, events[..|events| - 1]), events[|events| - 1]);
    }
  }

  // ---- The end of one refresh ----

  /**
   * The answer brings what is there already: the same information, servers, list and documents, for a
   * record whose last attempt and last success carry this very time and that has no failure on it.
   */
  predicate Repeats(s: System, id: Id, f: Fetched, now: int)
    requires id in s.book.records && f.Listed?
  {
    var rec := s.book.records[id];
    && rec.info == f.info && rec.servers == Sorted(Digests(f.servers))
    && id in s.book.lists && s.book.lists[id] == Specs(f.servers)
    && rec.attempted == now && rec.succeeded == now && rec.failures == 0 && rec.error == None
    && forall d :: d in Digests(f.servers) ==>
         Cred(id, d) in s.documents && s.documents[Cred(id, d)] == LastWith(f.servers, d)
  }

  /** Storing the update would leave book and documents as they are. */
  predicate StoresNothingNew(c: Codec, s: System, id: Id, f: Fetched, now: int)
    requires id in s.book.records && f.Listed?
  {
    && AfterUpdate(c, s.book, s.book.records[id].(attempted := now), f.info, f.servers) == s.book
    && Without(s.documents, id) + DocumentsOf(id, f.servers) == s.documents
  }

  lemma NothingNewRepeats(c: Codec, s: System, id: Id, f: Fetched, now: int)
    requires id in s.book.records && s.book.records[id].id == id && f.Listed? && StoresNothingNew(c, s, id, f, now)
    ensures Repeats(s, id, f, now)
  {
    hide Chunks, Sorted, UpdatePuts, UpdateDeletes, LastWith;
    var rec := s.book.records[id];
    assert s.book.records[id] == Updated(c, rec.(attempted := now), f.info, f.servers);
    assert s.book.lists[id] == Specs(f.servers);
    forall d | d in Digests(f.servers) ensures Cred(id, d) in s.documents && s.documents[Cred(id, d)] == LastWith(f.servers, d) {
      DocumentsAre(id, f.servers, Cred(id, d));
    }
  }

  lemma SameRecord(c: Codec, s: System, id: Id, f: Fetched, now: int)
    requires id in s.book.records && Stored(c, s.book, id) && f.Listed? && Repeats(s, id, f, now)
    ensures Updated(c, s.book.records[id].(attempted := now), f.info, f.servers) == s.book.records[id]
  {
    hide Chunks, Sorted, LastWith;
  }

  lemma RepeatStoresNothingNew(c: Codec, s: System, id: Id, f: Fetched, now: int)
    requires RoundTrips(c) && Consistent(c, s.book) && Documented(s)
    requires id in s.book.records && f.Listed? && Repeats(s, id, f, now)
    ensures StoresNothingNew(c, s, id, f, now)
  {
    hide Consistent, RoundTrips, Stored, Documented, NamedAt, Repeats, StoresNothingNew, AfterUpdate, Updated, Without, DocumentsOf;
    ConsistentAt(c, s.book, id);
    StoredUnderItsId(c, s.book, id);
    SameRecord(c, s, id, f, now);
    SameVault(c, s, id, f, now);
    SameDocuments(c, s, id, f, now);
    NothingNew(c, s, id, f, now);
  }

  lemma NothingNew(c: Codec, s: System, id: Id, f: Fetched, now: int)
    requires id in s.book.records && s.book.records[id].id == id && f.Listed? && Repeats(s, id, f, now)
    requires var next := s.book.records[id].(attempted := now);
             Updated(c, next, f.info, f.servers) == s.book.records[id] && AfterUpdate(c, s.book, next, f.info, f.servers).vault == s.book.vault
    requires Without(s.documents, id) + DocumentsOf(id, f.servers) == s.documents
    ensures StoresNothingNew(c, s, id, f, now)
  {
    hide Updated, UpdatePuts, UpdateDeletes, Without, DocumentsOf, LastWith, Sorted;
    var next := s.book.records[id].(attempted := now);
    var v := AfterUpdate(c, s.book, next, f.info, f.servers);
    assert v.records == s.book.records && v.lists == s.book.lists;
  }

  lemma SameVault(c: Codec, s: System, id: Id, f: Fetched, now: int)
    requires id in s.book.records && s.book.records[id].id == id && f.Listed? && Repeats(s, id, f, now)
    requires NamedAt(s.book, id) && Stored(c, s.book, id) && Documented(s)
    requires Updated(c, s.book.records[id].(attempted := now), f.info, f.servers) == s.book.records[id]
    ensures AfterUpdate(c, s.book, s.book.records[id].(attempted := now), f.info, f.servers).vault == s.book.vault
  {
    hide Chunks, Sorted, UpdatePuts, UpdateDeletes, LastWith;
    var b, next := s.book, s.book.records[id].(attempted := now);
    var v := AfterUpdate(c, b, next, f.info, f.servers);
    forall i | 0 <= i < |f.servers| ensures Hex(f.servers[i].digest, DIGEST_LENGTH) {
      assert Digests(f.servers)[i] == f.servers[i].digest;
      SortedKeepsMembers(Digests(f.servers), f.servers[i].digest);
    }
    UpdateAt(c, b, next, f.info, f.servers);
    UpdateElsewhere(c, b, next, f.info, f.servers);
    assert v.records == b.records && ListOf(v.lists, id) == ListOf(b.lists, id);
    forall r: Ref ensures (r in v.vault <==> r in b.vault) && (r in b.vault ==> v.vault[r] == b.vault[r]) {
      if r.id == id && r in b.vault && r.Cred? {
        assert Names(b.records, r);
        SortedKeepsMembers(Digests(f.servers), r.digest);
        var k := LastDocument(f.servers, r.digest);
        UpdateWritesDocument(c, b, next, f.info, f.servers, k);
      }
      hide AfterUpdate, Repeats;
    }
  }

  lemma SameDocuments(c: Codec, s: System, id: Id, f: Fetched, now: int)
    requires id in s.book.records && f.Listed? && Repeats(s, id, f, now) && NamedAt(s.book, id) && Documented(s)
    ensures Without(s.documents, id) + DocumentsOf(id, f.servers) == s.documents
  {
    hide Sorted, LastWith, Specs;
    var after := Without(s.documents, id) + DocumentsOf(id, f.servers);
    forall r ensures (r in after <==> r in s.documents) && (r in s.documents ==> after[r] == s.documents[r]) {
      DocumentsAre(id, f.servers, r);
      if r.Cred? && r.id == id {
        assert r in s.book.vault <==> Names(s.book.records, r);
        SortedKeepsMembers(Digests(f.servers), r.digest);
      }
    }
  }

  /**
   * The end of a refresh changes nothing exactly when the subscription is gone or has another link,
   * when no write succeeds, or when the update repeats what is stored with the same time stamp.
   */
  lemma EndChangesNothingExactly(c: Codec, s: System, fetch: Fetch, got: Fetched, now: int, stored: bool, noted: bool)
    requires RoundTrips(c) && Reachable(c, s) && fetch in s.fetches
    ensures Untouched(s, Next(c, s, End(fetch, got, now, stored, noted))) <==>
              (|| !Current(s.book, fetch.id, fetch.link)
               || (!(got.Listed? && stored) && !noted)
               || (got.Listed? && stored && Repeats(s, fetch.id, got, now)))
  {
    hide RoundTrips, Reachable, Consistent, Documented, OneFetchEach, NoStaleMark, DistinctLinks, Next;
    ReachableIsConsistent(c, s);
    ConsistentAt(c, s.book, fetch.id);
    hide Stored, NamedAt, AfterUpdate, Without, DocumentsOf, Repeats;
    if Current(s.book, fetch.id, fetch.link) {
      var id := fetch.id;
      StoredUnderItsId(c, s.book, id);
      if got.Listed? && stored {
        StoredEndIs(c, s, fetch, got, now, noted);
        if Repeats(s, id, got, now) { RepeatStoresNothingNew(c, s, id, got, now); }
        if StoresNothingNew(c, s, id, got, now) { NothingNewRepeats(c, s, id, got, now); }
      } else {
        if noted { NotedEnd(c, s, fetch, got, now, stored); } else { UnwrittenEnd(c, s, fetch, got, now, stored); }
      }
    } else {
      Discarded(c, s, fetch, got, now, stored, noted);
    }
  }

  lemma UnwrittenEnd(c: Codec, s: System, fetch: Fetch, got: Fetched, now: int, stored: bool)
    requires Current(s.book, fetch.id, fetch.link) && fetch in s.fetches && !(got.Listed? && stored)
    ensures Untouched(s, Next(c, s, End(fetch, got, now, stored, false)))
  {
    hide Without, DocumentsOf, AfterUpdate, Persisted;
  }

  lemma StoredUnderItsId(c: Codec, b: Book, id: Id)
    requires id in b.records && Stored(c, b, id)
    ensures b.records[id].id == id
  {
    hide Chunks;
  }

  lemma StoredEndIs(c: Codec, s: System, fetch: Fetch, got: Fetched, now: int, noted: bool)
    requires Current(s.book, fetch.id, fetch.link) && fetch in s.fetches && got.Listed?
    ensures var v := Next(c, s, End(fetch, got, now, true, noted));
            var u := AfterUpdate(c, s.book, s.book.records[fetch.id].(attempted := now), got.info, got.servers);
            && v.book.records == u.records && v.book.lists == u.lists && v.book.vault == u.vault && u.updating == s.book.updating
            && v.documents == Without(s.documents, fetch.id) + DocumentsOf(fetch.id, got.servers)
  {
    hide Updated, UpdatePuts, UpdateDeletes, Without, DocumentsOf;
  }

  lemma NotedEnd(c: Codec, s: System, fetch: Fetch, got: Fetched, now: int, stored: bool)
    requires Current(s.book, fetch.id, fetch.link) && fetch in s.fetches && !(got.Listed? && stored)
    requires s.book.records[fetch.id].id == fetch.id
    ensures var v := Next(c, s, End(fetch, got, now, stored, true));
            fetch.id in v.book.records && v.book.records[fetch.id].failures == s.book.records[fetch.id].failures + 1
  {
  }

  // ---- Overtaken ----

  /** The fetch is neither ended nor lost in these events. */
  predicate StillRunning(fetch: Fetch, events: seq<Event>)
  {
    forall i :: 0 <= i < |events| ==> !events[i].Restart? && !(events[i].End? && events[i].fetch == fetch)
  }

  /** A save that gives the subscription this link. */
  predicate ReturnsTo(e: Event, id: Id, link: string)
  {
    e.Save? && e.input.id == id && e.input.link == link
  }

  lemma FetchStays(c: Codec, s: System, e: Event, fetch: Fetch)
    requires fetch in s.fetches && !e.Restart? && !(e.End? && e.fetch == fetch)
    ensures fetch in Next(c, s, e).fetches
  {
    hide AfterSave, AfterDelete, AfterEnd, AfterBegin, Without, DocumentsOf;
  }

  /** While the fetch runs, only a save of the old link makes its subscription current again. */
  lemma OnlyASaveReturns(c: Codec, s: System, e: Event, fetch: Fetch)
    requires RoundTrips(c) && Reachable(c, s) && Sane(s, e) && fetch in s.fetches && !e.Restart?
    requires !Current(s.book, fetch.id, fetch.link) && !ReturnsTo(e, fetch.id, fetch.link)
    ensures !Current(Next(c, s, e).book, fetch.id, fetch.link)
    ensures fetch.id !in s.book.records ==> fetch.id !in Next(c, s, e).book.records
  {
    hide RoundTrips, Reachable, Consistent, Documented, NoStaleMark, DistinctLinks;
    ReachableIsConsistent(c, s);
    match e
    case Save(input, fresh_, now, writable) =>
      SaveReturnsOnlyByLink(c, s, input, fresh_, now, writable, fetch);
    case End(other, got, now, stored, noted) =>
      if other in s.fetches {
        ConsistentAt(c, s.book, other.id);
        hide OneFetchEach;
        KeptLinks(c, s, e, other);
      }
    case _ =>
  }

  lemma KeptLinks(c: Codec, s: System, e: Event, other: Fetch)
    requires e.End? && e.fetch == other && other in s.fetches && (other.id in s.book.records ==> Stored(c, s.book, other.id))
    ensures var v := Next(c, s, e).book;
            v.records.Keys == s.book.records.Keys && forall o :: o in s.book.records ==> v.records[o].url == s.book.records[o].url
  {
    if other.id in s.book.records { StoredUnderItsId(c, s.book, other.id); }
    EndKeepsLinks(c, s.book, other.id, other.link, e.got, e.now, e.stored, e.noted);
    hide AfterEnd, Stored;
  }

  lemma SaveReturnsOnlyByLink(c: Codec, s: System, input: SaveInput, fresh_: Id, now: int, writable: bool, fetch: Fetch)
    requires Consistent(c, s.book) && OneFetchEach(s) && fetch in s.fetches && fresh_ !in s.book.updating
    requires !Current(s.book, fetch.id, fetch.link) && !(input.id == fetch.id && input.link == fetch.link)
    ensures var v := AfterSave(c, s.book, input, fresh_, now, writable);
            !Current(v, fetch.id, fetch.link) && (fetch.id !in s.book.records ==> fetch.id !in v.records)
  {
    assert fetch.id in s.book.updating && fresh_ != fetch.id;
    if input.id in s.book.records {
      ConsistentAt(c, s.book, input.id);
      StoredUnderItsId(c, s.book, input.id);
    }
    hide Consistent, OneFetchEach, Stored;
  }

  lemma {:induction false} StaysOvertaken(c: Codec, s: System, events: seq<Event>, fetch: Fetch)
    requires RoundTrips(c) && Reachable(c, s) && SaneFrom(c, s, events) && fetch in s.fetches && StillRunning(fetch, events)
    requires !Current(s.book, fetch.id, fetch.link)
    requires fetch.id !in s.book.records || forall i :: 0 <= i < |events| ==> !ReturnsTo(events[i], fetch.id, fetch.link)
    ensures var v := RunFrom(c, s, events);
            && Reachable(c, v) && fetch in v.fetches && !Current(v.book, fetch.id, fetch.link)
            && (fetch.id !in s.book.records ==> fetch.id !in v.book.records)
  {
    hide RoundTrips, Reachable, Next, Sane, Current;
    if events != [] {
      var front, e := events[..|events| - 1], events[|events| - 1];
      StaysOvertaken(c, s, front, fetch);
      var t := RunFrom(c, s, front);
      ReachableNext(c, t, e);
      FetchStays(c, t, e, fetch);
      if ReturnsTo(e, fetch.id, fetch.link) {
        AbsentIsNotFound(c, t, e, fetch);
      } else {
        OnlyASaveReturns(c, t, e, fetch);
      }
    }
  }

  lemma AbsentIsNotFound(c: Codec, s: System, e: Event, fetch: Fetch)
    requires RoundTrips(c) && Reachable(c, s) && Sane(s, e) && fetch in s.fetches
    requires fetch.id !in s.book.records && ReturnsTo(e, fetch.id, fetch.link)
    ensures fetch.id !in Next(c, s, e).book.records && !Current(Next(c, s, e).book, fetch.id, fetch.link)
  {
    hide RoundTrips, Reachable, Consistent, Documented, NoStaleMark, DistinctLinks;
    ReachableIsConsistent(c, s);
    assert fetch.id in s.book.updating;
  }

  /**
   * A refresh is discarded once its subscription has been deleted during the fetch, whatever is saved
   * later, and once it has been relinked unless a later save brings the old link back.
   */
  lemma OvertakenRefreshIsDiscarded(c: Codec, s: System, events: seq<Event>, fetch: Fetch,
                                    got: Fetched, now: int, stored: bool, noted: bool)
    requires RoundTrips(c) && Reachable(c, s) && SaneFrom(c, s, events) && fetch in s.fetches && StillRunning(fetch, events)
    requires !Current(s.book, fetch.id, fetch.link)
    requires fetch.id !in s.book.records || forall i :: 0 <= i < |events| ==> !ReturnsTo(events[i], fetch.id, fetch.link)
    ensures var v := RunFrom(c, s, events);
            Untouched(v, Next(c, v, End(fetch, got, now, stored, noted)))
  {
    hide Reachable, RoundTrips, Current, Next, Untouched, Repeats;
    StaysOvertaken(c, s, events, fetch);
    EndChangesNothingExactly(c, RunFrom(c, s, events), fetch, got, now, stored, noted);
  }

  // ---- Away and back ----

  const ID := "0123456789abcdef"
  const DIGEST := "0123456789abcdef01234567"
  const LINK_A := "https://a.example/sub"
  const LINK_B := "https://b.example/sub"
  const PLAIN := Settings("", "", true, 0)

  lemma SampleNames()
    ensures Hex(ID, ID_LENGTH) && Hex(DIGEST, DIGEST_LENGTH) && ID != ""
  {
  }

  lemma NewIsReachable(c: Codec)
    ensures Reachable(c, NEW)
  {
    assert SaneFrom(c, NEW, []) && Run(c, []) == NEW;
  }

  lemma Advance(c: Codec, s: System, e: Event) returns (v: System)
    requires Reachable(c, s) && Sane(s, e)
    ensures v == Next(c, s, e) && Reachable(c, v)
  {
    v := Next(c, s, e);
    ReachableNext(c, s, e);
  }

  /** A subscription with link A whose fetch is running, saved with link B meanwhile. */
  lemma RelinkedDuringFetch(c: Codec) returns (s: System)
    ensures Reachable(c, s) && s.fetches == multiset{Fetch(ID, LINK_A)}
    ensures s.book.records.Keys == {ID} && s.book.records[ID].url == LINK_B && s.book.records[ID].id == ID
    ensures s.book.records[ID].servers == [] && s.book.updating == {ID}
  {
    hide Reachable, Reloaded, Without, DocumentsOf, AfterSave;
    s := FirstSaved(c);
    s := Advance(c, s, Begin(ID));
    s := SavedOther(c, s, LINK_A, LINK_B);
  }

  lemma FirstSaved(c: Codec) returns (s: System)
    ensures Reachable(c, s) && s.fetches == multiset{} && s.book.updating == {}
    ensures s.book.records.Keys == {ID} && s.book.records[ID].url == LINK_A && s.book.records[ID].id == ID
    ensures s.book.records[ID].servers == []
  {
    SampleNames();
    NewIsReachable(c);
    hide Reachable, Reloaded, Without, DocumentsOf, Hex, Vault.Changed;
    var input := SaveInput("", LINK_A, PLAIN);
    assert Refusal(EMPTY, input) == None;
    s := Advance(c, NEW, Save(input, ID, 0, true));
    assert s.book == Persisted(c, EMPTY, Edited(EMPTY, input, ID, 0));
  }

  lemma SavedOther(c: Codec, s: System, old_: string, link: string) returns (v: System)
    requires Reachable(c, s) && s.book.records.Keys == {ID} && s.book.records[ID].url == old_ != link && link != ""
    requires s.book.records[ID].id == ID && s.book.records[ID].servers == [] && s.book.updating == {ID}
    ensures Reachable(c, v) && v.fetches == s.fetches && v.book.updating == {ID}
    ensures v.book.records.Keys == {ID} && v.book.records[ID].url == link && v.book.records[ID].id == ID
    ensures v.book.records[ID].servers == []
  {
    hide Reachable, Reloaded, Without, DocumentsOf;
    var other := "fedcba9876543210";
    assert Hex(other, ID_LENGTH) && other[0] != ID[0];
    hide Hex;
    v := Advance(c, s, Save(SaveInput(ID, link, PLAIN), other, 0, true));
  }

  /** A link changed away and back during the fetch: the result is taken and its server stored. */
  lemma ReturnedLinkIsAccepted(c: Codec) returns (s: System, v: System)
    ensures Reachable(c, s) && Reachable(c, v) && Fetch(ID, LINK_A) in s.fetches
    ensures v == Next(c, s, End(Fetch(ID, LINK_A), Listed("", [Server("vless", DIGEST, [1])]), 1, true, true))
    ensures ID in s.book.records && s.book.records[ID].servers == []
    ensures ID in v.book.records && v.book.records[ID].servers == [DIGEST]
  {
    hide Reachable, Reloaded, Without, DocumentsOf, Hex, UpdatePuts, UpdateDeletes, Chunks;
    SampleNames();
    s := RelinkedDuringFetch(c);
    s := SavedOther(c, s, LINK_B, LINK_A);
    var got := Listed("", [Server("vless", DIGEST, [1])]);
    assert Digests(got.servers) == [DIGEST];
    assert Sorted([DIGEST]) == [DIGEST] by { assert [DIGEST][1..] == []; }
    v := Advance(c, s, End(Fetch(ID, LINK_A), got, 1, true, true));
  }

  // ---- A relinked subscription and its fetch ----

  predicate StartsFetch(s: System, v: System, fetch: Fetch) { v.fetches == s.fetches + multiset{fetch} }

  ghost predicate NoFetchOf(s: System, id: Id) { forall f :: f in s.fetches ==> f.id != id }

  /**
   * The refresh that a relinking save asks for starts a fetch exactly when none of that subscription
   * is in flight.
   */
  lemma RelinkFetchesUnlessUpdating(c: Codec, s: System, input: SaveInput, fresh_: Id, now: int)
    requires RoundTrips(c) && Reachable(c, s) && Sane(s, Save(input, fresh_, now, true))
    requires Refusal(s.book, input).None? && input.id != "" && Relinks(s.book, input)
    ensures var t := Next(c, s, Save(input, fresh_, now, true));
            StartsFetch(t, Next(c, t, Begin(input.id)), Fetch(input.id, input.link)) <==> NoFetchOf(s, input.id)
  {
    hide RoundTrips, Reachable, Consistent, Documented, DistinctLinks;
    ReachableIsConsistent(c, s);
    ConsistentAt(c, s.book, input.id);
    StoredUnderItsId(c, s.book, input.id);
    hide Stored;
    var t := Next(c, s, Save(input, fresh_, now, true));
    assert t.fetches == s.fetches && t.book.updating == s.book.updating;
    assert input.id in t.book.records && t.book.records[input.id].url == input.link;
    assert input.id in s.book.updating <==> exists f :: f in s.fetches && f.id == input.id;
    if input.id in s.book.updating {
      assert Next(c, t, Begin(input.id)) == t;
      assert |t.fetches| != |t.fetches + multiset{Fetch(input.id, input.link)}|;
    }
  }

  /** Only a Begin of the subscription puts a fetch of it in flight. */
  lemma {:induction false} NoFetchWithoutBegin(c: Codec, s: System, events: seq<Event>, id: Id)
    requires forall i :: 0 <= i < |events| ==> events[i] != Begin(id)
    ensures forall f :: f in RunFrom(c, s, events).fetches && f.id == id ==> f in s.fetches
  {
    if events != [] {
      var front, e := events[..|events| - 1], events[|events| - 1];
      NoFetchWithoutBegin(c, s, front, id);
      hide AfterSave, AfterDelete, AfterEnd, AfterBegin, Without, DocumentsOf, Reloaded;
      assert e != Begin(id);
    }
  }

  /**
   * After a relink during a fetch the new link is not fetched until the next Begin: the running fetch
   * is of the old link, its result is discarded, and its end starts nothing.
   */
  lemma RelinkedLinkWaits(c: Codec, s: System, events: seq<Event>, fetch: Fetch)
    requires RoundTrips(c) && Reachable(c, s) && fetch in s.fetches
    requires fetch.id in s.book.records && s.book.records[fetch.id].url != fetch.link
    requires forall i :: 0 <= i < |events| ==> events[i] != Begin(fetch.id)
    ensures forall f :: f in RunFrom(c, s, events).fetches && f.id == fetch.id ==> f == fetch
    ensures forall got, now, stored, noted ::
              var v := Next(c, s, End(fetch, got, now, stored, noted));
              Untouched(s, v) && v.fetches == s.fetches - multiset{fetch}
  {
    hide RoundTrips, Reachable, Consistent, Documented, NoStaleMark, DistinctLinks, RunFrom;
    NoFetchWithoutBegin(c, s, events, fetch.id);
    ReachableIsConsistent(c, s);
    assert forall f :: f in s.fetches && f.id == fetch.id ==> f == fetch;
    forall got, now, stored, noted
      ensures var v := Next(c, s, End(fetch, got, now, stored, noted));
              Untouched(s, v) && v.fetches == s.fetches - multiset{fetch}
    {
      Discarded(c, s, fetch, got, now, stored, noted);
    }
  }

  lemma Discarded(c: Codec, s: System, fetch: Fetch, got: Fetched, now: int, stored: bool, noted: bool)
    requires fetch in s.fetches && !Current(s.book, fetch.id, fetch.link)
    ensures var v := Next(c, s, End(fetch, got, now, stored, noted));
            Untouched(s, v) && v.fetches == s.fetches - multiset{fetch}
  {
    hide Without, DocumentsOf, AfterUpdate, Persisted;
  }

  /** Such a state occurs: link B is saved, the fetch of A is running, and no fetch of B can begin. */
  lemma RelinkMayWait(c: Codec) returns (s: System)
    ensures Reachable(c, s) && Fetch(ID, LINK_A) in s.fetches
    ensures ID in s.book.records && s.book.records[ID].url == LINK_B && !Begins(s.book, ID)
  {
    s := RelinkedDuringFetch(c);
  }
}
