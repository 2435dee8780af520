/**
 * The vault file under the subscription book: references become names, the file is shared with
 * imports made by hand, and a write that the vault refuses changes nothing.
 */
module VaultFile {
  import opened References
  import opened Subscriptions
  import Text
  import Vault

  type File = map<string, Bytes>

  predicate AllFormed(refs: set<Ref>) { forall r :: r in refs ==> WellFormed(r) }

  function NameSet(refs: set<Ref>): set<string> { set r | r in refs :: Render(r) }

  ghost function Owner(refs: set<Ref>, name: string): (r: Ref)
    requires name in NameSet(refs)
    ensures r in refs && Render(r) == name
  {
    var r :| r in refs && Render(r) == name; r
  }

  /** A set of changes under the names the vault sees. */
  ghost function Named(puts: map<Ref, Bytes>): File
  {
    map n | n in NameSet(puts.Keys) :: puts[Owner(puts.Keys, n)]
  }

  lemma NameHolds(puts: map<Ref, Bytes>, r: Ref)
    requires AllFormed(puts.Keys) && r in puts
    ensures Render(r) in Named(puts) && Named(puts)[Render(r)] == puts[r]
  {
    hide Render, WellFormed;
    assert Render(r) in NameSet(puts.Keys);
    RenderIsInjective(r, Owner(puts.Keys, Render(r)));
  }

  lemma NameMissing(refs: set<Ref>, r: Ref)
    requires AllFormed(refs) && WellFormed(r) && r !in refs
    ensures Render(r) !in NameSet(refs)
  {
    hide Render, WellFormed;
    if Render(r) in NameSet(refs) { RenderIsInjective(r, Owner(refs, Render(r))); }
  }

  predicate Ours(name: string) { HasPrefix(name, "u1_") }

  lemma NamesAreOurs(r: Ref)
    ensures Ours(Render(r))
  {
    assert Render(r) == "u1_" + (r.id + Tail(r));
  }

  /** The subscription section of the file is the rendered vault: nothing missing, nothing else, same bytes. */
  ghost predicate Mirrors(file: File, vault: map<Ref, Bytes>)
  {
    && AllFormed(vault.Keys)
    && (forall r :: r in vault ==> Render(r) in file && file[Render(r)] == vault[r])
    && (forall n :: n in file && Ours(n) ==> n in NameSet(vault.Keys))
  }

  lemma MirrorsExactly(file: File, vault: map<Ref, Bytes>, r: Ref)
    requires Mirrors(file, vault) && WellFormed(r)
    ensures (r in vault <==> Render(r) in file) && (r in vault ==> file[Render(r)] == vault[r])
  {
    NamesAreOurs(r);
    hide Render, WellFormed, Ours;
    if r !in vault { NameMissing(vault.Keys, r); }
  }

  ghost function Rewritten(file: File, puts: map<Ref, Bytes>, deletes: set<Ref>): File
  {
    Vault.Changed(file, Named(puts), NameSet(deletes))
  }

  /** The change of one entry. */
  lemma EntryAfter(file: File, vault: map<Ref, Bytes>, puts: map<Ref, Bytes>, deletes: set<Ref>, r: Ref)
    requires Mirrors(file, vault) && AllFormed(puts.Keys) && AllFormed(deletes) && r in Vault.Changed(vault, puts, deletes)
    ensures WellFormed(r) && Render(r) in Rewritten(file, puts, deletes)
    ensures Rewritten(file, puts, deletes)[Render(r)] == Vault.Changed(vault, puts, deletes)[r]
  {
    hide Render, WellFormed, Named, NameSet;
    if r in puts {
      NameHolds(puts, r);
    } else {
      NameMissing(puts.Keys, r);
      NameMissing(deletes, r);
      assert Named(puts).Keys == NameSet(puts.Keys) by { NamedKeys(puts); }
    }
  }

  lemma NamedKeys(puts: map<Ref, Bytes>)
    ensures Named(puts).Keys == NameSet(puts.Keys)
  {
  }

  lemma NameAfter(file: File, vault: map<Ref, Bytes>, puts: map<Ref, Bytes>, deletes: set<Ref>, n: string)
    requires Mirrors(file, vault) && n in Rewritten(file, puts, deletes) && Ours(n)
    ensures n in NameSet(Vault.Changed(vault, puts, deletes).Keys)
  {
    hide Render, WellFormed, Ours;
    var after := Vault.Changed(vault, puts, deletes).Keys;
    var r := if n in Named(puts) then Owner(puts.Keys, n) else Owner(vault.Keys, n);
    if n !in Named(puts) { assert r !in deletes; }
    assert r in after;
  }

  /** One write of the file does to the section what the change does to the vault. */
  lemma WriteMirrors(file: File, vault: map<Ref, Bytes>, puts: map<Ref, Bytes>, deletes: set<Ref>)
    requires Mirrors(file, vault) && AllFormed(puts.Keys) && AllFormed(deletes)
    ensures Mirrors(Rewritten(file, puts, deletes), Vault.Changed(vault, puts, deletes))
  {
    var next, after := Rewritten(file, puts, deletes), Vault.Changed(vault, puts, deletes);
    forall r | r in after ensures WellFormed(r) && Render(r) in next && next[Render(r)] == after[r] {
      EntryAfter(file, vault, puts, deletes, r);
    }
    forall n | n in next && Ours(n) ensures n in NameSet(after.Keys) {
      NameAfter(file, vault, puts, deletes, n);
    }
    hide Rewritten, Render, WellFormed, Ours, NameSet;
  }

  /** Names of other owners stay as they were. */
  lemma WriteLeavesOthers(file: File, puts: map<Ref, Bytes>, deletes: set<Ref>, n: string)
    requires !Ours(n)
    ensures var next := Rewritten(file, puts, deletes);
            (n in next <==> n in file) && (n in file ==> next[n] == file[n])
  {
    forall r: Ref ensures Render(r) != n { NamesAreOurs(r); }
    hide Render, Ours;
  }

  // ---- Limits ----

  /** What the vault holds: valid names, secrets of a storable size, and not too many. */
  predicate WithinLimits(file: File)
  {
    |file| <= Vault.MAX_SECRETS && forall n :: n in file ==> Vault.ValidReference(n) && Vault.Storable(file[n])
  }

  /** The vault takes the change. */
  ghost predicate Fits(file: File, puts: map<Ref, Bytes>, deletes: set<Ref>)
  {
    && Vault.Acceptable(Named(puts), NameSet(deletes))
    && |Rewritten(file, puts, deletes)| <= Vault.MAX_SECRETS
  }

  lemma FittingWriteKeepsLimits(file: File, puts: map<Ref, Bytes>, deletes: set<Ref>)
    requires WithinLimits(file) && Fits(file, puts, deletes)
    ensures WithinLimits(Rewritten(file, puts, deletes))
  {
    hide Named, NameSet, Vault.ValidReference;
  }

  /** A chunk number short enough for a name. */
  predicate ShortPart(r: Ref) { r.Part? ==> |Text.Itoa(r.part)| <= 43 }

  lemma NamesAreValid(refs: set<Ref>)
    requires AllFormed(refs) && forall r :: r in refs ==> ShortPart(r)
    ensures forall n :: n in NameSet(refs) ==> Vault.ValidReference(n)
  {
    forall n | n in NameSet(refs) ensures Vault.ValidReference(n) {
      hide Render, WellFormed, ShortPart, Vault.ValidReference;
      ReferencesAreValid(Owner(refs, n));
    }
  }

  lemma SameMaterials(puts: map<Ref, Bytes>)
    requires AllFormed(puts.Keys)
    ensures (forall n :: n in Named(puts) ==> Vault.Storable(Named(puts)[n])) <==> (forall r :: r in puts ==> Vault.Storable(puts[r]))
  {
    forall r | r in puts ensures Render(r) in Named(puts) && Named(puts)[Render(r)] == puts[r] { NameHolds(puts, r); }
    hide Render, WellFormed, Vault.Storable;
  }

  /** A change is refused for the size of an entry or the number of entries, and for nothing else. */
  lemma FitsExactly(file: File, puts: map<Ref, Bytes>, deletes: set<Ref>)
    requires AllFormed(puts.Keys) && AllFormed(deletes)
    requires forall r :: r in puts || r in deletes ==> ShortPart(r)
    ensures Fits(file, puts, deletes) <==>
            (forall r :: r in puts ==> Vault.Storable(puts[r])) && |Rewritten(file, puts, deletes)| <= Vault.MAX_SECRETS
  {
    NamesAreValid(puts.Keys);
    NamesAreValid(deletes);
    SameMaterials(puts);
    NamedKeys(puts);
    hide Rewritten, AllFormed, Named, NameSet, Vault.ValidReference, Vault.Storable;
    assert Vault.Acceptable(Named(puts), NameSet(deletes)) <==> forall n :: n in Named(puts) ==> Vault.Storable(Named(puts)[n]);
  }

  // ---- The writes of the book ----

  function RecordPut(c: Codec, rec: Record): map<Ref, Bytes> { map[Rec(rec.id) := c.record(rec)] }

  /** Whether the write of a step happens: the file can be written and the vault takes the change. */
  ghost predicate SaveWrites(c: Codec, file: File, b: Book, input: SaveInput, fresh_: Id, now: int, writable: bool)
  {
    writable && Refusal(b, input).None? && Fits(file, RecordPut(c, Edited(b, input, fresh_, now)), {})
  }

  ghost predicate DeleteWrites(file: File, b: Book, id: Id, writable: bool)
  {
    writable && id in b.records && Fits(file, map[], Everything(b.records[id]))
  }

  ghost predicate UpdateWrites(c: Codec, file: File, next: Record, info: string, servers: seq<Server>, writable: bool)
  {
    writable && Fits(file, UpdatePuts(c, next, info, servers), UpdateDeletes(c, next, servers))
  }

  ghost predicate NoteWrites(c: Codec, file: File, next: Record, f: Fetched, writable: bool)
  {
    writable && Fits(file, RecordPut(c, Failing(next, f)), {})
  }

  ghost predicate EndStores(c: Codec, file: File, b: Book, id: Id, link: string, f: Fetched, now: int, stored: bool)
  {
    Current(b, id, link) && f.Listed?
    && UpdateWrites(c, file, b.records[id].(attempted := now), f.info, f.servers, stored)
  }

  ghost predicate EndNotes(c: Codec, file: File, b: Book, id: Id, link: string, f: Fetched, now: int, noted: bool)
  {
    Current(b, id, link) && NoteWrites(c, file, b.records[id].(attempted := now), f, noted)
  }

  ghost function FileAfterSave(c: Codec, file: File, b: Book, input: SaveInput, fresh_: Id, now: int, writable: bool): File
  {
    if SaveWrites(c, file, b, input, fresh_, now, writable)
    then Rewritten(file, RecordPut(c, Edited(b, input, fresh_, now)), {}) else file
  }

  ghost function FileAfterDelete(file: File, b: Book, id: Id, writable: bool): File
  {
    if DeleteWrites(file, b, id, writable) then Rewritten(file, map[], Everything(b.records[id])) else file
  }

  ghost function FileAfterEnd(c: Codec, file: File, b: Book, id: Id, link: string, f: Fetched, now: int, stored: bool, noted: bool): File
  {
    if EndStores(c, file, b, id, link, f, now, stored) then
      var next := b.records[id].(attempted := now);
      Rewritten(file, UpdatePuts(c, next, f.info, f.servers), UpdateDeletes(c, next, f.servers))
    else if EndNotes(c, file, b, id, link, f, now, noted) then
      Rewritten(file, RecordPut(c, Failing(b.records[id].(attempted := now), f)), {})
    else file
  }

  /** The book with the file under it. */
  datatype Desk = Desk(book: Book, file: File, closed: bool)

  ghost predicate Takes(d: Desk, puts: map<Ref, Bytes>, deletes: set<Ref>, writable: bool)
  {
    writable && !d.closed && Fits(d.file, puts, deletes)
  }

  /** One vault write: all of it, or nothing. */
  ghost function Wrote(d: Desk, puts: map<Ref, Bytes>, deletes: set<Ref>, ok: bool): Desk
  {
    if ok then d.(book := d.book.(vault := Vault.Changed(d.book.vault, puts, deletes)), file := Rewritten(d.file, puts, deletes))
    else d
  }

  ghost function Without(d: Desk, id: Id): Desk
  {
    d.(book := d.book.(records := d.book.records - {id}, lists := d.book.lists - {id}))
  }

  ghost function DeskAfterSave(c: Codec, d: Desk, input: SaveInput, fresh_: Id, now: int, writable: bool): Desk
  {
    var ok := SaveWrites(c, d.file, d.book, input, fresh_, now, writable && !d.closed);
    d.(book := AfterSave(c, d.book, input, fresh_, now, ok),
       file := FileAfterSave(c, d.file, d.book, input, fresh_, now, writable && !d.closed))
  }

  ghost function DeskAfterDelete(d: Desk, id: Id, writable: bool): Desk
  {
    var ok := DeleteWrites(d.file, d.book, id, writable && !d.closed);
    d.(book := AfterDelete(d.book, id, ok), file := FileAfterDelete(d.file, d.book, id, writable && !d.closed))
  }

  ghost function DeskAfterEnd(c: Codec, d: Desk, id: Id, link: string, f: Fetched, now: int, stored: bool, noted: bool): Desk
  {
    var put := EndStores(c, d.file, d.book, id, link, f, now, stored && !d.closed);
    var note := EndNotes(c, d.file, d.book, id, link, f, now, noted && !d.closed);
    d.(book := AfterEnd(c, d.book, id, link, f, now, put, note),
       file := FileAfterEnd(c, d.file, d.book, id, link, f, now, stored && !d.closed, noted && !d.closed))
  }

  /** Records carry their own hex id and name servers by hex digests. */
  ghost predicate WellKept(records: map<Id, Record>)
  {
    forall id :: id in records ==>
      records[id].id == id && Hex(id, ID_LENGTH) && forall d :: d in records[id].servers ==> Hex(d, DIGEST_LENGTH)
  }

  lemma ConsistentIsWellKept(c: Codec, b: Book)
    requires Consistent(c, b)
    ensures WellKept(b.records)
  {
    hide Names, Hex, Chunks;
    forall id | id in b.records
      ensures b.records[id].id == id && Hex(id, ID_LENGTH) && forall d :: d in b.records[id].servers ==> Hex(d, DIGEST_LENGTH)
    {
      assert Stored(c, b, id);
    }
  }

  lemma EditedKeepsItsId(b: Book, input: SaveInput, fresh_: Id, now: int)
    requires WellKept(b.records) && Hex(fresh_, ID_LENGTH) && Refusal(b, input).None?
    ensures var rec := Edited(b, input, fresh_, now); Hex(rec.id, ID_LENGTH) && WellKept(b.records[rec.id := rec])
  {
    hide Hex;
  }

  lemma EverythingIsFormed(records: map<Id, Record>, id: Id)
    requires WellKept(records) && id in records
    ensures AllFormed(Everything(records[id]))
  {
    hide Hex;
  }

  lemma UpdateIsFormed(c: Codec, rec: Record, info: string, servers: seq<Server>)
    requires Hex(rec.id, ID_LENGTH) && forall d :: d in rec.servers ==> Hex(d, DIGEST_LENGTH)
    requires forall i :: 0 <= i < |servers| ==> Hex(servers[i].digest, DIGEST_LENGTH)
    ensures AllFormed(UpdatePuts(c, rec, info, servers).Keys) && AllFormed(UpdateDeletes(c, rec, servers))
  {
    hide Hex, UpdatePuts, Chunks;
    forall r | r in UpdatePuts(c, rec, info, servers) ensures WellFormed(r) { UpdateKeys(c, rec, info, servers, r); }
  }

  lemma UpdatedIsWellKept(c: Codec, records: map<Id, Record>, rec: Record, info: string, servers: seq<Server>)
    requires WellKept(records) && Hex(rec.id, ID_LENGTH)
    requires forall i :: 0 <= i < |servers| ==> Hex(servers[i].digest, DIGEST_LENGTH)
    ensures WellKept(records[rec.id := Updated(c, rec, info, servers)])
  {
    hide Hex, Sorted, Chunks;
    forall d | d in Sorted(Digests(servers)) ensures Hex(d, DIGEST_LENGTH) { SortedKeepsMembers(Digests(servers), d); }
  }

  lemma SaveMirrors(c: Codec, file: File, b: Book, input: SaveInput, fresh_: Id, now: int, writable: bool)
    requires Mirrors(file, b.vault) && WellKept(b.records) && Hex(fresh_, ID_LENGTH)
    ensures var ok := SaveWrites(c, file, b, input, fresh_, now, writable);
            Mirrors(FileAfterSave(c, file, b, input, fresh_, now, writable), AfterSave(c, b, input, fresh_, now, ok).vault)
  {
    hide Mirrors, Rewritten, Fits, Vault.Changed, WellKept, Edited, Hex;
    if SaveWrites(c, file, b, input, fresh_, now, writable) {
      EditedKeepsItsId(b, input, fresh_, now);
      WriteMirrors(file, b.vault, RecordPut(c, Edited(b, input, fresh_, now)), {});
    }
  }

  lemma DeleteMirrors(file: File, b: Book, id: Id, writable: bool)
    requires Mirrors(file, b.vault) && WellKept(b.records)
    ensures Mirrors(FileAfterDelete(file, b, id, writable), AfterDelete(b, id, DeleteWrites(file, b, id, writable)).vault)
  {
    hide Mirrors, Rewritten, Fits, Vault.Changed, WellKept, Everything;
    if DeleteWrites(file, b, id, writable) {
      EverythingIsFormed(b.records, id);
      WriteMirrors(file, b.vault, map[], Everything(b.records[id]));
    }
  }

  lemma EndMirrors(c: Codec, file: File, b: Book, id: Id, link: string, f: Fetched, now: int, stored: bool, noted: bool)
    requires Mirrors(file, b.vault) && WellKept(b.records) && GoodServers(f)
    ensures var put := EndStores(c, file, b, id, link, f, now, stored);
            var note := EndNotes(c, file, b, id, link, f, now, noted);
            Mirrors(FileAfterEnd(c, file, b, id, link, f, now, stored, noted), AfterEnd(c, b, id, link, f, now, put, note).vault)
  {
    hide Mirrors, Rewritten, UpdateWrites, NoteWrites, Vault.Changed, UpdatePuts, UpdateDeletes, Updated, Hex;
    if Current(b, id, link) {
      var next := b.records[id].(attempted := now);
      if EndStores(c, file, b, id, link, f, now, stored) {
        UpdateIsFormed(c, next, f.info, f.servers);
        WriteMirrors(file, b.vault, UpdatePuts(c, next, f.info, f.servers), UpdateDeletes(c, next, f.servers));
      } else if EndNotes(c, file, b, id, link, f, now, noted) {
        WriteMirrors(file, b.vault, RecordPut(c, Failing(next, f)), {});
      }
    }
  }
}
