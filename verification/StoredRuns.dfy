/**
 * Runs of the subscription book on the real vault file: every write can fail or be refused by the
 * limits of the vault, and imports made by hand share the file.
 */
module StoredRuns {
  import opened References
  import opened Subscriptions
  import opened VaultFile
  import Runs = SubscriptionRuns
  import Vault

  datatype World = World(system: Runs.System, file: File)

  /** A step of the book, where the flags say that the file can be written, or a write by someone else. */
  datatype Step = Booked(event: Runs.Event) | Foreign(puts: File, deletes: set<string>, writable: bool)

  /** The event with its writes granted only where the vault takes them. */
  ghost function Granted(c: Codec, w: World, e: Runs.Event): Runs.Event
  {
    var b := w.system.book;
    match e
    case Save(input, fresh_, now, writable) =>
      Runs.Save(input, fresh_, now, SaveWrites(c, w.file, b, input, fresh_, now, writable))
    case Delete(id, writable) => Runs.Delete(id, DeleteWrites(w.file, b, id, writable))
    case End(fetch, got, now, stored, noted) =>
      Runs.End(fetch, got, now, EndStores(c, w.file, b, fetch.id, fetch.link, got, now, stored),
               EndNotes(c, w.file, b, fetch.id, fetch.link, got, now, noted))
    case _ => e
  }

  ghost function FileAfter(c: Codec, w: World, e: Runs.Event): File
  {
    var b := w.system.book;
    match e
    case Save(input, fresh_, now, writable) => FileAfterSave(c, w.file, b, input, fresh_, now, writable)
    case Delete(id, writable) => FileAfterDelete(w.file, b, id, writable)
    case End(fetch, got, now, stored, noted) =>
      if fetch !in w.system.fetches then w.file
      else FileAfterEnd(c, w.file, b, fetch.id, fetch.link, got, now, stored, noted)
    case _ => w.file
  }

  ghost function Next(c: Codec, w: World, step: Step): World
  {
    match step
    case Booked(e) => World(Runs.Next(c, w.system, Granted(c, w, e)), FileAfter(c, w, e))
    case Foreign(puts, deletes, writable) =>
      var changed := Vault.Changed(w.file, puts, deletes);
      if writable && Vault.Acceptable(puts, deletes) && |changed| <= Vault.MAX_SECRETS then w.(file := changed) else w
  }

  ghost function Run(c: Codec, start: File, steps: seq<Step>): World
  {
    if steps == [] then World(Runs.NEW, start)
    else Next(c, Run(c, start, steps[..|steps| - 1]), steps[|steps| - 1])
  }

  /**
   * New identifiers are random hex in use by no record and no fetch, parsed servers carry hex digests,
   * and nobody else changes the subscription section.
   */
  ghost predicate Sane(w: World, step: Step)
  {
    match step
    case Booked(e) =>
      && (e.Save? ==> Hex(e.fresh_, ID_LENGTH) && e.fresh_ !in w.system.book.records && e.fresh_ !in w.system.book.updating)
      && (e.End? ==> GoodServers(e.got))
    case Foreign(puts, deletes, _) => LeavesSection(w.file, puts, deletes)
  }

  /** A write by someone else that changes no name of the section. */
  ghost predicate LeavesSection(file: File, puts: File, deletes: set<string>)
  {
    forall n :: Ours(n) ==>
      (n in puts ==> n in file && puts[n] == file[n]) && (n in deletes && n !in puts ==> n !in file)
  }

  ghost predicate SaneRun(c: Codec, start: File, steps: seq<Step>)
  {
    steps == [] || (SaneRun(c, start, steps[..|steps| - 1]) && Sane(Run(c, start, steps[..|steps| - 1]), steps[|steps| - 1]))
  }

  /** An update the vault took held storable documents only. */
  lemma GrantedIsSane(c: Codec, w: World, e: Runs.Event)
    requires Sane(w, Booked(e)) && WellKept(w.system.book.records)
    ensures Runs.Sane(w.system, Granted(c, w, e))
  {
    var g := Granted(c, w, e);
    if g.End? && g.got.Listed? && g.stored {
      var next := w.system.book.records[g.fetch.id].(attempted := g.now);
      assert Fits(w.file, UpdatePuts(c, next, g.got.info, g.got.servers), UpdateDeletes(c, next, g.got.servers));
      forall d | d in Digests(g.got.servers) ensures Vault.Storable(Runs.LastWith(g.got.servers, d)) {
        StoredDocumentFits(c, w.file, next, g.got.info, g.got.servers, d);
      }
    }
  }

  lemma StoredDocumentFits(c: Codec, file: File, next: Record, info: string, servers: seq<Server>, d: string)
    requires Hex(next.id, ID_LENGTH) && (forall o :: o in next.servers ==> Hex(o, DIGEST_LENGTH))
    requires forall i :: 0 <= i < |servers| ==> Hex(servers[i].digest, DIGEST_LENGTH)
    requires Fits(file, UpdatePuts(c, next, info, servers), UpdateDeletes(c, next, servers)) && d in Digests(servers)
    ensures Vault.Storable(Runs.LastWith(servers, d))
  {
    hide Hex, Runs.LastWith, NameSet, Vault.Storable, Vault.ValidReference, Rewritten;
    var puts, r := UpdatePuts(c, next, info, servers), Cred(next.id, d);
    LastPut(c, next, info, servers, d);
    UpdateIsFormed(c, next, info, servers);
    hide UpdatePuts, UpdateDeletes, Named;
    NameHolds(puts, r);
  }

  lemma LastPut(c: Codec, next: Record, info: string, servers: seq<Server>, d: string)
    requires d in Digests(servers)
    ensures var puts := UpdatePuts(c, next, info, servers);
            Cred(next.id, d) in puts && puts[Cred(next.id, d)] == Runs.LastWith(servers, d)
  {
    hide Chunks, Updated;
    LastCredential(next.id, servers, d);
    PartKeys(next.id, Chunks(c.list(Specs(servers))), Cred(next.id, d));
    hide Credentials, PartsOf;
  }

  lemma {:induction false} LastCredential(id: Id, servers: seq<Server>, d: string)
    requires d in Digests(servers)
    ensures Cred(id, d) in Credentials(id, servers) && Credentials(id, servers)[Cred(id, d)] == Runs.LastWith(servers, d)
  {
    var front, last := servers[..|servers| - 1], servers[|servers| - 1];
    if last.digest != d {
      assert Digests(servers) == Digests(front) + [last.digest];
      LastCredential(id, front, d);
    }
  }

  // ---- The file and memory ----

  /** The section of the file is what memory names, the rest is within the limits too. */
  ghost predicate Matches(c: Codec, w: World)
  {
    && Consistent(c, w.system.book) && Runs.Documented(w.system)
    && Mirrors(w.file, w.system.book.vault) && WithinLimits(w.file)
  }

  lemma BookedMirrors(c: Codec, w: World, e: Runs.Event)
    requires Mirrors(w.file, w.system.book.vault) && WellKept(w.system.book.records) && Sane(w, Booked(e))
    ensures Mirrors(FileAfter(c, w, e), Runs.Next(c, w.system, Granted(c, w, e)).book.vault)
  {
    var b := w.system.book;
    hide Mirrors, WellKept, SaveWrites, DeleteWrites, EndStores, EndNotes, AfterSave, AfterDelete, AfterEnd,
         FileAfterSave, FileAfterDelete, FileAfterEnd, Runs.DocumentsOf, Runs.Without;
    match e
    case Save(input, fresh_, now, writable) => SaveMirrors(c, w.file, b, input, fresh_, now, writable);
    case Delete(id, writable) => DeleteMirrors(w.file, b, id, writable);
    case End(fetch, got, now, stored, noted) =>
      EndMirrors(c, w.file, b, fetch.id, fetch.link, got, now, stored, noted);
    case _ =>
  }

  lemma BookedKeepsLimits(c: Codec, w: World, e: Runs.Event)
    requires WithinLimits(w.file)
    ensures WithinLimits(FileAfter(c, w, e))
  {
    var b := w.system.book;
    hide WithinLimits, Rewritten, UpdatePuts, UpdateDeletes, Everything, Edited, Failing, Refusal;
    forall puts, deletes | Fits(w.file, puts, deletes) ensures WithinLimits(Rewritten(w.file, puts, deletes)) {
      FittingWriteKeepsLimits(w.file, puts, deletes);
    }
    hide Fits;
  }

  /** Someone else's write keeps the match exactly when it puts back what is there and deletes what is not. */
  lemma ForeignMirrors(file: File, vault: map<Ref, Bytes>, puts: File, deletes: set<string>)
    requires Mirrors(file, vault)
    ensures Mirrors(Vault.Changed(file, puts, deletes), vault) <==> LeavesSection(file, puts, deletes)
  {
    var next := Vault.Changed(file, puts, deletes);
    forall r | r in vault ensures Ours(Render(r)) { NamesAreOurs(r); }
    hide Render, Ours, WellFormed;
    if Mirrors(next, vault) {
      forall n | Ours(n)
        ensures (n in puts ==> n in file && puts[n] == file[n]) && (n in deletes && n !in puts ==> n !in file)
      {
        if n in next { assert Render(Owner(vault.Keys, n)) == n; }
      }
    }
  }

  lemma ForeignKeepsLimits(file: File, puts: File, deletes: set<string>)
    requires WithinLimits(file) && Vault.Acceptable(puts, deletes) && |Vault.Changed(file, puts, deletes)| <= Vault.MAX_SECRETS
    ensures WithinLimits(Vault.Changed(file, puts, deletes))
  {
    hide Vault.ValidReference;
  }

  lemma NextMatches(c: Codec, w: World, step: Step)
    requires RoundTrips(c) && Matches(c, w) && Sane(w, step)
    ensures Matches(c, Next(c, w, step))
  {
    hide RoundTrips, Consistent, Runs.Documented, Mirrors, WithinLimits, Granted, FileAfter, Runs.Next, WellKept,
         Vault.Changed, Vault.Acceptable;
    match step
    case Booked(e) =>
      ConsistentIsWellKept(c, w.system.book);
      GrantedIsSane(c, w, e);
      Runs.NextKeepsConsistency(c, w.system, Granted(c, w, e));
      Runs.NextKeepsDocuments(c, w.system, Granted(c, w, e));
      BookedMirrors(c, w, e);
      BookedKeepsLimits(c, w, e);
    case Foreign(puts, deletes, writable) =>
      ForeignMirrors(w.file, w.system.book.vault, puts, deletes);
      if writable && Vault.Acceptable(puts, deletes) && |Vault.Changed(w.file, puts, deletes)| <= Vault.MAX_SECRETS {
        ForeignKeepsLimits(w.file, puts, deletes);
      }
  }

  /**
   * After any run, with any writes failing or refused, any restarts and any imports beside, the
   * subscription section of the vault file is exactly what memory names, byte for byte, and the
   * whole file is within the limits of the vault.
   */
  lemma {:induction false} FileMatchesMemory(c: Codec, start: File, steps: seq<Step>)
    requires RoundTrips(c) && WithinLimits(start) && (forall n :: n in start ==> !Ours(n)) && SaneRun(c, start, steps)
    ensures Matches(c, Run(c, start, steps))
  {
    if steps == [] {
      hide WithinLimits, Ours;
    } else {
      hide RoundTrips, Matches, Next, Sane, WithinLimits;
      FileMatchesMemory(c, start, steps[..|steps| - 1]);
      NextMatches(c, Run(c, start, steps[..|steps| - 1]), steps[|steps| - 1]);
    }
  }

  /** No step of the book touches what an import by hand has stored. */
  lemma ImportsAreLeftAlone(c: Codec, w: World, e: Runs.Event, n: string)
    requires !Ours(n)
    ensures var v := Next(c, w, Booked(e));
            (n in v.file <==> n in w.file) && (n in w.file ==> v.file[n] == w.file[n])
  {
    hide Rewritten, Fits, UpdatePuts, UpdateDeletes, Everything, Edited, Failing, Refusal, Granted, Runs.Next, Ours;
    forall puts, deletes
      ensures var next := Rewritten(w.file, puts, deletes); (n in next <==> n in w.file) && (n in w.file ==> next[n] == w.file[n])
    {
      WriteLeavesOthers(w.file, puts, deletes, n);
    }
  }
}
