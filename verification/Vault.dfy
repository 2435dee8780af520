/** The credential store: references to byte buffers on the heap, mirrored by one vault file. */
module Vault {
  import opened Text

  type Bytes = seq<byte>
  type Buffer = array<byte>

  const MAX_SECRET_BYTES: nat := 65536
  const MAX_SECRETS: nat := 4096
  const MAX_REFERENCE: nat := 64

  predicate ReferenceChar(c: char)
  {
    'a' <= c <= 'z' || 'A' <= c <= 'Z' || '0' <= c <= '9' || c == '-' || c == '_'
  }

  predicate ValidReference(r: string)
  {
    0 < |r| <= MAX_REFERENCE && forall i :: 0 <= i < |r| ==> ReferenceChar(r[i])
  }

  predicate Storable(material: Bytes) { 0 < |material| <= MAX_SECRET_BYTES }

  /** The change one Apply makes to the stored secrets: deletes first, then puts. */
  function Changed<K(==), V>(secrets: map<K, V>, puts: map<K, V>, deletes: set<K>): map<K, V>
  {
    (secrets - deletes) + puts
  }

  predicate Acceptable(puts: map<string, Bytes>, deletes: set<string>)
  {
    && (forall r :: r in puts ==> ValidReference(r) && Storable(puts[r]))
    && (forall r :: r in deletes ==> ValidReference(r))
  }

  function Gone(deletes: seq<string>): set<string> { set r | r in deletes }

  lemma ChangedPointwise(before: map<string, Bytes>, after: map<string, Bytes>, puts: map<string, Bytes>, deletes: set<string>)
    requires after.Keys == (before.Keys - deletes) + puts.Keys
    requires forall r :: r in after ==> after[r] == if r in puts then puts[r] else before[r]
    ensures after == Changed(before, puts, deletes)
  {
  }

  ghost function Bufs(m: map<string, Buffer>): set<Buffer> { set r | r in m :: m[r] }

  /** No buffer serves two references. */
  ghost predicate Unshared(m: map<string, Buffer>)
  {
    forall r, q :: r in m && q in m && m[r] == m[q] ==> r == q
  }

  /** No buffer is in both maps. */
  ghost predicate Apart(a: map<string, Buffer>, b: map<string, Buffer>)
  {
    forall r, q :: r in a && q in b ==> a[r] != b[q]
  }

  function Swapped(items: map<string, Buffer>, copies: map<string, Buffer>, removed: set<string>): map<string, Buffer>
  {
    (items - removed) + copies
  }

  /** The buffers a change keeps are exactly those of references it neither removes nor replaces. */
  lemma SwappedShape(items: map<string, Buffer>, copies: map<string, Buffer>, removed: set<string>)
    requires Unshared(items) && Unshared(copies) && Apart(items, copies)
    ensures var next := Swapped(items, copies, removed);
            && Unshared(next)
            && (forall r, q :: r in items && q in next && items[r] == next[q] ==> r == q)
            && (forall r :: r in items ==> ((r in next && next[r] == items[r]) <==> (r !in removed && r !in copies)))
            && (forall r :: r in next ==> next[r] in Bufs(items) + Bufs(copies))
  {
  }

  lemma SameSize(disk: map<string, Bytes>, puts: map<string, Bytes>, items: map<string, Buffer>, copies: map<string, Buffer>, removed: set<string>)
    requires disk.Keys == items.Keys && puts.Keys == copies.Keys
    ensures |Changed(disk, puts, removed)| == |Swapped(items, copies, removed)|
  {
    var changed, next := Changed(disk, puts, removed), Swapped(items, copies, removed);
    assert changed.Keys == next.Keys;
    assert |changed| == |changed.Keys| && |next| == |next.Keys|;
  }

  lemma SwapOne(items: map<string, Buffer>, r: string, b: Buffer, disk: map<string, Bytes>, material: Bytes)
    ensures Swapped(items, map[r := b], {}) == items[r := b]
    ensures Changed(disk, map[r := material], {}) == disk[r := material]
  {
  }

  lemma KeptOrNew(items: map<string, Buffer>, copies: map<string, Buffer>, deletes: seq<string>)
    ensures var next := Swapped(items, copies, Gone(deletes));
            && (forall r :: r in copies ==> r in next && next[r] == copies[r])
            && (forall r :: r in items && r !in deletes && r !in copies ==> r in next && next[r] == items[r])
  {
  }

  ghost predicate Wiped(b: Buffer)
    reads b
  {
    forall i :: 0 <= i < b.Length ==> b[i] == 0
  }

  method Wipe(b: Buffer)
    modifies b
    ensures Wiped(b)
  {
    for i := 0 to b.Length
      invariant forall k :: 0 <= k < i ==> b[k] == 0
    {
      b[i] := 0;
    }
  }

  method Duplicate(material: Bytes) returns (copy: Buffer)
    ensures fresh(copy) && copy[..] == material
  {
    copy := new byte[|material|];
    forall i | 0 <= i < |material| { copy[i] := material[i]; }
  }

  /** Copies everything the caller passed in into buffers of the store's own. */
  method DuplicateAll(puts: map<string, Bytes>) returns (copies: map<string, Buffer>)
    ensures copies.Keys == puts.Keys && Unshared(copies)
    ensures forall r :: r in copies ==> fresh(copies[r]) && copies[r][..] == puts[r]
  {
    copies := map[];
    var todo := puts.Keys;
    while todo != {}
      invariant todo <= puts.Keys && copies.Keys == puts.Keys - todo
      invariant Unshared(copies) && forall r :: r in copies ==> fresh(copies[r]) && copies[r][..] == puts[r]
      decreases |todo|
    {
      var r :| r in todo;
      var copy := Duplicate(puts[r]);
      copies := copies[r := copy];
      todo := todo - {r};
    }
  }

  /** Wipes what `next` no longer holds, and nothing it still holds. */
  method WipeReplaced(previous: map<string, Buffer>, next: map<string, Buffer>)
    requires Unshared(previous)
    requires forall r, q :: r in previous && q in next && previous[r] == next[q] ==> r == q
    modifies Bufs(previous)
    ensures forall r :: r in previous ==>
              if r in next && next[r] == previous[r] then previous[r][..] == old(previous[r][..]) else Wiped(previous[r])
    ensures forall r :: r in next ==> next[r][..] == old(next[r][..])
  {
    var todo := previous.Keys;
    while todo != {}
      invariant todo <= previous.Keys
      invariant forall r :: r in previous && (r in todo || (r in next && next[r] == previous[r])) ==>
                  previous[r][..] == old(previous[r][..])
      invariant forall r :: r in previous && r !in todo && !(r in next && next[r] == previous[r]) ==> Wiped(previous[r])
      invariant forall r :: r in next ==> next[r][..] == old(next[r][..])
      decreases |todo|
    {
      var r :| r in todo;
      if r !in next || next[r] != previous[r] {
        Wipe(previous[r]);
      }
      todo := todo - {r};
    }
  }

  class Store {
    var items: map<string, Buffer>
    var disk: map<string, Bytes>
    var closed: bool

    /** The file holds exactly what memory holds. */
    ghost predicate Mirrored()
      reads this, Bufs(items)
    {
      disk.Keys == items.Keys && forall r :: r in items ==> disk[r] == items[r][..]
    }

    /** Memory and disk agree, no buffer is shared and none is empty. */
    ghost predicate Valid()
      reads this, Bufs(items)
    {
      && Unshared(items)
      && (forall r :: r in items ==> items[r].Length > 0)
      && (!closed ==> Mirrored())
    }

    constructor ()
      ensures Valid() && !closed && disk == map[]
    {
      items, disk, closed := map[], map[], false;
    }

    /** Seals the items and replaces the file, or leaves it as it was. */
    method WriteLocked(writable: bool) returns (ok: bool)
      modifies this`disk
      ensures ok == writable
      ensures if writable then Mirrored() else disk == old(disk)
    {
      if writable {
        var bodies := map r | r in items :: items[r][..];
        disk := bodies;
      }
      ok := writable;
    }

    method Apply(puts: map<string, Bytes>, deletes: seq<string>, writable: bool) returns (ok: bool)
      requires Valid()
      modifies this, Bufs(items)
      ensures Valid() && closed == old(closed)
      ensures var gone := Gone(deletes);
              && ok == (!closed && writable && Acceptable(puts, gone) && |Changed(old(disk), puts, gone)| <= MAX_SECRETS)
              && (ok ==> disk == Changed(old(disk), puts, gone))
      ensures ok ==> forall r :: r in old(items) ==>
                if r in deletes || r in puts then Wiped(old(items[r])) else r in items && items[r] == old(items[r])
      ensures ok ==> forall r :: r in puts ==> r in items && fresh(items[r])
      ensures !ok ==> items == old(items) && disk == old(disk)
      ensures !ok ==> forall r :: r in items ==> items[r][..] == old(items[r][..])
    {
      hide Changed, Swapped, Wiped;
      var good := Checks(puts, deletes);
      if !good || closed {
        return false;
      }
      assert forall r :: r in puts ==> |puts[r]| > 0;
      var copies := DuplicateAll(puts);
      SameSize(disk, puts, items, copies, Gone(deletes));
      ok := Commit(copies, puts, Gone(deletes), writable);
      if ok {
        KeptOrNew(old(items), copies, deletes);
      }
    }

    /** Swaps the new items in, writes the file, and either keeps the change or undoes it. */
    method Commit(copies: map<string, Buffer>, ghost puts: map<string, Bytes>, removed: set<string>, writable: bool)
      returns (ok: bool)
      requires Valid() && !closed && Unshared(copies) && Apart(items, copies)
      requires copies.Keys == puts.Keys && forall r :: r in copies ==> copies[r].Length > 0 && copies[r][..] == puts[r]
      modifies this`items, this`disk, Bufs(items), Bufs(copies)
      ensures Valid()
      ensures ok == (writable && |Swapped(old(items), copies, removed)| <= MAX_SECRETS)
      ensures ok ==> items == Swapped(old(items), copies, removed) && disk == Changed(old(disk), puts, removed)
      ensures ok ==> forall r :: r in old(items) && (r in removed || r in copies) ==> Wiped(old(items[r]))
      ensures !ok ==> items == old(items) && disk == old(disk)
      ensures !ok ==> forall r :: r in items ==> items[r][..] == old(items[r][..])
    {
      hide Changed, Swapped, Wiped;
      SwappedShape(items, copies, removed);
      var previous := items;
      if |Swapped(items, copies, removed)| > MAX_SECRETS {
        Discard(copies);
        return false;
      }
      var written := Install(copies, puts, removed, writable);
      if !written {
        Discard(copies);
        return false;
      }
      WipeReplaced(previous, items);
      return true;
    }

    /** Puts the new items in place and writes the file; a failed write puts the old items back. */
    method Install(copies: map<string, Buffer>, ghost puts: map<string, Bytes>, removed: set<string>, writable: bool)
      returns (ok: bool)
      requires Valid() && !closed && Unshared(copies) && Apart(items, copies)
      requires copies.Keys == puts.Keys && forall r :: r in copies ==> copies[r].Length > 0 && copies[r][..] == puts[r]
      modifies this`items, this`disk
      ensures Valid() && ok == writable
      ensures ok ==> items == Swapped(old(items), copies, removed) && disk == Changed(old(disk), puts, removed)
      ensures !ok ==> items == old(items) && disk == old(disk)
    {
      SwappedShape(items, copies, removed);
      var previous := items;
      items := Swapped(items, copies, removed);
      ok := WriteLocked(writable);
      if !ok {
        items := previous;
      } else {
        ChangedPointwise(old(disk), disk, puts, removed);
      }
    }

    /** Wipes the copies of a change that did not happen. */
    method Discard(copies: map<string, Buffer>)
      requires Valid() && Unshared(copies) && Apart(items, copies)
      modifies Bufs(copies)
      ensures Valid()
      ensures forall r :: r in items ==> items[r][..] == old(items[r][..])
      ensures forall r :: r in copies ==> Wiped(copies[r])
    {
      WipeReplaced(copies, map[]);
    }

    /** The argument checks every Apply makes before it takes the lock. */
    method Checks(puts: map<string, Bytes>, deletes: seq<string>) returns (good: bool)
      ensures good == Acceptable(puts, Gone(deletes))
    {
      var todo := puts.Keys;
      while todo != {}
        invariant todo <= puts.Keys
        invariant forall r :: r in puts && r !in todo ==> ValidReference(r) && Storable(puts[r])
        decreases |todo|
      {
        var r :| r in todo;
        if !ValidReference(r) || |puts[r]| == 0 || |puts[r]| > MAX_SECRET_BYTES {
          return false;
        }
        todo := todo - {r};
      }
      for i := 0 to |deletes|
        invariant forall k :: 0 <= k < i ==> ValidReference(deletes[k])
      {
        if !ValidReference(deletes[i]) {
          assert deletes[i] in Gone(deletes);
          return false;
        }
      }
      good := true;
    }

    method WipeUnheld(b: Buffer)
      requires Valid() && forall r :: r in items ==> items[r] != b
      modifies b
      ensures Valid() && Wiped(b)
      ensures forall r :: r in items ==> items[r][..] == old(items[r][..])
    {
      Wipe(b);
    }

    /** Replaces one secret; a failed write brings the previous buffer back. */
    method Put(reference: string, material: Bytes, writable: bool) returns (ok: bool)
      requires Valid()
      modifies this, Bufs(items)
      ensures Valid() && closed == old(closed)
      ensures ok == (ValidReference(reference) && Storable(material) && !closed && writable
                     && (reference in old(items) || |old(items)| < MAX_SECRETS))
      ensures ok ==> disk == old(disk)[reference := material]
      ensures ok ==> reference in items && fresh(items[reference]) && items == old(items)[reference := items[reference]]
      ensures ok && reference in old(items) ==> Wiped(old(items[reference]))
      ensures !ok ==> items == old(items) && disk == old(disk)
      ensures !ok ==> forall r :: r in items ==> items[r][..] == old(items[r][..])
    {
      hide Wiped, ValidReference;
      if !ValidReference(reference) || !Storable(material) || closed {
        return false;
      }
      if reference !in items && |items| >= MAX_SECRETS {
        return false;
      }
      ok := Replace(reference, material, writable);
    }

    method Replace(reference: string, material: Bytes, writable: bool) returns (ok: bool)
      requires Valid() && !closed && |material| > 0
      modifies this`items, this`disk, Bufs(items)
      ensures Valid() && ok == writable
      ensures ok ==> disk == old(disk)[reference := material]
      ensures ok ==> reference in items && fresh(items[reference]) && items == old(items)[reference := items[reference]]
      ensures ok && reference in old(items) ==> Wiped(old(items[reference]))
      ensures !ok ==> items == old(items) && disk == old(disk)
      ensures !ok ==> forall r :: r in items ==> items[r][..] == old(items[r][..])
    {
      hide Wiped, Swapped, Changed;
      var stored := Duplicate(material);
      var previous := items;
      SwapOne(items, reference, stored, disk, material);
      ok := Install(map[reference := stored], map[reference := material], {}, writable);
      if !ok {
        WipeUnheld(stored);
      } else if reference in previous {
        WipeUnheld(previous[reference]);
      }
    }

    /** Removes one secret; a missing reference succeeds without a write. */
    method Delete(reference: string, writable: bool) returns (ok: bool)
      requires Valid()
      modifies this, Bufs(items)
      ensures Valid() && closed == old(closed)
      ensures ok == (ValidReference(reference) && !closed && (reference in old(items) ==> writable))
      ensures ok ==> disk == old(disk) - {reference} && items == old(items) - {reference}
      ensures ok && reference in old(items) ==> Wiped(old(items[reference]))
      ensures !ok ==> items == old(items) && disk == old(disk)
      ensures !ok ==> forall r :: r in items ==> items[r][..] == old(items[r][..])
    {
      if !ValidReference(reference) || closed {
        return false;
      }
      if reference !in items {
        assert disk - {reference} == disk && items - {reference} == items;
        return true;
      }
      var previous := items;
      items := items - {reference};
      ok := WriteLocked(writable);
      if !ok {
        items := previous;
        return;
      }
      assert disk == old(disk) - {reference};
      WipeUnheld(previous[reference]);
    }
  }
}
