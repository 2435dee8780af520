/** Vault references of subscriptions: three families of names that never collide. */
module References {
  import opened Text
  import Vault

  const ID_LENGTH: nat := 16
  const DIGEST_LENGTH: nat := 24

  /** A subscription record, one chunk of its server list, or the credentials of one server. */
  datatype Ref = Rec(id: string) | Part(id: string, part: nat) | Cred(id: string, digest: string)

  predicate Hex(s: string, n: nat) { |s| == n && forall i :: 0 <= i < |s| ==> IsHex(s[i]) }

  predicate WellFormed(r: Ref)
  {
    Hex(r.id, ID_LENGTH) && (r.Cred? ==> Hex(r.digest, DIGEST_LENGTH))
  }

  function Tail(r: Ref): string
  {
    match r
    case Rec(_) => "_rec"
    case Part(_, part) => "_l" + Itoa(part)
    case Cred(_, digest) => "_" + digest
  }

  /** recordRef, listRef and serverRefFor. */
  function Render(r: Ref): string { "u1_" + r.id + Tail(r) }

  predicate HasPrefix(s: string, p: string) { |p| <= |s| && s[..|p|] == p }
  predicate HasSuffix(s: string, p: string) { |p| <= |s| && s[|s| - |p|..] == p }

  lemma RenderParts(r: Ref)
    requires WellFormed(r)
    ensures Render(r)[3..19] == r.id && Render(r)[19..] == Tail(r)
  {
    assert Render(r) == "u1_" + (r.id + Tail(r));
    assert Render(r)[3..] == r.id + Tail(r);
  }

  /** The character after the id's underscore tells the families apart. */
  lemma TailMarks(r: Ref)
    requires WellFormed(r)
    ensures |Tail(r)| >= 2
    ensures r.Rec? ==> Tail(r)[1] == 'r'
    ensures r.Part? ==> Tail(r)[1] == 'l'
    ensures r.Cred? ==> IsHex(Tail(r)[1])
  {
  }

  /** Different references have different names, within a family and across families. */
  lemma RenderIsInjective(a: Ref, b: Ref)
    requires WellFormed(a) && WellFormed(b) && Render(a) == Render(b)
    ensures a == b
  {
    RenderParts(a);
    RenderParts(b);
    TailMarks(a);
    TailMarks(b);
    if a.Part? && b.Part? {
      PrefixCancels("_l", Itoa(a.part), Itoa(b.part));
      ItoaInjective(a.part, b.part);
    } else if a.Cred? && b.Cred? {
      PrefixCancels("_", a.digest, b.digest);
    }
  }

  lemma RecordSuffix(s: string)
    requires |s| >= 4
    ensures HasSuffix(s, "_rec") ==> s[|s| - 1] == 'c' && s[|s| - 3] == 'r'
  {
    var t := s[|s| - 4..];
    assert t[3] == s[|s| - 1] && t[1] == s[|s| - 3];
  }

  /** The loader's prefix and suffix test picks out exactly the record references. */
  lemma LoaderFindsExactlyRecords(r: Ref)
    requires WellFormed(r)
    ensures (HasPrefix(Render(r), "u1_") && HasSuffix(Render(r), "_rec")) <==> r.Rec?
  {
    var s, t := Render(r), Tail(r);
    assert s == "u1_" + (r.id + t);
    RenderParts(r);
    RecordSuffix(s);
    match r
    case Rec(_) =>
      assert s[|s| - 4..] == t;
    case Part(_, part) =>
      assert s[|s| - 1] == t[|t| - 1] == Itoa(part)[|Itoa(part)| - 1];
    case Cred(_, digest) =>
      assert s[|s| - 3] == t[|t| - 3] == digest[|digest| - 3];
  }

  /** Every reference of a subscription is one the vault accepts, for the chunk counts that occur. */
  lemma ReferencesAreValid(r: Ref)
    requires WellFormed(r) && (r.Part? ==> |Itoa(r.part)| <= 43)
    ensures Vault.ValidReference(Render(r))
  {
    var s := Render(r);
    assert s == "u1_" + r.id + Tail(r);
    forall i | 0 <= i < |s|
      ensures Vault.ReferenceChar(s[i])
    {
      if i >= 19 {
        assert s[i] == Tail(r)[i - 19];
      } else if i >= 3 {
        assert s[i] == r.id[i - 3];
      }
    }
  }
}
