/**
  What a session store needs to know about sealed sessions: which splits come
  from one, how to put a split back together, and that nothing is ambiguous.
  `VaultOf` is the vault of src/aggregator/session.rs; the store is proved
  against any vault that keeps the same laws.
 */
module Vault {
  import opened Foundation
  import opened Session

  /** `named` and `content` invert ids and digests: they exist because neither is ambiguous. */
  datatype Vault = Vault(
    genuine: Split -> bool,
    digest: seq<byte> -> string,
    rejoin: (Document, string, seq<byte>) -> Option<Session>,
    split: Session -> Option<Split>,
    named: string -> Option<Split>,
    content: string -> seq<byte>)
  {
    ghost predicate Whole(p: Split) {
      && p.stripped.evidence == EvidenceRef(Some(p.digest), None)
      && p.digest == digest(p.bundle)
      && var session := rejoin(p.stripped, p.contentType, p.bundle);
         session.Some? && session.value.id == p.id && split(session.value) == Some(p)
    }

    ghost predicate Lawful() {
      && (forall p :: genuine(p) ==> Whole(p) && named(p.id) == Some(p))
      && (forall b :: content(digest(b)) == b)
      && (forall d, c, b :: Regenerates(c, rejoin(d, c, b)))
    }

    /**
      A session put together from parts splits into a genuine split, if it splits
      at all; the content type read back is the one given, or its beginning.
     */
    ghost predicate Regenerates(contentType: string, session: Option<Session>) {
      session.Some? && split(session.value).Some?
      ==> genuine(split(session.value).value) && split(session.value).value.contentType <= contentType
    }
  }

  ghost function NamedBy(s: Scheme, id: string): Option<Split> {
    if p :| Genuine(s, p) && p.id == id then Some(p) else None
  }

  ghost function ContentOf(s: Scheme, digest: string): seq<byte> {
    if b :| s.Digest(b) == digest then b else []
  }

  ghost function VaultOf(s: Scheme): Vault {
    Vault(p => Genuine(s, p), b => s.Digest(b), (d, c, b) => Rejoin(s, d, c, b), x => SplitOf(s, x),
          id => NamedBy(s, id), d => ContentOf(s, d))
  }

  lemma DigestInjective(s: Scheme, a: seq<byte>, b: seq<byte>)
    requires s.Lawful() && s.Digest(a) == s.Digest(b)
    ensures a == b
  {
    assert s.Digest(a)[7..] == s.sha(a) && s.Digest(b)[7..] == s.sha(b);
  }

  /** The session documents of the gateway keep the laws, given collision-free digests and faithful JSON. */
  lemma VaultOfLawful(s: Scheme)
    requires s.Lawful()
    ensures VaultOf(s).Lawful()
  {
    var v := VaultOf(s);
    forall p | v.genuine(p)
      ensures v.Whole(p) && v.named(p.id) == Some(p)
    {
      RejoinThenSplit(s, p);
      GenuineUnique(s, p, NamedBy(s, p.id).value);
    }
    forall b
      ensures v.content(v.digest(b)) == b
    {
      DigestInjective(s, ContentOf(s, s.Digest(b)), b);
    }
    forall d, c, b
      ensures v.Regenerates(c, v.rejoin(d, c, b))
    {
      var session := v.rejoin(d, c, b);
      if session.Some? && v.split(session.value).Some? {
        SplitThenRejoin(s, d.(evidence := FromBytes(s, c, b)));
        DecodePrefix(s, c, b);
      }
    }
  }
}
