/** The agent's key: kept in the TPM when there is one, remade at every start otherwise. */
module KeyService {
  import opened Prelude
  import opened Crypto

  /** What outlives a process: a TPM key and a software key under the key's name. Nothing here writes the second. */
  datatype KeyStore = KeyStore(tpm: Option<Key>, named: Option<Key>)

  /** Whether the platform lets one initialisation open or create keys. */
  datatype Platform = Platform(tpmOpens: bool, namedOpens: bool, tpmCreates: bool)

  datatype Loaded = Loaded(key: Key, hardwareBound: bool)

  function Existing(s: KeyStore, p: Platform): Option<Loaded> {
    if s.tpm.Some? && p.tpmOpens then Some(Loaded(s.tpm.value, true))
    else if s.named.Some? && p.namedOpens then Some(Loaded(s.named.value, false))
    else None
  }

  /** Creating a TPM key under a name that is taken throws. */
  predicate CreatesInTpm(s: KeyStore, p: Platform) {
    p.tpmCreates && s.tpm.None?
  }

  function InitializeKey(s: KeyStore, p: Platform, drawn: Key): (KeyStore, Loaded) {
    match Existing(s, p)
    case Some(l) => (s, l)
    case None =>
      if CreatesInTpm(s, p) then (s.(tpm := Some(drawn)), Loaded(drawn, true)) else (s, Loaded(drawn, false))
  }

  /**
   What an initialisation comes to: the TPM's key if the platform opens it, or else
   the named one if it opens that; otherwise a key that is kept only if the TPM is
   empty and takes it. The key is called hardware-bound exactly when it is the one
   in the TPM, opened or just made; nothing else is written.
   */
  lemma WhereTheKeyIs(s: KeyStore, p: Platform, drawn: Key)
    ensures var (s', l) := InitializeKey(s, p, drawn);
      var (opens, finds) := (s.tpm.Some? && p.tpmOpens, s.named.Some? && p.namedOpens);
      && (s'.tpm != s.tpm <==> !opens && !finds && s.tpm.None? && p.tpmCreates)
      && s'.named == s.named
      && (l.hardwareBound <==> opens || s'.tpm != s.tpm)
      && (l.hardwareBound ==> s'.tpm == Some(l.key))
      && (opens ==> s.tpm == Some(l.key)) && (!opens && finds ==> s.named == Some(l.key))
      && (!opens && !finds ==> l.key == drawn)
  {
  }

  class CngStore {
    var tpm: Option<Key>
    var named: Option<Key>

    ghost function Keys(): KeyStore
      reads this
    {
      KeyStore(tpm, named)
    }
  }

  class KeyService {
    const store: CngStore
    var rsa: Option<Key>
    var hardwareBound: bool

    constructor (store: CngStore)
      ensures this.store == store && rsa == None && !hardwareBound
    {
      this.store := store;
      rsa, hardwareBound := None, false;
    }

    method TryLoadExistingKey(p: Platform) returns (found: bool)
      modifies this
      ensures found <==> Existing(store.Keys(), p).Some?
      ensures found ==> rsa.Some? && Existing(store.Keys(), p) == Some(Loaded(rsa.value, hardwareBound))
      ensures !found ==> rsa == old(rsa) && hardwareBound == old(hardwareBound)
    {
      if store.tpm.Some? && p.tpmOpens {
        rsa, hardwareBound := store.tpm, true;
        return true;
      }
      if store.named.Some? && p.namedOpens {
        rsa, hardwareBound := store.named, false;
        return true;
      }
      found := false;
    }

    method Initialize(p: Platform, drawn: Key)
      modifies this, store
      ensures rsa.Some?
      ensures (store.Keys(), Loaded(rsa.value, hardwareBound)) == InitializeKey(old(store.Keys()), p, drawn)
      ensures hardwareBound <==> (old(store.tpm).Some? && p.tpmOpens) || store.tpm != old(store.tpm)
      ensures hardwareBound ==> store.tpm == rsa
      ensures store.tpm != old(store.tpm) <==>
        old(store.tpm).None? && p.tpmCreates && !(old(store.named).Some? && p.namedOpens)
      ensures store.named == old(store.named)
      ensures !hardwareBound ==> rsa == if old(store.named).Some? && p.namedOpens then old(store.named) else Some(drawn)
    {
      var found := TryLoadExistingKey(p);
      if found {
        return;
      }
      if p.tpmCreates && store.tpm.None? {
        store.tpm := Some(drawn);
        rsa, hardwareBound := Some(drawn), true;
      } else {
        rsa, hardwareBound := Some(drawn), false;
      }
    }

    /** Throws before initialisation. */
    method GetPublicKeyPem() returns (r: Option<PublicKey>)
      ensures r == if rsa.Some? then Some(Pub(rsa.value)) else None
    {
      r := if rsa.Some? then Some(Pub(rsa.value)) else None;
    }

    /** Throws before initialisation; what it returns verifies under the exported key, for that text only. */
    method Sign(data: string) returns (r: Option<Signature>)
      ensures r.Some? <==> rsa.Some?
      ensures r.Some? ==> forall text :: Verify(Pub(rsa.value), text, r.value) <==> text == data
    {
      r := if rsa.Some? then Some(Sig(rsa.value, data)) else None;
    }
  }
}
