/**
 * The encrypted API key store: one entry per provider holding the encrypted
 * key, a lock flag, timestamps, a short hash of the key and free-form
 * metadata, kept in insertion order like the Python dictionary it models.
 *
 * The cipher and the hash are parameters of the store: `encrypt` and
 * `decrypt` stand for the machine's Fernet cipher (a decryption that raises
 * is `None`), `hash` for the SHA-256 hex digest. The save-then-get round trip
 * holds whenever decryption undoes encryption.
 */
module SecureKeyManager {
  import opened Common
  import opened Strings
  import D = Dicts
  import J = JsonValues

  /** A stored entry; a field a loaded file may lack is an `Option`. */
  datatype KeyEntry = KeyEntry(
    encryptedKey: Option<string>, locked: Option<bool>, savedAt: Option<string>, keyHash: Option<string>,
    metadata: J.Entry, lockedAt: Option<string>, unlockedAt: Option<string>)

  /** The keys file as `load_keys` finds it. */
  datatype KeyFile = Missing | Unreadable | Stored(keys: D.Dict<string, KeyEntry>)

  /** Decryption undoes encryption for every plaintext. */
  ghost predicate Inverse(encrypt: string -> string, decrypt: string -> Option<string>)
  {
    forall s :: decrypt(encrypt(s)) == Some(s)
  }

  /** The keys `load_keys` leaves: none when the file is missing or cannot be read. */
  function LoadedKeys(file: KeyFile): (r: D.Dict<string, KeyEntry>)
    ensures !file.Stored? ==> r == []
  {
    if file.Stored? then file.keys else []
  }

  /** The entry `save_key` writes. */
  function NewEntry(apiKey: string, locked: bool, metadata: Option<J.Entry>, now: string,
                    encrypt: string -> string, hash: string -> string): KeyEntry
  {
    KeyEntry(Some(encrypt(apiKey)), Some(locked), Some(now), Some(SliceTo(hash(apiKey), 16)),
             metadata.GetOr(map[]), None, None)
  }

  /** The store after `save_key`: the provider's entry is replaced, or appended when new. */
  function Saved(keys: D.Dict<string, KeyEntry>, provider: string, apiKey: string, locked: bool,
                 metadata: Option<J.Entry>, now: string, encrypt: string -> string, hash: string -> string)
    : D.Dict<string, KeyEntry>
  {
    D.Put(keys, provider, NewEntry(apiKey, locked, metadata, now, encrypt, hash))
  }

  /** `get_key`: no key for an unknown provider, an entry without a key, or a failed decryption. */
  function KeyOf(keys: D.Dict<string, KeyEntry>, provider: string, decrypt: string -> Option<string>)
    : (r: Option<string>)
    ensures !D.HasKey(keys, provider) ==> r.None?
    ensures D.HasKey(keys, provider) && D.Get(keys, provider).value.encryptedKey.None? ==> r.None?
  {
    match D.Get(keys, provider)
    case None => None
    case Some(e) => if e.encryptedKey.Some? then decrypt(e.encryptedKey.value) else None
  }

  /** `is_locked`: an unknown provider, or an entry without the flag, is unlocked. */
  function Locked(keys: D.Dict<string, KeyEntry>, provider: string): (r: bool)
    ensures r ==> D.HasKey(keys, provider)
  {
    match D.Get(keys, provider)
    case None => false
    case Some(e) => e.locked.GetOr(false)
  }

  /**
   * The store after `lock_key` (`flag` true) or `unlock_key` (`flag` false):
   * the flag and the matching timestamp are set on a known provider; an
   * unknown one changes nothing.
   */
  function WithLock(keys: D.Dict<string, KeyEntry>, provider: string, flag: bool, now: string)
    : D.Dict<string, KeyEntry>
  {
    match D.Get(keys, provider)
    case None => keys
    case Some(e) =>
      var updated := if flag then e.(locked := Some(true), lockedAt := Some(now))
                     else e.(locked := Some(false), unlockedAt := Some(now));
      D.Put(keys, provider, updated)
  }

  /** `get_key_info`: a copy of the entry without the encrypted key, `None` for an unknown provider. */
  function Info(keys: D.Dict<string, KeyEntry>, provider: string): (r: Option<KeyEntry>)
    ensures r.None? <==> !D.HasKey(keys, provider)
    ensures r.Some? ==> r.value.encryptedKey.None?
    ensures r.Some? ==> var e := D.Get(keys, provider).value;
      && r.value.locked == e.locked && r.value.savedAt == e.savedAt && r.value.keyHash == e.keyHash
      && r.value.metadata == e.metadata && r.value.lockedAt == e.lockedAt && r.value.unlockedAt == e.unlockedAt
  {
    match D.Get(keys, provider)
    case None => None
    case Some(e) => Some(e.(encryptedKey := None))
  }

  /** `list_providers`: the providers with an entry, in insertion order, each once. */
  function Providers(keys: D.Dict<string, KeyEntry>): (r: seq<string>)
    ensures forall p :: p in r <==> D.HasKey(keys, p)
    ensures D.WellFormed(keys) ==> D.Distinct(r)
  {
    D.Keys(keys)
  }

  /**
   * After a save the provider has a key, `get_key` returns exactly the saved
   * key, the lock flag is the one given, and the entry's hash is the first
   * sixteen digits of the key's digest.
   */
  lemma SaveThenGet(keys: D.Dict<string, KeyEntry>, provider: string, apiKey: string, locked: bool,
                    metadata: Option<J.Entry>, now: string,
                    encrypt: string -> string, decrypt: string -> Option<string>, hash: string -> string)
    requires Inverse(encrypt, decrypt)
    ensures var s := Saved(keys, provider, apiKey, locked, metadata, now, encrypt, hash);
      && D.HasKey(s, provider)
      && KeyOf(s, provider, decrypt) == Some(apiKey)
      && Locked(s, provider) == locked
      && Info(s, provider).value.keyHash == Some(SliceTo(hash(apiKey), 16))
      && Info(s, provider).value.metadata == metadata.GetOr(map[])
  {
    var s := Saved(keys, provider, apiKey, locked, metadata, now, encrypt, hash);
    assert D.Get(s, provider) == Some(NewEntry(apiKey, locked, metadata, now, encrypt, hash));
    assert decrypt(encrypt(apiKey)) == Some(apiKey);
  }

  /** A save leaves every other provider's key, flag and entry as they were. */
  lemma SaveKeepsOthers(keys: D.Dict<string, KeyEntry>, provider: string, apiKey: string, locked: bool,
                        metadata: Option<J.Entry>, now: string,
                        encrypt: string -> string, decrypt: string -> Option<string>, hash: string -> string,
                        other: string)
    requires other != provider
    ensures var s := Saved(keys, provider, apiKey, locked, metadata, now, encrypt, hash);
      && KeyOf(s, other, decrypt) == KeyOf(keys, other, decrypt)
      && Locked(s, other) == Locked(keys, other)
      && Info(s, other) == Info(keys, other)
  {
  }

  /**
   * Locking or unlocking sets the flag exactly for a known provider and
   * touches neither any key nor the list of providers.
   */
  lemma LockSetsFlag(keys: D.Dict<string, KeyEntry>, provider: string, flag: bool, now: string,
                     decrypt: string -> Option<string>, other: string)
    ensures Locked(WithLock(keys, provider, flag, now), provider) == (D.HasKey(keys, provider) && flag)
    ensures KeyOf(WithLock(keys, provider, flag, now), other, decrypt) == KeyOf(keys, other, decrypt)
    ensures other != provider ==> Locked(WithLock(keys, provider, flag, now), other) == Locked(keys, other)
    ensures Providers(WithLock(keys, provider, flag, now)) == Providers(keys)
  {
    if D.HasKey(keys, provider) {
      var e := D.Get(keys, provider).value;
      if other == provider {
        assert D.Get(WithLock(keys, provider, flag, now), other).value.encryptedKey == e.encryptedKey;
      }
    }
  }

  /** After a delete the provider has no entry, no key and no lock; the others are unchanged. */
  lemma DeleteRemoves(keys: D.Dict<string, KeyEntry>, provider: string, decrypt: string -> Option<string>,
                      other: string)
    ensures !D.HasKey(D.Remove(keys, provider), provider)
    ensures KeyOf(D.Remove(keys, provider), provider, decrypt).None?
    ensures !Locked(D.Remove(keys, provider), provider)
    ensures D.HasKey(D.Remove(keys, provider), other) <==> D.HasKey(keys, other) && other != provider
    ensures other != provider ==> KeyOf(D.Remove(keys, provider), other, decrypt) == KeyOf(keys, other, decrypt)
  {
    D.RemoveHasKey(keys, provider, other);
    if other != provider {
      D.RemoveGet(keys, provider, other);
    }
  }

  class SecureKeyManager {
    const encrypt: string -> string
    const decrypt: string -> Option<string>
    const hash: string -> string
    var keys: D.Dict<string, KeyEntry>

    ghost predicate Valid()
      reads this
    {
      D.WellFormed(keys)
    }

    /** A store over the machine's cipher, loading the keys file. */
    constructor (file: KeyFile, encrypt: string -> string, decrypt: string -> Option<string>, hash: string -> string)
      requires file.Stored? ==> D.WellFormed(file.keys)
      ensures Valid() && keys == LoadedKeys(file)
      ensures this.encrypt == encrypt && this.decrypt == decrypt && this.hash == hash
    {
      this.encrypt := encrypt;
      this.decrypt := decrypt;
      this.hash := hash;
      keys := [];
      new;
      var _ := LoadKeys(file);
    }

    /** `load_keys`: false only when the file exists but cannot be read. */
    method LoadKeys(file: KeyFile) returns (ok: bool)
      requires file.Stored? ==> D.WellFormed(file.keys)
      modifies this
      ensures Valid() && keys == LoadedKeys(file)
      ensures ok <==> !file.Unreadable?
    {
      match file
      case Missing =>
        keys := [];
        ok := true;
      case Unreadable =>
        keys := [];
        ok := false;
      case Stored(loaded) =>
        keys := loaded;
        ok := true;
    }

    /** `save_key`: encrypts and stores the key with its flag, hash, time and metadata. */
    method SaveKey(provider: string, apiKey: string, locked: bool, metadata: Option<J.Entry>, now: string)
      returns (ok: bool)
      requires Valid()
      modifies this
      ensures Valid() && ok
      ensures keys == Saved(old(keys), provider, apiKey, locked, metadata, now, encrypt, hash)
      ensures Inverse(encrypt, decrypt) ==> GetKey(provider) == Some(apiKey)
    {
      var entry := NewEntry(apiKey, locked, metadata, now, encrypt, hash);
      D.PutWellFormed(keys, provider, entry);
      keys := D.Put(keys, provider, entry);
      if Inverse(encrypt, decrypt) {
        SaveThenGet(old(keys), provider, apiKey, locked, metadata, now, encrypt, decrypt, hash);
      }
      ok := true;
    }

    function GetKey(provider: string): Option<string>
      reads this
    {
      KeyOf(keys, provider, decrypt)
    }

    function IsLocked(provider: string): bool
      reads this
    {
      Locked(keys, provider)
    }

    /** `lock_key`: false for an unknown provider, which changes nothing. */
    method LockKey(provider: string, now: string) returns (ok: bool)
      requires Valid()
      modifies this
      ensures Valid()
      ensures ok == D.HasKey(old(keys), provider)
      ensures keys == WithLock(old(keys), provider, true, now)
      ensures IsLocked(provider) == ok
    {
      ok := SetLock(provider, true, now);
    }

    /** `unlock_key`: false for an unknown provider, which changes nothing. */
    method UnlockKey(provider: string, now: string) returns (ok: bool)
      requires Valid()
      modifies this
      ensures Valid()
      ensures ok == D.HasKey(old(keys), provider)
      ensures keys == WithLock(old(keys), provider, false, now)
      ensures !IsLocked(provider)
    {
      ok := SetLock(provider, false, now);
    }

    /** The shared body of locking and unlocking. */
    method SetLock(provider: string, flag: bool, now: string) returns (ok: bool)
      requires Valid()
      modifies this
      ensures Valid()
      ensures ok == D.HasKey(old(keys), provider)
      ensures keys == WithLock(old(keys), provider, flag, now)
      ensures IsLocked(provider) == (ok && flag)
    {
      LockSetsFlag(keys, provider, flag, now, decrypt, provider);
      var found := D.Get(keys, provider);
      if found.None? {
        return false;
      }
      var e := found.value;
      var updated := if flag then e.(locked := Some(true), lockedAt := Some(now))
                     else e.(locked := Some(false), unlockedAt := Some(now));
      D.PutWellFormed(keys, provider, updated);
      keys := D.Put(keys, provider, updated);
      ok := true;
    }

    /** `delete_key`: true exactly when there was an entry to delete. */
    method DeleteKey(provider: string) returns (ok: bool)
      requires Valid()
      modifies this
      ensures Valid()
      ensures ok == D.HasKey(old(keys), provider)
      ensures keys == if ok then D.Remove(old(keys), provider) else old(keys)
      ensures !HasKey(provider)
    {
      if !D.HasKey(keys, provider) {
        return false;
      }
      D.RemoveWellFormed(keys, provider);
      keys := D.Remove(keys, provider);
      ok := true;
    }

    predicate HasKey(provider: string)
      reads this
    {
      D.HasKey(keys, provider)
    }

    function GetKeyInfo(provider: string): Option<KeyEntry>
      reads this
    {
      Info(keys, provider)
    }

    function ListProviders(): seq<string>
      reads this
    {
      Providers(keys)
    }
  }
}
