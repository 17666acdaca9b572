/**
 * Values shared by the commitment ledger and the update protocol: byte
 * strings, receipts, accounts, the cryptographic and trie primitives the
 * system relies on (kept uninterpreted), and the shape of a Java reply
 * (a value, `null`, or an exception).
 */
module Types {

  newtype Byte = x: int | 0 <= x < 256

  /** A `byte[]`. The Java code wraps keys as hex strings; that wrapping is the identity here. */
  type Bytes = seq<Byte>

  type Digest = Bytes     // a trie root or set commitment
  type AdsId = Bytes      // a relationship-set id (top-level trie key)
  type Witness = Bytes    // the content hash of a receipt (authenticated-set key)
  type Signature = Bytes
  type PublicKey = Bytes
  type AccountId = string

  /**
   * A warehouse receipt. Only the two party ids matter to the protocol; the
   * other fields (accountant, category, date, weight, price, ...) are kept
   * together as their serialized bytes, so two receipts are equal exactly
   * when all their fields are.
   */
  datatype Receipt = Receipt(warehouseId: AccountId, depositorId: AccountId, fields: Bytes)

  /** An entry of the public-key directory: its id, its key and the ids of the relationship sets it belongs to. */
  datatype Account = Account(id: AccountId, publicKey: PublicKey, adsKeys: set<AdsId>)

  /**
   * The primitives whose code is not part of this model, as arbitrary
   * functions: every property proved below holds for every choice of them.
   *  - witnessReceipt: the receipt hash (CryptographicUtils.witnessReceipt)
   *  - setCommitment: the root digest of an authenticated set holding exactly these witnesses
   *  - dictCommitment: the root digest of the top-level trie holding exactly this mapping
   *  - accountsToAdsKey: the relationship id of an ordered list of accounts, taken over their
   *    ids (accounts are equal exactly when their ids are)
   *  - verify: signature verification (CryptographicSignature.verify)
   */
  datatype Crypto = Crypto(
    witnessReceipt: Receipt -> Witness,
    setCommitment: set<Witness> -> Digest,
    dictCommitment: map<AdsId, Digest> -> Digest,
    accountsToAdsKey: seq<AccountId> -> AdsId,
    verify: (Digest, Signature, PublicKey) -> bool)

  /** The exceptions the modelled Java code can raise. */
  datatype JavaException = NullPointer | IndexOutOfBounds

  /** What a Java call hands back: a value, `null`, or an exception it throws. */
  datatype Reply<T> = Value(value: T) | Null | Thrown(exception: JavaException)

  /** `List.get(n)`: the element, or an IndexOutOfBoundsException. */
  function ListGet<T>(s: seq<T>, n: int): Reply<T>
  {
    if 0 <= n < |s| then Value(s[n]) else Thrown(IndexOutOfBounds)
  }

  /**
   * `new HashSet<>(map.get(k))`: a copy of the entry, or a NullPointerException
   * when the key is absent (the copy constructor rejects `null`).
   */
  function CopyEntry<K, V>(m: map<K, V>, k: K): Reply<V>
  {
    if k in m then Value(m[k]) else Thrown(NullPointer)
  }

  /** The witnesses of a set of receipts: the members of the authenticated set that mirrors them. */
  ghost function Witnesses(c: Crypto, receipts: set<Receipt>): set<Witness>
  {
    set r | r in receipts :: c.witnessReceipt(r)
  }

  /** No two distinct receipts share a witness (the hash is collision-free on receipts). */
  ghost predicate WitnessInjective(c: Crypto)
  {
    forall r1, r2 :: c.witnessReceipt(r1) == c.witnessReceipt(r2) ==> r1 == r2
  }

  /** Adding a receipt adds its witness to the mirrored set. */
  lemma WitnessesInsert(c: Crypto, receipts: set<Receipt>, r: Receipt)
    ensures Witnesses(c, receipts + {r}) == Witnesses(c, receipts) + {c.witnessReceipt(r)}
  {
  }

  /** Removing a receipt removes its witness from the mirrored set, provided witnesses do not collide. */
  lemma WitnessesRemove(c: Crypto, receipts: set<Receipt>, r: Receipt)
    requires WitnessInjective(c)
    ensures Witnesses(c, receipts - {r}) == Witnesses(c, receipts) - {c.witnessReceipt(r)}
  {
  }
}
