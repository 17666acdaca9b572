/**
 * The server's commitment ledger (ADSManager): the live relationship sets
 * and their receipts, the top-level dictionary from relationship id to set
 * digest, and the two append-only histories of that dictionary's snapshots
 * and root digests.
 *
 * The tries are abstract: an authenticated set is the set of its witnesses
 * and the top-level trie is the map it holds; their digests come from the
 * uninterpreted `Crypto` primitives. Java's serialize-then-deserialize
 * copies are value copies here.
 */
module Ledger {
  import opened Types

  /** The relationship ids named by any account of the directory. */
  ghost function AdsKeysOf(accounts: set<Account>): set<AdsId>
  {
    set a, k | a in accounts && k in a.adsKeys :: k
  }

  /** The ids of the accounts that belong to relationship `k`. */
  ghost function OwnersOf(accounts: set<Account>, k: AdsId): set<AccountId>
  {
    set a | a in accounts && k in a.adsKeys :: a.id
  }

  lemma AddAccount(done: set<Account>, a: Account)
    ensures AdsKeysOf(done + {a}) == AdsKeysOf(done) + a.adsKeys
    ensures forall k :: OwnersOf(done + {a}, k) == OwnersOf(done, k) + (if k in a.adsKeys then {a.id} else {})
  {
  }

  /**
   * The constructor's first pass over the directory: for every relationship
   * id named by some account, the set of accounts that share it.
   */
  method GroupOwners(accounts: set<Account>) returns (owners: map<AdsId, set<AccountId>>)
    ensures owners.Keys == AdsKeysOf(accounts)
    ensures forall k :: k in owners ==> owners[k] == OwnersOf(accounts, k)
  {
    owners := map[];
    var todo := accounts;
    while todo != {}
      invariant todo <= accounts
      invariant owners.Keys == AdsKeysOf(accounts - todo)
      invariant forall k :: k in owners ==> owners[k] == OwnersOf(accounts - todo, k)
      decreases todo
    {
      var a :| a in todo;
      ghost var done := accounts - todo;
      var keys := a.adsKeys;
      while keys != {}
        invariant keys <= a.adsKeys
        invariant owners.Keys == AdsKeysOf(done) + (a.adsKeys - keys)
        invariant forall k :: k in owners ==>
          owners[k] == OwnersOf(done, k) + (if k in a.adsKeys - keys then {a.id} else {})
        decreases keys
      {
        var k :| k in keys;
        var accs := if k in owners then owners[k] else {};
        owners := owners[k := accs + {a.id}];
        keys := keys - {k};
      }
      AddAccount(done, a);
      todo := todo - {a};
      assert accounts - todo == done + {a};
    }
  }

  /** Builds a relationship's authenticated set by inserting the witness of each of its receipts. */
  method BuildSet(crypto: Crypto, receipts: set<Receipt>) returns (ads: set<Witness>)
    ensures ads == Witnesses(crypto, receipts)
  {
    ads := {};
    var todo := receipts;
    while todo != {}
      invariant todo <= receipts
      invariant ads == Witnesses(crypto, receipts - todo)
      decreases todo
    {
      var r :| r in todo;
      WitnessesInsert(crypto, receipts - todo, r);
      ads := ads + {crypto.witnessReceipt(r)};
      todo := todo - {r};
      assert receipts - todo == (receipts - (todo + {r})) + {r};
    }
  }

  /**
   * The constructor's second pass: for every relationship id, load its
   * receipts, build its authenticated set, and enter the set's digest in the
   * top-level dictionary.
   */
  method LoadRelationships(keys: set<AdsId>, loadReceipts: AdsId -> set<Receipt>, crypto: Crypto)
    returns (data: map<AdsId, set<Receipt>>, sets: map<AdsId, set<Witness>>, top: map<AdsId, Digest>)
    ensures data.Keys == keys && sets.Keys == keys && top.Keys == keys
    ensures forall k :: k in keys ==>
      && data[k] == loadReceipts(k)
      && sets[k] == Witnesses(crypto, loadReceipts(k))
      && top[k] == crypto.setCommitment(sets[k])
  {
    data, sets, top := map[], map[], map[];
    var todo := keys;
    while todo != {}
      invariant todo <= keys
      invariant data.Keys == keys - todo && sets.Keys == keys - todo && top.Keys == keys - todo
      invariant forall k :: k in keys - todo ==>
        && data[k] == loadReceipts(k)
        && sets[k] == Witnesses(crypto, loadReceipts(k))
        && top[k] == crypto.setCommitment(sets[k])
      decreases todo
    {
      var k :| k in todo;
      var receipts := loadReceipts(k);
      var ads := BuildSet(crypto, receipts);
      data := data[k := receipts];
      sets := sets[k := ads];
      top := top[k := crypto.setCommitment(ads)];
      todo := todo - {k};
    }
  }

  /**
   * What `getProof` hands out: the partial trie for `keys` extracted from
   * one stored version of the top-level dictionary. The partial trie itself
   * (pruning, serialization, authenticated lookup) is not part of this model.
   */
  datatype Proof = Proof(version: map<AdsId, Digest>, keys: seq<AdsId>)

  class ADSManager {
    const crypto: Crypto
    /** Relationship id to the ids of its owners; built once and only read afterwards. */
    const adsKeyToADSOwners: map<AdsId, set<AccountId>>

    var adsKeyToADS: map<AdsId, set<Witness>>
    var adsKeyToADSData: map<AdsId, set<Receipt>>
    /** The live top-level dictionary: relationship id to the digest of its set. */
    var serverAuthADS: map<AdsId, Digest>
    /** Snapshot of the top-level dictionary taken by each commit. */
    var serverAuthADSVersions: seq<map<AdsId, Digest>>
    /** Meant to hold the receipts of each committed version; no operation ever appends to it. */
    var oldADSData: seq<map<AdsId, set<Receipt>>>
    /** Root digest published by each commit; commitment number = index. */
    var commitments: seq<Digest>

    ghost predicate Valid()
      reads this
    {
      && adsKeyToADSData.Keys == adsKeyToADS.Keys
      && serverAuthADS.Keys == adsKeyToADS.Keys
      && (forall k :: k in adsKeyToADS ==> serverAuthADS[k] == crypto.setCommitment(adsKeyToADS[k]))
      && |serverAuthADSVersions| == |commitments|
      && (forall i :: 0 <= i < |commitments| ==>
            commitments[i] == crypto.dictCommitment(serverAuthADSVersions[i]))
      && oldADSData == []
    }

    /** Every live authenticated set holds exactly the witnesses of the live receipts beside it. */
    ghost predicate Mirrors()
      reads this
    {
      forall k :: k in adsKeyToADS && k in adsKeyToADSData ==>
        adsKeyToADS[k] == Witnesses(crypto, adsKeyToADSData[k])
    }

    /**
     * Loads the ledger: every relationship id named in the directory gets the
     * receipts stored for it (`loadReceipts` stands for the files read from
     * disk), an authenticated set of their witnesses, and a top-level entry
     * holding that set's digest. Nothing is committed yet.
     */
    constructor (pki: map<AccountId, Account>, loadReceipts: AdsId -> set<Receipt>, crypto: Crypto)
      ensures Valid() && Mirrors()
      ensures this.crypto == crypto
      ensures adsKeyToADS.Keys == AdsKeysOf(pki.Values)
      ensures forall k :: k in adsKeyToADSOwners <==> k in adsKeyToADS
      ensures forall k :: k in adsKeyToADSOwners ==> adsKeyToADSOwners[k] == OwnersOf(pki.Values, k)
      ensures forall k :: k in adsKeyToADS ==>
        && adsKeyToADSData[k] == loadReceipts(k)
        && serverAuthADS[k] == crypto.setCommitment(Witnesses(crypto, loadReceipts(k)))
      ensures serverAuthADSVersions == [] && commitments == []
    {
      var owners := GroupOwners(pki.Values);
      var data, sets, top := LoadRelationships(owners.Keys, loadReceipts, crypto);
      this.crypto := crypto;
      adsKeyToADSOwners := owners;
      adsKeyToADSData := data;
      adsKeyToADS := sets;
      serverAuthADS := top;
      serverAuthADSVersions := [];
      oldADSData := [];
      commitments := [];
    }

    /** A copy of the live authenticated set of `adsId`, or `null` for an unknown id. */
    method GetADS(adsId: AdsId) returns (r: Reply<set<Witness>>)
      requires Valid()
      ensures r.Value? <==> adsId in adsKeyToADS
      ensures !r.Value? ==> r == Null
      ensures r.Value? ==> r.value == adsKeyToADS[adsId]
      ensures r.Value? ==> crypto.setCommitment(r.value) == serverAuthADS[adsId]
    {
      if adsId in adsKeyToADS {
        r := Value(adsKeyToADS[adsId]);
      } else {
        r := Null;
      }
    }

    /** A copy of the live receipts of `adsId`; an unknown id makes the copy constructor throw. */
    method GetADSData(adsId: AdsId) returns (r: Reply<set<Receipt>>)
      requires Valid()
      ensures r.Value? <==> adsId in adsKeyToADS
      ensures !r.Value? ==> r == Thrown(NullPointer)
      ensures r.Value? ==> r.value == adsKeyToADSData[adsId]
      ensures r.Value? && Mirrors() ==> Witnesses(crypto, r.value) == adsKeyToADS[adsId]
    {
      r := CopyEntry(adsKeyToADSData, adsId);
    }

    /**
     * The receipts of `adsId` at commitment `n`: `null` outside
     * 0 <= n < |commitments|; the live receipts for the latest commitment; for
     * an older one, the lookup in `oldADSData`, which is always empty, so it
     * throws.
     */
    method GetADSDataAt(adsId: AdsId, n: int) returns (r: Reply<set<Receipt>>)
      requires Valid()
      ensures r == Null <==> n < 0 || n >= |commitments|
      ensures 0 <= n == |commitments| - 1 && adsId in adsKeyToADSData ==> r == Value(adsKeyToADSData[adsId])
      ensures 0 <= n == |commitments| - 1 && adsId !in adsKeyToADSData ==> r == Thrown(NullPointer)
      ensures 0 <= n < |commitments| - 1 ==> r == Thrown(IndexOutOfBounds)
    {
      if n < 0 || n >= |commitments| {
        return Null;
      }
      if n == |commitments| - 1 {
        r := CopyEntry(adsKeyToADSData, adsId);
      } else {
        r := match ListGet(oldADSData, n)
          case Value(stored) => CopyEntry(stored, adsId)
          case _ => Thrown(IndexOutOfBounds);
      }
    }

    /**
     * Replaces the live state of relationship `adsKey` and its top-level
     * entry; publishes nothing and leaves every other relationship and the
     * whole history untouched.
     */
    method UpdateADS(adsKey: AdsId, adsData: set<Receipt>, ads: set<Witness>)
      requires Valid()
      modifies this
      ensures Valid()
      ensures adsKeyToADS == old(adsKeyToADS)[adsKey := ads]
      ensures adsKeyToADSData == old(adsKeyToADSData)[adsKey := adsData]
      ensures serverAuthADS == old(serverAuthADS)[adsKey := crypto.setCommitment(ads)]
      ensures serverAuthADSVersions == old(serverAuthADSVersions)
      ensures oldADSData == old(oldADSData)
      ensures commitments == old(commitments)
      ensures old(Mirrors()) && ads == Witnesses(crypto, adsData) ==> Mirrors()
    {
      adsKeyToADS := adsKeyToADS[adsKey := ads];
      adsKeyToADSData := adsKeyToADSData[adsKey := adsData];
      serverAuthADS := serverAuthADS[adsKey := crypto.setCommitment(ads)];
    }

    /**
     * Publishes the live top-level dictionary: appends an independent
     * snapshot of it and its root digest, and returns that digest. The
     * receipt copy the source builds here is dropped, so `oldADSData` does
     * not grow; the trie's change-tracking reset does not alter its contents.
     */
    method Commit() returns (commitment: Digest)
      requires Valid()
      modifies this
      ensures Valid()
      ensures commitment == crypto.dictCommitment(serverAuthADS)
      ensures serverAuthADSVersions == old(serverAuthADSVersions) + [old(serverAuthADS)]
      ensures commitments == old(commitments) + [commitment]
      ensures adsKeyToADS == old(adsKeyToADS)
      ensures adsKeyToADSData == old(adsKeyToADSData)
      ensures serverAuthADS == old(serverAuthADS)
      ensures oldADSData == old(oldADSData)
      ensures old(Mirrors()) ==> Mirrors()
    {
      serverAuthADSVersions := serverAuthADSVersions + [serverAuthADS];
      commitment := crypto.dictCommitment(serverAuthADS);
      commitments := commitments + [commitment];
    }

    /** The number of the latest commitment; the source asserts that one exists. */
    method GetCurrentCommitmentNumber() returns (n: int)
      requires Valid() && |commitments| > 0
      ensures 0 <= n < |commitments| && n + 1 == |commitments|
      ensures commitments[n] == crypto.dictCommitment(serverAuthADSVersions[n])
    {
      n := |commitments| - 1;
    }

    /** Commitment number `n`; the source does not range-check it. */
    method GetCommitment(n: int) returns (c: Digest)
      requires Valid() && 0 <= n < |commitments|
      ensures c == commitments[n]
      ensures c == crypto.dictCommitment(serverAuthADSVersions[n])
    {
      c := commitments[n];
    }

    /**
     * A proof for `keys` against commitment `n`: `null` when no such
     * commitment exists, otherwise extracted from the snapshot taken by the
     * n-th commit, whose root digest is the published commitment `n`.
     */
    method GetProof(keys: seq<AdsId>, n: int) returns (r: Reply<Proof>)
      requires Valid()
      ensures r == Null <==> n < 0 || n >= |commitments|
      ensures r != Null ==> r == Value(Proof(serverAuthADSVersions[n], keys))
      ensures r != Null ==> crypto.dictCommitment(r.value.version) == commitments[n]
    {
      if n < 0 || n >= |commitments| {
        return Null;
      }
      var full := serverAuthADSVersions[n];
      r := Value(Proof(full, keys));
    }
  }
}
