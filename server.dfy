/**
 * The request handlers of the server (BVerifyServer and its service
 * BVerifyServerImpl): the co-signed issue and transfer protocol that is the
 * only writer of the commitment ledger, the one-slot-per-recipient mailbox
 * used to pass proposals between clients, and the commitment-list read.
 *
 * Handlers return their reply instead of writing it to a response stream;
 * transport, logging and process start-up are not part of this model.
 */
module Server {
  import opened Types
  import opened Ledger

  datatype IssueReceiptRequest = IssueReceiptRequest(
    receipt: Receipt,
    signatureWarehouse: Signature,
    signatureDepositor: Signature)

  datatype TransferReceiptRequest = TransferReceiptRequest(
    receipt: Receipt,
    currentOwnerId: AccountId,
    newOwnerId: AccountId,
    signatureWarehouseCurrent: Signature,
    signatureCurrentOwner: Signature,
    signatureWarehouseNew: Signature,
    signatureNewOwner: Signature)

  /** The `request` one-of carried by submit and forward messages; `RequestNotSet` stands for every other case. */
  datatype RequestCase =
    | IssueReceipt(issue: IssueReceiptRequest)
    | TransferReceipt(transfer: TransferReceiptRequest)
    | RequestNotSet

  datatype SubmitRequest = SubmitRequest(request: RequestCase)
  datatype SubmitResponse = SubmitResponse(accepted: bool)
  datatype ForwardRequest = ForwardRequest(forwardToId: string, request: RequestCase)
  datatype ForwardResponse = ForwardResponse(added: bool)
  /** A forwarded proposal; the empty response has `RequestNotSet`. */
  datatype GetForwardedResponse = GetForwardedResponse(request: RequestCase)

  /** The relationship id of a (warehouse, client) pair, in that order. */
  function PairKey(c: Crypto, warehouse: Account, client: Account): AdsId
  {
    c.accountsToAdsKey([warehouse.id, client.id])
  }

  /** Both parties of a relationship signed `root`: the accept decision of one relationship update. */
  predicate Cosigned(c: Crypto, root: Digest,
                     sig1: Signature, key1: PublicKey, sig2: Signature, key2: PublicKey)
  {
    c.verify(root, sig1, key1) && c.verify(root, sig2, key2)
  }

  /**
   * The server process: loads the ledger from the directory and the stored
   * receipts, and makes the initial commitment before serving requests.
   */
  class BVerifyServer {
    const pki: map<AccountId, Account>
    const adsManager: ADSManager

    constructor (pki: map<AccountId, Account>, loadReceipts: AdsId -> set<Receipt>, crypto: Crypto)
      ensures this.pki == pki && fresh(adsManager)
      ensures adsManager.Valid() && adsManager.Mirrors() && adsManager.crypto == crypto
      ensures adsManager.adsKeyToADS.Keys == AdsKeysOf(pki.Values)
      ensures |adsManager.commitments| == 1
      ensures adsManager.serverAuthADSVersions == [adsManager.serverAuthADS]
      ensures forall k :: k in adsManager.adsKeyToADS ==>
        adsManager.adsKeyToADSData[k] == loadReceipts(k)
    {
      this.pki := pki;
      var manager := new ADSManager(pki, loadReceipts, crypto);
      var initial := manager.Commit();
      adsManager := manager;
    }
  }

  class BVerifyServerImpl {
    const pki: map<AccountId, Account>
    const adsManager: ADSManager
    /** Pending proposals, one slot per recipient id. */
    var approvalRequests: map<string, GetForwardedResponse>

    ghost predicate Valid()
      reads this, adsManager
    {
      && adsManager.Valid()
      && |adsManager.commitments| > 0
      && (WitnessInjective(adsManager.crypto) ==> adsManager.Mirrors())
      && (forall id :: id in approvalRequests ==> !approvalRequests[id].request.RequestNotSet?)
    }

    constructor (pki: map<AccountId, Account>, ads: ADSManager)
      requires ads.Valid() && |ads.commitments| > 0
      requires WitnessInjective(ads.crypto) ==> ads.Mirrors()
      ensures Valid()
      ensures this.pki == pki && adsManager == ads && approvalRequests == map[]
    {
      this.pki := pki;
      adsManager := ads;
      approvalRequests := map[];
    }

    /** Stores an issue or transfer proposal for `forwardToId`, replacing any earlier one; other cases store nothing. */
    method Forward(request: ForwardRequest) returns (response: ForwardResponse)
      requires Valid()
      modifies this
      ensures Valid()
      ensures response.added <==> !request.request.RequestNotSet?
      ensures response.added ==>
        approvalRequests == old(approvalRequests)[request.forwardToId := GetForwardedResponse(request.request)]
      ensures !response.added ==> approvalRequests == old(approvalRequests)
    {
      var toForward: Reply<GetForwardedResponse> := Null;
      match request.request {
        case IssueReceipt(issue) =>
          toForward := Value(GetForwardedResponse(IssueReceipt(issue)));
        case TransferReceipt(transfer) =>
          toForward := Value(GetForwardedResponse(TransferReceipt(transfer)));
        case RequestNotSet =>
      }
      if toForward.Value? {
        approvalRequests := approvalRequests[request.forwardToId := toForward.value];
        response := ForwardResponse(true);
      } else {
        response := ForwardResponse(false);
      }
    }

    /** Hands out and removes the proposal stored for `id`; the empty response when there is none. */
    method GetForwarded(id: string) returns (response: GetForwardedResponse)
      requires Valid()
      modifies this
      ensures Valid()
      ensures id in old(approvalRequests) ==> response == old(approvalRequests)[id]
      ensures response.request.RequestNotSet? <==> id !in old(approvalRequests)
      ensures approvalRequests == old(approvalRequests) - {id}
      ensures id !in approvalRequests
    {
      // a plain map lookup: absent ids yield the empty response, nothing is thrown
      response := if id in approvalRequests then approvalRequests[id] else GetForwardedResponse(RequestNotSet);
      approvalRequests := approvalRequests - {id};
    }

    /** The issuer and depositor of an issue request are both in the directory, and their relationship set exists. */
    ghost predicate IssueResolves(request: IssueReceiptRequest)
      reads adsManager
    {
      && request.receipt.warehouseId in pki
      && request.receipt.depositorId in pki
      && IssueKey(request) in adsManager.adsKeyToADS
    }

    ghost function IssueKey(request: IssueReceiptRequest): AdsId
      requires request.receipt.warehouseId in pki && request.receipt.depositorId in pki
    {
      PairKey(adsManager.crypto, pki[request.receipt.warehouseId], pki[request.receipt.depositorId])
    }

    /** Both parties signed the root of their set with the receipt's witness inserted. */
    ghost predicate IssueApproved(request: IssueReceiptRequest)
      requires IssueResolves(request)
      reads adsManager
    {
      var c := adsManager.crypto;
      var newSet := adsManager.adsKeyToADS[IssueKey(request)] + {c.witnessReceipt(request.receipt)};
      Cosigned(c, c.setCommitment(newSet),
               request.signatureWarehouse, pki[request.receipt.warehouseId].publicKey,
               request.signatureDepositor, pki[request.receipt.depositorId].publicKey)
    }

    /**
     * The ledger after an accepted issue, in terms of the ledger before it:
     * the pair's set and receipts gain the receipt, its entry becomes the new
     * set's digest, every other relationship is unchanged, and exactly one
     * snapshot and its root are published.
     */
    twostate predicate IssueInstalled(request: IssueReceiptRequest)
      requires old(adsManager.Valid()) && old(IssueResolves(request))
      reads adsManager
    {
      var c := adsManager.crypto;
      var k := IssueKey(request);
      var newSet := old(adsManager.adsKeyToADS[k]) + {c.witnessReceipt(request.receipt)};
      && adsManager.adsKeyToADS == old(adsManager.adsKeyToADS)[k := newSet]
      && adsManager.adsKeyToADSData == old(adsManager.adsKeyToADSData)[k := old(adsManager.adsKeyToADSData[k]) + {request.receipt}]
      && adsManager.serverAuthADS == old(adsManager.serverAuthADS)[k := c.setCommitment(newSet)]
      && adsManager.serverAuthADSVersions == old(adsManager.serverAuthADSVersions) + [adsManager.serverAuthADS]
      && adsManager.commitments == old(adsManager.commitments) + [c.dictCommitment(adsManager.serverAuthADS)]
    }

    /**
     * The issue protocol: insert the receipt's witness into a scratch copy of
     * the pair's set, and only if the warehouse and the depositor both signed
     * the resulting root, install the copy and commit once. A rejected or
     * failing request leaves the ledger exactly as it was.
     */
    method SubmitIssueRequest(request: IssueReceiptRequest) returns (r: Reply<bool>)
      requires Valid()
      modifies adsManager
      ensures Valid()
      ensures r.Value? <==> old(IssueResolves(request))
      ensures !r.Value? ==> r == Thrown(NullPointer)
      ensures r == Value(true) <==> old(IssueResolves(request) && IssueApproved(request))
      ensures r != Value(true) ==> unchanged(adsManager)
      ensures r == Value(true) ==> IssueInstalled(request)
      ensures r == Value(true) ==>
        var latest := adsManager.serverAuthADSVersions[|adsManager.serverAuthADSVersions| - 1];
        var k := IssueKey(request);
        && k in latest
        && Cosigned(adsManager.crypto, latest[k],
                    request.signatureWarehouse, pki[request.receipt.warehouseId].publicKey,
                    request.signatureDepositor, pki[request.receipt.depositorId].publicKey)
    {
      var crypto := adsManager.crypto;
      var receipt := request.receipt;
      if receipt.warehouseId !in pki || receipt.depositorId !in pki {
        // the directory has no such account: the lookup yields null and the handler throws
        return Thrown(NullPointer);
      }
      var warehouse := pki[receipt.warehouseId];
      var depositor := pki[receipt.depositorId];
      var adsKey := PairKey(crypto, warehouse, depositor);
      var ads := adsManager.GetADS(adsKey);
      var adsData := adsManager.GetADSData(adsKey);
      if !adsData.Value? {
        return Thrown(adsData.exception);
      }

      var receiptWitness := crypto.witnessReceipt(receipt);
      var newAds := ads.value + {receiptWitness};
      var newData := adsData.value + {receipt};
      var newRoot := crypto.setCommitment(newAds);
      var signedWarehouse := crypto.verify(newRoot, request.signatureWarehouse, warehouse.publicKey);
      var signedDepositor := crypto.verify(newRoot, request.signatureDepositor, depositor.publicKey);

      if signedDepositor && signedWarehouse {
        if WitnessInjective(crypto) {
          WitnessesInsert(crypto, adsData.value, receipt);
        }
        InstallIssue(adsKey, newData, newAds);
        return Value(true);
      }
      return Value(false);
    }

    /** The ledger writes of an accepted issue: install the pair's new set and commit once. */
    method InstallIssue(adsKey: AdsId, adsData: set<Receipt>, ads: set<Witness>)
      requires Valid()
      requires WitnessInjective(adsManager.crypto) ==> ads == Witnesses(adsManager.crypto, adsData)
      modifies adsManager
      ensures Valid()
      ensures adsManager.adsKeyToADS == old(adsManager.adsKeyToADS)[adsKey := ads]
      ensures adsManager.adsKeyToADSData == old(adsManager.adsKeyToADSData)[adsKey := adsData]
      ensures adsManager.serverAuthADS == old(adsManager.serverAuthADS)[adsKey := adsManager.crypto.setCommitment(ads)]
      ensures adsManager.serverAuthADSVersions == old(adsManager.serverAuthADSVersions) + [adsManager.serverAuthADS]
      ensures adsManager.commitments == old(adsManager.commitments) + [adsManager.crypto.dictCommitment(adsManager.serverAuthADS)]
    {
      adsManager.UpdateADS(adsKey, adsData, ads);
      var newCommitment := adsManager.Commit();
    }

    /** All three parties of a transfer are in the directory, and both relationship sets exist. */
    ghost predicate TransferResolves(request: TransferReceiptRequest)
      reads adsManager
    {
      && request.receipt.warehouseId in pki
      && request.currentOwnerId in pki
      && request.newOwnerId in pki
      && CurrentKey(request) in adsManager.adsKeyToADS
      && NewKey(request) in adsManager.adsKeyToADS
    }

    ghost function CurrentKey(request: TransferReceiptRequest): AdsId
      requires request.receipt.warehouseId in pki && request.currentOwnerId in pki
    {
      PairKey(adsManager.crypto, pki[request.receipt.warehouseId], pki[request.currentOwnerId])
    }

    ghost function NewKey(request: TransferReceiptRequest): AdsId
      requires request.receipt.warehouseId in pki && request.newOwnerId in pki
    {
      PairKey(adsManager.crypto, pki[request.receipt.warehouseId], pki[request.newOwnerId])
    }

    /**
     * All four signatures verify: warehouse and current owner over the current
     * owner's set without the witness, warehouse and new owner over the new
     * owner's set with it.
     */
    ghost predicate TransferApproved(request: TransferReceiptRequest)
      requires TransferResolves(request)
      reads adsManager
    {
      var c := adsManager.crypto;
      var w := c.witnessReceipt(request.receipt);
      var warehouseKey := pki[request.receipt.warehouseId].publicKey;
      && Cosigned(c, c.setCommitment(adsManager.adsKeyToADS[CurrentKey(request)] - {w}),
                  request.signatureWarehouseCurrent, warehouseKey,
                  request.signatureCurrentOwner, pki[request.currentOwnerId].publicKey)
      && Cosigned(c, c.setCommitment(adsManager.adsKeyToADS[NewKey(request)] + {w}),
                  request.signatureWarehouseNew, warehouseKey,
                  request.signatureNewOwner, pki[request.newOwnerId].publicKey)
    }

    /**
     * The ledger after an accepted transfer, in terms of the ledger before
     * it: the current owner's set and receipts lose the receipt, then the new
     * owner's gain it, both entries become the new sets' digests, every other
     * relationship is unchanged, and exactly one snapshot and its root are
     * published.
     */
    twostate predicate TransferInstalled(request: TransferReceiptRequest)
      requires old(adsManager.Valid()) && old(TransferResolves(request))
      reads adsManager
    {
      var c := adsManager.crypto;
      var w := c.witnessReceipt(request.receipt);
      var ck, nk := CurrentKey(request), NewKey(request);
      var currentSet := old(adsManager.adsKeyToADS[ck]) - {w};
      var newSet := old(adsManager.adsKeyToADS[nk]) + {w};
      && adsManager.adsKeyToADS == old(adsManager.adsKeyToADS)[ck := currentSet][nk := newSet]
      && adsManager.adsKeyToADSData == old(adsManager.adsKeyToADSData)
           [ck := old(adsManager.adsKeyToADSData[ck]) - {request.receipt}]
           [nk := old(adsManager.adsKeyToADSData[nk]) + {request.receipt}]
      && adsManager.serverAuthADS == old(adsManager.serverAuthADS)
           [ck := c.setCommitment(currentSet)][nk := c.setCommitment(newSet)]
      && adsManager.serverAuthADSVersions == old(adsManager.serverAuthADSVersions) + [adsManager.serverAuthADS]
      && adsManager.commitments == old(adsManager.commitments) + [c.dictCommitment(adsManager.serverAuthADS)]
    }

    /**
     * The transfer protocol: remove the receipt from a scratch copy of the
     * current owner's set, insert it into a scratch copy of the new owner's
     * set, and only if all four signatures verify install both copies (current
     * owner first) and commit once. Otherwise the ledger is untouched.
     */
    method SubmitTransferRequest(request: TransferReceiptRequest) returns (r: Reply<bool>)
      requires Valid()
      modifies adsManager
      ensures Valid()
      ensures r.Value? <==> old(TransferResolves(request))
      ensures !r.Value? ==> r == Thrown(NullPointer)
      ensures r == Value(true) <==> old(TransferResolves(request) && TransferApproved(request))
      ensures r != Value(true) ==> unchanged(adsManager)
      ensures r == Value(true) ==> TransferInstalled(request)
    {
      var crypto := adsManager.crypto;
      var receipt := request.receipt;
      if receipt.warehouseId !in pki || request.currentOwnerId !in pki || request.newOwnerId !in pki {
        // the directory has no such account: the lookup yields null and the handler throws
        return Thrown(NullPointer);
      }
      var warehouse := pki[receipt.warehouseId];
      var currentOwner := pki[request.currentOwnerId];
      var newOwner := pki[request.newOwnerId];

      var currentOwnerADSId := PairKey(crypto, warehouse, currentOwner);
      var currentOwnerADS := adsManager.GetADS(currentOwnerADSId);
      var currentOwnerData := adsManager.GetADSData(currentOwnerADSId);
      if !currentOwnerData.Value? {
        return Thrown(currentOwnerData.exception);
      }
      var newOwnerADSId := PairKey(crypto, warehouse, newOwner);
      var newOwnerADS := adsManager.GetADS(newOwnerADSId);
      var newOwnerData := adsManager.GetADSData(newOwnerADSId);
      if !newOwnerData.Value? {
        return Thrown(newOwnerData.exception);
      }

      var receiptWitness := crypto.witnessReceipt(receipt);

      var currentData := currentOwnerData.value - {receipt};
      var currentSet := currentOwnerADS.value - {receiptWitness};
      var currentOwnerNewCmt := crypto.setCommitment(currentSet);
      var signedWarehouseCurrent := crypto.verify(currentOwnerNewCmt, request.signatureWarehouseCurrent, warehouse.publicKey);
      var signedCurrentOwner := crypto.verify(currentOwnerNewCmt, request.signatureCurrentOwner, currentOwner.publicKey);

      var newData := newOwnerData.value + {receipt};
      var newSet := newOwnerADS.value + {receiptWitness};
      var newOwnerCmt := crypto.setCommitment(newSet);
      var signedWarehouseNew := crypto.verify(newOwnerCmt, request.signatureWarehouseNew, warehouse.publicKey);
      var signedNewOwner := crypto.verify(newOwnerCmt, request.signatureNewOwner, newOwner.publicKey);

      if signedWarehouseCurrent && signedCurrentOwner && signedWarehouseNew && signedNewOwner {
        if WitnessInjective(crypto) {
          WitnessesRemove(crypto, currentOwnerData.value, receipt);
          WitnessesInsert(crypto, newOwnerData.value, receipt);
        }
        InstallTransfer(currentOwnerADSId, currentData, currentSet, newOwnerADSId, newData, newSet);
        return Value(true);
      }
      return Value(false);
    }

    /**
     * The ledger writes of an accepted transfer: install the current owner's
     * new set, then the new owner's, and commit once.
     */
    method InstallTransfer(currentKey: AdsId, currentData: set<Receipt>, currentSet: set<Witness>,
                           newKey: AdsId, newData: set<Receipt>, newSet: set<Witness>)
      requires Valid()
      requires WitnessInjective(adsManager.crypto) ==>
        currentSet == Witnesses(adsManager.crypto, currentData) && newSet == Witnesses(adsManager.crypto, newData)
      modifies adsManager
      ensures Valid()
      ensures adsManager.adsKeyToADS == old(adsManager.adsKeyToADS)[currentKey := currentSet][newKey := newSet]
      ensures adsManager.adsKeyToADSData == old(adsManager.adsKeyToADSData)[currentKey := currentData][newKey := newData]
      ensures adsManager.serverAuthADS == old(adsManager.serverAuthADS)
        [currentKey := adsManager.crypto.setCommitment(currentSet)][newKey := adsManager.crypto.setCommitment(newSet)]
      ensures adsManager.serverAuthADSVersions == old(adsManager.serverAuthADSVersions) + [adsManager.serverAuthADS]
      ensures adsManager.commitments == old(adsManager.commitments) + [adsManager.crypto.dictCommitment(adsManager.serverAuthADS)]
    {
      adsManager.UpdateADS(currentKey, currentData, currentSet);
      adsManager.UpdateADS(newKey, newData, newSet);
      var newCommitment := adsManager.Commit();
    }

    /**
     * Dispatches a submission: issue and transfer go to their protocol, any
     * other case is not accepted. The ledger gains at most one commitment, and
     * only when the submission is accepted.
     */
    method Submit(request: SubmitRequest) returns (r: Reply<SubmitResponse>)
      requires Valid()
      modifies adsManager
      ensures Valid()
      ensures request.request.RequestNotSet? ==> r == Value(SubmitResponse(false))
      ensures !r.Value? ==> r == Thrown(NullPointer)
      ensures request.request.IssueReceipt? ==>
        (r.Value? <==> old(IssueResolves(request.request.issue)))
      ensures request.request.TransferReceipt? ==>
        (r.Value? <==> old(TransferResolves(request.request.transfer)))
      ensures request.request.IssueReceipt? ==>
        (r == Value(SubmitResponse(true)) <==>
           old(IssueResolves(request.request.issue) && IssueApproved(request.request.issue)))
      ensures request.request.TransferReceipt? ==>
        (r == Value(SubmitResponse(true)) <==>
           old(TransferResolves(request.request.transfer) && TransferApproved(request.request.transfer)))
      ensures r != Value(SubmitResponse(true)) ==> unchanged(adsManager)
      ensures request.request.IssueReceipt? && r == Value(SubmitResponse(true)) ==>
        old(IssueResolves(request.request.issue)) && IssueInstalled(request.request.issue)
      ensures request.request.TransferReceipt? && r == Value(SubmitResponse(true)) ==>
        old(TransferResolves(request.request.transfer)) && TransferInstalled(request.request.transfer)
      ensures r == Value(SubmitResponse(true)) ==>
        && |adsManager.commitments| == |old(adsManager.commitments)| + 1
        && old(adsManager.commitments) <= adsManager.commitments
        && adsManager.serverAuthADSVersions == old(adsManager.serverAuthADSVersions) + [adsManager.serverAuthADS]
        && adsManager.commitments[|adsManager.commitments| - 1] == adsManager.crypto.dictCommitment(adsManager.serverAuthADS)
    {
      var accepted: Reply<bool> := Value(false);
      match request.request {
        case IssueReceipt(issue) =>
          accepted := SubmitIssueRequest(issue);
        case TransferReceipt(transfer) =>
          accepted := SubmitTransferRequest(transfer);
        case RequestNotSet =>
      }
      r := match accepted
        case Value(b) => Value(SubmitResponse(b))
        case Null => Null
        case Thrown(e) => Thrown(e);
    }

    /** Every published commitment, in commitment-number order. */
    method GetCommitments() returns (cs: seq<Digest>)
      requires Valid()
      ensures cs == adsManager.commitments
      ensures forall i :: 0 <= i < |cs| ==> cs[i] == adsManager.crypto.dictCommitment(adsManager.serverAuthADSVersions[i])
    {
      var numberOfCommitments := adsManager.GetCurrentCommitmentNumber();
      cs := [];
      var i := 0;
      while i <= numberOfCommitments
        invariant 0 <= i <= numberOfCommitments + 1
        invariant cs == adsManager.commitments[..i]
      {
        var commitment := adsManager.GetCommitment(i);
        cs := cs + [commitment];
        i := i + 1;
      }
    }
  }
}
