# Commitment ledger and co-signed update protocol

This project models the server side of a warehouse-receipt system. Each pair of
parties, a warehouse and a depositor, shares a *relationship set* of signed
receipts. The server keeps every relationship set as an authenticated set of
receipt witnesses (content hashes). It keeps a top-level authenticated
dictionary that maps each relationship id to its set's digest. Each commit
publishes one root digest of that dictionary.

Three files:

- `types.dfy` (module `Types`) holds the shared value types.
  - Byte strings, receipts and directory accounts.
  - `Reply<T>`: what a Java call returns. It is a value, `null`, or a thrown `NullPointerException` or `IndexOutOfBoundsException`.
  - `Crypto`: the primitives whose code is outside this model. These are the receipt witness, the set and dictionary digests, the relationship-id derivation and signature verification. They are held as arbitrary function values, so every property here holds whatever the hash and signature functions are.
- `ledger.dfy` (module `Ledger`) holds the commitment ledger, class `ADSManager`.
  - Live state: the relationship sets, their receipts, and the top-level dictionary.
  - Append-only histories: the dictionary snapshots and the root digests.
  - The helper methods of its constructor's loading loops.
  - Its object invariant `Valid()`:
    - all live maps have the same keys;
    - each top-level entry is the digest of its live set;
    - the two histories have the same length;
    - each published commitment is the digest of the snapshot with the same number;
    - the never-filled `oldADSData` is empty.
- `server.dfy` (module `Server`) holds the request handlers of `BVerifyServerImpl`.
  - The issue protocol (two signatures) and the transfer protocol (four signatures). Each works on scratch copies and touches the ledger only after every signature verifies. Then it calls `updateADS` and commits exactly once.
  - The one-slot-per-recipient mailbox.
  - The commitment-list read.
  - `BVerifyServer`'s constructor, which loads the ledger and makes the initial commitment.

Abstractions:

- An authenticated set is the `set` of its witnesses. The top-level trie is the `map` it holds.
  - This presupposes that a trie's digest depends only on its contents, not on the order of insertions and deletions.
  - It also presupposes that deleting a key exactly undoes inserting it.
  - Both are assumed here, not proved. The trie is not part of this model.
- Java's serialize-then-deserialize deep copies become value copies. So the sets handed out by `getADS`/`getADSData` and the snapshots stored by `commit` cannot alias live state.
- The public-key directory is a `map` from account id to account. The receipt files read at start-up are a function from relationship id to receipt set.
- Request handlers return their reply instead of writing it to a response stream.

The model follows the code as written in these places:

- `commit` builds a copy of the receipt data but never appends it to `oldADSData`. The list stays empty. So `getADSData(id, n)` for a committed version older than the latest throws `IndexOutOfBoundsException`. The model does exactly this: see `GetADSDataAt`.
- A transfer does not check that the receipt is in the current owner's set. It also does not change the receipt's depositor field.
- An unknown account or relationship id makes a handler throw before the ledger is touched. The model returns `Thrown(NullPointer)` with the ledger unchanged.

## Model

| member | source | states |
|---|---|---|
| `Types.WitnessesInsert` | src/server/BVerifyServer.java:261-263 | Adding a receipt to a relationship's receipts adds exactly its witness to the mirrored set, so issue keeps set and receipts in step |
| `Types.WitnessesRemove` | src/server/BVerifyServer.java:205-208 | Removing a receipt removes exactly its witness from the mirrored set, provided witnesses do not collide |
| `Ledger.GroupOwners` | src/server/ADSManager.java:77-94 | The owner map has exactly the relationship ids named by some directory account, each mapped to the ids of all accounts naming it |
| `Ledger.BuildSet` | src/server/ADSManager.java:103-107 | Inserting each receipt's witness yields exactly the set of witnesses of the receipts |
| `Ledger.LoadRelationships` | src/server/ADSManager.java:98-112 | Every known relationship id gets its stored receipts, the set of their witnesses, and a top-level entry equal to that set's digest; no other ids appear |
| `Ledger.ADSManager.constructor` | src/server/ADSManager.java:68-116 | After loading, the invariant holds, the key set is the directory's relationship ids, each entry is the digest of its receipts' witnesses, and both histories are empty |
| `Ledger.ADSManager.GetADS` | src/server/ADSManager.java:118-132 | `null` exactly for an unknown id; otherwise a copy of the live set, whose digest is the top-level entry for that id |
| `Ledger.ADSManager.GetADSData` | src/server/ADSManager.java:151-155 | A copy of the live receipts for a known id; an unknown id throws NullPointerException |
| `Ledger.ADSManager.GetADSDataAt` | src/server/ADSManager.java:134-149 | `null` exactly when the commitment number is out of range; the live receipts for the latest commitment (NullPointerException for an unknown id); IndexOutOfBoundsException for every older commitment, because `oldADSData` is never filled |
| `Ledger.ADSManager.UpdateADS` | src/server/ADSManager.java:157-162 | Replaces the set and receipts of one id and sets its top-level entry to the new set's digest; every other entry, every stored snapshot and every published commitment is unchanged; the invariant is kept |
| `Ledger.ADSManager.Commit` | src/server/ADSManager.java:164-193 | Appends exactly one snapshot (the current dictionary) and one digest (its root), returns that digest, leaves the live state unchanged, and keeps the history lengths equal |
| `Ledger.ADSManager.GetCurrentCommitmentNumber` | src/server/ADSManager.java:195-199 | With at least one commitment, returns the number of commitments minus one, which indexes a commitment equal to its snapshot's root |
| `Ledger.ADSManager.GetCommitment` | src/server/ADSManager.java:201-203 | For an in-range number, the published commitment, which is the root of the snapshot of the same number |
| `Ledger.ADSManager.GetProof` | src/server/ADSManager.java:205-212 | `null` exactly for an out-of-range number; otherwise the proof is extracted from the snapshot whose root is the published commitment of that number |
| `Server.BVerifyServer.constructor` | src/server/BVerifyServer.java:80-93 | Loads a fresh ledger from the directory and receipts and commits once, so exactly one commitment exists and its snapshot is the loaded dictionary |
| `Server.BVerifyServerImpl.constructor` | src/server/BVerifyServer.java:114-118 | Starts with an empty mailbox over the given ledger |
| `Server.BVerifyServerImpl.Forward` | src/server/BVerifyServer.java:120-149 | `added` exactly for issue and transfer proposals, which overwrite the recipient's slot; any other case stores nothing |
| `Server.BVerifyServerImpl.GetForwarded` | src/server/BVerifyServer.java:151-168 | Returns the stored proposal and empties that slot, or the empty response exactly when nothing is stored; afterwards the slot is empty, so a second call gets the empty response |
| `Server.BVerifyServerImpl.SubmitIssueRequest` | src/server/BVerifyServer.java:250-288 | Accepted iff both parties are known, their set exists, and warehouse and depositor both signed the root of the set with the witness inserted. On acceptance, that one set and its receipts gain the receipt, its entry becomes the signed digest, and exactly one commitment is published whose snapshot holds the signed digest. Otherwise the ledger is unchanged |
| `Server.BVerifyServerImpl.SubmitTransferRequest` | src/server/BVerifyServer.java:188-248 | Accepted iff all parties and both sets are known and all four signatures verify (warehouse and current owner over the set without the witness, warehouse and new owner over the set with it). On acceptance, both sets and entries are updated, current owner first, and exactly one commitment is published. Otherwise the ledger is unchanged |
| `Server.BVerifyServerImpl.InstallIssue` | src/server/BVerifyServer.java:278-280 | Installs one set with its receipts, sets its entry to the set's digest, and publishes exactly one snapshot and commitment; keeps the server invariant |
| `Server.BVerifyServerImpl.InstallTransfer` | src/server/BVerifyServer.java:236-239 | Installs the current owner's set, then the new owner's, and publishes exactly one snapshot and commitment; keeps the server invariant |
| `Server.BVerifyServerImpl.Submit` | src/server/BVerifyServer.java:170-186 | Dispatches issue and transfer; any other case is not accepted. An exception is thrown exactly when the request's parties or sets do not resolve, and acceptance holds exactly when they resolve and all required signatures verify. The ledger changes only on acceptance. It then has exactly the new state of the accepted protocol (`IssueInstalled` or `TransferInstalled`): the affected sets, receipts and entries updated, every other relationship unchanged, and one snapshot and its root appended |
| `Server.BVerifyServerImpl.GetCommitments` | src/server/BVerifyServer.java:319-331 | Returns all published commitments in number order, each the root of the snapshot of the same number |

## Left out

- `BVerifyServer.start`, `stop`, `blockUntilShutdown` and `main`: process start-up and gRPC transport.
- The directory's loading from disk and `BootstrapMockSetup.loadReceipts`: file I/O. The directory and the stored receipts are parameters.
- All logging and response-stream calls: I/O.
- `getDataRequest` and `getAuthPath` are not modelled as handlers. They put the results of `GetADSDataAt` and `GetProof` into a response message.
  - For an out-of-range commitment number those results are `null`.
  - `addAllReceipts(null)` (src/server/BVerifyServer.java:298) and `setPath(null)` (src/server/BVerifyServer.java:313) then throw, so the client gets an exception, not an empty response.
  - An exception from `GetADSDataAt` reaches the client the same way.
- `ADSManager.save`: file I/O.
- `ADSManager.reset`, the trie's change-tracking reset called by `commit`, is taken to change neither the contents nor the digest of the dictionary.
- The trie itself is not part of this model. This covers insertion and deletion, digest computation, serialization, and the partial trie built for a proof with its authenticated lookup. A proof is represented only by the snapshot and key list it is extracted from. No order-independence or proof-soundness property is claimed.
- Cryptographic primitives are not part of this model: witnesses, digests, relationship-id derivation and signature checking are arbitrary functions.
- `synchronized` blocks and concurrent handlers: the ledger and the server are modelled sequentially.
- `BVerifyServerConfirmAndApply`, `BVerifyServerRequestVerifier`, the RMI interfaces and the demo clients are not part of this model. They are remote-call plumbing, a worker thread, and demo code.
- Aliasing: `updateADS` stores the caller's set object, not a copy. With value semantics that sharing is not represented. The handlers never reuse the object afterwards.
- Ledger.ADSManager.GetCurrentCommitmentNumber: it requires at least one commitment, as the source's assertion states. With Java assertions disabled it would return -1 on an empty ledger; the model does not cover that case.
- Ledger.ADSManager.GetCommitment: it requires an in-range number, because the source performs no check. Java would throw `IndexOutOfBoundsException` otherwise.
- Server.BVerifyServerImpl.SubmitIssueRequest: the exact point at which an unknown account makes the handler throw is in directory and hashing code not part of this model. The model only states that an exception is thrown before the ledger changes. The same holds for `SubmitTransferRequest`.
- The consistency of each live set with the witnesses of its live receipts is kept only under collision-free witnesses. A transfer's removal needs it. It is part of the server invariant as an implication.
