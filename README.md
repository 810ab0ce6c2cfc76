# mythril LevelDB client, modelled in Dafny

This project models the LevelDB client of mythril. The client reads the on-disk key-value store of a go-ethereum node and keeps an account index of its own in the same store. The model covers four parts:

- **Key schema (`KeySchema`).** A block number is encoded as `utils.zpad(utils.int_to_big_endian(n), 8)`: the shortest big-endian form, left-padded with zero bytes to 8 bytes. Keys are plain concatenations of a one- or two-byte prefix, that number and/or a 32-byte hash:
  - `h`+num+`n` gives the canonical hash of a block;
  - `h`+num+hash gives its header;
  - `b`+num+hash gives its body;
  - `r`+num+hash gives its receipts;
  - `H`+hash gives its number;
  - `AM`+hash gives an indexed address;
  - `LastBlock` holds the head hash, and `accountMapping` holds the index progress marker.

  The `Key` datatype names each family. `Encode` and `Parse` are proved inverse in both directions, and the number field is proved to round-trip for every number below 2^64.
- **Store (`Storage`).** The store is one `Store` object holding a `map<Bytes, Bytes>`. The reader and the writer share it, as `EthLevelDB` hands both the same database.
- **Reader (`ChainReader`).** `LevelDBReader` does point reads by key. It resolves the chain head by loading the header recorded under `LastBlock` and walking back through `prevhash` links. The walk ends at the first header whose state root is stored with a non-empty value, or at a header without a parent. The resolved header and the head state are memoised in two fields. `WalkBack`, `HeadSearch` and the `Head*From` functions specify what the loop and the caches compute. The lemmas show that the walk ends at the nearest settled ancestor. A settled recorded head is returned unchanged. When the recorded head has no state but has a parent, any head the walk resolves is a settled, strictly older ancestor.
- **Writer (`BatchWriter`).** `LevelDBWriter` stages account-index entries `AM`+sha3(address) → address in a write batch. A commit merges the whole batch into the store. The progress marker is written straight to the store, outside the batch.
- **Client (`ChainClient`).** `EthLevelDB` ties these together:
  - it lists the contracts (accounts with code) of the head state;
  - it searches them through the account index, skipping a match whose address is not indexed;
  - it answers the by-number header and block queries.

RLP decoding, the state trie's account listing, `utils.sha3` and `EVMContract.matches_expression` are outside the model. They are passed in as functions: a `Codec` of decoders, `sha3`, `accountsOf` and `matchesExpression`.

A Python call that raises becomes a `Failure` value. `Missing(key)` stands for the `TypeError` that follows a `db.get` returning None. `Undecodable(key)` stands for an RLP decoding error. `NoBatch` stands for a writer call made before `_start_writing`. `AddressNotFound(hash)` stands for `AddressNotFoundError`.

Behaviours of the code that the model keeps, where a reader might expect otherwise:

- **End of the walk-back.** The walk does not fail when no ancestor has a state. It returns the header that has no `prevhash`.
- **Starting a batch twice.** `_start_writing` while a batch is open raises nothing. It replaces the batch with an empty one, and the earlier puts are dropped.
- **Cache after an error.** The head header cache is not all-or-nothing. `_get_head_block` assigns `head_block_header` before each check. When a link fails to load partway through the walk, the last loaded (unsettled) header stays cached, and the next call returns it as the head (`RetryAfterFailedWalkReturnsPartial`).
- **Empty state value.** The test `not self.db.get(state_root)` also treats a root stored with an empty value as absent. `HasState` requires the value to be non-empty.

## Model

| member | source | states |
|---|---|---|
| KeySchema.IntToBigEndian | mythril/ethereum/interface/leveldb/client.py:38 | the big-endian form is empty exactly for 0 and otherwise has no leading zero byte |
| KeySchema.IntToBigEndianRoundTrip | mythril/ethereum/interface/leveldb/client.py:38 | reading the minimal big-endian form back gives the number |
| KeySchema.FormatBlockNumber | mythril/ethereum/interface/leveldb/client.py:36-38 | the formatted number is never shorter than 8 bytes, and exactly 8 for a number below 2^64 |
| KeySchema.HashKey | mythril/ethereum/interface/leveldb/client.py:84-85 | `h`+num+`n` is 2 bytes longer than the formatted number; below 2^64 it is 10 bytes and parses back as the canonical-hash key of that number |
| KeySchema.BlockKey | mythril/ethereum/interface/leveldb/client.py:124 | prefix, number and hash are concatenated without delimiters and each can be cut back out |
| KeySchema.HeaderKey | mythril/ethereum/interface/leveldb/client.py:124 | with an 8-byte number and a 32-byte hash, `h`+num+hash parses back as the header key of that block |
| KeySchema.BodyKey | mythril/ethereum/interface/leveldb/client.py:281 | with an 8-byte number and a 32-byte hash, `b`+num+hash parses back as the body key of that block |
| KeySchema.ReceiptsKey | mythril/ethereum/interface/leveldb/client.py:154 | with an 8-byte number and a 32-byte hash, `r`+num+hash parses back as the receipts key of that block |
| KeySchema.NumberKey | mythril/ethereum/interface/leveldb/client.py:114 | `H`+hash starts with `H` and, for a 32-byte hash, parses back as the number key of that hash |
| KeySchema.AddressKey | mythril/ethereum/interface/leveldb/client.py:136 | `AM`+hash starts with `AM` and, for a 32-byte hash, parses back as the index key of that hash |
| KeySchema.FormatBlockNumberRoundTrip | mythril/ethereum/interface/leveldb/client.py:36-38 | decoding the formatted number as a big-endian integer gives back n, for every n |
| KeySchema.FormatBlockNumberWidth | mythril/ethereum/interface/leveldb/client.py:36-38 | the formatted number is exactly 8 bytes if and only if n < 2^64 (zpad never truncates) |
| KeySchema.FormatBlockNumberOnto | mythril/ethereum/interface/leveldb/client.py:36-38 | every 8-byte string is the formatted form of the number it encodes, which is below 2^64 |
| KeySchema.FormatBlockNumberInjective | mythril/ethereum/interface/leveldb/client.py:36-38 | distinct numbers get distinct formatted forms |
| KeySchema.NumberField | mythril/ethereum/interface/leveldb/client.py:21-27 | the number in an 8-byte key field is below 2^64 |
| KeySchema.Parse | mythril/ethereum/interface/leveldb/client.py:19-33 | a key the schema accepts reads as a well-formed key: 8-byte number below 2^64, 32-byte hash |
| KeySchema.ParseEncode | mythril/ethereum/interface/leveldb/client.py:19-33 | every well-formed key is read back as itself, so no two key families overlap |
| KeySchema.EncodeParse | mythril/ethereum/interface/leveldb/client.py:19-33 | every key the schema accepts is the encoding of what it reads as |
| KeySchema.HashKeyIsNotHeaderKey | mythril/ethereum/interface/leveldb/client.py:84-85 | a canonical-hash key is 10 bytes, a header key 41, and they never coincide |
| ChainReader.WalkBackFindsNearestSettled | mythril/ethereum/interface/leveldb/client.py:97-104 | the walk ends at the nearest settled ancestor, with all earlier ones unsettled; on a failed link it ends with that error, the last unsettled header held |
| ChainReader.AncestorIsOlder | mythril/ethereum/interface/leveldb/client.py:100-104 | every proper ancestor reached by prevhash links has a smaller block number |
| ChainReader.HeadSearchFromRecordedHead | mythril/ethereum/interface/leveldb/client.py:93-104 | a settled recorded head (state stored, or no parent) is returned unchanged; a recorded head with no state but with a parent resolves, if at all, to a settled, strictly older ancestor |
| ChainReader.HeadBlockCached | mythril/ethereum/interface/leveldb/client.py:93-106 | once the head resolves, a later call returns the same cached header whatever the store holds |
| ChainReader.RetryAfterFailedWalkReturnsPartial | mythril/ethereum/interface/leveldb/client.py:96-106 | after a walk fails on a link, the cached header is unsettled and the next call returns it as the head |
| ChainReader.LevelDBReader.constructor | mythril/ethereum/interface/leveldb/client.py:49-56 | both caches start empty over the given store |
| ChainReader.LevelDBReader.GetHeadState | mythril/ethereum/interface/leveldb/client.py:58-66 | the cached state, or the state of the resolved head's state root, cached; a failure leaves the state cache empty |
| ChainReader.LevelDBReader.GetBlockHash | mythril/ethereum/interface/leveldb/client.py:78-86 | the value under the canonical-hash key of the number, or None |
| ChainReader.LevelDBReader.GetHeadBlock | mythril/ethereum/interface/leveldb/client.py:88-106 | the result and the new cache are those of the walk-back specification, and a set cache is returned as is |
| ChainReader.LevelDBReader.GetBlockNumber | mythril/ethereum/interface/leveldb/client.py:108-115 | the raw value under `H`+hash, or None |
| ChainReader.LevelDBReader.GetBlockHeader | mythril/ethereum/interface/leveldb/client.py:117-128 | the decoded header under `h`+num+hash; Missing or Undecodable otherwise |
| ChainReader.LevelDBReader.GetAddressByHash | mythril/ethereum/interface/leveldb/client.py:130-137 | the value under `AM`+hash, or None |
| ChainReader.LevelDBReader.GetLastIndexedNumber | mythril/ethereum/interface/leveldb/client.py:139-144 | the value under `accountMapping`, or None |
| ChainReader.LevelDBReader.GetBlockReceipts | mythril/ethereum/interface/leveldb/client.py:146-157 | the decoded receipts under `r`+8-byte number+hash; Missing or Undecodable otherwise |
| BatchWriter.StageAllIndexes | mythril/ethereum/interface/leveldb/client.py:187-193 | when no two staged addresses share a sha3 (`HashesDistinct`), staging maps each address's `AM` key to that address and leaves every other key as it was |
| BatchWriter.CommittedAddressesResolve | mythril/ethereum/interface/leveldb/client.py:130-137 | when no two staged addresses share a sha3 (`HashesDistinct`), after a commit of a fresh batch looking up sha3(a) gives back a |
| BatchWriter.IndexCommitPreservesHeaders | mythril/ethereum/interface/leveldb/client.py:183-193 | committing `AM` entries changes no header lookup by hash |
| BatchWriter.IndexedNumberReadBack | mythril/ethereum/interface/leveldb/client.py:139-144 | the marker written is the one read back, and it decodes to the number written |
| BatchWriter.MarkerBypassesBatch | mythril/ethereum/interface/leveldb/client.py:171-193 | the marker is visible at once, while a staged index entry is visible only after a commit |
| BatchWriter.LevelDBWriter.constructor | mythril/ethereum/interface/leveldb/client.py:163-169 | no batch is open |
| BatchWriter.LevelDBWriter.SetLastIndexedNumber | mythril/ethereum/interface/leveldb/client.py:171-177 | the store gains the 8-byte marker under `accountMapping`; the batch is untouched |
| BatchWriter.LevelDBWriter.StartWriting | mythril/ethereum/interface/leveldb/client.py:179-181 | an empty batch replaces any open batch |
| BatchWriter.LevelDBWriter.CommitBatch | mythril/ethereum/interface/leveldb/client.py:183-185 | the store becomes the old store overridden by the batch's puts; without a batch it fails and nothing changes |
| BatchWriter.LevelDBWriter.StoreAccountAddress | mythril/ethereum/interface/leveldb/client.py:187-193 | the batch gains `AM`+sha3(address) → address and the store is unchanged; without a batch it fails |
| ChainClient.ContractsOfAppend | mythril/ethereum/interface/leveldb/client.py:209-216 | the contracts of a concatenation are those of each part, in order |
| ChainClient.ContractsOfExactly | mythril/ethereum/interface/leveldb/client.py:211-216 | a contract is listed if and only if some account with code carries its code, address and balance |
| ChainClient.SearchHitsAppend | mythril/ethereum/interface/leveldb/client.py:227-246 | the callbacks of a search over a concatenation are those of each part, in order |
| ChainClient.MissDoesNotStopSearch | mythril/ethereum/interface/leveldb/client.py:231-242 | a contract whose hash is not indexed contributes no callback and the scan goes on |
| ChainClient.SearchHitsExactly | mythril/ethereum/interface/leveldb/client.py:227-244 | a callback is made if and only if some contract matches the expression and its hash is indexed |
| ChainClient.Skipped | mythril/ethereum/interface/leveldb/client.py:233-246 | at most every contract is skipped, so the counter never goes negative |
| ChainClient.ByNumberQueriesShareBlock | mythril/ethereum/interface/leveldb/client.py:263-284 | without a canonical hash both queries fail; otherwise header, body and receipts keys parse to the same number and hash |
| ChainClient.EthLevelDB.constructor | mythril/ethereum/interface/leveldb/client.py:199-207 | the reader and the writer are fresh and share the client's store |
| ChainClient.EthLevelDB.GetContracts | mythril/ethereum/interface/leveldb/client.py:209-216 | the contracts of the resolved head state, in order; the reader's caches as head resolution leaves them |
| ChainClient.EthLevelDB.Search | mythril/ethereum/interface/leveldb/client.py:218-249 | callbacks exactly as `SearchHits` over the head state's contracts, counter equal to their number less the skipped ones; a head failure propagates |
| ChainClient.EthLevelDB.ScanContracts | mythril/ethereum/interface/leveldb/client.py:227-246 | the loop makes the callbacks of `SearchHits` and counts every contract but the skipped matches |
| ChainClient.EthLevelDB.ContractHashToAddress | mythril/ethereum/interface/leveldb/client.py:251-261 | succeeds if and only if `AM`+hash is stored, with that value; AddressNotFound otherwise |
| ChainClient.EthLevelDB.EthGetBlockHeaderByNumber | mythril/ethereum/interface/leveldb/client.py:263-271 | the header decoded under `h`+8-byte number+canonical hash; Missing when there is no canonical hash |
| ChainClient.EthLevelDB.EthGetBlockByNumber | mythril/ethereum/interface/leveldb/client.py:273-284 | the block decoded under `b`+8-byte number+canonical hash; Missing when there is no canonical hash |

## Left out

- RLP decoding of headers, bodies and receipts is a foreign library. It is a decoder function passed in (`Codec`), and `Header` keeps only `number`, `state_root` and `prevhash`.
- The state trie (`State`, `get_all_accounts`, `get_and_cache_account`, `get_storage_data`) is an external trie walk. A state is its root, and its accounts come from the function `accountsOf`. `_get_account`, `eth_getCode`, `eth_getBalance` and `eth_getStorageAt` are therefore not modelled.
- `utils.sha3`, `EVMContract.matches_expression`, `_encode_hex` and `binascii` hex decoding are uninterpreted. Addresses and hashes stay raw bytes, and `contract_hash_to_address` takes the hash already decoded.
- mythril/ethereum/interface/leveldb/accountindexing.py is not part of this model. `AccountIndexer(self)` runs an index catch-up in `search` and `contract_hash_to_address`; that catch-up is left out. `get_contract_by_hash` is modelled as the `AM`+hash lookup that fails with AddressNotFound.
- Opening the store (`ETH_DB(path)`), engine-level atomicity and I/O failures are not modelled. The store is a map, and a commit applies the whole batch at once.
- `log.info` every 1000 contracts is left out. `Search` returns the counter instead of logging it, and returns the callback calls as a sequence of `Hit` values instead of calling `callback_func`.
- `get_contracts` is a generator. The model computes its whole list at once; laziness and interleaving with the callbacks are not captured.
- Block numbers are `nat`. A negative number is not modelled, because `int_to_big_endian` rejects it.
- ChainReader.LevelDBReader.GetHeadBlock: requires `ParentsPrecede` (a loaded parent has a smaller block number than its child). The Python loop does not terminate on a cyclic `prevhash` chain, and the model does not cover such a store.
- ChainReader.LevelDBReader.GetHeadState: requires `ParentsPrecede`, for the same reason.
- ChainClient.EthLevelDB.GetContracts: requires `ParentsPrecede`, for the same reason.
- ChainClient.EthLevelDB.Search: requires `ParentsPrecede`, for the same reason.
- ChainReader.LevelDBReader.GetBlockHeader: takes the number bytes as given. A None number from `_get_block_number` raises `TypeError` in Python; the callers model that as `Missing` before the call.
