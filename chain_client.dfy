/** EthLevelDB: the client object that wires one store to a reader and a writer, answers
    by-number block queries, and searches the head state's contracts through the account index. */
module ChainClient {
  import opened Wrappers
  import opened KeySchema
  import opened Storage
  import opened ChainReader
  import opened BatchWriter

  /** An account of the head state trie; `address` is its trie key, the hash of the address. */
  datatype Account = Account(address: Bytes, balance: nat, code: Option<Bytes>)

  /** What get_contracts yields for an account with code: its code, address hash and balance. */
  datatype Contract = Contract(code: Bytes, addressHash: Bytes, balance: nat)

  /** The arguments of one callback_func(contract, address, balance) call made by search;
      the balance is the contract's. */
  datatype Hit = Hit(contract: Contract, address: Bytes)

  /** The callback calls of a search, in order, and its final counter. */
  datatype SearchReport = SearchReport(hits: seq<Hit>, scanned: nat)

  /** get_contracts: the accounts that have code, in enumeration order. */
  function ContractsOf(accounts: seq<Account>): seq<Contract>
  {
    if accounts == [] then []
    else
      var a := accounts[0];
      (if a.code.Some? then [Contract(a.code.value, a.address, a.balance)] else []) + ContractsOf(accounts[1..])
  }

  /** The contracts of a concatenation are those of each part, in the same order. */
  lemma {:induction false} ContractsOfAppend(xs: seq<Account>, ys: seq<Account>)
    ensures ContractsOf(xs + ys) == ContractsOf(xs) + ContractsOf(ys)
  {
    if xs == [] {
      assert xs + ys == ys;
    } else {
      assert (xs + ys)[1..] == xs[1..] + ys;
      ContractsOfAppend(xs[1..], ys);
    }
  }

  /** A contract is yielded exactly when some account with code carries it. */
  lemma {:induction false} ContractsOfExactly(accounts: seq<Account>, c: Contract)
    ensures c in ContractsOf(accounts) <==>
      exists a :: a in accounts && a.code.Some? && c == Contract(a.code.value, a.address, a.balance)
  {
    if accounts != [] {
      ContractsOfExactly(accounts[1..], c);
      assert accounts == [accounts[0]] + accounts[1..];
    }
  }

  /** AccountIndexer.get_contract_by_hash: the address indexed under the hash, or AddressNotFound. */
  function IndexLookup(db: map<Bytes, Bytes>, hash: Bytes): Result<Bytes, Error>
  {
    match Get(db, AddressKey(hash))
    case Some(address) => Success(address)
    case None => Failure(AddressNotFound(hash))
  }

  /** Search reports `c` with `h`: the code matches and the index resolves its address hash. */
  predicate Reports(c: Contract, h: Hit, expression: string, matches: (Bytes, string) -> bool, db: map<Bytes, Bytes>)
  {
    matches(c.code, expression) && IndexLookup(db, c.addressHash).Success? &&
    h == Hit(c, IndexLookup(db, c.addressHash).value)
  }

  /** The callback calls search makes for one contract: none, or one. */
  function HitsOf(c: Contract, expression: string, matches: (Bytes, string) -> bool, db: map<Bytes, Bytes>): seq<Hit>
  {
    if matches(c.code, expression) && IndexLookup(db, c.addressHash).Success? then
      [Hit(c, IndexLookup(db, c.addressHash).value)]
    else []
  }

  /** The callback calls of a search over `cs`. */
  function SearchHits(cs: seq<Contract>, expression: string, matches: (Bytes, string) -> bool, db: map<Bytes, Bytes>): seq<Hit>
  {
    if cs == [] then []
    else SearchHits(cs[..|cs| - 1], expression, matches, db) + HitsOf(cs[|cs| - 1], expression, matches, db)
  }

  /** The number of matching contracts whose address hash is not in the index. */
  function Skipped(cs: seq<Contract>, expression: string, matches: (Bytes, string) -> bool, db: map<Bytes, Bytes>): (r: nat)
    ensures r <= |cs|
  {
    if cs == [] then 0
    else
      var c := cs[|cs| - 1];
      Skipped(cs[..|cs| - 1], expression, matches, db) +
      (if matches(c.code, expression) && IndexLookup(db, c.addressHash).Failure? then 1 else 0)
  }

  /** Search over a concatenation reports the first part's hits, then the second's. */
  lemma {:induction false} SearchHitsAppend(xs: seq<Contract>, ys: seq<Contract>, expression: string,
                                            matches: (Bytes, string) -> bool, db: map<Bytes, Bytes>)
    ensures SearchHits(xs + ys, expression, matches, db) ==
            SearchHits(xs, expression, matches, db) + SearchHits(ys, expression, matches, db)
    decreases |ys|
  {
    if ys == [] {
      assert xs + ys == xs;
    } else {
      var zs := xs + ys;
      assert zs[..|zs| - 1] == xs + ys[..|ys| - 1];
      SearchHitsAppend(xs, ys[..|ys| - 1], expression, matches, db);
    }
  }

  /** A match whose address is not indexed is skipped and the scan goes on past it. */
  lemma MissDoesNotStopSearch(xs: seq<Contract>, c: Contract, ys: seq<Contract>, expression: string,
                              matches: (Bytes, string) -> bool, db: map<Bytes, Bytes>)
    requires IndexLookup(db, c.addressHash).Failure?
    ensures SearchHits(xs + [c] + ys, expression, matches, db) ==
            SearchHits(xs, expression, matches, db) + SearchHits(ys, expression, matches, db)
  {
    SearchHitsAppend(xs + [c], ys, expression, matches, db);
    assert (xs + [c])[..|xs|] == xs;
  }

  /** Search reports exactly the contracts that match and whose address is indexed. */
  lemma {:induction false} SearchHitsExactly(cs: seq<Contract>, h: Hit, expression: string,
                                             matches: (Bytes, string) -> bool, db: map<Bytes, Bytes>)
    ensures h in SearchHits(cs, expression, matches, db) <==>
      exists c :: c in cs && Reports(c, h, expression, matches, db)
    decreases |cs|
  {
    if cs != [] {
      var init, last := cs[..|cs| - 1], cs[|cs| - 1];
      SearchHitsExactly(init, h, expression, matches, db);
      assert cs == init + [last];
      if h in SearchHits(cs, expression, matches, db) && h !in SearchHits(init, expression, matches, db) {
        assert Reports(last, h, expression, matches, db);
      }
    }
  }

  /** The key `prefix + 8-byte number + canonical hash` built by the by-number queries. */
  function CanonicalBlockKey(db: map<Bytes, Bytes>, prefix: Bytes, number: nat): Result<Bytes, Error>
  {
    if HashKey(number) !in db then Failure(Missing(HashKey(number)))
    else Success(BlockKey(prefix, FormatBlockNumber(number), db[HashKey(number)]))
  }

  /** A by-number query: decode the record under the canonical block key. */
  function ByNumber<T>(db: map<Bytes, Bytes>, prefix: Bytes, number: nat, decode: Bytes -> Option<T>): Result<T, Error>
  {
    match CanonicalBlockKey(db, prefix, number)
    case Failure(e) => Failure(e)
    case Success(key) => Decoded(db, key, decode)
  }

  /** The header, body and receipts keys built for a block number all carry that number and the
      one hash stored under its canonical-hash key; without that key every such query fails. */
  lemma ByNumberQueriesShareBlock(db: map<Bytes, Bytes>, number: nat)
    requires number < NumberLimit
    ensures HashKey(number) !in db ==>
      CanonicalBlockKey(db, HeaderPrefix, number) == Failure(Missing(HashKey(number))) &&
      CanonicalBlockKey(db, BodyPrefix, number) == Failure(Missing(HashKey(number)))
    ensures HashKey(number) in db && |db[HashKey(number)]| == 32 ==>
      var hash := db[HashKey(number)];
      CanonicalBlockKey(db, HeaderPrefix, number).Success? &&
      Parse(CanonicalBlockKey(db, HeaderPrefix, number).value) == Some(HeaderAt(number, hash)) &&
      CanonicalBlockKey(db, BodyPrefix, number).Success? &&
      Parse(CanonicalBlockKey(db, BodyPrefix, number).value) == Some(BodyAt(number, hash)) &&
      CanonicalBlockKey(db, BlockReceiptsPrefix, number).Success? &&
      Parse(CanonicalBlockKey(db, BlockReceiptsPrefix, number).value) == Some(ReceiptsAt(number, hash))
  {
    if HashKey(number) in db && |db[HashKey(number)]| == 32 {
      var hash := db[HashKey(number)];
      ParseEncode(HeaderAt(number, hash));
      ParseEncode(BodyAt(number, hash));
      ParseEncode(ReceiptsAt(number, hash));
    }
  }

  /** The contracts of the head state, or the error that resolving the head raised. */
  function ContractsAt(state: Result<StateView, Error>, accountsOf: StateView -> seq<Account>): Result<seq<Contract>, Error>
  {
    match state
    case Success(s) => Success(ContractsOf(accountsOf(s)))
    case Failure(e) => Failure(e)
  }

  class EthLevelDB {
    const db: Store
    const codec: Codec
    const reader: LevelDBReader
    const writer: LevelDBWriter
    /** State.get_all_accounts: the accounts of the trie under a state root. */
    const accountsOf: StateView -> seq<Account>
    /** EVMContract.matches_expression. */
    const matchesExpression: (Bytes, string) -> bool

    /** The reader and the writer share this client's store. */
    ghost predicate Valid()
      reads this, reader
    {
      reader.db == db && writer.db == db && reader.codec == codec && reader.Valid()
    }

    constructor (db: Store, codec: Codec, sha3: Bytes -> Hash, accountsOf: StateView -> seq<Account>,
                 matchesExpression: (Bytes, string) -> bool)
      ensures Valid() && this.db == db && fresh(reader) && fresh(writer)
      ensures reader.headBlockHeader == None && reader.headState == None
      ensures writer.wb == None && writer.sha3 == sha3
      ensures this.accountsOf == accountsOf && this.matchesExpression == matchesExpression
    {
      this.db := db;
      this.codec := codec;
      reader := new LevelDBReader(db, codec);
      writer := new LevelDBWriter(db, sha3);
      this.accountsOf := accountsOf;
      this.matchesExpression := matchesExpression;
    }

    /** get_contracts: the contracts of the (cached or freshly resolved) head state. */
    method GetContracts() returns (r: Result<seq<Contract>, Error>)
      requires Valid() && ParentsPrecede(db.kv, codec.header)
      modifies reader
      ensures Valid()
      ensures var state := HeadStateFrom(old(reader.headState), old(reader.headBlockHeader), db.kv, codec.header);
        r == ContractsAt(state, accountsOf) &&
        reader.headBlockHeader == HeadCacheAfter(old(reader.headBlockHeader), db.kv, codec.header) &&
        reader.headState == (if state.Success? then Some(state.value) else None)
    {
      var state := reader.GetHeadState();
      if state.Failure? {
        return Failure(state.error);
      }
      r := Success(ContractsOf(accountsOf(state.value)));
    }

    /** search: report every contract of the head state that matches `expression` and whose
        address is indexed; skip a match that is not indexed and count every other contract. */
    method Search(expression: string) returns (r: Result<SearchReport, Error>)
      requires Valid() && ParentsPrecede(db.kv, codec.header)
      modifies reader
      ensures Valid()
      ensures var state := HeadStateFrom(old(reader.headState), old(reader.headBlockHeader), db.kv, codec.header);
        reader.headBlockHeader == HeadCacheAfter(old(reader.headBlockHeader), db.kv, codec.header) &&
        reader.headState == (if state.Success? then Some(state.value) else None) &&
        (state.Failure? ==> r == Failure(state.error)) &&
        (state.Success? ==>
          var cs := ContractsOf(accountsOf(state.value));
          r == Success(SearchReport(SearchHits(cs, expression, matchesExpression, db.kv),
                                    |cs| - Skipped(cs, expression, matchesExpression, db.kv))))
    {
      var contracts := GetContracts();
      if contracts.Failure? {
        return Failure(contracts.error);
      }
      var report := ScanContracts(contracts.value, expression);
      return Success(report);
    }

    /** The loop of search over the contracts it was given: a match whose hash is not in the
        account index is skipped without being counted. */
    method ScanContracts(cs: seq<Contract>, expression: string) returns (report: SearchReport)
      requires Valid()
      ensures report.hits == SearchHits(cs, expression, matchesExpression, db.kv)
      ensures report.scanned == |cs| - Skipped(cs, expression, matchesExpression, db.kv)
    {
      var hits: seq<Hit> := [];
      var cnt := 0;
      var i := 0;
      while i < |cs|
        invariant 0 <= i <= |cs|
        invariant hits == SearchHits(cs[..i], expression, matchesExpression, db.kv)
        invariant cnt == i - Skipped(cs[..i], expression, matchesExpression, db.kv)
      {
        var contract := cs[i];
        i := i + 1;
        assert cs[..i][..i - 1] == cs[..i - 1];
        if matchesExpression(contract.code, expression) {
          var address := ContractHashToAddress(contract.addressHash);
          if address.Failure? {
            continue;
          }
          hits := hits + [Hit(contract, address.value)];
        }
        cnt := cnt + 1;
      }
      assert cs[..|cs|] == cs;
      return SearchReport(hits, cnt);
    }

    /** contract_hash_to_address: the indexed address of a hash, or AddressNotFound. */
    method ContractHashToAddress(hash: Bytes) returns (r: Result<Bytes, Error>)
      requires Valid()
      ensures r.Success? <==> Encode(AddressOf(hash)) in db.kv
      ensures r.Success? ==> r.value == db.kv[Encode(AddressOf(hash))]
      ensures r.Failure? ==> r.error == AddressNotFound(hash)
    {
      var address := reader.GetAddressByHash(hash);
      if address.None? {
        return Failure(AddressNotFound(hash));
      }
      return Success(address.value);
    }

    /** eth_getBlockHeaderByNumber: the header under "h" + 8-byte number + canonical hash. */
    method EthGetBlockHeaderByNumber(number: nat) returns (r: Result<Header, Error>)
      requires Valid()
      ensures r == ByNumber(db.kv, HeaderPrefix, number, codec.header)
    {
      var blockHash := reader.GetBlockHash(number);
      var blockNumber := FormatBlockNumber(number);
      if blockHash.None? {
        return Failure(Missing(HashKey(number)));
      }
      r := reader.GetBlockHeader(blockHash.value, blockNumber);
    }

    /** eth_getBlockByNumber: the block under "b" + 8-byte number + canonical hash. */
    method EthGetBlockByNumber(number: nat) returns (r: Result<Block, Error>)
      requires Valid()
      ensures r == ByNumber(db.kv, BodyPrefix, number, codec.block)
    {
      var blockHash := reader.GetBlockHash(number);
      var blockNumber := FormatBlockNumber(number);
      if blockHash.None? {
        return Failure(Missing(HashKey(number)));
      }
      var bodyKey := BodyKey(blockNumber, blockHash.value);
      r := Decoded(db.kv, bodyKey, codec.block);
    }
  }
}
