/** LevelDBReader: point reads by the key schema, and resolution of the chain head, which walks
    back from the recorded head until it finds a header whose state root is stored. */
module ChainReader {
  import opened Wrappers
  import opened KeySchema
  import opened Storage

  /** A decoded block header, reduced to the fields the reader uses. */
  datatype Header = Header(number: nat, stateRoot: Bytes, prevhash: Option<Bytes>)

  /** A decoded block body and a decoded receipt; their contents are opaque here. */
  datatype Block = Block(header: Header, transactions: seq<Bytes>, uncles: seq<Header>)
  datatype Receipt = Receipt(payload: Bytes)

  /** State(db, root): the account trie rooted at `root`. */
  datatype StateView = StateView(root: Bytes)

  /** The RLP decoders for the three stored record kinds; None is a decoding error. */
  datatype Codec = Codec(
    header: Bytes -> Option<Header>,
    block: Bytes -> Option<Block>,
    receipts: Bytes -> Option<seq<Receipt>>)

  /** `not db.get(root)` is false: the root is stored with a non-empty value. */
  predicate HasState(db: map<Bytes, Bytes>, root: Bytes)
  {
    root in db && db[root] != []
  }

  /** The walk-back stops at `h`: its state is stored, or it has no parent to go to. */
  predicate Settled(db: map<Bytes, Bytes>, h: Header)
  {
    HasState(db, h.stateRoot) || h.prevhash.None?
  }

  /** _get_block_number followed by _get_block_header: "H"+hash gives the raw number bytes,
      which are spliced into "h"+num+hash. */
  function LoadHeader(db: map<Bytes, Bytes>, decode: Bytes -> Option<Header>, hash: Bytes): Result<Header, Error>
  {
    if NumberKey(hash) !in db then Failure(Missing(NumberKey(hash)))
    else Decoded(db, HeaderKey(db[NumberKey(hash)], hash), decode)
  }

  /** `h` is what some hash loads to. */
  ghost predicate Loaded(db: map<Bytes, Bytes>, decode: Bytes -> Option<Header>, h: Header)
  {
    exists hash :: LoadHeader(db, decode, hash) == Success(h)
  }

  predicate ParentPrecedes(db: map<Bytes, Bytes>, decode: Bytes -> Option<Header>, r: Result<Header, Error>)
  {
    r.Success? && r.value.prevhash.Some? && LoadHeader(db, decode, r.value.prevhash.value).Success?
    ==> LoadHeader(db, decode, r.value.prevhash.value).value.number < r.value.number
  }

  /** The store's chain is well founded: a loaded header's loaded parent has a smaller number.
      The walk-back terminates under this assumption only. */
  ghost predicate ParentsPrecede(db: map<Bytes, Bytes>, decode: Bytes -> Option<Header>)
  {
    forall hash :: ParentPrecedes(db, decode, LoadHeader(db, decode, hash))
  }

  /** How a head resolution ends: with a header, or with an error and the header that was held
      in `head_block_header` when the error was raised. */
  datatype HeadOutcome = Resolved(header: Header) | Failed(error: Error, partial: Option<Header>)
  {
    function AsResult(): Result<Header, Error>
    {
      if Resolved? then Success(header) else Failure(error)
    }

    function Cached(): Option<Header>
    {
      if Resolved? then Some(header) else partial
    }
  }

  /** The while loop of _get_head_block, from header `h`. */
  function WalkBack(db: map<Bytes, Bytes>, decode: Bytes -> Option<Header>, h: Header): HeadOutcome
    requires ParentsPrecede(db, decode) && Loaded(db, decode, h)
    decreases h.number
  {
    if Settled(db, h) then Resolved(h)
    else match LoadHeader(db, decode, h.prevhash.value)
      case Failure(e) => Failed(e, Some(h))
      case Success(p) =>
        assert LoadHeader(db, decode, h.prevhash.value) == Success(p);
        WalkBack(db, decode, p)
  }

  /** _get_head_block with an empty cache: load the header recorded under "LastBlock", walk back. */
  function HeadSearch(db: map<Bytes, Bytes>, decode: Bytes -> Option<Header>): HeadOutcome
    requires ParentsPrecede(db, decode)
  {
    if HeadHeaderKey !in db then Failed(Missing(HeadHeaderKey), None)
    else match LoadHeader(db, decode, db[HeadHeaderKey])
      case Failure(e) => Failed(e, None)
      case Success(h) =>
        assert LoadHeader(db, decode, db[HeadHeaderKey]) == Success(h);
        WalkBack(db, decode, h)
  }

  /** What _get_head_block returns, given the cached header. */
  function HeadBlockFrom(cache: Option<Header>, db: map<Bytes, Bytes>, decode: Bytes -> Option<Header>): Result<Header, Error>
    requires ParentsPrecede(db, decode)
  {
    if cache.Some? then Success(cache.value) else HeadSearch(db, decode).AsResult()
  }

  /** What `head_block_header` holds after _get_head_block, given the cached header. */
  function HeadCacheAfter(cache: Option<Header>, db: map<Bytes, Bytes>, decode: Bytes -> Option<Header>): Option<Header>
    requires ParentsPrecede(db, decode)
  {
    if cache.Some? then cache else HeadSearch(db, decode).Cached()
  }

  /** What _get_head_state returns, given both cached fields. */
  function HeadStateFrom(stateCache: Option<StateView>, cache: Option<Header>, db: map<Bytes, Bytes>,
                         decode: Bytes -> Option<Header>): Result<StateView, Error>
    requires ParentsPrecede(db, decode)
  {
    if stateCache.Some? then Success(stateCache.value)
    else match HeadBlockFrom(cache, db, decode)
      case Success(h) => Success(StateView(h.stateRoot))
      case Failure(e) => Failure(e)
  }

  /** The k-th ancestor of `h` by prevhash links, if every link on the way loads. */
  function Ancestor(db: map<Bytes, Bytes>, decode: Bytes -> Option<Header>, h: Header, k: nat): Option<Header>
    decreases k
  {
    if k == 0 then Some(h)
    else if h.prevhash.None? then None
    else match LoadHeader(db, decode, h.prevhash.value)
      case Failure(_) => None
      case Success(p) => Ancestor(db, decode, p, k - 1)
  }

  /** The first k headers of the line starting at `h` all load and none of them is settled. */
  ghost predicate UnsettledBelow(db: map<Bytes, Bytes>, decode: Bytes -> Option<Header>, h: Header, k: nat)
  {
    forall j :: 0 <= j < k ==> Ancestor(db, decode, h, j).Some? && !Settled(db, Ancestor(db, decode, h, j).value)
  }

  lemma UnsettledExtend(db: map<Bytes, Bytes>, decode: Bytes -> Option<Header>, h: Header, p: Header, k: nat)
    requires !Settled(db, h) && LoadHeader(db, decode, h.prevhash.value) == Success(p)
    requires UnsettledBelow(db, decode, p, k)
    ensures UnsettledBelow(db, decode, h, k + 1)
  {
    forall j | 0 <= j < k + 1
      ensures Ancestor(db, decode, h, j).Some? && !Settled(db, Ancestor(db, decode, h, j).value)
    {
      if j > 0 {
        assert Ancestor(db, decode, h, j) == Ancestor(db, decode, p, j - 1);
      }
    }
  }

  /** The walk-back ends at the nearest ancestor (the header itself included) that is settled;
      when a link fails to load it ends with the error, holding the last unsettled header. */
  lemma {:induction false} WalkBackFindsNearestSettled(db: map<Bytes, Bytes>, decode: Bytes -> Option<Header>, h: Header)
    requires ParentsPrecede(db, decode) && Loaded(db, decode, h)
    ensures WalkBack(db, decode, h).Resolved? ==>
      var r := WalkBack(db, decode, h).header;
      Settled(db, r) &&
      exists k: nat :: Ancestor(db, decode, h, k) == Some(r) && UnsettledBelow(db, decode, h, k)
    ensures WalkBack(db, decode, h).Failed? ==>
      var o := WalkBack(db, decode, h);
      o.partial.Some? && !Settled(db, o.partial.value) &&
      LoadHeader(db, decode, o.partial.value.prevhash.value) == Failure(o.error) &&
      exists k: nat :: Ancestor(db, decode, h, k) == o.partial && UnsettledBelow(db, decode, h, k)
    decreases h.number
  {
    if Settled(db, h) {
      assert Ancestor(db, decode, h, 0) == Some(h);
      assert UnsettledBelow(db, decode, h, 0);
    } else {
      match LoadHeader(db, decode, h.prevhash.value)
      case Failure(e) =>
        assert Ancestor(db, decode, h, 0) == Some(h);
        assert UnsettledBelow(db, decode, h, 0);
      case Success(p) =>
        assert Loaded(db, decode, p) by {
          assert LoadHeader(db, decode, h.prevhash.value) == Success(p);
        }
        assert WalkBack(db, decode, h) == WalkBack(db, decode, p);
        WalkBackFindsNearestSettled(db, decode, p);
        var o := WalkBack(db, decode, p);
        var k: nat :| Ancestor(db, decode, p, k) == o.Cached() && UnsettledBelow(db, decode, p, k);
        assert Ancestor(db, decode, h, k + 1) == Ancestor(db, decode, p, k);
        UnsettledExtend(db, decode, h, p, k);
        assert Ancestor(db, decode, h, k + 1) == o.Cached() && UnsettledBelow(db, decode, h, k + 1);
    }
  }

  /** Every proper ancestor is older than the header it descends from. */
  lemma {:induction false} AncestorIsOlder(db: map<Bytes, Bytes>, decode: Bytes -> Option<Header>, h: Header, k: nat)
    requires ParentsPrecede(db, decode) && Loaded(db, decode, h)
    requires k > 0 && Ancestor(db, decode, h, k).Some?
    ensures Ancestor(db, decode, h, k).value.number < h.number
    decreases k
  {
    var p := LoadHeader(db, decode, h.prevhash.value).value;
    assert Ancestor(db, decode, h, k) == Ancestor(db, decode, p, k - 1);
    if k > 1 {
      assert Loaded(db, decode, p) by {
        assert LoadHeader(db, decode, h.prevhash.value) == Success(p);
      }
      AncestorIsOlder(db, decode, p, k - 1);
    }
  }

  /** Head resolution from the recorded head `h`: when `h` is settled it is the head; otherwise a
      resolved head is a settled, strictly older ancestor of `h`, never `h` itself. */
  lemma HeadSearchFromRecordedHead(db: map<Bytes, Bytes>, decode: Bytes -> Option<Header>, h: Header)
    requires ParentsPrecede(db, decode)
    requires HeadHeaderKey in db && LoadHeader(db, decode, db[HeadHeaderKey]) == Success(h)
    ensures Settled(db, h) ==> HeadSearch(db, decode) == Resolved(h)
    ensures !Settled(db, h) && HeadSearch(db, decode).Resolved? ==>
      var r := HeadSearch(db, decode).header;
      Settled(db, r) && r.number < h.number
  {
    assert Loaded(db, decode, h);
    WalkBackFindsNearestSettled(db, decode, h);
    var o := WalkBack(db, decode, h);
    if !Settled(db, h) && o.Resolved? {
      var k: nat :| Ancestor(db, decode, h, k) == Some(o.header) && UnsettledBelow(db, decode, h, k);
      assert k > 0;
      AncestorIsOlder(db, decode, h, k);
    }
  }

  /** A second _get_head_block gives what the first one left in the cache: the same header when
      the first resolved, whatever the store holds by then. */
  lemma HeadBlockCached(cache: Option<Header>, db: map<Bytes, Bytes>, db': map<Bytes, Bytes>, decode: Bytes -> Option<Header>)
    requires ParentsPrecede(db, decode) && ParentsPrecede(db', decode)
    ensures HeadBlockFrom(cache, db, decode).Success? ==>
      HeadBlockFrom(HeadCacheAfter(cache, db, decode), db', decode) == HeadBlockFrom(cache, db, decode)
    ensures HeadCacheAfter(cache, db, decode).Some? ==>
      HeadCacheAfter(HeadCacheAfter(cache, db, decode), db', decode) == HeadCacheAfter(cache, db, decode)
  {
  }

  /** A walk-back that fails on a missing or undecodable parent leaves its last, unsettled
      header in the cache, and the next _get_head_block returns that header as the head. */
  lemma RetryAfterFailedWalkReturnsPartial(db: map<Bytes, Bytes>, decode: Bytes -> Option<Header>)
    requires ParentsPrecede(db, decode)
    requires HeadSearch(db, decode).Failed? && HeadSearch(db, decode).partial.Some?
    ensures var p := HeadSearch(db, decode).partial.value;
      !Settled(db, p) && HeadBlockFrom(HeadCacheAfter(None, db, decode), db, decode) == Success(p)
  {
    var h := LoadHeader(db, decode, db[HeadHeaderKey]).value;
    assert Loaded(db, decode, h);
    WalkBackFindsNearestSettled(db, decode, h);
  }

  /** LevelDBReader: reads over the shared store, with the resolved head header and the head
      state memoised in fields. */
  class LevelDBReader {
    const db: Store
    const codec: Codec
    var headBlockHeader: Option<Header>
    var headState: Option<StateView>

    /** A cached state was built from the cached header's state root. */
    ghost predicate Valid()
      reads this
    {
      headState.Some? ==> headBlockHeader.Some? && headState.value == StateView(headBlockHeader.value.stateRoot)
    }

    constructor (db: Store, codec: Codec)
      ensures this.db == db && this.codec == codec
      ensures headBlockHeader == None && headState == None
      ensures Valid()
    {
      this.db := db;
      this.codec := codec;
      headBlockHeader := None;
      headState := None;
    }

    /** _get_head_state: on an empty cache, State(db, root) of the head block's state root. */
    method GetHeadState() returns (r: Result<StateView, Error>)
      requires Valid() && ParentsPrecede(db.kv, codec.header)
      modifies this`headBlockHeader, this`headState
      ensures Valid()
      ensures r == HeadStateFrom(old(headState), old(headBlockHeader), db.kv, codec.header)
      ensures old(headState).Some? ==> headState == old(headState) && headBlockHeader == old(headBlockHeader)
      ensures old(headState).None? ==>
        headBlockHeader == HeadCacheAfter(old(headBlockHeader), db.kv, codec.header) &&
        headState == (if r.Success? then Some(r.value) else None)
    {
      if headState.Some? {
        return Success(headState.value);
      }
      var head := GetHeadBlock();
      if head.Failure? {
        return Failure(head.error);
      }
      headState := Some(StateView(head.value.stateRoot));
      return Success(headState.value);
    }

    /** _get_block_hash: the canonical hash stored under "h" + 8-byte number + "n". */
    method GetBlockHash(number: nat) returns (r: Option<Bytes>)
      ensures r == Get(db.kv, Encode(NumToHash(number)))
    {
      r := Get(db.kv, HashKey(number));
    }

    /** _get_head_block. */
    method GetHeadBlock() returns (r: Result<Header, Error>)
      requires Valid() && ParentsPrecede(db.kv, codec.header)
      modifies this`headBlockHeader
      ensures Valid()
      ensures r == HeadBlockFrom(old(headBlockHeader), db.kv, codec.header)
      ensures headBlockHeader == HeadCacheAfter(old(headBlockHeader), db.kv, codec.header)
    {
      if headBlockHeader.Some? {
        return Success(headBlockHeader.value);
      }
      if HeadHeaderKey !in db.kv {
        return Failure(Missing(HeadHeaderKey));
      }
      var blockHash := db.kv[HeadHeaderKey];
      var num := GetBlockNumber(blockHash);
      if num.None? {
        return Failure(Missing(NumberKey(blockHash)));
      }
      var header := GetBlockHeader(blockHash, num.value);
      if header.Failure? {
        return Failure(header.error);
      }
      assert LoadHeader(db.kv, codec.header, blockHash) == Success(header.value);
      headBlockHeader := Some(header.value);
      ghost var outcome := HeadSearch(db.kv, codec.header);
      while !HasState(db.kv, headBlockHeader.value.stateRoot) && headBlockHeader.value.prevhash.Some?
        invariant headBlockHeader.Some? && Loaded(db.kv, codec.header, headBlockHeader.value)
        invariant WalkBack(db.kv, codec.header, headBlockHeader.value) == outcome
        decreases headBlockHeader.value.number
      {
        blockHash := headBlockHeader.value.prevhash.value;
        num := GetBlockNumber(blockHash);
        if num.None? {
          return Failure(Missing(NumberKey(blockHash)));
        }
        header := GetBlockHeader(blockHash, num.value);
        if header.Failure? {
          return Failure(header.error);
        }
        assert LoadHeader(db.kv, codec.header, blockHash) == Success(header.value);
        headBlockHeader := Some(header.value);
      }
      return Success(headBlockHeader.value);
    }

    /** _get_block_number: the raw number bytes stored under "H" + hash. */
    method GetBlockNumber(hash: Bytes) returns (r: Option<Bytes>)
      ensures r == Get(db.kv, Encode(HashToNum(hash)))
    {
      r := Get(db.kv, NumberKey(hash));
    }

    /** _get_block_header: decode the value under "h" + num + hash. */
    method GetBlockHeader(hash: Bytes, num: Bytes) returns (r: Result<Header, Error>)
      ensures r == Decoded(db.kv, HeaderKey(num, hash), codec.header)
    {
      r := Decoded(db.kv, HeaderKey(num, hash), codec.header);
    }

    /** _get_address_by_hash: the account index entry "AM" + hash. */
    method GetAddressByHash(hash: Bytes) returns (r: Option<Bytes>)
      ensures r == Get(db.kv, Encode(AddressOf(hash)))
    {
      r := Get(db.kv, AddressKey(hash));
    }

    /** _get_last_indexed_number: the raw progress marker under "accountMapping". */
    method GetLastIndexedNumber() returns (r: Option<Bytes>)
      ensures r == Get(db.kv, Encode(AccountMapping))
    {
      r := Get(db.kv, AddressMappingHeadKey);
    }

    /** _get_block_receipts: decode the value under "r" + 8-byte number + hash. */
    method GetBlockReceipts(hash: Bytes, num: nat) returns (r: Result<seq<Receipt>, Error>)
      ensures r == Decoded(db.kv, Encode(ReceiptsAt(num, hash)), codec.receipts)
    {
      var number := FormatBlockNumber(num);
      var receiptsKey := ReceiptsKey(number, hash);
      r := Decoded(db.kv, receiptsKey, codec.receipts);
    }
  }
}
