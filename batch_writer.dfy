/** LevelDBWriter: stages account-index entries in a write batch that reaches the store only on
    commit, and writes the index progress marker straight to the store. */
module BatchWriter {
  import opened Wrappers
  import opened KeySchema
  import opened Storage
  import opened ChainReader

  /** wb.put(AM + sha3(address), address). */
  function Stage(batch: map<Bytes, Bytes>, sha3: Bytes -> Hash, address: Bytes): map<Bytes, Bytes>
  {
    batch[AddressKey(sha3(address)) := address]
  }

  /** The batch after staging `addresses` in order; a later put to the same key wins. */
  function StageAll(batch: map<Bytes, Bytes>, sha3: Bytes -> Hash, addresses: seq<Bytes>): map<Bytes, Bytes>
    decreases |addresses|
  {
    if addresses == [] then batch
    else Stage(StageAll(batch, sha3, addresses[..|addresses| - 1]), sha3, addresses[|addresses| - 1])
  }

  /** wb.write(): every staged put becomes visible at once, overriding the store's value. */
  function Commit(db: map<Bytes, Bytes>, batch: map<Bytes, Bytes>): map<Bytes, Bytes>
  {
    db + batch
  }

  /** No two distinct addresses in the list share a hash. */
  predicate HashesDistinct(sha3: Bytes -> Hash, addresses: seq<Bytes>)
  {
    forall i, j :: 0 <= i < |addresses| && 0 <= j < |addresses| && sha3(addresses[i]) == sha3(addresses[j])
      ==> addresses[i] == addresses[j]
  }

  /** Staging writes exactly the index entries of the staged addresses: each one's key maps to
      that address, and every other key keeps the batch's earlier value. */
  lemma {:induction false} StageAllIndexes(batch: map<Bytes, Bytes>, sha3: Bytes -> Hash, addresses: seq<Bytes>)
    requires HashesDistinct(sha3, addresses)
    ensures forall a :: a in addresses ==> Get(StageAll(batch, sha3, addresses), AddressKey(sha3(a))) == Some(a)
    ensures forall k :: (forall a :: a in addresses ==> k != AddressKey(sha3(a))) ==>
      Get(StageAll(batch, sha3, addresses), k) == Get(batch, k)
    decreases |addresses|
  {
    if addresses != [] {
      var init, last := addresses[..|addresses| - 1], addresses[|addresses| - 1];
      assert HashesDistinct(sha3, init);
      StageAllIndexes(batch, sha3, init);
      forall a | a in addresses
        ensures Get(StageAll(batch, sha3, addresses), AddressKey(sha3(a))) == Some(a)
      {
        if AddressKey(sha3(a)) != AddressKey(sha3(last)) {
          assert a != last;
          assert a in init;
        } else {
          assert AddressKey(sha3(a))[2..] == sha3(a);
          assert AddressKey(sha3(last))[2..] == sha3(last);
        }
      }
    }
  }

  /** After a fresh batch of index entries is committed, looking any of them up by its hash
      (_get_address_by_hash) gives back the address. */
  lemma CommittedAddressesResolve(db: map<Bytes, Bytes>, sha3: Bytes -> Hash, addresses: seq<Bytes>, a: Bytes)
    requires HashesDistinct(sha3, addresses) && a in addresses
    ensures Get(Commit(db, StageAll(map[], sha3, addresses)), AddressKey(sha3(a))) == Some(a)
  {
    StageAllIndexes(map[], sha3, addresses);
  }

  /** Committing index entries leaves every header lookup by hash as it was: the "AM" keys
      never coincide with the "H" and "h" keys the walk-back reads. */
  lemma IndexCommitPreservesHeaders(db: map<Bytes, Bytes>, batch: map<Bytes, Bytes>, decode: Bytes -> Option<Header>, hash: Bytes)
    requires forall k :: k in batch ==> |k| >= 2 && k[..2] == AddressPrefix
    ensures LoadHeader(Commit(db, batch), decode, hash) == LoadHeader(db, decode, hash)
  {
    forall k | k in batch
      ensures k[0] == 0x41
    {
      assert k[..2][0] == k[0];
    }
    var nk := NumberKey(hash);
    assert nk[0] == 0x48;
    if nk in db {
      assert HeaderKey(db[nk], hash)[0] == 0x68;
    }
  }

  /** The marker written by _set_last_indexed_number is what _get_last_indexed_number reads
      back, and it decodes to the number written. */
  lemma IndexedNumberReadBack(db: map<Bytes, Bytes>, n: nat)
    ensures var db' := db[AddressMappingHeadKey := FormatBlockNumber(n)];
      Get(db', Encode(AccountMapping)) == Some(FormatBlockNumber(n)) &&
      BigEndianToInt(Get(db', Encode(AccountMapping)).value) == n
  {
    FormatBlockNumberRoundTrip(n);
  }

  /** The marker bypasses the batch: it is in the store at once, while a staged but uncommitted
      index entry is not. */
  lemma MarkerBypassesBatch(db: map<Bytes, Bytes>, sha3: Bytes -> Hash, address: Bytes, n: nat)
    requires AddressKey(sha3(address)) !in db
    ensures var db' := db[AddressMappingHeadKey := FormatBlockNumber(n)];
      Get(db', AddressMappingHeadKey) == Some(FormatBlockNumber(n)) &&
      Get(db', AddressKey(sha3(address))) == None &&
      Get(Commit(db', Stage(map[], sha3, address)), AddressKey(sha3(address))) == Some(address)
  {
    assert |AddressKey(sha3(address))| == 34;
  }

  class LevelDBWriter {
    const db: Store
    const sha3: Bytes -> Hash
    /** The open write batch, as the puts it holds; None before _start_writing. */
    var wb: Option<map<Bytes, Bytes>>

    constructor (db: Store, sha3: Bytes -> Hash)
      ensures this.db == db && this.sha3 == sha3 && wb == None
    {
      this.db := db;
      this.sha3 := sha3;
      wb := None;
    }

    /** _set_last_indexed_number: writes the 8-byte marker straight to the store, not the batch. */
    method SetLastIndexedNumber(number: nat)
      modifies db
      ensures db.kv == old(db.kv)[Encode(AccountMapping) := FormatBlockNumber(number)]
      ensures wb == old(wb)
    {
      db.kv := db.kv[AddressMappingHeadKey := FormatBlockNumber(number)];
    }

    /** _start_writing: a fresh, empty batch replaces whatever batch was open. */
    method StartWriting()
      modifies this`wb
      ensures wb == Some(map[])
    {
      wb := Some(map[]);
    }

    /** _commit_batch: the staged puts reach the store together; the batch keeps its puts.
        Without a batch the call raises and nothing changes. */
    method CommitBatch() returns (r: Outcome<Error>)
      modifies db
      ensures old(wb).None? ==> r == Fail(NoBatch) && db.kv == old(db.kv)
      ensures old(wb).Some? ==> r == Pass && db.kv == Commit(old(db.kv), wb.value)
      ensures wb == old(wb)
    {
      if wb.None? {
        return Fail(NoBatch);
      }
      db.kv := Commit(db.kv, wb.value);
      return Pass;
    }

    /** _store_account_address: stages AM + sha3(address) -> address; the store is untouched
        until the batch is committed. Without a batch the call raises and nothing changes. */
    method StoreAccountAddress(address: Bytes) returns (r: Outcome<Error>)
      modifies this`wb
      ensures old(wb).None? ==> r == Fail(NoBatch) && wb == old(wb)
      ensures old(wb).Some? ==> r == Pass && wb == Some(Stage(old(wb).value, sha3, address))
      ensures unchanged(db)
    {
      if wb.None? {
        return Fail(NoBatch);
      }
      wb := Some(Stage(wb.value, sha3, address));
      return Pass;
    }
  }
}
