/** The key-value engine the client is handed (ETH_DB): one mutable map from byte keys to byte
    values, shared by the reader and the writer, plus the read primitives built on `get`. */
module Storage {
  import opened Wrappers
  import opened KeySchema

  /** What a client call can fail with. `Missing` stands for the Python TypeError raised when a
      `db.get` that returned None is concatenated or decoded; `Undecodable` for an RLP decoding
      error; `NoBatch` for a writer call made before `_start_writing`; `AddressNotFound` for a
      hash with no entry in the account index. */
  datatype Error =
    | Missing(key: Bytes)
    | Undecodable(key: Bytes)
    | NoBatch
    | AddressNotFound(hash: Bytes)

  class Store {
    var kv: map<Bytes, Bytes>

    constructor (contents: map<Bytes, Bytes>)
      ensures kv == contents
    {
      kv := contents;
    }
  }

  /** db.get(key): the value, or None when the key is absent. */
  function Get(db: map<Bytes, Bytes>, key: Bytes): Option<Bytes>
  {
    if key in db then Some(db[key]) else None
  }

  /** rlp.decode(db.get(key), sedes): fails when the key is absent or the value does not decode. */
  function Decoded<T>(db: map<Bytes, Bytes>, key: Bytes, decode: Bytes -> Option<T>): Result<T, Error>
  {
    if key !in db then Failure(Missing(key))
    else match decode(db[key])
      case None => Failure(Undecodable(key))
      case Some(v) => Success(v)
  }
}
