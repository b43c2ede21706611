/** The versioned key/value map that every store of the repository serves. */
module KvStore {
  datatype Option<+T> = None | Some(value: T)

  datatype Err = OK | ErrNoKey | ErrVersion | ErrMaybe | ErrWrongLeader | ErrWrongGroup | ErrStale | ErrFrozen

  datatype Record = Record(version: nat, value: string)

  type Store = map<string, Record>

  datatype Request =
    | Get(key: string)
    | Put(key: string, value: string, version: nat)

  datatype Reply =
    | GetReply(value: string, version: nat, err: Err)
    | PutReply(err: Err)

  /** The single-map server: reads answer the record, writes are a compare-and-set on the version. */
  function Answer(store: Store, req: Request): Reply {
    match req
    case Get(key) =>
      if key in store then GetReply(store[key].value, store[key].version, OK) else GetReply("", 0, ErrNoKey)
    case Put(key, value, version) =>
      if key in store then PutReply(if version == store[key].version then OK else ErrVersion)
      else PutReply(if version == 0 then OK else ErrNoKey)
  }

  function Apply(store: Store, req: Request): Store {
    match req
    case Get(_) => store
    case Put(key, value, version) =>
      if key in store then
        if version == store[key].version then store[key := Record(version + 1, value)] else store
      else
        if version == 0 then store[key := Record(1, value)] else store
  }
}
