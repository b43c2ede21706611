/** The two servers that hold one versioned map: the stand-alone one, and the state machine of the replicated one. */
module KvServers {
  import opened KvStore
  import opened Services
  import ShardTypes

  /** The stand-alone server. */
  class SingleServer {
    var valueStore: Store

    constructor ()
      ensures valueStore == map[]
    {
      valueStore := map[];
    }

    method Get(key: string) returns (reply: Reply)
      ensures reply == Answer(valueStore, KvStore.Get(key))
    {
      if key in valueStore {
        var record := valueStore[key];
        reply := GetReply(record.value, record.version, OK);
      } else {
        reply := GetReply("", 0, ErrNoKey);
      }
    }

    method Put(key: string, value: string, version: nat) returns (reply: Reply)
      modifies this
      ensures reply == Answer(old(valueStore), KvStore.Put(key, value, version))
      ensures valueStore == Apply(old(valueStore), KvStore.Put(key, value, version))
    {
      if key in valueStore {
        var record := valueStore[key];
        if version == record.version {
          valueStore := valueStore[key := Record(record.version + 1, value)];
          reply := PutReply(OK);
        } else {
          reply := PutReply(ErrVersion);
        }
      } else {
        if version == 0 {
          valueStore := valueStore[key := Record(1, value)];
          reply := PutReply(OK);
        } else {
          reply := PutReply(ErrNoKey);
        }
      }
    }
  }

  /** The replicated server's state machine. */
  class KVServer {
    var valueStore: Store

    constructor ()
      ensures valueStore == map[]
    {
      valueStore := map[];
    }

    /** A command that is neither a read nor a write is answered nil. */
    method DoOp(command: Command) returns (result: Result)
      modifies this
      ensures result == KvAnswer(Flat(old(valueStore)), command)
      ensures Flat(valueStore) == KvApply(Flat(old(valueStore)), command)
    {
      if !command.Client? {
        return Nil;
      }
      var reply;
      match command.req {
        case Get(key) =>
          if key in valueStore {
            var record := valueStore[key];
            reply := GetReply(record.value, record.version, OK);
          } else {
            reply := GetReply("", 0, ErrNoKey);
          }
        case Put(key, value, version) =>
          if key in valueStore {
            var record := valueStore[key];
            if version == record.version {
              valueStore := valueStore[key := Record(record.version + 1, value)];
              reply := PutReply(OK);
            } else {
              reply := PutReply(ErrVersion);
            }
          } else if version == 0 {
            valueStore := valueStore[key := Record(1, value)];
            reply := PutReply(OK);
          } else {
            reply := PutReply(ErrNoKey);
          }
      }
      result := Gave(ShardTypes.ClientReply(reply));
    }

    method Snapshot() returns (data: Store)
      ensures data == valueStore
    {
      data := valueStore;
    }

    /** Nothing is decoded from an empty snapshot. */
    method Restore(data: Option<Store>)
      modifies this
      ensures valueStore == if data.Some? then data.value else old(valueStore)
    {
      if data.Some? {
        valueStore := data.value;
      }
    }
  }
}
