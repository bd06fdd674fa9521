/**
  The Worker's key-value namespace `DATA_STORE`, as the handlers use it: get, put and
  delete by string key. Values are the typed records the handlers write; every call is
  recorded in a ghost log so that contracts can say which reads and writes happened.
 */
module Store {
  import opened Types

  /** What a key can hold: a progress record or a conversation history. */
  datatype Value =
    | ProgressValue(progress: Progress)
    | ConversationValue(conversation: ConversationHistory)

  /** One call made on the store. */
  datatype Op =
    | Read(key: string)
    | Write(key: string, value: Value)
    | Remove(key: string)

  class KvStore {
    var entries: map<string, Value>
    ghost var log: seq<Op>

    constructor (initial: map<string, Value>)
      ensures entries == initial && log == []
    {
      entries := initial;
      log := [];
    }

    /** `kv.get(key)`: the stored value, if any; the contents do not change. */
    method Get(key: string) returns (v: Option<Value>)
      modifies this`log
      ensures entries == old(entries)
      ensures log == old(log) + [Read(key)]
      ensures v.Some? <==> key in entries
      ensures v.Some? ==> v.value == entries[key]
    {
      v := if key in entries then Some(entries[key]) else None;
      log := log + [Read(key)];
    }

    /** `kv.put(key, value)`: overwrite or create one key. */
    method Put(key: string, value: Value)
      modifies this
      ensures entries == old(entries)[key := value]
      ensures log == old(log) + [Write(key, value)]
    {
      entries := entries[key := value];
      log := log + [Write(key, value)];
    }

    /** `kv.delete(key)`: remove one key; absent keys are fine. */
    method Delete(key: string)
      modifies this
      ensures entries == old(entries) - {key}
      ensures log == old(log) + [Remove(key)]
    {
      entries := entries - {key};
      log := log + [Remove(key)];
    }
  }
}
