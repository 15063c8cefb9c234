/**
 * The persistent key-value store (AsyncStorage). Each key the application
 * uses is one `Entry` object: its `key` is fixed, its `value` survives a process
 * restart. Values are kept as the data they serialise rather than as JSON text.
 * Every read and every write may fail; which one does is not determined here.
 */
module Storage {
  import opened Wrappers

  class Entry<V> {
    const key: string
    var value: Option<V>

    /** An entry as found on the device: absent, or holding what an earlier run wrote. */
    constructor (key: string, value: Option<V>)
      ensures this.key == key && this.value == value
    {
      this.key := key;
      this.value := value;
    }

    /** `getItem`: on success `v` is what the key holds (`None` when absent). */
    method Read() returns (ok: bool, v: Option<V>)
      ensures ok ==> v == value
      ensures !ok ==> v == None
    {
      ok :| true;
      v := if ok then value else None;
    }

    /** `setItem`: the new value is stored only when the write succeeds. */
    method Write(v: V) returns (ok: bool)
      modifies this
      ensures value == if ok then Some(v) else old(value)
    {
      ok :| true;
      if ok {
        value := Some(v);
      }
    }
  }
}
