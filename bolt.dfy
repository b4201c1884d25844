/**
 * The part of BoltDB's bucket semantics the stores rely on. A bucket is a map
 * from keys to values; `Get` of a missing key is nil; `Put` refuses an empty
 * key with `ErrKeyRequired` before it touches the bucket; `Delete` of a
 * missing key is a no-op. Every other way an update transaction can fail
 * (disk I/O, commit, a key or value over bolt's size limits, a closed
 * database) is one `fault` flag chosen by the caller's environment.
 */
module Bolt {
  import opened Wrappers

  datatype TxError = KeyRequired | TxFailed

  /** The error `db.Update(... b.Put(key, value) ...)` returns. */
  function PutError<K>(key: seq<K>, fault: bool): (e: Option<TxError>)
    ensures e.None? <==> key != [] && !fault
    ensures key == [] ==> e == Some(KeyRequired)
  {
    if key == [] then Some(KeyRequired) else if fault then Some(TxFailed) else None
  }

  /** The error `db.Update(... b.Delete(key) ...)` returns: a missing key is not an error. */
  function DeleteError(fault: bool): (e: Option<TxError>)
    ensures e.None? <==> !fault
  {
    if fault then Some(TxFailed) else None
  }

  /** `b.Get(key)`: the stored value, or nil when the key is absent. */
  function Get<K, V>(bucket: map<K, V>, key: K): (v: Option<V>)
    ensures v.Some? <==> key in bucket
    ensures v.Some? ==> v.value == bucket[key]
  {
    if key in bucket then Some(bucket[key]) else None
  }
}
