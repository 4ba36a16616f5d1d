/** A key-value store whose keys may carry a deadline: the part of Redis the services rely on. */
module KeyStore {
  import opened Prelude

  datatype Deadline = Never | Until(time: int)

  /** What one key holds. A value whose deadline has passed no longer counts. */
  datatype Slot<+V> = Empty | Stored(value: V, deadline: Deadline)
  {
    predicate Occupied(now: int)
    {
      Stored? && (deadline.Until? ==> now < deadline.time)
    }
  }

  function SetNX<V>(slot: Slot<V>, value: V, ttl: int, now: int): Slot<V>
  {
    if slot.Occupied(now) then slot else Stored(value, Until(now + ttl))
  }

  function Increment(slot: Slot<int>, now: int): Slot<int>
  {
    if slot.Occupied(now) then slot.(value := slot.value + 1) else Stored(1, Never)
  }

  function Expire<V>(slot: Slot<V>, ttl: int, now: int): Slot<V>
  {
    if slot.Occupied(now) then slot.(deadline := Until(now + ttl)) else slot
  }

  function Lookup<V>(slots: map<string, Slot<V>>, key: string): Slot<V>
  {
    if key in slots then slots[key] else Empty
  }
}
