/** The per-user conversation context store of src/orchestrator/context_manager.py. Each user's
    entry holds a data dictionary and the time it was written; an entry older than thirty minutes
    is dropped the next time it is read. Time is an integer count of microseconds passed in by the
    caller, and the dictionary values are of an arbitrary type `V`. */
module Contexts {
  import opened Wrappers

  /** `timedelta(minutes=30)`, in microseconds. */
  const ExpirationTime: int := 30 * 60 * 1000000

  /** One stored entry: `{'data': ..., 'timestamp': ...}`. */
  datatype Entry<V> = Entry(data: map<string, V>, timestamp: int)

  /** The entry is past its lifetime at time `now`: strictly more than thirty minutes old. */
  predicate Expired<V>(e: Entry<V>, now: int)
  {
    now - e.timestamp > ExpirationTime
  }

  /** What `get_context` answers for `user` at time `now`: the data of a present, unexpired entry. */
  function LiveData<V>(contexts: map<string, Entry<V>>, user: string, now: int): (r: Option<map<string, V>>)
    ensures r.Some? <==> user in contexts && now <= contexts[user].timestamp + ExpirationTime
    ensures r.Some? ==> r.value == contexts[user].data
  {
    if user in contexts && !Expired(contexts[user], now) then Some(contexts[user].data) else None
  }

  /** `dict.update`: every key of either map, with the value of `updates` where both have it. */
  function Merged<V>(base: map<string, V>, updates: map<string, V>): (r: map<string, V>)
    ensures forall k :: k in r <==> k in base || k in updates
    ensures forall k :: k in updates ==> r[k] == updates[k]
    ensures forall k :: k in base && k !in updates ==> r[k] == base[k]
  {
    base + updates
  }

  /** The map `get_context` leaves behind: the user's entry is deleted if it has expired. */
  function AfterRead<V>(contexts: map<string, Entry<V>>, user: string, now: int): (r: map<string, Entry<V>>)
    ensures r.Keys == if user in contexts && Expired(contexts[user], now) then contexts.Keys - {user}
                      else contexts.Keys
    ensures forall u :: u in r ==> r[u] == contexts[u]
  {
    if user in contexts && Expired(contexts[user], now) then contexts - {user} else contexts
  }

  /** The entry `update_context` writes: the live data (or nothing) merged with the updates,
      stamped with the current time. */
  function UpdatedEntry<V>(contexts: map<string, Entry<V>>, user: string, updates: map<string, V>, now: int): (r: Entry<V>)
    ensures r.timestamp == now
    ensures forall k :: k in updates ==> k in r.data && r.data[k] == updates[k]
  {
    var base := match LiveData(contexts, user, now) case Some(d) => d case None => map[];
    Entry(Merged(base, updates), now)
  }

  /** The entry written by `update_context` keeps the live keys the update does not name, takes
      every key it names, and drops an expired entry's data entirely. */
  lemma UpdatedEntryMeaning<V>(contexts: map<string, Entry<V>>, user: string, updates: map<string, V>, now: int)
    ensures var d := UpdatedEntry(contexts, user, updates, now).data;
            forall k :: k in d <==> k in updates || (LiveData(contexts, user, now).Some? && k in contexts[user].data)
    ensures var d := UpdatedEntry(contexts, user, updates, now).data;
            forall k :: k !in updates && k in d ==> d[k] == contexts[user].data[k]
    ensures LiveData(contexts, user, now).None? ==> UpdatedEntry(contexts, user, updates, now).data == updates
  {
    var base := match LiveData(contexts, user, now) case Some(d) => d case None => map[];
    if LiveData(contexts, user, now).None? {
      assert base == map[];
      assert base + updates == updates;
    }
  }

  /** An entry written at time `t` is read back up to and including `t` plus thirty minutes, and
      is gone one microsecond later. */
  lemma ExpiryBoundary<V>(contexts: map<string, Entry<V>>, user: string, data: map<string, V>, t: int)
    ensures var c := contexts[user := Entry(data, t)];
            LiveData(c, user, t + ExpirationTime) == Some(data)
            && LiveData(c, user, t + ExpirationTime + 1).None?
            && AfterRead(c, user, t + ExpirationTime + 1) == contexts - {user}
  {
    var c := contexts[user := Entry(data, t)];
    assert c - {user} == contexts - {user};
  }

  /** After an update the merged data is what the next read returns, for the next thirty minutes. */
  lemma UpdateThenRead<V>(contexts: map<string, Entry<V>>, user: string, updates: map<string, V>, now: int, later: int)
    requires now <= later <= now + ExpirationTime
    ensures var e := UpdatedEntry(contexts, user, updates, now);
            LiveData(contexts[user := e], user, later) == Some(e.data)
  {
  }

  class ContextManager<V> {
    var contexts: map<string, Entry<V>>

    constructor()
      ensures contexts == map[]
    {
      contexts := map[];
    }

    /** `set_context`: replaces the user's entry with the data and the current time. */
    method SetContext(user: string, data: map<string, V>, now: int)
      modifies this
      ensures contexts == old(contexts)[user := Entry(data, now)]
    {
      contexts := contexts[user := Entry(data, now)];
    }

    /** `get_context`: the data of a live entry; an expired one is deleted and nothing is
        returned; other users' entries are untouched. */
    method GetContext(user: string, now: int) returns (r: Option<map<string, V>>)
      modifies this
      ensures r == LiveData(old(contexts), user, now)
      ensures contexts == AfterRead(old(contexts), user, now)
    {
      if user !in contexts {
        return None;
      }
      var context := contexts[user];
      if now - context.timestamp > ExpirationTime {
        contexts := contexts - {user};
        return None;
      }
      return Some(context.data);
    }

    /** `update_context`: the live data (empty when absent or expired) merged with the updates,
        stored with a fresh time stamp. */
    method UpdateContext(user: string, updates: map<string, V>, now: int)
      modifies this
      ensures contexts == old(contexts)[user := UpdatedEntry(old(contexts), user, updates, now)]
    {
      var current := GetContext(user, now);
      var base := match current case Some(d) => d case None => map[];
      SetContext(user, Merged(base, updates), now);
    }

    /** `clear_context`: removes the user's entry if there is one. */
    method ClearContext(user: string)
      modifies this
      ensures contexts == old(contexts) - {user}
      ensures user !in old(contexts) ==> contexts == old(contexts)
    {
      if user in contexts {
        contexts := contexts - {user};
      }
    }
  }
}
