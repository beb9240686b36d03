/**
 * The browser's key-value store as the client sees it: string keys, each
 * holding serialised text. A write fails with a quota error when the value
 * is larger than the room the store grants; a store that is blocked throws
 * a different error on every write and removal.
 */
module Storage {
  import opened Wrappers
  import opened Json

  /** What a stored text parses to: a JSON value, or text `JSON.parse` rejects. */
  datatype Stored = Json(value: Raw) | Unparsable(text: string)

  datatype StorageError = QuotaExceeded | OtherError

  /**
   * The store's behaviour: `quota` is the largest value `Size` it accepts
   * under one key; `blocked` makes writes and removals throw.
   */
  datatype Limits = Limits(quota: nat, blocked: bool)

  /** Every store has room for an empty array. */
  type StoreLimits = l: Limits | l.quota >= Size(Array([])) witness Limits(1, false)

  /** The error `setItem(key, v)` throws, if any. */
  function WriteError(limits: StoreLimits, v: Raw): (e: Option<StorageError>)
    ensures e == Some(QuotaExceeded) <==> !limits.blocked && Size(v) > limits.quota
    ensures e == Some(OtherError) <==> limits.blocked
  {
    if limits.blocked then Some(OtherError)
    else if Size(v) > limits.quota then Some(QuotaExceeded)
    else None
  }

  /**
   * An empty array never meets the quota error, so the halving retry of a
   * save always stops.
   */
  lemma EmptyArrayFits(limits: StoreLimits)
    ensures WriteError(limits, Array([])) != Some(QuotaExceeded)
  {
  }

  class Store {
    var items: map<string, Stored>
    const limits: StoreLimits

    constructor (items: map<string, Stored>, limits: StoreLimits)
      ensures this.items == items && this.limits == limits
    {
      this.items := items;
      this.limits := limits;
    }

    /** `getItem`: the stored text under `key`, or nothing. */
    function GetItem(key: string): (r: Option<Stored>)
      reads this
      ensures r.Some? <==> key in items
      ensures r.Some? ==> r.value == items[key]
    {
      if key in items then Some(items[key]) else None
    }

    /** `setItem(key, JSON.stringify(v))`: stores the value or throws. */
    method SetItem(key: string, v: Raw) returns (err: Option<StorageError>)
      modifies this
      ensures err == WriteError(limits, v)
      ensures items == if err.None? then old(items)[key := Json(v)] else old(items)
    {
      err := WriteError(limits, v);
      if err.None? {
        items := items[key := Json(v)];
      }
    }

    /** `removeItem(key)`: forgets the key or throws. */
    method RemoveItem(key: string) returns (err: Option<StorageError>)
      modifies this
      ensures err.Some? <==> limits.blocked
      ensures items == if err.None? then old(items) - {key} else old(items)
    {
      if limits.blocked {
        err := Some(OtherError);
      } else {
        err := None;
        items := items - {key};
      }
    }
  }
}
