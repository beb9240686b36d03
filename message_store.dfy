/**
 * The client's transcript store, `MessageManager`: a newest-first list of at
 * most `MAX_MESSAGES` entries, persisted as one JSON array under one key.
 * The pure functions below say what each operation leaves in the list; the
 * class performs the operations in place.
 */
module MessageStore {
  import opened Wrappers
  import opened Bounds
  import opened Json
  import opened Messages
  import opened Storage

  const MAX_MESSAGES: nat := 100

  /** Timestamps never increase from index 0 onwards. */
  predicate NewestFirst(ms: seq<Message>)
  {
    forall i, j :: 0 <= i < j < |ms| ==> ms[j].timestamp <= ms[i].timestamp
  }

  // ---------------------------------------------------------------- loading

  /** `filter(isValidMessage)`, each kept entry read as a `Message`. */
  function ValidMessages(items: seq<Raw>): (ms: seq<Message>)
    ensures |ms| <= |items|
  {
    if items == [] then []
    else
      var last := Decode(items[|items| - 1]);
      ValidMessages(items[..|items| - 1]) + (if last.Some? then [last.value] else [])
  }

  /** Inserts `m` before the first entry no newer than it. */
  function Insert(m: Message, ms: seq<Message>): (r: seq<Message>)
    ensures multiset(r) == multiset(ms) + multiset{m}
    ensures forall x :: x in r ==> x == m || x in ms
  {
    if ms == [] || m.timestamp >= ms[0].timestamp then [m] + ms
    else
      assert ms == [ms[0]] + ms[1..];
      [ms[0]] + Insert(m, ms[1..])
  }

  /**
   * `sort((a, b) => b.timestamp - a.timestamp)`: a stable sort, newest first.
   * Among equal timestamps the stored order is kept.
   */
  function SortNewestFirst(ms: seq<Message>): (r: seq<Message>)
    ensures multiset(r) == multiset(ms)
    ensures NewestFirst(r)
  {
    if ms == [] then []
    else
      assert ms == [ms[0]] + ms[1..];
      var rest := SortNewestFirst(ms[1..]);
      InsertKeepsOrder(ms[0], rest);
      Insert(ms[0], rest)
  }

  /** Inserting into a newest-first list keeps it newest first. */
  lemma {:induction false} InsertKeepsOrder(m: Message, ms: seq<Message>)
    requires NewestFirst(ms)
    ensures NewestFirst(Insert(m, ms))
  {
    if ms == [] || m.timestamp >= ms[0].timestamp {
    } else {
      var tail := Insert(m, ms[1..]);
      InsertKeepsOrder(m, ms[1..]);
      forall x | x in tail
        ensures x.timestamp <= ms[0].timestamp
      {
        if x != m {
          var j :| 0 <= j < |ms[1..]| && ms[1..][j] == x;
          assert ms[j + 1] == x;
        }
      }
      assert Insert(m, ms) == [ms[0]] + tail;
    }
  }

  /** The newest `n` entries of a newest-first list, and what is left behind. */
  lemma TakeNewest(s: seq<Message>, n: nat)
    requires n <= |s|
    requires NewestFirst(s)
    ensures NewestFirst(s[..n])
    ensures multiset(s[..n]) + multiset(s[n..]) == multiset(s)
  {
    assert s == s[..n] + s[n..];
  }

  /** The filter, sort and `slice(0, MAX_MESSAGES)` chain applied to a stored array. */
  function Cleaned(items: seq<Raw>): (r: seq<Message>)
    ensures |r| == Min(|ValidMessages(items)|, MAX_MESSAGES)
    ensures NewestFirst(r)
    ensures multiset(r) <= multiset(ValidMessages(items))
    ensures |ValidMessages(items)| <= MAX_MESSAGES ==> multiset(r) == multiset(ValidMessages(items))
  {
    var sorted := SortNewestFirst(ValidMessages(items));
    var n := Min(|sorted|, MAX_MESSAGES);
    TakeNewest(sorted, n);
    sorted[..n]
  }

  /**
   * `loadMessages`: nothing stored, text that does not parse (the empty text
   * included) or a value that is not an array all give the empty list.
   */
  function LoadMessages(stored: Option<Stored>): (r: seq<Message>)
    ensures |r| <= MAX_MESSAGES
    ensures NewestFirst(r)
    ensures stored.None? ==> r == []
    ensures stored.Some? && stored.value.Unparsable? ==> r == []
    ensures stored.Some? && stored.value.Json? && !stored.value.value.Array? ==> r == []
    ensures stored.Some? && stored.value.Json? && stored.value.value.Array? ==>
              r == Cleaned(stored.value.value.items)
  {
    match stored
    case None => []
    case Some(Unparsable(_)) => []
    case Some(Json(v)) => if v.Array? then Cleaned(v.items) else []
  }

  // --------------------------------------------------------------- updating

  /** `unshift(m)` followed by `slice(0, MAX_MESSAGES)` when over the cap. */
  function Prepended(ms: seq<Message>, m: Message): (r: seq<Message>)
    ensures |r| == Min(|ms| + 1, MAX_MESSAGES)
    ensures r[0] == m
    ensures r[1..] == ms[..|r| - 1]
  {
    var added := [m] + ms;
    if |added| > MAX_MESSAGES then added[..MAX_MESSAGES] else added
  }

  /** The list, serialised, fits under the store's quota. */
  predicate Fits(ms: seq<Message>, limits: StoreLimits)
  {
    Size(Array(EncodeAll(ms))) <= limits.quota
  }

  /**
   * What `saveMessages` leaves in the list: on every quota error the first
   * (newest) half is kept and the write retried; a blocked store changes
   * nothing.
   */
  function Retained(ms: seq<Message>, limits: StoreLimits): (r: seq<Message>)
    ensures |r| <= |ms| && r == ms[..|r|]
    ensures limits.blocked || Fits(r, limits)
    ensures limits.blocked || Fits(ms, limits) ==> r == ms
    decreases |ms|
  {
    if limits.blocked || Fits(ms, limits) then ms
    else
      assert ms != [];
      var r := Retained(ms[..|ms| / 2], limits);
      assert ms[..|ms| / 2][..|r|] == ms[..|r|];
      r
  }

  /** The store's contents after `saveMessages` has settled on `ms`. */
  function Saved(items: map<string, Stored>, key: string, ms: seq<Message>, limits: StoreLimits)
    : map<string, Stored>
  {
    if limits.blocked then items else items[key := Json(Array(EncodeAll(ms)))]
  }

  /** A second save under the same key overwrites the first. */
  lemma SavedTwice(items: map<string, Stored>, key: string, a: seq<Message>, b: seq<Message>,
                   limits: StoreLimits)
    ensures Saved(Saved(items, key, a, limits), key, b, limits) == Saved(items, key, b, limits)
  {
  }

  class MessageManager {
    const storageKey: string
    const storage: Store
    var messages: seq<Message>

    /** The cap the class keeps on its list. */
    ghost predicate Valid()
      reads this
    {
      |messages| <= MAX_MESSAGES
    }

    constructor (storageKey: string, storage: Store)
      ensures this.storageKey == storageKey && this.storage == storage
      ensures messages == LoadMessages(storage.GetItem(storageKey))
      ensures Valid()
    {
      this.storageKey := storageKey;
      this.storage := storage;
      messages := LoadMessages(storage.GetItem(storageKey));
    }

    /** `addMessage`: the new entry goes first, the oldest past the cap go, then a save. */
    method AddMessage(role: Role, content: string, timestamp: int, id: string)
      returns (m: Message)
      modifies this, storage
      ensures m == Message(role, content, timestamp, Some(id))
      ensures messages == Retained(Prepended(old(messages), m), storage.limits)
      ensures storage.items == Saved(old(storage.items), storageKey, messages, storage.limits)
      ensures Valid()
    {
      m := Message(role, content, timestamp, Some(id));
      messages := [m] + messages;
      if |messages| > MAX_MESSAGES {
        messages := messages[..MAX_MESSAGES];
      }
      SaveMessages();
    }

    /** `saveMessages`: best effort; never reports failure to the caller. */
    method SaveMessages()
      requires Valid()
      modifies this, storage
      ensures messages == Retained(old(messages), storage.limits)
      ensures storage.items == Saved(old(storage.items), storageKey, messages, storage.limits)
      ensures Valid()
      decreases |messages|
    {
      var err := storage.SetItem(storageKey, Array(EncodeAll(messages)));
      if err == Some(QuotaExceeded) {
        messages := messages[..|messages| / 2];
        SaveMessages();
      }
    }

    /** `clearMessages`: empties the list and saves it. */
    method ClearMessages()
      modifies this, storage
      ensures messages == []
      ensures storage.items == Saved(old(storage.items), storageKey, [], storage.limits)
      ensures Valid()
    {
      messages := [];
      SaveMessages();
    }

    /** `deleteAllData`: removes the key; the list is emptied only if that succeeded. */
    method DeleteAllData()
      requires Valid()
      modifies this, storage
      ensures storage.limits.blocked ==> messages == old(messages) && storage.items == old(storage.items)
      ensures !storage.limits.blocked ==> messages == [] && storage.items == old(storage.items) - {storageKey}
      ensures Valid()
    {
      var err := storage.RemoveItem(storageKey);
      if err.None? {
        messages := [];
      }
    }

    /** `getMessages`: the transcript, newest first. */
    method GetMessages() returns (ms: seq<Message>)
      ensures ms == messages
    {
      ms := messages;
    }
  }
}
