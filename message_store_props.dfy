/** Properties of the transcript store's load, add and save rules. */
module MessageStoreProps {
  import opened Wrappers
  import opened Bounds
  import opened Json
  import opened Messages
  import opened Storage
  import opened MessageStore

  // ------------------------------------------------------------ validation

  /** The filter works entry by entry: it distributes over concatenation. */
  lemma {:induction false} ValidMessagesAppend(a: seq<Raw>, b: seq<Raw>)
    ensures ValidMessages(a + b) == ValidMessages(a) + ValidMessages(b)
    decreases |b|
  {
    if b == [] {
      assert a + b == a;
    } else {
      var b' := b[..|b| - 1];
      assert (a + b)[..|a + b| - 1] == a + b';
      assert (a + b)[|a + b| - 1] == b[|b| - 1];
      ValidMessagesAppend(a, b');
    }
  }

  /** One more entry at the end is kept, as the message it spells, when it is valid. */
  lemma ValidMessagesSnoc(items: seq<Raw>, x: Raw)
    ensures ValidMessages(items + [x]) == ValidMessages(items) + (if Decode(x).Some? then [Decode(x).value] else [])
  {
    assert (items + [x])[..|items|] == items;
  }

  /** The filter keeps exactly the entries that pass validation. */
  lemma {:induction false} ValidMessagesMembers(items: seq<Raw>)
    ensures forall m :: m in ValidMessages(items) <==> exists i :: 0 <= i < |items| && Decode(items[i]) == Some(m)
    decreases |items|
  {
    if items != [] {
      var init := items[..|items| - 1];
      ValidMessagesMembers(init);
      assert forall i :: 0 <= i < |init| ==> init[i] == items[i];
    }
  }

  /** A single entry is kept, as the message it spells, exactly when it is valid. */
  lemma ValidMessagesSingle(x: Raw)
    ensures ValidMessages([x]) == if IsValidMessage(x) then [Decode(x).value] else []
  {
    assert [x][..0] == [];
  }

  /**
   * An invalid entry (an unknown role, a non-string content, a non-numeric
   * timestamp) is dropped on its own: the entries around it are kept, in
   * their order.
   */
  lemma DropsOnlyInvalid(a: seq<Raw>, x: Raw, b: seq<Raw>)
    requires !IsValidMessage(x)
    ensures ValidMessages(a + [x] + b) == ValidMessages(a) + ValidMessages(b)
  {
    ValidMessagesAppend(a + [x], b);
    ValidMessagesAppend(a, [x]);
    ValidMessagesSingle(x);
  }

  /** Every valid entry survives the filter, so none loses its place to an invalid one. */
  lemma KeepsAllValid(a: seq<Raw>, x: Raw, b: seq<Raw>)
    requires IsValidMessage(x)
    ensures ValidMessages(a + [x] + b) == ValidMessages(a) + [Decode(x).value] + ValidMessages(b)
  {
    ValidMessagesAppend(a + [x], b);
    ValidMessagesAppend(a, [x]);
    ValidMessagesSingle(x);
  }

  /** Entries the client wrote all pass the filter, unchanged and in order. */
  lemma {:induction false} ValidMessagesEncodeAll(ms: seq<Message>)
    ensures ValidMessages(EncodeAll(ms)) == ms
    decreases |ms|
  {
    if ms != [] {
      var init, last := ms[..|ms| - 1], ms[|ms| - 1];
      assert ms == init + [last];
      assert EncodeAll(init + [last]) == EncodeAll(init) + [Encode(last)];
      ValidMessagesEncodeAll(init);
      ValidMessagesEncodeOne(init, last);
    }
  }

  lemma ValidMessagesEncodeOne(init: seq<Message>, last: Message)
    requires ValidMessages(EncodeAll(init)) == init
    ensures ValidMessages(EncodeAll(init) + [Encode(last)]) == init + [last]
  {
    DecodeEncode(last);
    ValidMessagesSnoc(EncodeAll(init), Encode(last));
  }

  // --------------------------------------------------------------- sorting

  /** A list already newest first is left as it is by the sort. */
  lemma {:induction false} SortKeepsNewestFirst(ms: seq<Message>)
    requires NewestFirst(ms)
    ensures SortNewestFirst(ms) == ms
    decreases |ms|
  {
    if ms != [] {
      SortKeepsNewestFirst(ms[1..]);
      assert ms == [ms[0]] + ms[1..];
    }
  }

  /** The entries stamped `t`, in list order. */
  function WithTimestamp(ms: seq<Message>, t: int): seq<Message>
  {
    if ms == [] then []
    else (if ms[0].timestamp == t then [ms[0]] else []) + WithTimestamp(ms[1..], t)
  }

  /** Insertion goes in front of every entry with the same timestamp. */
  lemma {:induction false} InsertBeforeTies(m: Message, ms: seq<Message>, t: int)
    ensures WithTimestamp(Insert(m, ms), t)
            == (if m.timestamp == t then [m] else []) + WithTimestamp(ms, t)
    decreases |ms|
  {
    if ms == [] || m.timestamp >= ms[0].timestamp {
      assert ([m] + ms)[1..] == ms;
    } else {
      var rest := Insert(m, ms[1..]);
      InsertBeforeTies(m, ms[1..], t);
      assert ([ms[0]] + rest)[1..] == rest;
    }
  }

  /**
   * The sort is stable: for every timestamp, the entries that carry it come
   * out in the order they were stored in.
   */
  lemma {:induction false} SortIsStable(ms: seq<Message>, t: int)
    ensures WithTimestamp(SortNewestFirst(ms), t) == WithTimestamp(ms, t)
    decreases |ms|
  {
    if ms != [] {
      SortIsStable(ms[1..], t);
      InsertBeforeTies(ms[0], SortNewestFirst(ms[1..]), t);
    }
  }

  /**
   * Loading keeps the newest entries: every valid entry cut off by the cap
   * is no newer than any entry kept.
   */
  lemma KeepsNewest(items: seq<Raw>)
    ensures forall d: Message, k: Message :: d in multiset(ValidMessages(items)) - multiset(Cleaned(items)) && k in Cleaned(items)
                           ==> d.timestamp <= k.timestamp
  {
    var sorted := SortNewestFirst(ValidMessages(items));
    var n := Min(|sorted|, MAX_MESSAGES);
    TakeNewest(sorted, n);
    SplitNewestFirst(sorted, n);
  }

  /** In a newest-first list, nothing after position `n` is newer than anything before it. */
  lemma SplitNewestFirst(s: seq<Message>, n: nat)
    requires n <= |s|
    requires NewestFirst(s)
    ensures forall d: Message, k: Message :: d in multiset(s) - multiset(s[..n]) && k in s[..n]
                                            ==> d.timestamp <= k.timestamp
  {
    assert s == s[..n] + s[n..];
    assert multiset(s) - multiset(s[..n]) == multiset(s[n..]);
    forall d: Message, k: Message | d in multiset(s[n..]) && k in s[..n]
      ensures d.timestamp <= k.timestamp
    {
      var j :| 0 <= j < |s[n..]| && s[n..][j] == d;
      var i :| 0 <= i < n && s[..n][i] == k;
      assert s[n + j] == d && s[i] == k;
    }
  }

  /** What the store writes is read back unchanged after a restart. */
  lemma RestartRoundTrip(ms: seq<Message>)
    requires NewestFirst(ms) && |ms| <= MAX_MESSAGES
    ensures LoadMessages(Some(Json(Array(EncodeAll(ms))))) == ms
  {
    ValidMessagesEncodeAll(ms);
    SortKeepsNewestFirst(ms);
  }

  // --------------------------------------------------------------- adding

  /** When the clock has not gone back, adding keeps the list newest first. */
  lemma PrependedNewestFirst(ms: seq<Message>, m: Message)
    requires NewestFirst(ms)
    requires ms == [] || ms[0].timestamp <= m.timestamp
    ensures NewestFirst(Prepended(ms, m))
  {
    var r := Prepended(ms, m);
    forall i, j | 0 <= i < j < |r| ensures r[j].timestamp <= r[i].timestamp {
      assert r[j] == ms[j - 1];
      if i > 0 {
        assert r[i] == ms[i - 1];
      }
    }
  }

  /**
   * After an add, whatever the save had to drop: the list is either empty or
   * starts with the new entry, followed by the newest of the old entries in
   * their old order.
   */
  lemma AddKeepsOrder(ms: seq<Message>, m: Message, limits: StoreLimits)
    ensures var r := Retained(Prepended(ms, m), limits);
            r == [] || (r[0] == m && r[1..] == ms[..|r| - 1])
  {
    var p := Prepended(ms, m);
    var r := Retained(p, limits);
    if r != [] {
      assert r[1..] == p[1..][..|r| - 1];
    }
  }

  /** With room in the store, an add keeps every entry up to the cap. */
  lemma AddWithRoom(ms: seq<Message>, m: Message, limits: StoreLimits)
    requires limits.blocked || Fits(Prepended(ms, m), limits)
    ensures var r := Retained(Prepended(ms, m), limits);
            |r| == Min(|ms| + 1, MAX_MESSAGES) && r[0] == m && r[1..] == ms[..|r| - 1]
  {
  }

  // --------------------------------------------------------------- saving

  /** A list that fits still fits once its oldest entries are dropped. */
  lemma FitsPrefix(ms: seq<Message>, k: nat, limits: StoreLimits)
    requires k <= |ms|
    requires Fits(ms, limits)
    ensures Fits(ms[..k], limits)
  {
    assert EncodeAll(ms[..k]) == EncodeAll(ms)[..k];
    ItemsSizePrefix(EncodeAll(ms), k);
  }

  /** The list after `k` rounds of keeping the first half. */
  function HalveTimes(ms: seq<Message>, k: nat): (r: seq<Message>)
    ensures |r| <= |ms| && r == ms[..|r|]
  {
    if k == 0 then ms
    else
      var r := HalveTimes(ms[..|ms| / 2], k - 1);
      assert ms[..|ms| / 2][..|r|] == ms[..|r|];
      r
  }

  /** `k` rounds of halving reach `r`, and no earlier round fitted. */
  predicate FirstFit(ms: seq<Message>, limits: StoreLimits, k: nat, r: seq<Message>)
  {
    r == HalveTimes(ms, k) && forall j: nat :: j < k ==> !Fits(HalveTimes(ms, j), limits)
  }

  /**
   * The save keeps the first list of the halving chain that the store
   * accepts, so no longer list of the chain would have fitted.
   */
  lemma {:induction false} RetainedIsFirstFit(ms: seq<Message>, limits: StoreLimits)
    requires !limits.blocked
    ensures exists k: nat :: FirstFit(ms, limits, k, Retained(ms, limits))
    decreases |ms|
  {
    if Fits(ms, limits) {
      assert FirstFit(ms, limits, 0, Retained(ms, limits));
    } else {
      var h := ms[..|ms| / 2];
      RetainedIsFirstFit(h, limits);
      var k: nat :| FirstFit(h, limits, k, Retained(h, limits));
      assert Retained(ms, limits) == HalveTimes(ms, k + 1);
      forall j: nat | j < k + 1
        ensures !Fits(HalveTimes(ms, j), limits)
      {
        if j > 0 {
          assert HalveTimes(ms, j) == HalveTimes(h, j - 1);
        }
      }
      assert FirstFit(ms, limits, k + 1, Retained(ms, limits));
    }
  }

  /** Among the lists of the halving chain that fit, the save keeps the longest. */
  lemma RetainedIsLongestFit(ms: seq<Message>, limits: StoreLimits, j: nat)
    requires !limits.blocked
    requires Fits(HalveTimes(ms, j), limits)
    ensures |HalveTimes(ms, j)| <= |Retained(ms, limits)|
  {
    RetainedIsFirstFit(ms, limits);
    var k: nat :| FirstFit(ms, limits, k, Retained(ms, limits));
    if k <= j {
      HalveTimesShrinks(ms, k, j);
    }
  }

  /** More rounds of halving never give a longer list. */
  lemma {:induction false} HalveTimesShrinks(ms: seq<Message>, k: nat, j: nat)
    requires k <= j
    ensures |HalveTimes(ms, j)| <= |HalveTimes(ms, k)|
    decreases k
  {
    if k > 0 {
      HalveTimesShrinks(ms[..|ms| / 2], k - 1, j - 1);
    } else {
      assert HalveTimes(ms, k) == ms;
    }
  }
}
