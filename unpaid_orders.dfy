/** The per-table-session cache of unpaid order ids (src/lib/unpaid-orders.ts).
    The cache lives in sessionStorage under `unpaidOrderIds:<sessionId>`; the
    list is most-recent-first and an id is added only once. JSON encoding is
    abstract: a slot either holds a list of ids or something that does not
    read back as an array. */
module UnpaidOrders {
  import opened Text
  import TableSession

  const KeyPrefix := "unpaidOrderIds:"

  /** What `safeJsonParse` followed by `Array.isArray` makes of a stored
      string: an array of ids, or anything else (text that does not parse,
      an empty string, a JSON value that is not an array). */
  datatype Slot = Malformed | Ids(ids: seq<int>)

  /** `getKey`: the fixed prefix followed by the session id. */
  function Key(sessionId: string): (k: string)
    ensures StartsWith(k, KeyPrefix) && k[|KeyPrefix|..] == sessionId
  {
    KeyPrefix + sessionId
  }

  /** Different sessions use different slots. */
  lemma KeyInjective(a: string, b: string)
    requires Key(a) == Key(b)
    ensures a == b
  {
    assert a == Key(a)[|KeyPrefix|..];
  }

  /** No cache slot is the table-session slot, so the cache and the table
      session store never overwrite each other in the shared sessionStorage. */
  lemma KeyIsNotTableSessionKey(sessionId: string)
    ensures Key(sessionId) != TableSession.StorageKey
  {
    assert Key(sessionId)[0] == 'u' && TableSession.StorageKey[0] == 't';
  }

  /** The number of occurrences of `x` in `s`. */
  function Count(s: seq<int>, x: int): nat
  {
    if s == [] then 0 else (if s[0] == x then 1 else 0) + Count(s[1..], x)
  }

  lemma {:induction false} CountZeroIffAbsent(s: seq<int>, x: int)
    ensures Count(s, x) == 0 <==> x !in s
  {
    if s != [] {
      CountZeroIffAbsent(s[1..], x);
      assert s == [s[0]] + s[1..];
    }
  }

  predicate NoDuplicates(s: seq<int>) {
    forall i, j :: 0 <= i < j < |s| ==> s[i] != s[j]
  }

  /** The list `addCachedUnpaidOrderId` leaves: `orderId` goes to the front
      unless it is already there. Every other id keeps its count; `orderId`
      occurs once when it was absent; a list without duplicates stays so. */
  function Prepended(ids: seq<int>, orderId: int): (r: seq<int>)
    ensures orderId in r
    ensures Count(r, orderId) == if orderId in ids then Count(ids, orderId) else 1
    ensures forall x :: x != orderId ==> Count(r, x) == Count(ids, x)
    ensures NoDuplicates(ids) ==> NoDuplicates(r)
  {
    CountZeroIffAbsent(ids, orderId);
    if orderId in ids then ids
    else
      assert ([orderId] + ids)[1..] == ids;
      [orderId] + ids
  }

  /** Adding the same id a second time changes nothing. */
  lemma PrependedTwice(ids: seq<int>, orderId: int)
    ensures Prepended(Prepended(ids, orderId), orderId) == Prepended(ids, orderId)
  {
  }

  /** `existing.filter(id => id !== orderId)`: every occurrence of `orderId`
      goes, every other id keeps its count and the survivors keep their
      relative order. */
  function Without(ids: seq<int>, orderId: int): (r: seq<int>)
    ensures orderId !in r
    ensures forall x :: x != orderId ==> Count(r, x) == Count(ids, x)
    ensures IsSubsequence(r, ids)
    ensures |r| <= |ids|
  {
    if ids == [] then []
    else if ids[0] == orderId then Without(ids[1..], orderId)
    else [ids[0]] + Without(ids[1..], orderId)
  }

  /** Filtering out an id that is absent gives the list back. */
  lemma {:induction false} WithoutAbsent(ids: seq<int>, orderId: int)
    requires orderId !in ids
    ensures Without(ids, orderId) == ids
  {
    if ids != [] {
      WithoutAbsent(ids[1..], orderId);
    }
  }

  /** Removing twice is removing once. */
  lemma RemoveIdempotent(ids: seq<int>, orderId: int)
    ensures Without(Without(ids, orderId), orderId) == Without(ids, orderId)
  {
    WithoutAbsent(Without(ids, orderId), orderId);
  }

  /** Under the no-duplicates invariant, removing what was just added gives
      the original list back. */
  lemma RemoveAfterAdd(ids: seq<int>, orderId: int)
    requires orderId !in ids
    ensures Without(Prepended(ids, orderId), orderId) == ids
  {
    WithoutAbsent(ids, orderId);
  }

  /** The list a stored slot reads as in `getCachedUnpaidOrderIds`. */
  function ReadSlot(slot: Slot): seq<int>
  {
    if slot.Ids? then slot.ids else []
  }

  /** The sessionStorage entries the cache uses, keyed by `Key(sessionId)`. */
  class UnpaidOrderCache {
    var storage: map<string, Slot>

    constructor ()
      ensures storage == map[]
    {
      storage := map[];
    }

    /** `getCachedUnpaidOrderIds`: an absent or malformed slot reads as the
        empty list; a list of ids reads as itself. */
    function GetCachedUnpaidOrderIds(sessionId: string): (ids: seq<int>)
      reads this
      ensures Key(sessionId) !in storage ==> ids == []
      ensures Key(sessionId) in storage && storage[Key(sessionId)] == Malformed ==> ids == []
      ensures Key(sessionId) in storage && storage[Key(sessionId)].Ids? ==> ids == storage[Key(sessionId)].ids
    {
      var k := Key(sessionId);
      if k in storage then ReadSlot(storage[k]) else []
    }

    /** `addCachedUnpaidOrderId`: an id already cached writes nothing;
        otherwise the slot is rewritten with the id in front. No other
        session's list changes. */
    method AddCachedUnpaidOrderId(sessionId: string, orderId: int)
      modifies this
      ensures orderId in old(GetCachedUnpaidOrderIds(sessionId)) ==> storage == old(storage)
      ensures orderId !in old(GetCachedUnpaidOrderIds(sessionId)) ==>
                storage == old(storage)[Key(sessionId) := Ids([orderId] + old(GetCachedUnpaidOrderIds(sessionId)))]
      ensures GetCachedUnpaidOrderIds(sessionId) == Prepended(old(GetCachedUnpaidOrderIds(sessionId)), orderId)
      ensures forall other :: other != sessionId ==>
                GetCachedUnpaidOrderIds(other) == old(GetCachedUnpaidOrderIds(other))
    {
      var existing := GetCachedUnpaidOrderIds(sessionId);
      if orderId !in existing {
        var next := [orderId] + existing;
        storage := storage[Key(sessionId) := Ids(next)];
      }
      forall other | other != sessionId
        ensures GetCachedUnpaidOrderIds(other) == old(GetCachedUnpaidOrderIds(other))
      {
        if Key(other) == Key(sessionId) {
          KeyInjective(other, sessionId);
        }
      }
    }

    /** `removeCachedUnpaidOrderId`: the slot is always rewritten, with the
        filtered list, even when the id was absent. No other session's list
        changes. */
    method RemoveCachedUnpaidOrderId(sessionId: string, orderId: int)
      modifies this
      ensures storage == old(storage)[Key(sessionId) := Ids(Without(old(GetCachedUnpaidOrderIds(sessionId)), orderId))]
      ensures orderId !in GetCachedUnpaidOrderIds(sessionId)
      ensures forall other :: other != sessionId ==>
                GetCachedUnpaidOrderIds(other) == old(GetCachedUnpaidOrderIds(other))
    {
      var existing := GetCachedUnpaidOrderIds(sessionId);
      var next := Without(existing, orderId);
      storage := storage[Key(sessionId) := Ids(next)];
      forall other | other != sessionId
        ensures GetCachedUnpaidOrderIds(other) == old(GetCachedUnpaidOrderIds(other))
      {
        if Key(other) == Key(sessionId) {
          KeyInjective(other, sessionId);
        }
      }
    }
  }
}
