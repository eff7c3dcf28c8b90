/** The table session kept in sessionStorage under `tableSession`
    (src/lib/session.ts). A session lives 30 minutes; expiry is checked only
    when the session is read, and a read that finds it expired deletes it.
    The clock is a parameter. */
module TableSession {
  import opened Wrappers

  const StorageKey := "tableSession"

  /** 30 minutes in milliseconds. */
  const SessionTtlMs: int := 30 * 60 * 1000

  datatype TableSession = TableSession(sessionId: string, tableNumber: int, expiresAt: int)

  /** The stored text as `getTableSession` sees it: a session record, or text
      the read cannot use (an empty string, or text on which `JSON.parse` or
      the `expiresAt` access throws). The record itself is not validated. */
  datatype StoredTable = Unreadable | Stored(session: TableSession)

  /** What `getTableSession` returns at time `now`: the stored session
      exactly when one is stored and `now` has not passed its expiry (the
      comparison is strict, so the expiry instant itself is still valid). */
  function Read(slot: Option<StoredTable>, now: int): (r: Option<TableSession>)
    ensures r.Some? <==> slot.Some? && slot.value.Stored? && now <= slot.value.session.expiresAt
    ensures r.Some? ==> slot == Some(Stored(r.value))
  {
    match slot
    case None => None
    case Some(Unreadable) => None
    case Some(Stored(s)) => if now > s.expiresAt then None else Some(s)
  }

  /** The slot after `getTableSession` at time `now`: an expired record is
      removed; an absent slot, an unreadable one (the read fails and the
      catch leaves it in place) and a live session stay as they were. */
  function SlotAfterRead(slot: Option<StoredTable>, now: int): (after: Option<StoredTable>)
    ensures after == slot || after == None
    ensures after == None <==> slot.None? || (slot.value.Stored? && now > slot.value.session.expiresAt)
  {
    match slot
    case Some(Stored(s)) => if now > s.expiresAt then None else slot
    case _ => slot
  }

  /** `getSessionTimeRemaining`: the session is read at `readAt`, then the
      clock is read again at `now` for the difference, which is clamped at
      zero. No session means zero. */
  function Remaining(slot: Option<StoredTable>, readAt: int, now: int): (ms: int)
    ensures ms >= 0
    ensures Read(slot, readAt).None? ==> ms == 0
    ensures Read(slot, readAt).Some? && readAt <= now ==> ms <= slot.value.session.expiresAt - readAt
  {
    match Read(slot, readAt)
    case None => 0
    case Some(s) => if s.expiresAt - now > 0 then s.expiresAt - now else 0
  }

  /** Reading is idempotent: a second read at the same instant sees what the
      first returned and changes nothing more. */
  lemma ReadIdempotent(slot: Option<StoredTable>, now: int)
    ensures Read(SlotAfterRead(slot, now), now) == Read(slot, now)
    ensures SlotAfterRead(SlotAfterRead(slot, now), now) == SlotAfterRead(slot, now)
  {
  }

  /** An expired session leaves no trace: the read returns nothing, the slot
      is gone, and every later read returns nothing too. */
  lemma ExpiredLeavesNoTrace(s: TableSession, now: int, later: int)
    requires now > s.expiresAt
    ensures Read(Some(Stored(s)), now).None?
    ensures SlotAfterRead(Some(Stored(s)), now).None?
    ensures Read(SlotAfterRead(Some(Stored(s)), now), later).None?
  {
  }

  /** The record written by `setTableSession` at time `t`. */
  function Created(sessionId: string, tableNumber: int, t: int): (s: TableSession)
    ensures s.expiresAt - t == SessionTtlMs
  {
    TableSession(sessionId, tableNumber, t + SessionTtlMs)
  }

  /** A session set at `t` is returned unchanged by every read up to 30
      minutes later, and it has at most 30 minutes left. */
  lemma SetThenRead(sessionId: string, tableNumber: int, t: int, readAt: int, now: int)
    requires t <= readAt <= t + SessionTtlMs && readAt <= now
    ensures Read(Some(Stored(Created(sessionId, tableNumber, t))), readAt)
            == Some(TableSession(sessionId, tableNumber, t + SessionTtlMs))
    ensures 0 <= Remaining(Some(Stored(Created(sessionId, tableNumber, t))), readAt, now) <= SessionTtlMs
  {
  }

  /** Table 7, 30-minute session created at `t0`: 29 minutes later time is
      left; 31 minutes later the read finds nothing and no time is left. */
  lemma TableSevenScenario(sessionId: string, t0: int)
    ensures Remaining(Some(Stored(Created(sessionId, 7, t0))), t0 + 29 * 60000, t0 + 29 * 60000) > 0
    ensures Read(Some(Stored(Created(sessionId, 7, t0))), t0 + 31 * 60000).None?
    ensures Remaining(Some(Stored(Created(sessionId, 7, t0))), t0 + 31 * 60000, t0 + 31 * 60000) == 0
  {
  }

  /** The sessionStorage slot `tableSession`. */
  class TableSessionStore {
    var slot: Option<StoredTable>

    constructor ()
      ensures slot == None
    {
      slot := None;
    }

    /** `getTableSession` at time `now`. */
    method GetTableSession(now: int) returns (session: Option<TableSession>)
      modifies this
      ensures session == Read(old(slot), now)
      ensures slot == SlotAfterRead(old(slot), now)
    {
      match slot {
        case None =>
          session := None;
        case Some(Unreadable) =>
          session := None;
        case Some(Stored(s)) =>
          if now > s.expiresAt {
            ClearTableSession();
            session := None;
          } else {
            session := Some(s);
          }
      }
    }

    /** `setTableSession` at time `now`: overwrites whatever was stored. */
    method SetTableSession(sessionId: string, tableNumber: int, now: int)
      modifies this
      ensures slot == Some(Stored(TableSession(sessionId, tableNumber, now + SessionTtlMs)))
    {
      slot := Some(Stored(TableSession(sessionId, tableNumber, now + SessionTtlMs)));
    }

    /** `clearTableSession`: removes the slot; removing it again is no change. */
    method ClearTableSession()
      modifies this
      ensures slot == None
    {
      slot := None;
    }

    /** `hasValidSession`: true exactly when `getTableSession` returns a
        session, with the same side effect. */
    method HasValidSession(now: int) returns (valid: bool)
      modifies this
      ensures valid <==> Read(old(slot), now).Some?
      ensures slot == SlotAfterRead(old(slot), now)
    {
      var session := GetTableSession(now);
      valid := session.Some?;
    }

    /** `getSessionTimeRemaining`, reading the session at `readAt` and the
        clock again at `now`. */
    method GetSessionTimeRemaining(readAt: int, now: int) returns (ms: int)
      modifies this
      ensures ms == Remaining(old(slot), readAt, now)
      ensures slot == SlotAfterRead(old(slot), readAt)
    {
      var session := GetTableSession(readAt);
      if session.None? {
        return 0;
      }
      var remaining := session.value.expiresAt - now;
      ms := if remaining > 0 then remaining else 0;
    }
  }
}
