/** The table-session panel (src/components/session-info.tsx): on mount it
    reads the stored table session; while one was found it re-reads the
    remaining time every second and drops the session once that reaches
    zero; a button ends the session. The timer is modelled by calling `Tick`
    once per firing, with the two clock readings as parameters. */
module SessionInfo {
  import opened Wrappers
  import opened Text
  import opened TableSession

  /** `formatTime`: whole minutes, a colon, and the whole seconds of the
      current minute as exactly two digits. Read back, the two fields give
      the minutes and seconds of `ms`, and together they are `ms` rounded
      down to the second. */
  function FormatTime(ms: nat): (s: string)
    ensures |s| >= 4 && s[|s| - 3] == ':'
    ensures AllDigits(s[..|s| - 3]) && DecimalValue(s[..|s| - 3]) == ms / 60000
    ensures AllDigits(s[|s| - 2..]) && DecimalValue(s[|s| - 2..]) == (ms % 60000) / 1000
    ensures (ms % 60000) / 1000 < 60
    ensures ms - 1000 < (ms / 60000) * 60000 + ((ms % 60000) / 1000) * 1000 <= ms
  {
    var minutes := ms / 60000;
    var seconds := (ms % 60000) / 1000;
    var m := NatToString(minutes);
    var ss := PadStart(NatToString(seconds), 2, '0');
    NatToStringProperties(minutes);
    SecondsField(seconds);
    WholeSeconds(ms);
    ColonFields(m, ss);
    m + ":" + ss
  }

  /** The two fields, read back, are `ms` rounded down to the second. */
  lemma WholeSeconds(ms: nat)
    ensures (ms % 60000) / 1000 < 60
    ensures ms - 1000 < (ms / 60000) * 60000 + ((ms % 60000) / 1000) * 1000 <= ms
  {
    var r := ms % 60000;
    assert ms == (ms / 60000) * 60000 + r;
    assert r - 1000 < (r / 1000) * 1000 <= r;
  }

  /** The fields of `m:ss` sit before and after the third-last character. */
  lemma ColonFields(m: string, ss: string)
    requires |ss| == 2 && m != ""
    ensures var s := m + ":" + ss;
            |s| >= 4 && s[|s| - 3] == ':' && s[..|s| - 3] == m && s[|s| - 2..] == ss
  {
    var s := m + ":" + ss;
    assert s[..|s| - 3] == m;
    assert s[|s| - 2..] == ss;
  }

  /** The seconds field is two digits reading back as the seconds. */
  lemma SecondsField(seconds: nat)
    requires seconds < 60
    ensures var ss := PadStart(NatToString(seconds), 2, '0');
            |ss| == 2 && AllDigits(ss) && DecimalValue(ss) == seconds
  {
    var t := NatToString(seconds);
    NatToStringProperties(seconds);
    if seconds < 10 {
      assert t == [DigitChar(seconds)];
      assert PadStart(t, 2, '0') == "0" + t;
      DecimalLeadingZero(t);
    } else {
      assert t == NatToString(seconds / 10) + [DigitChar(seconds % 10)];
      assert NatToString(seconds / 10) == [DigitChar(seconds / 10)];
    }
  }

  /** A fresh 30-minute session shows "30:00". */
  lemma FormatFullSession()
    ensures FormatTime(SessionTtlMs) == "30:00"
  {
    assert SessionTtlMs / 60000 == 30 && (SessionTtlMs % 60000) / 1000 == 0;
    assert DigitChar(3) == '3' && DigitChar(0) == '0';
    assert NatToString(30) == NatToString(3) + [DigitChar(0)] == "30";
    TwoZeros();
    assert "30" + ":" + "00" == "30:00";
  }

  /** No time left shows "0:00". */
  lemma FormatNoTimeLeft()
    ensures FormatTime(0) == "0:00"
  {
    assert 0 / 60000 == 0 && (0 % 60000) / 1000 == 0;
    assert DigitChar(0) == '0';
    assert NatToString(0) == [DigitChar(0)] == "0";
    TwoZeros();
    assert "0" + ":" + "00" == "0:00";
  }

  lemma TwoZeros()
    ensures PadStart(NatToString(0), 2, '0') == "00"
  {
    assert NatToString(0) == [DigitChar(0)] == "0";
    assert PadStart("0", 2, '0') == PadStart(['0'] + "0", 2, '0');
    assert ['0'] + "0" == "00";
  }

  /** What the panel shows: the table number, the first eight characters of
      the session id, and the formatted remaining time. */
  datatype Panel = Panel(tableNumber: int, sessionIdPrefix: string, remaining: string)

  /** `substring(0, n)` */
  function Prefix(s: string, n: nat): (r: string)
    ensures |r| == (if |s| < n then |s| else n) && r == s[..|r|]
  {
    if |s| < n then s else s[..n]
  }

  /** One mounted `SessionInfo` component. `ticking` says whether the
      interval is registered. */
  class SessionPanel {
    var session: Option<TableSession>
    var timeRemaining: nat
    var ticking: bool

    constructor ()
      ensures session == None && timeRemaining == 0 && !ticking
    {
      session := None;
      timeRemaining := 0;
      ticking := false;
    }

    /** The mount effect at time `now`: shows what `getTableSession` returns
        and starts ticking exactly when that is a session. */
    method Mount(store: TableSessionStore, now: int)
      modifies this, store
      ensures session == Read(old(store.slot), now)
      ensures store.slot == SlotAfterRead(old(store.slot), now)
      ensures ticking <==> session.Some?
      ensures timeRemaining == old(timeRemaining)
    {
      var currentSession := store.GetTableSession(now);
      session := currentSession;
      if currentSession.Some? {
        ticking := true;
      } else {
        ticking := false;
      }
    }

    /** One firing of the interval, reading the session at `readAt` and the
        clock at `now`: the remaining time is stored, and when it is zero the
        shown session is dropped and the interval stops. */
    method Tick(store: TableSessionStore, readAt: int, now: int)
      requires ticking
      modifies this, store
      ensures timeRemaining == Remaining(old(store.slot), readAt, now)
      ensures store.slot == SlotAfterRead(old(store.slot), readAt)
      ensures timeRemaining == 0 ==> session.None? && !ticking
      ensures timeRemaining != 0 ==> session == old(session) && ticking
    {
      var remaining := store.GetSessionTimeRemaining(readAt, now);
      timeRemaining := remaining;
      if remaining == 0 {
        session := None;
        ticking := false;
      }
    }

    /** `handleClearSession`: the stored session and the shown one are both
        gone. The interval is not stopped here; its next firing finds no
        session and stops it. */
    method HandleClearSession(store: TableSessionStore)
      modifies this, store
      ensures store.slot == None && session == None
      ensures timeRemaining == old(timeRemaining) && ticking == old(ticking)
    {
      store.ClearTableSession();
      session := None;
    }

    /** Nothing is drawn without a session; otherwise the panel shows its
        table, id prefix and remaining time. */
    function Render(): (p: Option<Panel>)
      reads this
      ensures p.None? <==> session.None?
      ensures p.Some? ==> p.value.tableNumber == session.value.tableNumber
                          && p.value.remaining == FormatTime(timeRemaining)
                          && p.value.sessionIdPrefix == Prefix(session.value.sessionId, 8)
    {
      if session.None? then None
      else Some(Panel(session.value.tableNumber, Prefix(session.value.sessionId, 8), FormatTime(timeRemaining)))
    }
  }
}
