/**
  * The in-memory session table of the server: sessions keyed by id, expiring
  * after a window of inactivity, refreshed whenever they are read. Time is a
  * parameter in milliseconds since the epoch.
  */
module Sessions {
  import opened Text
  import opened Js
  import opened Security

  /** A session record; `data` holds arbitrary JSON values. */
  datatype Session = Session(
    id: string,
    clientId: string,
    createdAt: int,
    lastActiveAt: int,
    data: map<string, Value>)

  /** Whitespace `parseInt` skips before the number (the ASCII part of it). */
  predicate IsSpace(c: char)
  {
    c == ' ' || c == '\t' || c == '\n' || c == '\r' || c == '\U{000B}' || c == '\U{000C}'
  }

  function TrimStart(s: string): (t: string)
    ensures |t| <= |s| && t == s[|s| - |t|..]
    ensures t == "" || !IsSpace(t[0])
    ensures forall i :: 0 <= i < |s| - |t| ==> IsSpace(s[i])
  {
    if |s| > 0 && IsSpace(s[0]) then TrimStart(s[1..]) else s
  }

  /** The longest prefix of decimal digits. */
  function DigitPrefix(s: string): (d: string)
    ensures AllDigits(d) && d <= s
    ensures |d| < |s| ==> !IsDigit(s[|d|])
  {
    if |s| > 0 && IsDigit(s[0]) then [s[0]] + DigitPrefix(s[1..]) else ""
  }

  /** The value of the leading digits, or None (NaN) when there are none. */
  function ParseDigits(s: string): (r: Option<int>)
    ensures r.Some? ==> r.value >= 0
    ensures r.Some? <==> |s| > 0 && IsDigit(s[0])
  {
    var digits := DigitPrefix(s);
    if digits == "" then None else Some(DigitsValue(digits))
  }

  /** An optional sign, then digits. */
  function ParseSigned(t: string): (r: Option<int>)
    ensures r.Some? <==>
      (|t| > 0 && IsDigit(t[0])) || (|t| > 1 && (t[0] == '-' || t[0] == '+') && IsDigit(t[1]))
    ensures r.Some? && (|t| == 0 || t[0] != '-') ==> r.value >= 0
  {
    if |t| > 0 && t[0] == '-' then
      match ParseDigits(t[1..])
      case None => None
      case Some(n) => Some(-n)
    else if |t| > 0 && t[0] == '+' then ParseDigits(t[1..])
    else ParseDigits(t)
  }

  /**
    * `parseInt(s, 10)`: None stands for NaN, which it is exactly when no
    * digit follows the leading white space and an optional sign.
    */
  function ParseInt(s: string): (r: Option<int>)
    ensures var t := TrimStart(s);
      r.Some? <==>
        (|t| > 0 && IsDigit(t[0])) || (|t| > 1 && (t[0] == '-' || t[0] == '+') && IsDigit(t[1]))
    ensures var t := TrimStart(s);
      r.Some? && (|t| == 0 || t[0] != '-') ==> r.value >= 0
  {
    ParseSigned(TrimStart(s))
  }

  /** Decimal digits parse to their value, whatever follows them. */
  lemma ParseIntDigits(digits: string, rest: string)
    requires digits != "" && AllDigits(digits)
    requires rest == "" || !IsDigit(rest[0])
    ensures ParseInt(digits + rest) == Some(DigitsValue(digits))
  {
    var s := digits + rest;
    assert s[0] == digits[0];
    assert !IsSpace(s[0]) && s[0] != '-' && s[0] != '+';
    assert TrimStart(s) == s;
    DigitPrefixOf(digits, rest);
  }

  lemma {:induction false} DigitPrefixOf(digits: string, rest: string)
    requires AllDigits(digits)
    requires rest == "" || !IsDigit(rest[0])
    ensures DigitPrefix(digits + rest) == digits
  {
    if digits == "" {
      assert digits + rest == rest;
    } else {
      assert (digits + rest)[1..] == digits[1..] + rest;
      DigitPrefixOf(digits[1..], rest);
      assert [digits[0]] + digits[1..] == digits;
    }
  }

  /** The default window text parses to 30. */
  lemma ParseDefaultWindow()
    ensures ParseInt("30") == Some(30)
  {
    assert ParseDigits("30") == Some(30) by {
      assert DigitPrefix("30") == "30";
      assert DigitsValue("30") == 30;
    }
    assert ParseSigned("30") == ParseDigits("30");
    assert ParseInt("30") == ParseSigned("30") by {
      assert "30"[0] == '3' && !IsSpace('3');
      assert TrimStart("30") == "30";
    }
  }

  /**
    * The expiry window in minutes: `parseInt(SESSION_EXPIRY_MINUTES || '30')`.
    * None (NaN) means sessions never expire.
    */
  function ExpiryMinutes(env: Env): (r: Option<int>)
    ensures "SESSION_EXPIRY_MINUTES" !in env || env["SESSION_EXPIRY_MINUTES"] == "" ==> r == Some(30)
  {
    ParseDefaultWindow();
    ParseInt(if "SESSION_EXPIRY_MINUTES" in env && env["SESSION_EXPIRY_MINUTES"] != ""
             then env["SESSION_EXPIRY_MINUTES"] else "30")
  }

  /** An unset or empty variable gives the 30-minute default. */
  lemma DefaultExpiryMinutes(env: Env)
    requires "SESSION_EXPIRY_MINUTES" !in env || env["SESSION_EXPIRY_MINUTES"] == ""
    ensures ExpiryMinutes(env) == Some(30)
  {
    ParseDefaultWindow();
  }

  /**
    * A session is expired when `now` is strictly past `lastActiveAt` plus the
    * window. A NaN window makes the expiry date invalid, and comparisons with
    * an invalid date are false.
    */
  predicate Expired(s: Session, now: int, window: Option<int>)
    ensures Expired(s, now, window) ==> window.Some?
    ensures window.Some? && window.value >= 0 && now <= s.lastActiveAt ==> !Expired(s, now, window)
  {
    window.Some? && now > s.lastActiveAt + window.value * 60000
  }

  /** Once expired, a session stays expired as time goes on. */
  lemma ExpiryIsPermanent(s: Session, now: int, later: int, window: Option<int>)
    requires Expired(s, now, window) && now <= later
    ensures Expired(s, later, window)
  {
  }

  /** The table `cleanupExpiredSessions` leaves: the sessions that are not expired, untouched. */
  function LiveOnly(m: map<string, Session>, now: int, window: Option<int>): (r: map<string, Session>)
    ensures forall id :: id in r <==> id in m && !Expired(m[id], now, window)
    ensures forall id :: id in r ==> r[id] == m[id]
  {
    map id | id in m && !Expired(m[id], now, window) :: m[id]
  }

  /** What `getSession` returns and the table it leaves behind. */
  datatype Lookup = Lookup(found: Option<Session>, table: map<string, Session>)

  /** `getSession(id)` on a table: missing, expired (and removed) or refreshed. */
  function Get(m: map<string, Session>, id: string, now: int, window: Option<int>): (r: Lookup)
    ensures r.found.Some? <==> id in m && !Expired(m[id], now, window)
    ensures r.found.Some? ==>
      r.found.value == m[id].(lastActiveAt := now) && id in r.table && r.table[id] == r.found.value
    ensures r.found.None? ==> id !in r.table
    ensures forall k :: k != id ==> (k in r.table <==> k in m)
    ensures forall k :: k != id && k in m ==> r.table[k] == m[k]
  {
    if id !in m then Lookup(None, m)
    else if Expired(m[id], now, window) then Lookup(None, m - {id})
    else
      var s := m[id].(lastActiveAt := now);
      Lookup(Some(s), m[id := s])
  }

  /** With a non-negative window, a session just returned by `Get` is live at that moment. */
  lemma GetResultIsLive(m: map<string, Session>, id: string, now: int, window: Option<int>)
    requires Get(m, id, now, window).found.Some?
    requires window.Some? ==> window.value >= 0
    ensures !Expired(Get(m, id, now, window).found.value, now, window)
  {
  }

  /** A sweep is invisible to readers: `Get` finds the same session before and after it. */
  lemma CleanupInvisibleToGet(m: map<string, Session>, id: string, now: int, window: Option<int>)
    ensures Get(LiveOnly(m, now, window), id, now, window).found == Get(m, id, now, window).found
  {
    var live := LiveOnly(m, now, window);
    if id in m && !Expired(m[id], now, window) {
      assert id in live && live[id] == m[id];
    }
  }

  /** Sweeping twice at the same moment removes nothing more. */
  lemma CleanupIdempotent(m: map<string, Session>, now: int, window: Option<int>)
    ensures LiveOnly(LiveOnly(m, now, window), now, window) == LiveOnly(m, now, window)
  {
    var once := LiveOnly(m, now, window);
    assert LiveOnly(once, now, window).Keys == once.Keys;
  }

  /** `{ ...old, ...incoming }`: incoming keys win, other old keys stay. */
  function Merge(old_: map<string, Value>, incoming: map<string, Value>): (r: map<string, Value>)
    ensures r.Keys == old_.Keys + incoming.Keys
    ensures forall k :: k in incoming ==> r[k] == incoming[k]
    ensures forall k :: k in old_ && k !in incoming ==> r[k] == old_[k]
  {
    old_ + incoming
  }

  /** The module-level session table. */
  class SessionStore {
    var sessions: map<string, Session>
    /** `SESSION_EXPIRY_MINUTES`, read once when the module loads. */
    const window: Option<int>

    constructor (env: Env)
      ensures sessions == map[] && window == ExpiryMinutes(env)
    {
      sessions := map[];
      window := ExpiryMinutes(env);
    }

    /** `createSession`: stores a fresh session, replacing any under the same id. */
    method CreateSession(sessionId: string, clientId: string, data: map<string, Value>, now: int)
      returns (session: Session)
      modifies this
      ensures session == Session(sessionId, clientId, now, now, data)
      ensures sessions == old(sessions)[sessionId := session]
    {
      session := Session(sessionId, clientId, now, now, data);
      sessions := sessions[sessionId := session];
    }

    /** `deleteSession`: true and removed iff the id was present; no other entry changes. */
    method DeleteSession(sessionId: string) returns (deleted: bool)
      modifies this
      ensures deleted <==> sessionId in old(sessions)
      ensures sessions == old(sessions) - {sessionId}
    {
      if sessionId in sessions {
        sessions := sessions - {sessionId};
        return true;
      }
      return false;
    }

    /** `getSession`: null for a missing or expired id (an expired one is deleted), else refreshed. */
    method GetSession(sessionId: string, now: int) returns (session: Option<Session>)
      modifies this
      ensures session == Get(old(sessions), sessionId, now, window).found
      ensures sessions == Get(old(sessions), sessionId, now, window).table
    {
      if sessionId !in sessions {
        return None;
      }
      var s := sessions[sessionId];
      if Expired(s, now, window) {
        var _ := DeleteSession(sessionId);
        return None;
      }
      s := s.(lastActiveAt := now);
      sessions := sessions[sessionId := s];
      return Some(s);
    }

    /** `updateSession`: a `getSession`, then the incoming data merged over the stored data. */
    method UpdateSession(sessionId: string, data: map<string, Value>, now: int)
      returns (session: Option<Session>)
      modifies this
      ensures var before := Get(old(sessions), sessionId, now, window);
        match before.found
        case None => session.None? && sessions == before.table
        case Some(s) =>
          session == Some(s.(data := Merge(s.data, data))) &&
          sessions == before.table[sessionId := session.value]
    {
      var found := GetSession(sessionId, now);
      if found.None? {
        return None;
      }
      var s := found.value.(data := Merge(found.value.data, data));
      sessions := sessions[sessionId := s];
      return Some(s);
    }

    /** `cleanupExpiredSessions`: deletes exactly the expired sessions, refreshing none. */
    method CleanupExpiredSessions(now: int)
      modifies this
      ensures sessions == LiveOnly(old(sessions), now, window)
    {
      var keys := sessions.Keys;
      ghost var start := sessions;
      while keys != {}
        invariant keys <= start.Keys
        invariant sessions == map id | id in start && (id in keys || !Expired(start[id], now, window)) :: start[id]
        decreases keys
      {
        var id :| id in keys;
        var s := sessions[id];
        if Expired(s, now, window) {
          var _ := DeleteSession(id);
        }
        keys := keys - {id};
      }
    }
  }
}
