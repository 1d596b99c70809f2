/**
 * Per-conversation sessions (message history, control layer, activity time)
 * and the registry that creates, expires and evicts them. Time is an explicit
 * `now` in whole seconds; new session ids come from a caller-supplied token.
 */
module Sessions {
  import opened Wrappers
  import opened Json
  import opened LoopControl

  /** The message `add_message(role, content, **extra)` appends. */
  function ChatMessage(role: string, content: string, extra: Dict): (m: Json)
    ensures m.Obj?
    ensures !HasKey(extra, "role") ==> Get(m.entries, "role") == Some(Str(role))
    ensures !HasKey(extra, "content") ==> Get(m.entries, "content") == Some(Str(content))
  {
    var base: Dict := [("role", Str(role)), ("content", Str(content))];
    GetDistinct(base, 0);
    GetDistinct(base, 1);
    Obj(Update(base, extra))
  }

  /** The message `add_tool_result(tool_call_id, name, content)` appends. */
  function ToolResultMessage(toolCallId: string, name: string, content: string): Json {
    Obj([("role", Str("tool")), ("tool_call_id", Str(toolCallId)), ("name", Str(name)), ("content", Str(content))])
  }

  /** `Session.to_dict()`, with times kept as numbers. */
  datatype SessionInfo = SessionInfo(
    sessionId: string, createdAt: int, lastActivity: int, messageCount: nat,
    ageSeconds: int, idleSeconds: int, metadata: Dict)

  class Session {
    const sessionId: string
    var createdAt: int
    var lastActivity: int
    var messages: seq<Json>
    var controlLayer: ControlLayer
    var metadata: Dict

    constructor (sessionId: string, now: int, metadata: Dict)
      ensures this.sessionId == sessionId && createdAt == now && lastActivity == now
      ensures messages == [] && this.metadata == metadata
      ensures fresh(controlLayer) && fresh(controlLayer.state)
      ensures controlLayer.config == DefaultConfig && controlLayer.state.Snapshot() == InitialLoop
    {
      this.sessionId := sessionId;
      createdAt := now;
      lastActivity := now;
      messages := [];
      controlLayer := new ControlLayer(Some(DefaultConfig));
      this.metadata := metadata;
    }

    method AddMessage(role: string, content: string, extra: Dict, now: int)
      modifies this
      ensures messages == old(messages) + [ChatMessage(role, content, extra)]
      ensures lastActivity == now
      ensures createdAt == old(createdAt) && controlLayer == old(controlLayer) && metadata == old(metadata)
    {
      messages := messages + [ChatMessage(role, content, extra)];
      lastActivity := now;
    }

    method AddToolCallMessage(message: Json, now: int)
      modifies this
      ensures messages == old(messages) + [message]
      ensures lastActivity == now
      ensures createdAt == old(createdAt) && controlLayer == old(controlLayer) && metadata == old(metadata)
    {
      messages := messages + [message];
      lastActivity := now;
    }

    method AddToolResult(toolCallId: string, name: string, content: string, now: int)
      modifies this
      ensures messages == old(messages) + [ToolResultMessage(toolCallId, name, content)]
      ensures lastActivity == now
      ensures createdAt == old(createdAt) && controlLayer == old(controlLayer) && metadata == old(metadata)
    {
      messages := messages + [ToolResultMessage(toolCallId, name, content)];
      lastActivity := now;
    }

    /** `get_messages()`: a copy, so later appends do not show through it. */
    method GetMessages() returns (r: seq<Json>)
      ensures r == messages
    {
      r := messages;
    }

    method ClearMessages(now: int)
      modifies this
      ensures messages == []
      ensures fresh(controlLayer) && fresh(controlLayer.state)
      ensures controlLayer.config == DefaultConfig && controlLayer.state.Snapshot() == InitialLoop
      ensures lastActivity == now && createdAt == old(createdAt) && metadata == old(metadata)
    {
      messages := [];
      controlLayer := new ControlLayer(Some(DefaultConfig));
      lastActivity := now;
    }

    function IdleSeconds(now: int): int
      reads this
    {
      now - lastActivity
    }

    function ToInfo(now: int): (info: SessionInfo)
      reads this
      ensures info.messageCount == |messages| && info.sessionId == sessionId
      ensures info.idleSeconds == now - lastActivity && info.ageSeconds == now - createdAt
    {
      SessionInfo(sessionId, createdAt, lastActivity, |messages|, now - createdAt, now - lastActivity, metadata)
    }
  }

  const DefaultExpirationSeconds := 30 * 60
  const MaxSessions := 100

  /** A session idle for strictly longer than the expiration has expired. */
  predicate Expired(s: Session, now: int, expiration: int)
    reads s
  {
    now - s.lastActivity > expiration
  }

  /** The entries of `m` that have not expired at `now`. */
  function LiveOnly(m: map<string, Session>, now: int, expiration: int): (r: map<string, Session>)
    reads m.Values
    ensures r.Keys <= m.Keys
    ensures forall k :: k in r ==> r[k] == m[k] && !Expired(m[k], now, expiration)
    ensures forall k :: k in m && !Expired(m[k], now, expiration) ==> k in r
  {
    map k | k in m && !Expired(m[k], now, expiration) :: m[k]
  }

  /** `expiration_seconds or DEFAULT_EXPIRATION_SECONDS`. */
  function EffectiveExpiration(expirationSeconds: Option<int>): (e: int)
    ensures expirationSeconds.None? || expirationSeconds == Some(0) ==> e == DefaultExpirationSeconds
    ensures expirationSeconds.Some? && expirationSeconds.value != 0 ==> e == expirationSeconds.value
  {
    if expirationSeconds.Some? && expirationSeconds.value != 0 then expirationSeconds.value
    else DefaultExpirationSeconds
  }

  class SessionManager {
    var sessions: map<string, Session>
    const expiration: int

    ghost predicate Valid()
      reads this
    {
      |sessions| <= MaxSessions
    }

    constructor (expirationSeconds: Option<int>)
      ensures sessions == map[] && expiration == EffectiveExpiration(expirationSeconds)
      ensures Valid()
    {
      sessions := map[];
      expiration := EffectiveExpiration(expirationSeconds);
    }

    /** `_cleanup_expired()`: drops every expired session and counts them. */
    method CleanupExpired(now: int) returns (removed: nat)
      modifies this
      ensures sessions == LiveOnly(old(sessions), now, expiration)
      ensures removed == |old(sessions).Keys - sessions.Keys|
    {
      var expired := set sid | sid in sessions && Expired(sessions[sid], now, expiration);
      ghost var start := sessions;
      var pending := expired;
      while pending != {}
        invariant pending <= expired
        invariant sessions == map k | k in start && k !in expired - pending :: start[k]
        decreases |pending|
      {
        var sid :| sid in pending;
        sessions := sessions - {sid};
        pending := pending - {sid};
      }
      ghost var live := LiveOnly(start, now, expiration);
      assert expired - pending == expired;
      assert forall k :: k in sessions <==> k in live;
      assert sessions == live;
      assert start.Keys - sessions.Keys == expired;
      removed := |expired|;
    }

    /** `min(keys, key=last_activity)`: an id whose session was active least recently. */
    method OldestId() returns (oldest: string)
      requires sessions != map[]
      ensures oldest in sessions
      ensures forall k :: k in sessions ==> sessions[oldest].lastActivity <= sessions[k].lastActivity
    {
      var rest := sessions.Keys;
      oldest :| oldest in rest;
      rest := rest - {oldest};
      while rest != {}
        invariant rest <= sessions.Keys && oldest in sessions
        invariant forall k :: k in sessions && k !in rest ==> sessions[oldest].lastActivity <= sessions[k].lastActivity
        decreases |rest|
      {
        var k :| k in rest;
        if sessions[k].lastActivity < sessions[oldest].lastActivity {
          oldest := k;
        }
        rest := rest - {k};
      }
    }

    /**
     * `create_session`: expire, evict the least recently active session when
     * the registry is full, then register a fresh session `"session_" + token`.
     * `evicted` names the session removed for capacity, if any.
     */
    method CreateSession(token: string, now: int, metadata: Dict) returns (s: Session, ghost evicted: Option<string>)
      requires Valid()
      modifies this
      ensures Valid()
      ensures fresh(s) && s.sessionId == "session_" + token && s.messages == [] && s.metadata == metadata
      ensures s.lastActivity == now && s.createdAt == now
      ensures evicted.Some? <==> |old(LiveOnly(sessions, now, expiration))| >= MaxSessions
      ensures evicted.Some? ==> evicted.value in old(LiveOnly(sessions, now, expiration))
      ensures evicted.Some? ==>
                forall k :: k in old(LiveOnly(sessions, now, expiration)) ==>
                  old(sessions[evicted.value].lastActivity) <= old(sessions[k].lastActivity)
      ensures sessions == (if evicted.Some? then old(LiveOnly(sessions, now, expiration)) - {evicted.value}
                           else old(LiveOnly(sessions, now, expiration)))[s.sessionId := s]
    {
      evicted := MakeRoom(now);
      var sessionId := "session_" + token;
      s := new Session(sessionId, now, metadata);
      sessions := sessions[sessionId := s];
    }

    /** The expiry and the eviction `create_session` performs before it registers the new session. */
    method MakeRoom(now: int) returns (ghost evicted: Option<string>)
      requires Valid()
      modifies this
      ensures |sessions| < MaxSessions
      ensures evicted.Some? <==> |old(LiveOnly(sessions, now, expiration))| >= MaxSessions
      ensures evicted.Some? ==> evicted.value in old(LiveOnly(sessions, now, expiration))
      ensures evicted.Some? ==>
                forall k :: k in old(LiveOnly(sessions, now, expiration)) ==>
                  old(sessions[evicted.value].lastActivity) <= old(sessions[k].lastActivity)
      ensures sessions == if evicted.Some? then old(LiveOnly(sessions, now, expiration)) - {evicted.value}
                          else old(LiveOnly(sessions, now, expiration))
    {
      var _ := CleanupExpired(now);
      ghost var live := sessions;
      assert live == old(LiveOnly(sessions, now, expiration));
      evicted := EvictIfFull();
    }

    /** Removes the least recently active session when the registry is full. */
    method EvictIfFull() returns (ghost evicted: Option<string>)
      modifies this
      ensures evicted.Some? <==> |old(sessions)| >= MaxSessions
      ensures evicted.Some? ==> evicted.value in old(sessions)
      ensures evicted.Some? ==>
                forall k :: k in old(sessions) ==> old(sessions[evicted.value].lastActivity) <= old(sessions[k].lastActivity)
      ensures sessions == if evicted.Some? then old(sessions) - {evicted.value} else old(sessions)
      ensures evicted.Some? ==> |sessions| == |old(sessions)| - 1
    {
      evicted := None;
      if |sessions| >= MaxSessions {
        var victim := OldestId();
        ghost var before := sessions;
        sessions := sessions - {victim};
        evicted := Some(victim);
        assert sessions.Keys == before.Keys - {victim};
      }
    }

    /** `get_session`: a known, unexpired session; an expired one is dropped. */
    method GetSession(sessionId: string, now: int) returns (r: Option<Session>)
      modifies this
      ensures sessionId !in old(sessions) ==> r.None? && sessions == old(sessions)
      ensures sessionId in old(sessions) && Expired(old(sessions)[sessionId], now, expiration)
              ==> r.None? && sessions == old(sessions) - {sessionId}
      ensures sessionId in old(sessions) && !Expired(old(sessions)[sessionId], now, expiration)
              ==> r == Some(old(sessions)[sessionId]) && sessions == old(sessions)
    {
      if sessionId !in sessions {
        return None;
      }
      var session := sessions[sessionId];
      if Expired(session, now, expiration) {
        sessions := sessions - {sessionId};
        return None;
      }
      return Some(session);
    }

    /**
     * `get_or_create_session`: reuse a live session for a non-empty id, else
     * create one exactly as `create_session` does (an expired id has been
     * dropped by then, which `create_session`'s own expiry would have done).
     */
    method GetOrCreateSession(sessionId: Option<string>, token: string, now: int, metadata: Dict)
      returns (s: Session, ghost evicted: Option<string>)
      requires Valid()
      modifies this
      ensures Valid()
      ensures s in sessions.Values
      ensures (sessionId.Some? && sessionId.value != "" && sessionId.value in old(sessions)
               && !Expired(old(sessions)[sessionId.value], now, expiration))
              ==> s == old(sessions)[sessionId.value] && sessions == old(sessions) && evicted.None?
      ensures !(sessionId.Some? && sessionId.value != "" && sessionId.value in old(sessions)
                && !Expired(old(sessions)[sessionId.value], now, expiration))
              ==> fresh(s) && s.sessionId == "session_" + token && s.messages == [] && s.metadata == metadata
                  && s.lastActivity == now && s.createdAt == now
                  && (evicted.Some? <==> |old(LiveOnly(sessions, now, expiration))| >= MaxSessions)
                  && (evicted.Some? ==> evicted.value in old(LiveOnly(sessions, now, expiration)))
                  && (evicted.Some? ==>
                        forall k :: k in old(LiveOnly(sessions, now, expiration)) ==>
                          old(sessions[evicted.value].lastActivity) <= old(sessions[k].lastActivity))
                  && sessions == (if evicted.Some? then old(LiveOnly(sessions, now, expiration)) - {evicted.value}
                                  else old(LiveOnly(sessions, now, expiration)))[s.sessionId := s]
    {
      if sessionId.Some? && sessionId.value != "" {
        var found := GetSession(sessionId.value, now);
        if found.Some? {
          assert sessions[sessionId.value] == found.value;
          return found.value, None;
        }
        assert LiveOnly(sessions, now, expiration) == old(LiveOnly(sessions, now, expiration));
      }
      s, evicted := CreateSession(token, now, metadata);
      assert sessions[s.sessionId] == s;
    }

    /** `delete_session`: True iff the id was registered; other entries stay. */
    method DeleteSession(sessionId: string) returns (deleted: bool)
      modifies this
      ensures deleted <==> sessionId in old(sessions)
      ensures sessions == old(sessions) - {sessionId}
    {
      if sessionId in sessions {
        sessions := sessions - {sessionId};
        return true;
      }
      return false;
    }

    /**
     * `list_sessions`: expire, then describe every remaining session once;
     * `ids[i]` is the registry key described by `infos[i]`.
     */
    method ListSessions(now: int) returns (infos: seq<SessionInfo>, ghost ids: seq<string>)
      modifies this
      ensures sessions == LiveOnly(old(sessions), now, expiration)
      ensures |infos| == |sessions| == |ids|
      ensures forall i :: 0 <= i < |ids| ==> ids[i] in sessions && infos[i] == sessions[ids[i]].ToInfo(now)
      ensures forall k :: k in sessions ==> k in ids
    {
      var _ := CleanupExpired(now);
      infos := [];
      ids := [];
      var rest := sessions.Keys;
      while rest != {}
        invariant rest <= sessions.Keys
        invariant |infos| == |ids| && |infos| + |rest| == |sessions|
        invariant forall i :: 0 <= i < |ids| ==> ids[i] in sessions && infos[i] == sessions[ids[i]].ToInfo(now)
        invariant forall k :: k in sessions ==> k in rest || k in ids
        decreases |rest|
      {
        var k :| k in rest;
        infos := infos + [sessions[k].ToInfo(now)];
        ids := ids + [k];
        rest := rest - {k};
      }
    }
  }
}
