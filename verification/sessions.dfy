/**
 * The in-memory session store of the chat gateway: a map from session id to
 * a session record whose message history keeps only the most recent
 * `MaxHistory` entries.
 */
module Sessions {
  import opened Wrappers

  /** Timestamps are opaque ISO-format strings supplied by the caller. */
  type Timestamp = string

  /** The history bound: `context["messages"][-10:]`. */
  const MaxHistory: nat := 10

  /** A recorded message: content, kind ("text", "voice" or whatever the upstream sent), timestamp, origin. */
  datatype Message = Message(content: string, kind: string, timestamp: Timestamp, isUser: bool)

  /** The message dictionary handed to `add_message_to_session`; `is_user` may be absent. */
  datatype MessageInput = MessageInput(content: string, kind: string, isUser: Option<bool>)

  datatype Session = Session(messages: seq<Message>, createdAt: Timestamp, lastActivity: Timestamp)

  /** A session as freshly created by `get_session_context`. */
  function NewSession(now: Timestamp): Session
  {
    Session([], now, now)
  }

  /** The message recorded for an input at time `now`; `is_user` defaults to true. */
  function Stamp(m: MessageInput, now: Timestamp): (r: Message)
    ensures r.content == m.content && r.kind == m.kind && r.timestamp == now
    ensures r.isUser <==> (m.isUser.None? || m.isUser.value)
  {
    Message(m.content, m.kind, now, m.isUser.GetOr(true))
  }

  function Min(a: int, b: int): int { if a <= b then a else b }

  /** The slice `h[-10:]`. */
  function Trim(h: seq<Message>): (r: seq<Message>)
    ensures |r| == Min(|h|, MaxHistory)
    ensures forall i :: 0 <= i < |r| ==> r[i] == h[|h| - |r| + i]
  {
    if |h| <= MaxHistory then h else h[|h| - MaxHistory..]
  }

  /**
   * The history after appending `m` and trimming: at most `MaxHistory`
   * entries, the new message last, and before it the newest entries of the
   * old history in their original order (the oldest are the ones dropped).
   */
  function Appended(h: seq<Message>, m: Message): (r: seq<Message>)
    ensures |r| == Min(|h| + 1, MaxHistory)
    ensures r[|r| - 1] == m
    ensures forall i :: 0 <= i < |r| - 1 ==> r[i] == h[|h| - (|r| - 1) + i]
  {
    Trim(h + [m])
  }

  /** Trimming part of a history early does not change the trimmed result of the whole. */
  lemma TrimConcat(x: seq<Message>, rest: seq<Message>)
    ensures Trim(Trim(x) + rest) == Trim(x + rest)
  {
  }

  /** The session `get_session_context` returns: the stored one, or a new empty one. */
  function Lookup(sessions: map<string, Session>, id: string, now: Timestamp): (s: Session)
    ensures id in sessions ==> s == sessions[id]
    ensures id !in sessions ==> s.messages == [] && s.createdAt == now && s.lastActivity == now
  {
    if id in sessions then sessions[id] else NewSession(now)
  }

  /** The store after `get_session_context(id)`. */
  function GetOrCreate(sessions: map<string, Session>, id: string, now: Timestamp): (r: map<string, Session>)
    ensures r.Keys == sessions.Keys + {id}
    ensures id in sessions ==> r == sessions
    ensures id !in sessions ==> r[id].messages == [] && r[id].createdAt == now && r[id].lastActivity == now
    ensures forall k :: k in sessions && k != id ==> r[k] == sessions[k]
  {
    sessions[id := Lookup(sessions, id, now)]
  }

  /** The store after `add_message_to_session(id, m)`. */
  function AddMessage(sessions: map<string, Session>, id: string, m: MessageInput, now: Timestamp): (r: map<string, Session>)
    ensures r.Keys == sessions.Keys + {id}
    ensures r[id].messages == Appended(Lookup(sessions, id, now).messages, Stamp(m, now))
    ensures r[id].createdAt == Lookup(sessions, id, now).createdAt && r[id].lastActivity == now
    ensures forall k :: k in sessions && k != id ==> r[k] == sessions[k]
  {
    var s := Lookup(sessions, id, now);
    sessions[id := s.(messages := Trim(s.messages + [Stamp(m, now)]), lastActivity := now)]
  }

  /** The store after `add_message_to_session` is called once for each of `ms`, in order. */
  function AddMessages(sessions: map<string, Session>, id: string, ms: seq<MessageInput>, now: Timestamp): (r: map<string, Session>)
    ensures ms == [] ==> r == sessions
    ensures ms != [] ==> id in r && r[id].lastActivity == now && |r[id].messages| <= MaxHistory
    decreases |ms|
  {
    if ms == [] then sessions else AddMessages(AddMessage(sessions, id, ms[0], now), id, ms[1..], now)
  }

  /** The messages recorded for a sequence of inputs at time `now`. */
  function StampAll(ms: seq<MessageInput>, now: Timestamp): (r: seq<Message>)
    ensures |r| == |ms|
    ensures forall i :: 0 <= i < |ms| ==> r[i] == Stamp(ms[i], now)
  {
    if ms == [] then [] else [Stamp(ms[0], now)] + StampAll(ms[1..], now)
  }

  /** Every stored history respects the bound. */
  ghost predicate Bounded(sessions: map<string, Session>)
  {
    forall id :: id in sessions ==> |sessions[id].messages| <= MaxHistory
  }

  /** `get_session_context` is idempotent: a second call returns the same session and changes nothing. */
  lemma GetOrCreateIdempotent(sessions: map<string, Session>, id: string, now: Timestamp, later: Timestamp)
    ensures var after := GetOrCreate(sessions, id, now);
      GetOrCreate(after, id, later) == after && Lookup(after, id, later) == Lookup(sessions, id, now)
  {
  }

  /** One append sets the session's history to the trimmed old history plus the new message. */
  lemma AddMessageLookup(sessions: map<string, Session>, id: string, m: MessageInput, now: Timestamp)
    ensures Lookup(AddMessage(sessions, id, m, now), id, now).messages == Trim(Lookup(sessions, id, now).messages + [Stamp(m, now)])
  {
  }

  /**
   * A run of appends to one session leaves it holding the last `MaxHistory`
   * messages of its old history followed by the new ones.
   */
  lemma {:induction false} AddMessagesHistory(sessions: map<string, Session>, id: string, ms: seq<MessageInput>, now: Timestamp)
    requires ms != []
    ensures Lookup(AddMessages(sessions, id, ms, now), id, now).messages
            == Trim(Lookup(sessions, id, now).messages + StampAll(ms, now))
    decreases |ms|
  {
    var h := Lookup(sessions, id, now).messages;
    var once := AddMessage(sessions, id, ms[0], now);
    var m0 := Stamp(ms[0], now);
    var rest := StampAll(ms[1..], now);
    assert StampAll(ms, now) == [m0] + rest;
    if |ms| == 1 {
      AddMessageLookup(sessions, id, ms[0], now);
      assert rest == [];
    } else {
      calc {
        Lookup(AddMessages(sessions, id, ms, now), id, now).messages;
        Lookup(AddMessages(once, id, ms[1..], now), id, now).messages;
        { AddMessagesHistory(once, id, ms[1..], now); }
        Trim(Lookup(once, id, now).messages + rest);
        { AddMessageLookup(sessions, id, ms[0], now); }
        Trim(Trim(h + [m0]) + rest);
        { TrimConcat(h + [m0], rest); }
        Trim((h + [m0]) + rest);
        { assert (h + [m0]) + rest == h + StampAll(ms, now); }
        Trim(h + StampAll(ms, now));
      }
    }
  }

  /** A run of appends keeps the session's creation time and sets its last activity to now. */
  lemma {:induction false} AddMessagesTimes(sessions: map<string, Session>, id: string, ms: seq<MessageInput>, now: Timestamp)
    requires ms != []
    ensures id in AddMessages(sessions, id, ms, now)
    ensures AddMessages(sessions, id, ms, now)[id].createdAt == Lookup(sessions, id, now).createdAt
    ensures AddMessages(sessions, id, ms, now)[id].lastActivity == now
    decreases |ms|
  {
    if |ms| > 1 {
      AddMessagesTimes(AddMessage(sessions, id, ms[0], now), id, ms[1..], now);
    }
  }

  /** A run of appends to one session adds at most that key and leaves every other session as it was. */
  lemma {:induction false} AddMessagesFrame(sessions: map<string, Session>, id: string, ms: seq<MessageInput>, now: Timestamp)
    ensures var r := AddMessages(sessions, id, ms, now);
      && r.Keys == (if ms == [] then sessions.Keys else sessions.Keys + {id})
      && (forall k :: k in sessions && k != id ==> r[k] == sessions[k])
    decreases |ms|
  {
    if ms != [] {
      var once := AddMessage(sessions, id, ms[0], now);
      AddMessagesFrame(once, id, ms[1..], now);
    }
  }

  /** Two runs of appends to the same session make one run. */
  lemma {:induction false} AddMessagesConcat(sessions: map<string, Session>, id: string, a: seq<MessageInput>, b: seq<MessageInput>, now: Timestamp)
    ensures AddMessages(sessions, id, a + b, now) == AddMessages(AddMessages(sessions, id, a, now), id, b, now)
    decreases |a|
  {
    if a == [] {
      assert a + b == b;
    } else {
      assert (a + b)[0] == a[0] && (a + b)[1..] == a[1..] + b;
      AddMessagesConcat(AddMessage(sessions, id, a[0], now), id, a[1..], b, now);
    }
  }

  /** Creating the session first makes no difference to a run of appends. */
  lemma AddMessagesAfterCreate(sessions: map<string, Session>, id: string, ms: seq<MessageInput>, now: Timestamp)
    requires ms != []
    ensures AddMessages(GetOrCreate(sessions, id, now), id, ms, now) == AddMessages(sessions, id, ms, now)
  {
    var created := GetOrCreate(sessions, id, now);
    var s := Lookup(sessions, id, now);
    assert Lookup(created, id, now) == s;
    var updated := s.(messages := Trim(s.messages + [Stamp(ms[0], now)]), lastActivity := now);
    assert created[id := updated] == sessions[id := updated];
    assert AddMessage(created, id, ms[0], now) == AddMessage(sessions, id, ms[0], now);
  }

  /** A run of appends keeps every history within the bound. */
  lemma AddMessagesBounded(sessions: map<string, Session>, id: string, ms: seq<MessageInput>, now: Timestamp)
    requires Bounded(sessions)
    ensures Bounded(AddMessages(sessions, id, ms, now))
    decreases |ms|
  {
    if ms != [] {
      AddMessagesBounded(AddMessage(sessions, id, ms[0], now), id, ms[1..], now);
    }
  }

  /** The process-wide session store. */
  class SessionStore {
    var sessions: map<string, Session>

    ghost predicate Valid()
      reads this
    {
      Bounded(sessions)
    }

    constructor ()
      ensures Valid() && sessions == map[]
    {
      sessions := map[];
    }

    /** `get_session_context`: returns the session, creating an empty one if absent. */
    method GetSessionContext(id: string, now: Timestamp) returns (s: Session)
      requires Valid()
      modifies this
      ensures Valid()
      ensures s == Lookup(old(sessions), id, now)
      ensures sessions == GetOrCreate(old(sessions), id, now)
    {
      if id !in sessions {
        sessions := sessions[id := NewSession(now)];
      }
      s := sessions[id];
    }

    /** `add_message_to_session`: appends a stamped message and trims the history to the last ten. */
    method AddMessageToSession(id: string, m: MessageInput, now: Timestamp)
      requires Valid()
      modifies this
      ensures Valid()
      ensures sessions == AddMessage(old(sessions), id, m, now)
      ensures sessions[id].messages == Appended(Lookup(old(sessions), id, now).messages, Stamp(m, now))
      ensures forall k :: k in old(sessions) && k != id ==> k in sessions && sessions[k] == old(sessions)[k]
    {
      var context := GetSessionContext(id, now);
      var messages := context.messages + [Stamp(m, now)];
      messages := Trim(messages);
      sessions := sessions[id := context.(messages := messages, lastActivity := now)];
    }

    /** `get_session_info`: a read-only lookup that reports 404 for an unknown id. */
    method GetSessionInfo(id: string) returns (r: Result<Session, int>)
      ensures r.Ok? <==> id in sessions
      ensures r.Ok? ==> r.value == sessions[id]
      ensures r.Err? ==> r.error == 404
    {
      if id !in sessions {
        return Err(404);
      }
      return Ok(sessions[id]);
    }
  }
}
