/**
  The server-side session records and the in-memory store that holds them.

  The functions over `Sessions` say what one store call does to the map; the class is the
  mutable store itself, proved against them. SessionProtocol interleaves the same functions.
  */
module SessionStore {
  import opened Wrappers

  type SessionId = string

  // Instants and durations are integer nanoseconds.
  type Time = int

  datatype Session = Session(
    id: SessionId,
    subject: string,
    email: string,
    groups: seq<string>,
    accessToken: string,
    refreshToken: string,
    idToken: string,
    accessExpiry: Time,
    absoluteExpiry: Time,
    lastActivity: Time
  )

  datatype Identity = Identity(subject: string, email: string, groups: seq<string>)

  function ToIdentity(s: Session): Identity {
    Identity(s.subject, s.email, s.groups)
  }

  type Sessions = map<SessionId, Session>

  function Lookup(m: Sessions, id: SessionId): Option<Session> {
    if id in m then Some(m[id]) else None
  }

  function Created(m: Sessions, s: Session): Sessions {
    m[s.id := s]
  }

  /** An update of a vanished session leaves the map alone (ErrNotFound). */
  function Updated(m: Sessions, s: Session): Sessions {
    if s.id in m then m[s.id := s] else m
  }

  function Deleted(m: Sessions, id: SessionId): Sessions {
    m - {id}
  }

  function Swept(m: Sessions, now: Time): Sessions {
    map id | id in m && now <= m[id].absoluteExpiry :: m[id]
  }

  class MemoryStore {
    var sessions: Sessions

    constructor ()
      ensures sessions == map[]
    {
      sessions := map[];
    }

    method Create(s: Session)
      modifies this
      ensures sessions == Created(old(sessions), s) == old(sessions)[s.id := s]
    {
      sessions := sessions[s.id := s];
    }

    method Get(id: SessionId) returns (s: Option<Session>)
      ensures s == Lookup(sessions, id) == if id in sessions then Some(sessions[id]) else None
    {
      if id in sessions {
        return Some(sessions[id]);
      }
      return None;
    }

    method Update(s: Session) returns (ok: bool)
      modifies this
      ensures ok <==> s.id in old(sessions)
      ensures sessions == Updated(old(sessions), s) == if ok then old(sessions)[s.id := s] else old(sessions)
    {
      if s.id !in sessions {
        return false;
      }
      sessions := sessions[s.id := s];
      return true;
    }

    method Delete(id: SessionId)
      modifies this
      ensures sessions == Deleted(old(sessions), id) == old(sessions) - {id}
    {
      sessions := sessions - {id};
    }

    /** Walks the map in any order and drops what is past its absolute expiry. */
    method Cleanup(now: Time)
      modifies this
      ensures sessions == Swept(old(sessions), now)
      ensures sessions == map id | id in old(sessions) && now <= old(sessions)[id].absoluteExpiry :: old(sessions)[id]
    {
      var pending := sessions.Keys;
      while pending != {}
        invariant pending <= old(sessions).Keys
        invariant sessions == map id | id in old(sessions) &&
                                       (id in pending || now <= old(sessions)[id].absoluteExpiry)
                                  :: old(sessions)[id]
        decreases pending
      {
        var id :| id in pending;
        if now > sessions[id].absoluteExpiry {
          sessions := sessions - {id};
        }
        pending := pending - {id};
      }
    }
  }
}
