/** The process-wide registry of cluster-shell sessions. */
module ShellRegistry {

  datatype SessionRecord = SessionRecord(id: string, actor: string, cluster: string)

  type Sessions = map<string, SessionRecord>

  /** Whose sessions a cap counts. */
  datatype Who = User(actor: string) | Cluster(name: string)

  predicate Belongs(actor: string, cluster: string, who: Who) {
    match who
    case User(a) => actor == a
    case Cluster(c) => cluster == c
  }

  function Registered(m: Sessions, who: Who): set<string> {
    set id | id in m && Belongs(m[id].actor, m[id].cluster, who)
  }

  class Registry {
    var sessions: Sessions

    constructor ()
      ensures sessions == map[]
    {
      sessions := map[];
    }

    method Add(s: SessionRecord) returns (added: bool)
      modifies this
      ensures added == (s.id !in old(sessions))
      ensures sessions == if added then old(sessions)[s.id := s] else old(sessions)
    {
      if s.id in sessions {
        return false;
      }
      sessions := sessions[s.id := s];
      return true;
    }

    method Remove(id: string)
      modifies this
      ensures sessions == old(sessions) - {id}
    {
      sessions := sessions - {id};
    }

    method CountForActor(actor: string) returns (n: nat)
      ensures n == |Registered(sessions, User(actor))|
      ensures n == |set id | id in sessions && sessions[id].actor == actor|
    {
      n := 0;
      var todo := sessions.Keys;
      ghost var counted: set<string> := {};
      while todo != {}
        invariant todo <= sessions.Keys
        invariant counted == (set id | id in sessions && id !in todo && sessions[id].actor == actor)
        invariant n == |counted|
      {
        var id :| id in todo;
        todo := todo - {id};
        if sessions[id].actor == actor {
          n := n + 1;
          counted := counted + {id};
        }
      }
      assert counted == Registered(sessions, User(actor)) == set id | id in sessions && sessions[id].actor == actor;
    }

    method CountForCluster(cluster: string) returns (n: nat)
      ensures n == |Registered(sessions, Cluster(cluster))|
      ensures n == |set id | id in sessions && sessions[id].cluster == cluster|
    {
      n := 0;
      var todo := sessions.Keys;
      ghost var counted: set<string> := {};
      while todo != {}
        invariant todo <= sessions.Keys
        invariant counted == (set id | id in sessions && id !in todo && sessions[id].cluster == cluster)
        invariant n == |counted|
      {
        var id :| id in todo;
        todo := todo - {id};
        if sessions[id].cluster == cluster {
          n := n + 1;
          counted := counted + {id};
        }
      }
      assert counted == Registered(sessions, Cluster(cluster));
      assert counted == set id | id in sessions && sessions[id].cluster == cluster;
    }
  }
}
