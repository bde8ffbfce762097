/** Which browser clients watch which sessions, indexed both ways. */
module WatchRegistry {
  import opened Prelude

  /** A session id; the empty text stands for every value JavaScript takes as false. */
  datatype Session = Session(id: string)

  datatype Client = Client(number: nat)

  /** The two maps list the same pairs, and neither lists an empty set. */
  ghost predicate Inverse(bySession: map<Session, set<Client>>, byClient: map<Client, set<Session>>) {
    && (forall s :: s in bySession ==> bySession[s] != {})
    && (forall c :: c in byClient ==> byClient[c] != {})
    && (forall s, c :: Lists(bySession, s, c) <==> Lists(byClient, c, s))
  }

  predicate Lists<K, V>(m: map<K, set<V>>, k: K, v: V) {
    k in m && v in m[k]
  }

  ghost function Pairs(bySession: map<Session, set<Client>>): iset<(Session, Client)> {
    iset s, c | Lists(bySession, s, c) :: (s, c)
  }

  class SessionWatchRegistry {
    var watchersBySession: map<Session, set<Client>>
    var sessionsByClient: map<Client, set<Session>>

    ghost predicate Valid()
      reads this
    {
      Inverse(watchersBySession, sessionsByClient)
    }

    /** The registry as a plain set of (session, client) pairs. */
    ghost function View(): iset<(Session, Client)>
      reads this
    {
      Pairs(watchersBySession)
    }

    constructor ()
      ensures Valid() && View() == iset{}
    {
      watchersBySession, sessionsByClient := map[], map[];
    }

    method Watch(session: Session, client: Option<Client>)
      requires Valid()
      modifies this
      ensures Valid()
      ensures View() == if session.id == "" || client.None? then old(View())
                        else old(View()) + iset{(session, client.value)}
    {
      if session.id == "" || client.None? {
        return;
      }
      var c := client.value;
      AddedListsOnePair(watchersBySession, session, c);
      AddedListsOnePair(sessionsByClient, c, session);
      watchersBySession := Added(watchersBySession, session, c);
      sessionsByClient := Added(sessionsByClient, c, session);
    }

    method Unwatch(session: Session, client: Option<Client>)
      requires Valid()
      modifies this
      ensures Valid()
      ensures View() == if session.id == "" || client.None? then old(View())
                        else old(View()) - iset{(session, client.value)}
    {
      if session.id == "" || client.None? {
        return;
      }
      var c := client.value;
      RemovedDeletesOnePair(watchersBySession, session, c);
      RemovedDeletesOnePair(sessionsByClient, c, session);
      watchersBySession := Removed(watchersBySession, session, c);
      sessionsByClient := Removed(sessionsByClient, c, session);
    }

    method RemoveClient(client: Client)
      requires Valid()
      modifies this
      ensures Valid()
      ensures View() == old(View()) - (iset s, c | c == client && (s, c) in old(View()) :: (s, c))
      ensures client !in sessionsByClient
    {
      if client !in sessionsByClient {
        return;
      }
      var pending := sessionsByClient[client];
      ghost var before := watchersBySession;
      while pending != {}
        invariant client in sessionsByClient && sessionsByClient == old(sessionsByClient)
        invariant pending <= sessionsByClient[client]
        invariant forall s :: s in watchersBySession ==> watchersBySession[s] != {}
        invariant forall s, c :: Lists(watchersBySession, s, c) <==>
                                 Lists(before, s, c) && (c != client || s in pending)
        decreases pending
      {
        var session :| session in pending;
        pending := pending - {session};
        RemovedDeletesOnePair(watchersBySession, session, client);
        watchersBySession := Removed(watchersBySession, session, client);
      }
      sessionsByClient := sessionsByClient - {client};
    }

    method GetWatchers(session: Session) returns (watchers: set<Client>)
      requires Valid()
      ensures forall c :: c in watchers <==> (session, c) in View()
      ensures watchers == {} <==> session !in watchersBySession
    {
      watchers := if session in watchersBySession then watchersBySession[session] else {};
    }
  }

  /** Puts `v` into the set under `k`, making the set first if it is missing. */
  function Added<K, V>(m: map<K, set<V>>, k: K, v: V): map<K, set<V>> {
    var listed := if k in m then m[k] else {};
    m[k := listed + {v}]
  }

  lemma {:induction false} AddedListsOnePair<K(!new), V(!new)>(m: map<K, set<V>>, k: K, v: V)
    ensures forall j, w :: Lists(Added(m, k, v), j, w) <==> Lists(m, j, w) || (j == k && w == v)
    ensures (forall j :: j in m ==> m[j] != {}) ==> forall j :: j in Added(m, k, v) ==> Added(m, k, v)[j] != {}
  {
    assert v in Added(m, k, v)[k];
  }

  /** Deletes `v` from the set under `k`, and the entry once its set is empty. */
  function Removed<K, V>(m: map<K, set<V>>, k: K, v: V): map<K, set<V>> {
    if k !in m then m
    else if m[k] - {v} == {} then m - {k}
    else m[k := m[k] - {v}]
  }

  lemma {:induction false} RemovedDeletesOnePair<K(!new), V(!new)>(m: map<K, set<V>>, k: K, v: V)
    ensures forall j, w :: Lists(Removed(m, k, v), j, w) <==> Lists(m, j, w) && (j != k || w != v)
    ensures (forall j :: j in m ==> m[j] != {}) ==> forall j :: j in Removed(m, k, v) ==> Removed(m, k, v)[j] != {}
  {
    if k in m && m[k] - {v} == {} {
      forall w | w in m[k] ensures w == v {
        assert w !in m[k] - {v};
      }
    }
  }

  /** The registry holds nothing beyond its pairs: two registries with the same pairs
      have the same maps. */
  lemma {:induction false} PairsDetermineTheMaps(bySession1: map<Session, set<Client>>, byClient1: map<Client,
        set<Session>>,
        bySession2: map<Session, set<Client>>, byClient2: map<Client, set<Session>>)
    requires Inverse(bySession1, byClient1) && Inverse(bySession2, byClient2)
    requires Pairs(bySession1) == Pairs(bySession2)
    ensures bySession1 == bySession2 && byClient1 == byClient2
  {
    forall s, c ensures Lists(bySession1, s, c) <==> Lists(bySession2, s, c) {
      assert (s, c) in Pairs(bySession1) <==> (s, c) in Pairs(bySession2);
    }
    SameSets(bySession1, bySession2);
    forall c, s ensures Lists(byClient1, c, s) <==> Lists(byClient2, c, s) {
      assert Lists(bySession1, s, c) <==> Lists(bySession2, s, c);
    }
    SameSets(byClient1, byClient2);
  }

  lemma {:induction false} SameSets<K(!new), V(!new)>(a: map<K, set<V>>, b: map<K, set<V>>)
    requires forall k, v :: Lists(a, k, v) <==> Lists(b, k, v)
    requires forall k :: k in a ==> a[k] != {}
    requires forall k :: k in b ==> b[k] != {}
    ensures a == b
  {
    forall k | k in a ensures k in b && a[k] == b[k] {
      var v :| v in a[k];
      assert Lists(a, k, v);
      forall w ensures w in a[k] <==> w in b[k] {
        assert Lists(a, k, w) <==> Lists(b, k, w);
      }
    }
    forall k | k in b ensures k in a {
      var v :| v in b[k];
      assert Lists(b, k, v);
    }
  }
}
