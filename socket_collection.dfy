/** The result of one poll: a set of (connection, status) entries with at most one entry
    per connection. The unordered_set is modelled as a sequence kept free of duplicate
    connections, in insertion order. */
module SocketCollection {
  import opened Sockets

  /** The three ways a polled socket can be ready. */
  datatype SocketStatus = Normal | Disconnect | Error

  datatype Entry = Entry(connection: Connection, status: SocketStatus)

  /** operator==: two entries are equal when they hold the same connection. */
  predicate SameEntry(a: Entry, b: Entry) {
    a.connection == b.connection
  }

  /** SocketCollectionEntry_hash: the hash of the connection's descriptor. */
  function Hash(e: Entry): int {
    e.connection.descriptor
  }

  /** The hash agrees with equality, so the set is well formed whatever the statuses. */
  lemma HashConsistent(a: Entry, b: Entry)
    requires SameEntry(a, b)
    ensures Hash(a) == Hash(b)
  {
  }

  /** Some entry of `coll` holds connection `c`. */
  predicate Contains(coll: seq<Entry>, c: Connection) {
    exists i :: 0 <= i < |coll| && coll[i].connection == c
  }

  /** No two entries hold the same connection. */
  predicate Unique(coll: seq<Entry>) {
    forall i, j :: 0 <= i < j < |coll| ==> coll[i].connection != coll[j].connection
  }

  /** The connections held by the first `n` entries. */
  ghost function Connections(coll: seq<Entry>, n: nat): set<Connection>
    requires n <= |coll|
  {
    set i | 0 <= i < n :: coll[i].connection
  }

  /** A duplicate-free collection holds as many distinct connections as it has entries. */
  lemma {:induction false} UniqueConnections(coll: seq<Entry>, n: nat)
    requires n <= |coll| && Unique(coll)
    ensures |Connections(coll, n)| == n
  {
    if n > 0 {
      UniqueConnections(coll, n - 1);
      assert Connections(coll, n) == Connections(coll, n - 1) + {coll[n - 1].connection};
      assert coll[n - 1].connection !in Connections(coll, n - 1);
    }
  }

  /** unordered_set::insert: adds `e` unless an equal entry is present, in which case
      the entry already there is kept. */
  function Insert(coll: seq<Entry>, e: Entry): (r: seq<Entry>)
    ensures coll <= r && |r| <= |coll| + 1 && Contains(r, e.connection)
    ensures forall i :: |coll| <= i < |r| ==> r[i] == e
    ensures Unique(coll) ==> Unique(r)
    ensures Contains(coll, e.connection) ==> r == coll
  {
    if exists i :: 0 <= i < |coll| && coll[i].connection == e.connection then
      coll
    else
      var r := coll + [e];
      assert r[|coll|] == e;
      r
  }
}
