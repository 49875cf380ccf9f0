/** The dashboard database: one sequence of rows per table, in insertion
    order, each table keyed by a primary key that no two rows share. */
module Store {
  import opened Common
  import opened Records

  /** No two rows of `s` have the same primary key. */
  ghost predicate UniqueKeys<T>(s: seq<T>, key: T -> string) {
    forall i, j :: 0 <= i < j < |s| ==> key(s[i]) != key(s[j])
  }

  /** `SELECT ... WHERE id = k` followed by `scalar_one_or_none()`: the
      position of the row with primary key `k`, if there is one. */
  function Find<T>(s: seq<T>, key: T -> string, k: string): (r: Option<nat>)
    ensures r.Some? ==> r.value < |s| && key(s[r.value]) == k
    ensures r.None? <==> forall i :: 0 <= i < |s| ==> key(s[i]) != k
    ensures r.Some? ==> forall i :: 0 <= i < r.value ==> key(s[i]) != k
  {
    if s == [] then None
    else if key(s[0]) == k then Some(0)
    else
      match Find(s[1..], key, k)
      case None => None
      case Some(i) => Some(i + 1)
  }

  /** In a table with unique keys, looking up a row's own key finds that row. */
  lemma FindOwnKey<T>(s: seq<T>, key: T -> string, i: nat)
    requires UniqueKeys(s, key)
    requires i < |s|
    ensures Find(s, key, key(s[i])) == Some(i)
  {
  }

  /** The table without the row at position `i` (an ORM delete). */
  function RemoveAt<T>(s: seq<T>, i: nat): (r: seq<T>)
    requires i < |s|
    ensures |r| == |s| - 1
    ensures forall j :: 0 <= j < i ==> r[j] == s[j]
    ensures forall j :: i <= j < |r| ==> r[j] == s[j + 1]
  {
    s[..i] + s[i + 1..]
  }

  /** Deleting a row keeps the keys unique, and its key is no longer found;
      every other key still is. */
  lemma {:induction false} RemoveAtForgetsKey<T>(s: seq<T>, key: T -> string, i: nat)
    requires UniqueKeys(s, key)
    requires i < |s|
    ensures UniqueKeys(RemoveAt(s, i), key)
    ensures Find(RemoveAt(s, i), key, key(s[i])).None?
    ensures forall j :: 0 <= j < |s| && j != i ==> Find(RemoveAt(s, i), key, key(s[j])).Some?
  {
    var r := RemoveAt(s, i);
    forall a, b | 0 <= a < b < |r| ensures key(r[a]) != key(r[b]) {
      var a', b' := if a < i then a else a + 1, if b < i then b else b + 1;
      assert r[a] == s[a'] && r[b] == s[b'];
    }
    forall j | 0 <= j < |r| ensures key(r[j]) != key(s[i]) {
      var j' := if j < i then j else j + 1;
      assert r[j] == s[j'];
    }
    forall j | 0 <= j < |s| && j != i ensures Find(r, key, key(s[j])).Some? {
      var j' := if j < i then j else j - 1;
      assert r[j'] == s[j];
    }
  }

  /** Deleting one row leaves every other key where a lookup finds the
      same row as before. */
  lemma RemoveAtKeepsOthers<T>(s: seq<T>, key: T -> string, i: nat, k: string)
    requires UniqueKeys(s, key)
    requires i < |s| && k != key(s[i])
    ensures Find(RemoveAt(s, i), key, k).None? <==> Find(s, key, k).None?
    ensures Find(s, key, k).Some? ==> RemoveAt(s, i)[Find(RemoveAt(s, i), key, k).value] == s[Find(s, key, k).value]
  {
    var r := RemoveAt(s, i);
    match Find(s, key, k)
    case None =>
      forall j | 0 <= j < |r| ensures key(r[j]) != k {
        assert r[j] == s[if j < i then j else j + 1];
      }
    case Some(n) =>
      var m := if n < i then n else n - 1;
      assert r[m] == s[n];
      RemoveAtForgetsKey(s, key, i);
      FindOwnKey(r, key, m);
  }

  /** An INSERT of a row whose key is not yet taken keeps the keys unique. */
  lemma AppendFreshKey<T>(s: seq<T>, key: T -> string, x: T)
    requires UniqueKeys(s, key)
    requires Find(s, key, key(x)).None?
    ensures UniqueKeys(s + [x], key)
  {
  }

  /** Rewriting a row without changing its key keeps the keys unique. */
  lemma ReplaceSameKey<T>(s: seq<T>, key: T -> string, i: nat, x: T)
    requires UniqueKeys(s, key)
    requires i < |s| && key(x) == key(s[i])
    ensures UniqueKeys(s[i := x], key)
  {
  }

  /** The integer row id SQLite gives the next log entry: one more than the
      largest id in the table, 1 for an empty table. */
  function NextLogId(logs: seq<LogEntry>): (n: int)
    ensures forall l :: l in logs ==> l.id < n
    ensures logs == [] ==> n == 1
    ensures logs != [] ==> exists l :: l in logs && l.id == n - 1
  {
    if logs == [] then 1
    else if |logs| == 1 then logs[0].id + 1
    else
      var rest := NextLogId(logs[1..]);
      assert forall l :: l in logs ==> l == logs[0] || l in logs[1..];
      if logs[0].id + 1 > rest then logs[0].id + 1 else rest
  }

  ghost predicate UniqueLogIds(logs: seq<LogEntry>) {
    forall i, j :: 0 <= i < j < |logs| ==> logs[i].id != logs[j].id
  }

  class Database {
    var sessions: seq<Session>
    var agents: seq<Agent>
    var tasks: seq<Task>
    var messages: seq<Message>
    var pullRequests: seq<PullRequest>
    var logs: seq<LogEntry>

    /** The primary keys of the tables the backend writes are unique. */
    ghost predicate Valid()
      reads this
    {
      && UniqueKeys(sessions, SessionKey)
      && UniqueKeys(agents, AgentKey)
      && UniqueKeys(tasks, TaskKey)
      && UniqueLogIds(logs)
    }

    /** A freshly created database (`init_db`): every table empty. */
    constructor ()
      ensures Valid()
      ensures sessions == [] && agents == [] && tasks == []
      ensures messages == [] && pullRequests == [] && logs == []
    {
      sessions, agents, tasks := [], [], [];
      messages, pullRequests, logs := [], [], [];
    }
  }
}
