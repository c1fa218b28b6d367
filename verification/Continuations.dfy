/** Where task descriptors are. A continuation is a unique pointer to a descriptor; it moves between
    running slots, deques, root slots, joiner slots, suspended-thread objects and local variables. */
module Continuations {

  type Task = nat
  type Worker = nat

  datatype Place =
    | Running(w: Worker)      // cur_tk_
    | Deque(w: Worker)        // the top is the end
    | Root(w: Worker)         // root_cont_
    | Joiner(t: Task)         // the joiner kept in t's descriptor
    | Suspended(i: nat)       // cont_ of suspended-thread object i
    | Hand(w: Worker)         // next_cont, popped but not yet switched to
    | Prev(w: Worker)         // prev_cont in a callback after the switch
    | Gone                    // descriptors of tasks that left their stack for good

  type Lists = map<Place, seq<Task>>

  function At(l: Lists, p: Place): seq<Task>
  {
    if p in l then l[p] else []
  }

  predicate Holds(l: Lists, at: map<Task, Place>)
  {
    forall p, i :: p in l && 0 <= i < |l[p]| ==> l[p][i] in at && at[l[p][i]] == p
  }

  predicate Distinct(l: Lists)
  {
    forall p, i, j :: p in l && 0 <= i < j < |l[p]| ==> l[p][i] != l[p][j]
  }

  predicate Found(l: Lists, at: map<Task, Place>)
  {
    forall t :: t in at ==> t in At(l, at[t])
  }

  /** Every list holds exactly the tasks placed there, each once. */
  predicate Placed(l: Lists, at: map<Task, Place>)
  {
    Holds(l, at) && Distinct(l) && Found(l, at)
  }

  function Last(s: seq<Task>): Task
    requires s != []
  {
    s[|s| - 1]
  }

  /** Deques hold any number of tasks, and so does the collection of those gone; every other place is one
      unique pointer. */
  predicate Many(p: Place)
  {
    p.Deque? || p.Gone?
  }

  /** Stores t in q. A pointer that was there is overwritten, and its task lost. */
  function Put(l: Lists, q: Place, t: Task): Lists
  {
    if Many(q) then l[q := At(l, q) + [t]] else l[q := [t]]
  }

  predicate Vacant(l: Lists, q: Place)
  {
    Many(q) || At(l, q) == []
  }

  /** A pointer holds at most one task. */
  predicate Single(l: Lists)
  {
    forall p :: p in l && !Many(p) ==> |l[p]| <= 1
  }

  /** Moves the last of p to q. */
  function Shift(l: Lists, p: Place, q: Place): Lists
  {
    var s := At(l, p);
    if s == [] then l else Put(l[p := s[..|s| - 1]], q, Last(s))
  }

  /** Moves the first of p to q. */
  function ShiftFirst(l: Lists, p: Place, q: Place): Lists
  {
    var s := At(l, p);
    if s == [] then l else Put(l[p := s[1..]], q, s[0])
  }

  function Append(l: Lists, q: Place, t: Task): Lists
  {
    l[q := At(l, q) + [t]]
  }

  /** Storing in a vacant place loses nothing. */
  lemma PutInVacant(l: Lists, q: Place, t: Task)
    requires Vacant(l, q)
    ensures Put(l, q, t) == Append(l, q, t)
  {
    assert [] + [t] == [t];
  }

  function Skip(k: nat, i: nat): nat
  {
    if k < i then k else k + 1
  }

  function Without(s: seq<Task>, i: nat): (s': seq<Task>)
    requires i < |s|
    ensures |s'| == |s| - 1 && forall k :: 0 <= k < |s'| ==> s'[k] == s[Skip(k, i)]
  {
    s[..i] + s[i + 1..]
  }

  lemma DropDistinct(l: Lists, p: Place, i: nat)
    requires Distinct(l) && i < |At(l, p)|
    ensures Distinct(l[p := Without(l[p], i)])
  {
    hide Without;
    var s' := Without(l[p], i);
    forall k, m | 0 <= k < m < |s'| ensures s'[k] != s'[m] {
      assert s'[k] == l[p][Skip(k, i)] && s'[m] == l[p][Skip(m, i)];
    }
  }

  lemma DropHolds(l: Lists, at: map<Task, Place>, p: Place, i: nat)
    requires Holds(l, at) && Distinct(l) && i < |At(l, p)|
    ensures Holds(l[p := Without(l[p], i)], at - {l[p][i]})
  {
    hide Without;
    var s, s' := l[p], Without(l[p], i);
    forall k | 0 <= k < |s'| ensures s'[k] in at && at[s'[k]] == p && s'[k] != s[i] {
      assert s'[k] == s[Skip(k, i)];
    }
  }

  lemma DropFound(l: Lists, at: map<Task, Place>, p: Place, i: nat)
    requires Found(l, at) && i < |At(l, p)|
    ensures Found(l[p := Without(l[p], i)], at - {l[p][i]})
  {
    hide Without;
    var s, s' := l[p], Without(l[p], i);
    forall t | t in s && t != s[i] ensures t in s' {
      var j :| 0 <= j < |s| && s[j] == t;
      var k := if j < i then j else j - 1;
      assert Skip(k, i) == j && s'[k] == t;
    }
  }

  /** Taking out one of a list. */
  lemma Drop(l: Lists, at: map<Task, Place>, p: Place, i: nat)
    requires Placed(l, at) && i < |At(l, p)|
    ensures var s := l[p]; s[i] in at && Placed(l[p := Without(s, i)], at - {s[i]})
  {
    assert l[p][i] in at;
    hide Without, Holds, Distinct, Found;
    DropDistinct(l, p, i);
    DropHolds(l, at, p, i);
    DropFound(l, at, p, i);
  }

  lemma AppendFound(l: Lists, at: map<Task, Place>, q: Place, t: Task)
    requires Found(l, at) && t !in at
    ensures Found(Append(l, q, t), at[t := q])
  {
    var s := At(l, q) + [t];
    assert s[|s| - 1] == t;
    forall u | u in At(l, q) ensures u in s {
      var j :| 0 <= j < |At(l, q)| && At(l, q)[j] == u;
      assert s[j] == u;
    }
  }

  lemma AppendPlaced(l: Lists, at: map<Task, Place>, q: Place, t: Task)
    requires Placed(l, at) && t !in at
    ensures Placed(Append(l, q, t), at[t := q])
  {
    hide Found;
    AppendFound(l, at, q, t);
    var l' := Append(l, q, t);
    forall i, j | 0 <= i < j < |l'[q]| ensures l'[q][i] != l'[q][j] {
      assert At(l, q)[i] in at;
    }
  }

  lemma ShiftPlaced(l: Lists, at: map<Task, Place>, p: Place, q: Place)
    requires Placed(l, at) && At(l, p) != [] && p != q && Vacant(l, q)
    ensures Last(l[p]) in at && Placed(Shift(l, p, q), at[Last(l[p]) := q])
  {
    hide Placed;
    var s := l[p];
    var i := |s| - 1;
    Drop(l, at, p, i);
    assert Without(s, i) == s[..i];
    PutInVacant(l[p := s[..i]], q, s[i]);
    AppendPlaced(l[p := s[..i]], at - {s[i]}, q, s[i]);
    assert (at - {s[i]})[s[i] := q] == at[s[i] := q];
  }

  lemma ShiftFirstPlaced(l: Lists, at: map<Task, Place>, p: Place, q: Place)
    requires Placed(l, at) && At(l, p) != [] && p != q && Vacant(l, q)
    ensures l[p][0] in at && Placed(ShiftFirst(l, p, q), at[l[p][0] := q])
  {
    hide Placed;
    var s := l[p];
    Drop(l, at, p, 0);
    assert Without(s, 0) == s[1..];
    PutInVacant(l[p := s[1..]], q, s[0]);
    AppendPlaced(l[p := s[1..]], at - {s[0]}, q, s[0]);
    assert (at - {s[0]})[s[0] := q] == at[s[0] := q];
  }

  /** A list holds a task exactly when the task is placed there. */
  lemma InPlace(l: Lists, at: map<Task, Place>, t: Task, p: Place)
    requires Placed(l, at)
    ensures t in At(l, p) <==> t in at && at[t] == p
  {
    if t in At(l, p) {
      var i :| 0 <= i < |l[p]| && l[p][i] == t;
    }
  }
}
