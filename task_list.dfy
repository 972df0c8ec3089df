/**
 * The task collection as a value, and the whole-list transformations the
 * client applies to it: normalising the list response, keeping the tasks a
 * criterion selects (the delete step and the visible-list derivation),
 * replacing the task with a given `_id`, and the status toggle.
 */
module TaskList {
  import opened JsValues

  /** One to-do item; `id` is the server-assigned `_id`. Status and priority
      stay raw strings, because the client compares them as strings. */
  datatype Task = Task(id: string, text: string, status: string, priority: string)

  /** The status every new task is created with, and the one the toggle targets. */
  const Pending := "pending"
  const Completed := "completed"
  /** The priority every new task is created with. */
  const Medium := "medium"
  /** The filter value that lets every status or priority through. */
  const All := "all"

  // ---------------------------------------------------------------------
  // Subsequences

  /** `xs` can be obtained from `ys` by deleting elements, keeping the order. */
  predicate IsSubsequence<T(==)>(xs: seq<T>, ys: seq<T>)
    decreases |ys|
  {
    xs == [] ||
    (ys != [] &&
      ((xs[0] == ys[0] && IsSubsequence(xs[1..], ys[1..])) || IsSubsequence(xs, ys[1..])))
  }

  // ---------------------------------------------------------------------
  // Filtering

  /** The two predicates the client passes to `Array.prototype.filter`. */
  datatype Keep =
    | ByFilters(status: string, priority: string)  // the visible-list derivation
    | OtherThan(id: string)                        // the delete step

  /** A task passes the status filter and the priority filter. */
  predicate Shown(t: Task, statusFilter: string, priorityFilter: string) {
    (statusFilter == All || t.status == statusFilter) &&
    (priorityFilter == All || t.priority == priorityFilter)
  }

  predicate Keeps(k: Keep, t: Task) {
    match k
    case ByFilters(s, p) => Shown(t, s, p)
    case OtherThan(id) => t.id != id
  }

  /** A stable filter: the tasks `k` keeps, in their original order. */
  function Filter(k: Keep, ts: seq<Task>): (r: seq<Task>)
    ensures |r| <= |ts|
    ensures forall t :: t in r <==> t in ts && Keeps(k, t)
  {
    if ts == [] then []
    else if Keeps(k, ts[0]) then [ts[0]] + Filter(k, ts[1..])
    else Filter(k, ts[1..])
  }

  /** Filtering keeps the relative order of the tasks it keeps. */
  lemma {:induction false} FilterIsSubsequence(k: Keep, ts: seq<Task>)
    ensures IsSubsequence(Filter(k, ts), ts)
  {
    if ts != [] {
      FilterIsSubsequence(k, ts[1..]);
      var r := Filter(k, ts);
      if Keeps(k, ts[0]) {
        assert r[0] == ts[0] && r[1..] == Filter(k, ts[1..]);
      }
    }
  }

  /** Filtering keeps every occurrence of a kept task and drops every other one. */
  lemma {:induction false} FilterCount(k: Keep, ts: seq<Task>)
    ensures forall t :: multiset(Filter(k, ts))[t] == if Keeps(k, t) then multiset(ts)[t] else 0
  {
    if ts != [] {
      FilterCount(k, ts[1..]);
      assert ts == [ts[0]] + ts[1..];
      assert multiset(ts) == multiset{ts[0]} + multiset(ts[1..]);
      if Keeps(k, ts[0]) {
        assert multiset(Filter(k, ts)) == multiset{ts[0]} + multiset(Filter(k, ts[1..]));
      }
    }
  }

  /** Filtering a concatenation filters each part. */
  lemma {:induction false} FilterConcat(k: Keep, a: seq<Task>, b: seq<Task>)
    ensures Filter(k, a + b) == Filter(k, a) + Filter(k, b)
  {
    if a != [] {
      assert (a + b)[0] == a[0];
      assert (a + b)[1..] == a[1..] + b;
      FilterConcat(k, a[1..], b);
    } else {
      assert a + b == b;
    }
  }

  /** A filter that keeps every task returns the collection unchanged. */
  lemma {:induction false} FilterKeepsAll(k: Keep, ts: seq<Task>)
    requires forall t :: t in ts ==> Keeps(k, t)
    ensures Filter(k, ts) == ts
  {
    if ts != [] {
      FilterKeepsAll(k, ts[1..]);
      assert [ts[0]] + ts[1..] == ts;
    }
  }

  // ---------------------------------------------------------------------
  // The visible list (`filteredTasks`)

  /** The tasks shown for the current filter selection. */
  function Visible(ts: seq<Task>, statusFilter: string, priorityFilter: string): (r: seq<Task>)
    ensures IsSubsequence(r, ts)
    ensures forall t :: t in r <==> t in ts && Shown(t, statusFilter, priorityFilter)
    ensures forall t :: multiset(r)[t] == if Shown(t, statusFilter, priorityFilter) then multiset(ts)[t] else 0
  {
    var k := ByFilters(statusFilter, priorityFilter);
    FilterIsSubsequence(k, ts);
    FilterCount(k, ts);
    Filter(k, ts)
  }

  /** With both selections at "all", every task is visible, in order. */
  lemma {:induction false} VisibleAllIsEverything(ts: seq<Task>)
    ensures Visible(ts, All, All) == ts
  {
    FilterKeepsAll(ByFilters(All, All), ts);
  }

  /** A task appended to the collection shows at the end of the visible list
      exactly when it passes both filters. */
  lemma VisibleAppend(ts: seq<Task>, t: Task, statusFilter: string, priorityFilter: string)
    ensures Visible(ts + [t], statusFilter, priorityFilter) ==
            Visible(ts, statusFilter, priorityFilter) + (if Shown(t, statusFilter, priorityFilter) then [t] else [])
  {
    var k := ByFilters(statusFilter, priorityFilter);
    FilterConcat(k, ts, [t]);
    assert [t][1..] == [];
  }

  // ---------------------------------------------------------------------
  // Delete (`tasks.filter(task => task._id !== id)`)

  /** The collection without the tasks whose `_id` is `id`. */
  function Without(ts: seq<Task>, id: string): (r: seq<Task>)
    ensures IsSubsequence(r, ts)
    ensures forall t :: t in r ==> t.id != id
    ensures forall t: Task :: t.id != id ==> multiset(r)[t] == multiset(ts)[t]
  {
    var k := OtherThan(id);
    FilterIsSubsequence(k, ts);
    FilterCount(k, ts);
    Filter(k, ts)
  }

  /** Deleting the same id twice is the same as deleting it once. */
  lemma WithoutIdempotent(ts: seq<Task>, id: string)
    ensures Without(Without(ts, id), id) == Without(ts, id)
  {
    FilterKeepsAll(OtherThan(id), Without(ts, id));
  }

  /** Deleting the id of a task just appended undoes the append. */
  lemma WithoutUndoesAppend(ts: seq<Task>, t: Task)
    ensures Without(ts + [t], t.id) == Without(ts, t.id)
  {
    FilterConcat(OtherThan(t.id), ts, [t]);
    assert Filter(OtherThan(t.id), [t]) == [];
  }

  // ---------------------------------------------------------------------
  // Replace (`tasks.map(task => task._id === id ? updated : task)`)

  /** Every task whose `_id` is `id` replaced by `u`. */
  function ReplaceById(ts: seq<Task>, id: string, u: Task): (r: seq<Task>)
    ensures |r| == |ts|
    ensures forall i :: 0 <= i < |ts| ==> r[i] == if ts[i].id == id then u else ts[i]
  {
    if ts == [] then []
    else [if ts[0].id == id then u else ts[0]] + ReplaceById(ts[1..], id, u)
  }

  /** When no task carries the id, the collection is unchanged. */
  lemma {:induction false} ReplaceAbsent(ts: seq<Task>, id: string, u: Task)
    requires forall t :: t in ts ==> t.id != id
    ensures ReplaceById(ts, id, u) == ts
  {
    if ts != [] {
      ReplaceAbsent(ts[1..], id, u);
      assert [ts[0]] + ts[1..] == ts;
    }
  }

  /** A replacement that keeps the id is forgotten by a later delete of that id. */
  lemma {:induction false} ReplaceThenWithout(ts: seq<Task>, id: string, u: Task)
    requires u.id == id
    ensures Without(ReplaceById(ts, id, u), id) == Without(ts, id)
  {
    if ts != [] {
      ReplaceThenWithout(ts[1..], id, u);
      var r := ReplaceById(ts, id, u);
      assert r[1..] == ReplaceById(ts[1..], id, u);
      assert Without(r, id) == Filter(OtherThan(id), r);
    }
  }

  // ---------------------------------------------------------------------
  // Status toggle

  /** The status a click on the toggle asks for: "pending" becomes
      "completed", anything else becomes "pending". */
  function Toggle(status: string): (r: string)
    ensures r == Completed || r == Pending
    ensures r != status
    ensures r == Completed <==> status == Pending
  {
    if status == Pending then Completed else Pending
  }

  /** Toggling twice gives back the original value exactly for the two known statuses. */
  lemma ToggleTwice(status: string)
    ensures Toggle(Toggle(status)) == status <==> status == Pending || status == Completed
  {
  }

  /** A server that echoes the requested status, asked twice for the task at
      position `i` (the only one with its id), leaves the collection as it was. */
  lemma ToggleTaskTwice(ts: seq<Task>, i: nat)
    requires i < |ts|
    requires ts[i].status == Pending || ts[i].status == Completed
    requires forall j :: 0 <= j < |ts| && ts[j].id == ts[i].id ==> j == i
    ensures var t := ts[i];
            var once := ReplaceById(ts, t.id, t.(status := Toggle(t.status)));
            var twice := ReplaceById(once, t.id, once[i].(status := Toggle(once[i].status)));
            once[i].status != t.status && twice == ts
  {
    var t := ts[i];
    var once := ReplaceById(ts, t.id, t.(status := Toggle(t.status)));
    var twice := ReplaceById(once, t.id, once[i].(status := Toggle(once[i].status)));
    ToggleTwice(t.status);
    forall j | 0 <= j < |ts|
      ensures twice[j] == ts[j]
    {
      if j != i {
        assert ts[j].id != t.id;
      }
    }
  }

  // ---------------------------------------------------------------------
  // Response normalisation (`Array.isArray(data) ? data : data.tasks || []`)

  /** The decoded body of the list response. */
  datatype ListReply =
    | ArrayReply(items: seq<Task>)           // a bare array
    | ObjectReply(tasks: Option<seq<Task>>)  // any other non-null value; `tasks` absent or falsy is None
    | NullReply                              // `null`: reading `data.tasks` throws

  /** The collection a list response stands for; None when reading it throws. */
  function Normalize(reply: ListReply): (r: Option<seq<Task>>)
    ensures r.None? <==> reply.NullReply?
    ensures reply.ArrayReply? ==> r == Some(reply.items)
    ensures reply.ObjectReply? && reply.tasks.Some? ==> r == Some(reply.tasks.value)
    ensures reply.ObjectReply? && reply.tasks.None? ==> r == Some([])
  {
    match reply
    case ArrayReply(items) => Some(items)
    case ObjectReply(tasks) => if tasks.Some? then Some(tasks.value) else Some([])
    case NullReply => None
  }

  /** Either envelope around a collection normalises back to that collection. */
  lemma NormalizeEnvelopes(ts: seq<Task>)
    ensures Normalize(ArrayReply(ts)) == Normalize(ObjectReply(Some(ts))) == Some(ts)
  {
  }
}
