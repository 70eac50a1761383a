/** The deferred write queue, as values: the pending batches keyed by request
    identity, what appending and flushing do to them, and the store calls a
    flush issues. The class in module Interface keeps a Pending value in its
    fields and is proved against these functions. */
module TaskQueue {
  import opened Types
  import opened Routing

  /** The three tag groups of one identity, `{"update": [], "insert": [], "global": []}`. */
  datatype Batch = Batch(update: seq<Task>, insert: seq<Task>, global: seq<Task>) {

    function Group(t: Tag): seq<Task>
    {
      match t
      case Update => update
      case Insert => insert
      case Global => global
    }

    /** Appends to exactly one group. */
    function Push(t: Tag, task: Task): (b: Batch)
      ensures b.Group(t) == Group(t) + [task]
      ensures forall u: Tag :: u != t ==> b.Group(u) == Group(u)
    {
      match t
      case Update => this.(update := update + [task])
      case Insert => this.(insert := insert + [task])
      case Global => this.(global := global + [task])
    }
  }

  const EmptyBatch := Batch([], [], [])

  /** The `_tasks` dict: its entries and the order in which its keys were
      inserted (Python dicts iterate in that order). */
  datatype Pending = Pending(tasks: map<int, Batch>, order: seq<int>)

  predicate Distinct(s: seq<int>)
  {
    forall i, j | 0 <= i < j < |s| :: s[i] != s[j]
  }

  /** The insertion order lists every key once and nothing else. */
  ghost predicate WellOrdered(p: Pending)
  {
    && Distinct(p.order)
    && (forall i | 0 <= i < |p.order| :: p.order[i] in p.tasks)
    && (forall id | id in p.tasks :: id in p.order)
  }

  /** `_id or ctx.message.id`: an absent or zero `_id` falls back to the
      context's message id. */
  function LockId(id: Option<int>, ctxMessageId: int): (k: int)
    ensures id.Some? && id.value != 0 ==> k == id.value
    ensures id.None? || id.value == 0 ==> k == ctxMessageId
  {
    if id.Some? && id.value != 0 then id.value else ctxMessageId
  }

  function BatchOf(p: Pending, id: int): Batch
  {
    if id in p.tasks then p.tasks[id] else EmptyBatch
  }

  /** append_task: the batch is created with three empty groups when the
      identity is new; the task then goes to the named group. An event that
      names no group raises KeyError after the batch was created, so the
      batch is left as found or as created. */
  function Append(p: Pending, id: int, event: string, task: Task): (q: Pending)
    ensures q.tasks.Keys == p.tasks.Keys + {id}
    ensures forall k | k in p.tasks && k != id :: q.tasks[k] == p.tasks[k]
    ensures forall t: Tag :: q.tasks[id].Group(t)
                             == (if TagOf(event) == Some(t) then BatchOf(p, id).Group(t) + [task] else BatchOf(p, id).Group(t))
    ensures q.order == if id in p.tasks then p.order else p.order + [id]
    ensures WellOrdered(p) ==> WellOrdered(q)
  {
    var before := BatchOf(p, id);
    var after := match TagOf(event) case Some(t) => before.Push(t, task) case None => before;
    Pending(p.tasks[id := after], if id in p.tasks then p.order else p.order + [id])
  }

  /** Appending a sequence of writes for one identity, in order. */
  function AppendAll(p: Pending, id: int, ws: seq<Write>): Pending
    decreases |ws|
  {
    if ws == [] then p
    else
      var w := ws[|ws| - 1];
      Append(AppendAll(p, id, ws[..|ws| - 1]), id, TagName(w.tag), w.task)
  }

  /** The tasks of a group among a sequence of writes, in order. */
  function Tagged(ws: seq<Write>, t: Tag): seq<Task>
  {
    if ws == [] then []
    else Tagged(ws[..|ws| - 1], t) + (if ws[|ws| - 1].tag == t then [ws[|ws| - 1].task] else [])
  }

  lemma {:induction false} AppendAllConcat(p: Pending, id: int, a: seq<Write>, b: seq<Write>)
    ensures AppendAll(AppendAll(p, id, a), id, b) == AppendAll(p, id, a + b)
    decreases |b|
  {
    if b == [] {
      assert a + b == a;
    } else {
      assert (a + b)[..|a + b| - 1] == a + b[..|b| - 1];
      AppendAllConcat(p, id, a, b[..|b| - 1]);
    }
  }

  /** Appending writes for one identity extends each of its groups by exactly
      the writes of that tag, in order. */
  lemma {:induction false} AppendAllGroups(p: Pending, id: int, ws: seq<Write>, t: Tag)
    ensures BatchOf(AppendAll(p, id, ws), id).Group(t) == BatchOf(p, id).Group(t) + Tagged(ws, t)
    decreases |ws|
  {
    if ws != [] {
      var init, w := ws[..|ws| - 1], ws[|ws| - 1];
      var mid := AppendAll(p, id, init);
      var extra := if w.tag == t then [w.task] else [];
      assert BatchOf(AppendAll(p, id, ws), id).Group(t) == BatchOf(mid, id).Group(t) + extra by {
        assert TagOf(TagName(w.tag)) == Some(w.tag);
        assert AppendAll(p, id, ws) == Append(mid, id, TagName(w.tag), w.task);
      }
      assert Tagged(ws, t) == Tagged(init, t) + extra;
      AppendAllGroups(p, id, init, t);
      Associative(BatchOf(p, id).Group(t), Tagged(init, t), extra);
    } else {
      assert BatchOf(p, id).Group(t) + Tagged(ws, t) == BatchOf(p, id).Group(t);
    }
  }

  /** ... and leaves every other identity as it was, keeping the insertion
      order well formed. */
  lemma {:induction false} AppendAllFrame(p: Pending, id: int, ws: seq<Write>)
    ensures var q := AppendAll(p, id, ws);
      && (ws != [] ==> q.tasks.Keys == p.tasks.Keys + {id})
      && (ws == [] ==> q == p)
      && (forall k | k in p.tasks && k != id :: k in q.tasks && q.tasks[k] == p.tasks[k])
      && (WellOrdered(p) ==> WellOrdered(q))
    decreases |ws|
  {
    if ws != [] {
      AppendAllFrame(p, id, ws[..|ws| - 1]);
    }
  }

  function Without(s: seq<int>, x: int): (r: seq<int>)
    ensures forall y :: y in r <==> y in s && y != x
  {
    if s == [] then []
    else if s[0] == x then Without(s[1..], x)
    else [s[0]] + Without(s[1..], x)
  }

  /** Removing `x` from a concatenation removes it from each part. */
  lemma {:induction false} WithoutConcat(a: seq<int>, b: seq<int>, x: int)
    ensures Without(a + b, x) == Without(a, x) + Without(b, x)
    decreases |a|
  {
    if a != [] {
      assert (a + b)[1..] == a[1..] + b;
      WithoutConcat(a[1..], b, x);
    } else {
      assert a + b == b;
    }
  }

  /** The identities other than the removed one keep their relative order:
      removing the single occurrence of `x` just closes the gap. */
  lemma {:induction false} WithoutKeepsOrder(a: seq<int>, b: seq<int>, x: int)
    requires x !in a && x !in b
    ensures Without(a + [x] + b, x) == a + b
  {
    WithoutAbsent(a, x);
    WithoutAbsent(b, x);
    WithoutConcat(a + [x], b, x);
    WithoutConcat(a, [x], x);
    assert Without([x], x) == [] by {
      assert [x][1..] == [];
    }
    assert Without(a + [x], x) == a;
  }

  lemma {:induction false} WithoutAbsent(s: seq<int>, x: int)
    requires x !in s
    ensures Without(s, x) == s
    decreases |s|
  {
    if s != [] {
      WithoutAbsent(s[1..], x);
      assert s == [s[0]] + s[1..];
    }
  }

  lemma {:induction false} WithoutDistinct(s: seq<int>, x: int)
    requires Distinct(s)
    ensures Distinct(Without(s, x))
  {
    if s != [] {
      assert Distinct(s[1..]) by {
        forall i, j | 0 <= i < j < |s[1..]| ensures s[1..][i] != s[1..][j] {
          assert s[1..][i] == s[i + 1] && s[1..][j] == s[j + 1];
        }
      }
      WithoutDistinct(s[1..], x);
      assert s[0] !in s[1..] by {
        forall j | 0 <= j < |s[1..]| ensures s[1..][j] != s[0] {
          assert s[1..][j] == s[j + 1];
        }
      }
    }
  }

  /** `del self._tasks[lock_id]`. */
  function Delete(p: Pending, id: int): (q: Pending)
    ensures q.tasks.Keys == p.tasks.Keys - {id}
    ensures forall k | k in q.tasks :: q.tasks[k] == p.tasks[k]
  {
    Pending(p.tasks - {id}, Without(p.order, id))
  }

  lemma DeleteWellOrdered(p: Pending, id: int)
    requires WellOrdered(p)
    ensures WellOrdered(Delete(p, id))
  {
    WithoutDistinct(p.order, id);
    var r := Without(p.order, id);
    forall i | 0 <= i < |r| ensures r[i] in p.tasks - {id} {
      assert r[i] in r;
    }
  }

  /** The three routes run_tasks gathers for one batch, in key order. Each
      group is routed to its own end; the flush succeeds when all three did. */
  function FlushBatch(b: Batch, fails: Call -> bool): Dispatch
  {
    var u := Route(TagName(Update), ListData(b.update), fails);
    var i := Route(TagName(Insert), ListData(b.insert), fails);
    var g := Route(TagName(Global), ListData(b.global), fails);
    Dispatch(u.calls + i.calls + g.calls, u.ok && i.ok && g.ok)
  }

  /** run_tasks' identity: `message_id` when it is not None (zero included),
      else the context's message id, else none at all. */
  function FlushId(messageId: Option<int>, ctxMessageId: Option<int>): Option<int>
  {
    if messageId.Some? then messageId else ctxMessageId
  }

  /** The state after a flush and the store calls it issued. */
  datatype Flushed = Flushed(after: Pending, calls: seq<Call>)

  /** run_tasks: nothing happens without an identity or without a batch for
      it; otherwise the batch is routed and deleted only if every group
      completed. */
  function RunTasksSpec(p: Pending, lock: Option<int>, fails: Call -> bool): Flushed
  {
    if lock.None? || lock.value !in p.tasks then Flushed(p, [])
    else
      var d := FlushBatch(p.tasks[lock.value], fails);
      Flushed(if d.ok then Delete(p, lock.value) else p, d.calls)
  }

  /** A successful flush removes the identity, so flushing it again issues no
      call and changes nothing; a failed flush keeps the batch for a retry. */
  lemma RunTasksOnce(p: Pending, lock: Option<int>, fails: Call -> bool, fails2: Call -> bool)
    requires lock.Some? && lock.value in p.tasks
    ensures var first := RunTasksSpec(p, lock, fails);
      && (FlushBatch(p.tasks[lock.value], fails).ok ==>
            lock.value !in first.after.tasks && RunTasksSpec(first.after, lock, fails2) == Flushed(first.after, []))
      && (!FlushBatch(p.tasks[lock.value], fails).ok ==> first.after == p)
  {
  }

  /** The update group of a flushed batch never reaches the store (it is
      routed as a list, and update needs a dict). With no failing store call,
      the flush issues one insert per lavalink insert pair and one publish
      per global entry, and nothing else. */
  lemma FlushBatchCalls(b: Batch, fails: Call -> bool)
    requires forall i | 0 <= i < |b.global| :: b.global[i].GlobalArgs?
    ensures var d := FlushBatch(b, fails);
      var ins := Route("insert", ListData(b.insert), fails);
      && d.calls == ins.calls + Route("global", ListData(b.global), fails).calls
      && (NoneFail(d.calls, fails) ==> d.ok && |d.calls| == |LavalinkPayloads(b.insert)| + |b.global|)
  {
    var d := FlushBatch(b, fails);
    var ins := Route("insert", ListData(b.insert), fails);
    var glob := Route("global", ListData(b.global), fails);
    RouteOtherwiseNothing("update", ListData(b.update), fails);
    InsertLoopCalls(b.insert, fails);
    if b.global != [] {
      GlobalRouteCalls(b.global, fails);
    }
    assert d.calls == ins.calls + glob.calls;
    NoneFailSplit(ins.calls, glob.calls, fails);
  }

  // Helper: splits a flush's calls so FlushBatchCalls stays cheap to prove.
  lemma NoneFailSplit(a: seq<Call>, b: seq<Call>, fails: Call -> bool)
    ensures NoneFail(a + b, fails) <==> NoneFail(a, fails) && NoneFail(b, fails)
  {
    assert forall i | 0 <= i < |a| :: (a + b)[i] == a[i];
    assert forall i | 0 <= i < |b| :: (a + b)[|a| + i] == b[i];
  }

  /** The tasks of one group across identities, concatenated in order. */
  function Concat(tasks: map<int, Batch>, ids: seq<int>, t: Tag): seq<Task>
    requires forall i | 0 <= i < |ids| :: ids[i] in tasks
  {
    if ids == [] then []
    else Concat(tasks, ids[..|ids| - 1], t) + tasks[ids[|ids| - 1]].Group(t)
  }

  /** A task is in the concatenation exactly when some listed identity holds
      it in that group. */
  lemma {:induction false} ConcatHolds(tasks: map<int, Batch>, ids: seq<int>, t: Tag, task: Task)
    requires forall i | 0 <= i < |ids| :: ids[i] in tasks
    ensures task in Concat(tasks, ids, t) <==> exists k | k in ids :: task in tasks[k].Group(t)
    decreases |ids|
  {
    if ids != [] {
      var init := ids[..|ids| - 1];
      var last := ids[|ids| - 1];
      ConcatHolds(tasks, init, t, task);
      assert forall k :: k in ids <==> k in init || k == last by {
        assert ids == init + [last];
      }
    }
  }

  /** The per-tag lists run_all_pending_tasks builds, concatenated across
      identities in insertion order, as one merged batch. */
  function Merged(p: Pending): Batch
    requires WellOrdered(p)
  {
    Batch(Concat(p.tasks, p.order, Update), Concat(p.tasks, p.order, Insert), Concat(p.tasks, p.order, Global))
  }

  /** run_all_pending_tasks: the map is emptied before the merged lists are
      routed, so it ends empty whether or not routing fails. */
  function RunAllSpec(p: Pending, fails: Call -> bool): (f: Flushed)
    requires WellOrdered(p)
    ensures f.after == Pending(map[], [])
  {
    Flushed(Pending(map[], []), FlushBatch(Merged(p), fails).calls)
  }

  /** Concatenating over two runs of identities is concatenating the two
      results. */
  lemma {:induction false} ConcatSplit(tasks: map<int, Batch>, a: seq<int>, b: seq<int>, t: Tag)
    requires forall i | 0 <= i < |a| :: a[i] in tasks
    requires forall i | 0 <= i < |b| :: b[i] in tasks
    ensures Concat(tasks, a + b, t) == Concat(tasks, a, t) + Concat(tasks, b, t)
    decreases |b|
  {
    if b == [] {
      assert a + b == a;
    } else {
      var ab, init, last := a + b, b[..|b| - 1], b[|b| - 1];
      assert ab[..|ab| - 1] == a + init && ab[|ab| - 1] == last;
      assert forall i | 0 <= i < |init| :: init[i] in tasks;
      ConcatSplit(tasks, a, init, t);
      var x, y, g := Concat(tasks, a, t), Concat(tasks, init, t), tasks[last].Group(t);
      assert Concat(tasks, ab, t) == (x + y) + g;
      assert Concat(tasks, b, t) == y + g;
      Associative(x, y, g);
    }
  }

  // Helper: sequence associativity, stated apart so the inductions that
  // use it stay cheap to prove.
  lemma Associative(x: seq<Task>, y: seq<Task>, z: seq<Task>)
    ensures (x + y) + z == x + (y + z)
  {
  }

  /** Every pending insert and publish is routed by the flush of all
      identities: the merged groups hold exactly the tasks of the batches,
      and each identity's group appears whole, once, at its identity's place
      in the insertion order, so a task held twice is routed twice. */
  lemma RunAllCarriesEveryTask(p: Pending, t: Tag, task: Task)
    requires WellOrdered(p)
    ensures task in Merged(p).Group(t) <==> exists k | k in p.tasks :: task in p.tasks[k].Group(t)
    ensures forall i | 0 <= i < |p.order| ::
      Merged(p).Group(t)
        == Concat(p.tasks, p.order[..i], t) + p.tasks[p.order[i]].Group(t) + Concat(p.tasks, p.order[i + 1..], t)
  {
    ConcatHolds(p.tasks, p.order, t, task);
    forall i | 0 <= i < |p.order|
      ensures Merged(p).Group(t)
        == Concat(p.tasks, p.order[..i], t) + p.tasks[p.order[i]].Group(t) + Concat(p.tasks, p.order[i + 1..], t)
    {
      ConcatAround(p.tasks, p.order, i, t);
    }
  }

  /** The concatenation over `ids` is that over the identities before
      position `i`, then the group at `i`, then that over the ones after. */
  lemma ConcatAround(tasks: map<int, Batch>, ids: seq<int>, i: nat, t: Tag)
    requires forall k | 0 <= k < |ids| :: ids[k] in tasks
    requires i < |ids|
    ensures Concat(tasks, ids, t)
      == Concat(tasks, ids[..i], t) + tasks[ids[i]].Group(t) + Concat(tasks, ids[i + 1..], t)
  {
    assert ids == ids[..i] + [ids[i]] + ids[i + 1..];
    ConcatSplit(tasks, ids[..i] + [ids[i]], ids[i + 1..], t);
    ConcatSplit(tasks, ids[..i], [ids[i]], t);
    assert [ids[i]][..0] == [];
  }

  // ---- run_all_pending_tasks as written ----------------------------------
  // The source appends each identity's list to the per-tag list instead of
  // extending it, so each route receives a list of lists.

  /** The per-tag list as written: one inner list per identity. */
  function Nested(tasks: map<int, Batch>, ids: seq<int>, t: Tag): (r: seq<seq<Task>>)
    requires forall i | 0 <= i < |ids| :: ids[i] in tasks
    ensures |r| == |ids|
    ensures forall i | 0 <= i < |ids| :: r[i] == tasks[ids[i]].Group(t)
  {
    seq(|ids|, i requires 0 <= i < |ids| => tasks[ids[i]].Group(t))
  }

  /** route_tasks applied to a list of lists: for "insert" each inner list
      must unpack into `(table, d)`, which works only for two entries and
      then binds a task tuple, never the string "lavalink", to `table`; for
      "global" `**d` on a list raises; "update" needs a dict. */
  function RouteNested(action: string, data: seq<seq<Task>>): Dispatch
  {
    if data == [] then Done
    else if action == "insert" then Dispatch([], forall i | 0 <= i < |data| :: |data[i]| == 2)
    else if action == "global" then Dispatch([], false)
    else Done
  }

  function RunAllAsWritten(p: Pending): Dispatch
    requires WellOrdered(p)
  {
    var u := RouteNested(TagName(Update), Nested(p.tasks, p.order, Update));
    var i := RouteNested(TagName(Insert), Nested(p.tasks, p.order, Insert));
    var g := RouteNested(TagName(Global), Nested(p.tasks, p.order, Global));
    Dispatch(u.calls + i.calls + g.calls, u.ok && i.ok && g.ok)
  }

  /** As written, flushing all identities never reaches a store: whenever
      anything is pending the gather raises, and the writes are already gone
      from the map. */
  lemma RunAllAsWrittenDropsWrites(p: Pending)
    requires WellOrdered(p)
    ensures RunAllAsWritten(p).calls == []
    ensures p.tasks != map[] ==> !RunAllAsWritten(p).ok
  {
    if p.order == [] {
      assert forall k :: k !in p.tasks;
      assert p.tasks == map[];
    }
  }

  /** With one identity pending, the merged batch is that identity's batch. */
  lemma SingleBatch(b: Batch, id: int)
    ensures WellOrdered(Pending(map[id := b], [id]))
    ensures Merged(Pending(map[id := b], [id])) == b
  {
    var ids := [id];
    assert ids[..0] == [];
    forall t: Tag ensures Concat(map[id := b], ids, t) == b.Group(t) {
      assert Concat(map[id := b], ids, t) == Concat(map[id := b], ids[..0], t) + b.Group(t);
    }
  }

  /** One identity holding one insert: the corrected flush inserts its row,
      the flush as written issues no call at all. */
  lemma RunAllAsWrittenCounterexample(row: Row, fails: Call -> bool)
    requires !fails(InsertCall(Rows([row])))
    ensures var p := Pending(map[7 := Batch([], [Pair(Lavalink, Rows([row]))], [])], [7]);
      && WellOrdered(p)
      && RunAllSpec(p, fails).calls == [InsertCall(Rows([row]))]
      && RunAllAsWritten(p) == Dispatch([], false)
  {
    var p := Pending(map[7 := Batch([], [Pair(Lavalink, Rows([row]))], [])], [7]);
    var items := [Pair(Lavalink, Rows([row]))];
    SingleBatch(p.tasks[7], 7);
    assert RunAllSpec(p, fails).calls == [InsertCall(Rows([row]))] by {
      assert items[1..] == [];
      assert InsertLoop(items, fails) == Dispatch([InsertCall(Rows([row]))], true);
    }
    assert RunAllAsWritten(p) == Dispatch([], false) by {
      assert Nested(p.tasks, p.order, Insert) == [items];
      assert Nested(p.tasks, p.order, Global) == [[]];
    }
  }
}
