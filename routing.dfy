/** `route_tasks`: sends one group of deferred writes to the store it belongs
    to. Store calls may raise; which ones do is given by the oracle `fails`. */
module Routing {
  import opened Types

  /** The `data` argument: a list, or a dict (seen through its keys). */
  datatype RouteData = ListData(items: seq<Task>) | DictData(keys: seq<Task>)

  /** The calls issued, in order, and whether the routing finished without an
      exception. */
  datatype Dispatch = Dispatch(calls: seq<Call>, ok: bool)

  const Done := Dispatch([], true)

  predicate IsEmpty(data: RouteData)
  {
    match data
    case ListData(items) => items == []
    case DictData(keys) => keys == []
  }

  /** Sequential calls: `c` first, then `rest` unless `c` raised. */
  function Then(c: Call, rest: Dispatch, fails: Call -> bool): Dispatch
  {
    if fails(c) then Dispatch([c], false) else Dispatch([c] + rest.calls, rest.ok)
  }

  /** `for table, d in data: if table == "lavalink": insert(d)`. A mapping in
      the list iterates as its two keys, so its "table" is "llresponse". */
  function InsertLoop(items: seq<Task>, fails: Call -> bool): Dispatch
  {
    if items == [] then Done
    else
      var rest := InsertLoop(items[1..], fails);
      match items[0]
      case Pair(table, d) => if table == Lavalink then Then(InsertCall(d), rest, fails) else rest
      case GlobalArgs(_, _) => rest
  }

  /** `for table, d in data: if table == "lavalink": update(data)` over the
      keys of a dict; each matching key passes the whole dict. */
  function UpdateLoop(keys: seq<Task>, whole: seq<Task>, fails: Call -> bool): Dispatch
  {
    if keys == [] then Done
    else
      var rest := UpdateLoop(keys[1..], whole, fails);
      if keys[0].Pair? && keys[0].table == Lavalink then Then(UpdateCall(whole), rest, fails) else rest
  }

  /** `gather(*[update_global(**d) for d in data])`: a pair is not a mapping,
      so `**d` raises before any call is made; otherwise every call is made and
      the gather fails when one of them raised. */
  function GlobalGather(items: seq<Task>, fails: Call -> bool): Dispatch
  {
    if exists i | 0 <= i < |items| :: items[i].Pair? then Dispatch([], false)
    else
      var calls := GlobalCalls(items);
      Dispatch(calls, forall i | 0 <= i < |calls| :: !fails(calls[i]))
  }

  function GlobalCalls(items: seq<Task>): (calls: seq<Call>)
    requires forall i | 0 <= i < |items| :: items[i].GlobalArgs?
    ensures |calls| == |items|
    ensures forall i | 0 <= i < |items| :: calls[i] == UpdateGlobalCall(items[i].llresponse, items[i].query)
  {
    seq(|items|, i requires 0 <= i < |items| => UpdateGlobalCall(items[i].llresponse, items[i].query))
  }

  /** route_tasks(action_type, data). */
  function Route(action: string, data: RouteData, fails: Call -> bool): Dispatch
  {
    if IsEmpty(data) then Done
    else if action == "insert" && data.ListData? then InsertLoop(data.items, fails)
    else if action == "update" && data.DictData? then UpdateLoop(data.keys, data.keys, fails)
    else if action == "global" && data.ListData? then GlobalGather(data.items, fails)
    else Done
  }

  /** The payloads of the `("lavalink", d)` pairs of a list, in order. */
  function LavalinkPayloads(items: seq<Task>): seq<Payload>
  {
    if items == [] then []
    else if items[0].Pair? && items[0].table == Lavalink then [items[0].payload] + LavalinkPayloads(items[1..])
    else LavalinkPayloads(items[1..])
  }

  predicate NoneFail(calls: seq<Call>, fails: Call -> bool)
  {
    forall i | 0 <= i < |calls| :: !fails(calls[i])
  }

  /** Routing a list as "insert" issues exactly one insert per lavalink pair,
      in order, when no store call raises; when one raises, it is the last
      call made and all calls before it are inserts of the leading pairs. */
  lemma {:induction false} InsertLoopCalls(items: seq<Task>, fails: Call -> bool)
    ensures var d := InsertLoop(items, fails);
      var ps := LavalinkPayloads(items);
      && |d.calls| <= |ps|
      && (forall i | 0 <= i < |d.calls| :: d.calls[i] == InsertCall(ps[i]))
      && (d.ok <==> NoneFail(d.calls, fails) && |d.calls| == |ps|)
      && (!d.ok ==> |d.calls| > 0 && fails(d.calls[|d.calls| - 1]))
  {
    if items != [] {
      InsertLoopCalls(items[1..], fails);
      var rest := InsertLoop(items[1..], fails);
      if items[0].Pair? && items[0].table == Lavalink {
        var c := InsertCall(items[0].payload);
        if !fails(c) {
          var all := [c] + rest.calls;
          assert InsertLoop(items, fails) == Dispatch(all, rest.ok);
          assert LavalinkPayloads(items) == [items[0].payload] + LavalinkPayloads(items[1..]);
          assert NoneFail(all, fails) <==> NoneFail(rest.calls, fails) by {
            assert forall i | 0 <= i < |rest.calls| :: all[i + 1] == rest.calls[i];
          }
        } else {
          assert InsertLoop(items, fails).calls == [c];
          assert !NoneFail([c], fails) by { assert [c][0] == c; }
        }
      }
    }
  }

  /** Every combination other than a non-empty insert/global list or a
      non-empty update dict dispatches nothing; in particular a list routed as
      "update" never reaches the store. */
  lemma RouteOtherwiseNothing(action: string, data: RouteData, fails: Call -> bool)
    requires IsEmpty(data)
      || (action == "update" && data.ListData?)
      || (action != "update" && data.DictData?)
      || (action != "insert" && action != "update" && action != "global")
    ensures Route(action, data, fails) == Done
  {
  }

  /** A global group of publish arguments issues one update_global per entry,
      in order; a group holding anything else issues none and raises. */
  lemma GlobalRouteCalls(items: seq<Task>, fails: Call -> bool)
    requires items != []
    ensures var d := Route("global", ListData(items), fails);
      && ((forall i | 0 <= i < |items| :: items[i].GlobalArgs?) ==>
            |d.calls| == |items| && d.ok == NoneFail(d.calls, fails)
            && forall i | 0 <= i < |items| :: d.calls[i] == UpdateGlobalCall(items[i].llresponse, items[i].query))
      && ((exists i | 0 <= i < |items| :: items[i].Pair?) ==> d == Dispatch([], false))
  {
  }

  /** The method the interface awaits: the same routing, written as the loops
      of the source. */
  method RouteTasks(action: string, data: RouteData, fails: Call -> bool) returns (calls: seq<Call>, ok: bool)
    ensures Dispatch(calls, ok) == Route(action, data, fails)
  {
    calls, ok := [], true;
    if IsEmpty(data) {
      return;
    }
    if action == "insert" && data.ListData? {
      var items := data.items;
      var i := 0;
      while i < |items| && ok
        invariant 0 <= i <= |items|
        invariant InsertLoop(items, fails) ==
          if ok then Dispatch(calls + InsertLoop(items[i..], fails).calls, InsertLoop(items[i..], fails).ok)
          else Dispatch(calls, false)
      {
        assert items[i..][1..] == items[i + 1..];
        if items[i].Pair? && items[i].table == Lavalink {
          var c := InsertCall(items[i].payload);
          calls := calls + [c];
          ok := !fails(c);
        }
        i := i + 1;
      }
      assert ok ==> items[i..] == [];
    } else if action == "update" && data.DictData? {
      var keys := data.keys;
      var i := 0;
      while i < |keys| && ok
        invariant 0 <= i <= |keys|
        invariant UpdateLoop(keys, keys, fails) ==
          if ok then Dispatch(calls + UpdateLoop(keys[i..], keys, fails).calls, UpdateLoop(keys[i..], keys, fails).ok)
          else Dispatch(calls, false)
      {
        assert keys[i..][1..] == keys[i + 1..];
        if keys[i].Pair? && keys[i].table == Lavalink {
          var c := UpdateCall(keys);
          calls := calls + [c];
          ok := !fails(c);
        }
        i := i + 1;
      }
      assert ok ==> keys[i..] == [];
    } else if action == "global" && data.ListData? {
      var items := data.items;
      // Building the argument list: `**d` on a pair raises at once.
      var i := 0;
      while i < |items|
        invariant 0 <= i <= |items|
        invariant forall j | 0 <= j < i :: items[j].GlobalArgs?
      {
        if items[i].Pair? {
          return [], false;
        }
        i := i + 1;
      }
      // Every coroutine of the gather runs; the gather raises if any did.
      i := 0;
      while i < |items|
        invariant 0 <= i <= |items|
        invariant |calls| == i
        invariant forall j | 0 <= j < i :: calls[j] == UpdateGlobalCall(items[j].llresponse, items[j].query)
        invariant ok == NoneFail(calls, fails)
      {
        var c := UpdateGlobalCall(items[i].llresponse, items[i].query);
        calls := calls + [c];
        ok := ok && !fails(c);
        i := i + 1;
      }
    }
  }
}
