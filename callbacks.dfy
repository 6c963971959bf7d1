/** The pending-callback registry: `_callbacks` maps a resource id to the
    function to run once that resource is done. Creating a scan or a report
    registers; a done notification pops and invokes. This module states the
    registry's behaviour on values; the client classes hold the state and are
    proved against it. */
module Callbacks {
  import opened Json
  import opened Resources
  import opened Requests
  import Errors

  /** A done-callback. `token` tells callbacks apart in the invocation log;
      `parameters` is the number of parameters its signature declares. */
  datatype Callback = Callback(token: nat, parameters: nat)

  /** How a callback is called: the current client inspects its signature,
      the older variant always passes the notification. */
  datatype CallStyle = BySignature | WithNotification

  /** One call of a callback, for the resource it was registered under. */
  datatype Invocation = Invocation(resourceId: string, callback: Callback, argument: Option<Notification>)

  /** The argument a callback is called with. */
  function Argument(style: CallStyle, cb: Callback, n: Notification): (a: Option<Notification>)
    ensures a.Some? ==> a.value == n
    ensures style == WithNotification ==> a == Some(n)
    ensures style == BySignature ==> (a.Some? <==> cb.parameters > 0)
  {
    if style == WithNotification || cb.parameters > 0 then Some(n) else None
  }

  /** The registry, and the invocations made so far. */
  datatype Registry = Registry(callbacks: map<string, Callback>, fired: seq<Invocation>)

  /** `if done_callback: self._callbacks[id] = done_callback`. */
  function Register(cbs: map<string, Callback>, id: string, cb: Option<Callback>): (r: map<string, Callback>)
    ensures cb.None? ==> r == cbs
    ensures cb.Some? ==> r.Keys == cbs.Keys + {id} && r[id] == cb.value
    ensures forall k :: k in cbs && k != id ==> k in r && r[k] == cbs[k]
  {
    if cb.Some? then cbs[id := cb.value] else cbs
  }

  /** `_execute_callback(id, n)`: an id with no entry changes nothing; a
      registered id is popped and its callback invoked once, every other
      entry staying as it was. */
  function Resolve(r: Registry, id: string, n: Notification, style: CallStyle): (s: Registry)
    ensures id !in r.callbacks ==> s == r
    ensures id in r.callbacks ==> s.callbacks.Keys == r.callbacks.Keys - {id}
    ensures forall k :: k in s.callbacks ==> k in r.callbacks && s.callbacks[k] == r.callbacks[k]
    ensures id in r.callbacks ==> s.fired == r.fired + [Invocation(id, r.callbacks[id], Argument(style, r.callbacks[id], n))]
  {
    if id !in r.callbacks then r
    else
      var cb := r.callbacks[id];
      Registry(r.callbacks - {id}, r.fired + [Invocation(id, cb, Argument(style, cb, n))])
  }

  /** Registering last wins: a second registration under the same id
      replaces the first. */
  lemma RegisterTwiceLastWins(cbs: map<string, Callback>, id: string, a: Callback, b: Callback)
    ensures Register(Register(cbs, id, Some(a)), id, Some(b)) == Register(cbs, id, Some(b))
  {
  }

  /** A callback registered under an id is the one a done notification for
      that id invokes, and the registry is back to what it was without it. */
  lemma RegisterThenResolve(cbs: map<string, Callback>, fired: seq<Invocation>, cb: Callback, n: Notification, style: CallStyle)
    requires n.resourceId !in cbs
    ensures Resolve(Registry(Register(cbs, n.resourceId, Some(cb)), fired), n.resourceId, n, style)
      == Registry(cbs, fired + [Invocation(n.resourceId, cb, Argument(style, cb, n))])
  {
    assert Register(cbs, n.resourceId, Some(cb)) - {n.resourceId} == cbs;
  }

  /** What one fetched notification asks of the poller: the notification to
      resolve when its type is a done status, and the id to consume. */
  datatype Step = Step(resolve: Option<Notification>, consumeId: string)

  /** `type_id in SCAN_DONE_STATUS + REPORT_DONE_STATUS`, the done statuses
      given as a set; a Python bool compares equal to 0 or 1. */
  predicate TypeIdIn(v: Value, done: set<int>) {
    match v
    case Int(i) => i in done
    case Bool(b) => (if b then 1 else 0) in done
    case _ => false
  }

  /** `str()` of a consume id, as the f-string formats it: a string as
      itself, an int in decimal, `True`, `False` and `None`. A list or a
      dict would be formatted through its repr, which this model does not
      write out, so it is refused. */
  function FormatId(v: Value): (r: Result<string>)
    ensures r.Fail? <==> v.Array? || v.Object?
    ensures v.Str? ==> r == Ok(v.s)
    ensures v.Int? ==> r.Ok? && Errors.ReadInt(r.value) == Some((v.i, []))
    ensures v.Bool? ==> r == Ok(if v.b then "True" else "False")
    ensures v.Null? ==> r == Ok("None")
  {
    match v
    case Str(s) => Ok(s)
    case Int(n) =>
      Errors.ReadIntText(n, []);
      assert Errors.IntText(n) + [] == Errors.IntText(n);
      Ok(Errors.IntText(n))
    case Bool(b) => Ok(if b then "True" else "False")
    case Null => Ok("None")
    case _ => Fail(TypeError("consume id is a container"))
  }

  /** The dictionary accesses the poller makes on one item, in order:
      `notification_id` (for the log), `type_id`, and for a done type
      `resource_id` and the Notification record; then the consume id. */
  function ItemStep(item: Value, done: set<int>): (r: Result<Step>)
    ensures r.Ok? ==> item.Object? && "notification_id" in item.fields && "type_id" in item.fields
    ensures r.Ok? ==> FormatId(item.fields["notification_id"]) == Ok(r.value.consumeId)
    ensures r.Ok? ==> (r.value.resolve.Some? <==> TypeIdIn(item.fields["type_id"], done))
    ensures r.Ok? && r.value.resolve.Some? ==> DecodeNotification(item) == Ok(r.value.resolve.value)
    ensures item.Object? && "notification_id" !in item.fields ==> r == Fail(KeyError("notification_id"))
    ensures item.Object? && "notification_id" in item.fields && "type_id" !in item.fields ==> r == Fail(KeyError("type_id"))
  {
    if !item.Object? then Fail(TypeError("notification is not a dict"))
    else if "notification_id" !in item.fields then Fail(KeyError("notification_id"))
    else if "type_id" !in item.fields then Fail(KeyError("type_id"))
    else
      var resolve :- if TypeIdIn(item.fields["type_id"], done) then
          if "resource_id" !in item.fields then Fail(KeyError("resource_id"))
          else
            var n :- DecodeNotification(item);
            Ok(Some(n))
        else Ok(None);
      var id :- FormatId(item.fields["notification_id"]);
      Ok(Step(resolve, id))
  }

  /** A notification of a type that is not done, whose id is an int, is
      consumed under the decimal text of that id. */
  lemma IntIdConsumed(n: int, t: int, done: set<int>)
    requires t !in done
    ensures ItemStep(Object(map["notification_id" := Int(n), "type_id" := Int(t)]), done) == Ok(Step(None, Errors.IntText(n)))
  {
    var item := Object(map["notification_id" := Int(n), "type_id" := Int(t)]);
    assert item.fields["notification_id"] == Int(n);
    assert item.fields["type_id"] == Int(t);
  }

  /** One handled notification: resolved when it asks to be. */
  function Handle(r: Registry, s: Step, style: CallStyle): Registry {
    if s.resolve.Some? then Resolve(r, s.resolve.value.resourceId, s.resolve.value, style) else r
  }

  /** The registry after a batch has been worked through, step by step. */
  function Run(r: Registry, steps: seq<Step>, style: CallStyle): Registry
    decreases |steps|
  {
    if steps == [] then r
    else Handle(Run(r, steps[..|steps| - 1], style), steps[|steps| - 1], style)
  }

  /** One more step resolves its notification, if it has one, on top of
      the earlier steps. */
  lemma RunSnoc(r: Registry, steps: seq<Step>, s: Step, style: CallStyle)
    ensures Run(r, steps + [s], style) == Handle(Run(r, steps, style), s, style)
  {
    assert (steps + [s])[..|steps|] == steps;
  }

  /** The resource ids a batch asks to resolve. */
  function ResolvedIds(steps: seq<Step>): set<string>
    decreases |steps|
  {
    if steps == [] then {}
    else
      var last := steps[|steps| - 1];
      ResolvedIds(steps[..|steps| - 1]) + (if last.resolve.Some? then {last.resolve.value.resourceId} else {})
  }

  /** The resource ids of a run of invocations. */
  function FiredIds(invs: seq<Invocation>): set<string> {
    set k | 0 <= k < |invs| :: invs[k].resourceId
  }

  lemma FiredIdsSnoc(invs: seq<Invocation>, x: Invocation)
    ensures FiredIds(invs + [x]) == FiredIds(invs) + {x.resourceId}
  {
    var a := invs + [x];
    forall id | id in FiredIds(a)
      ensures id in FiredIds(invs) + {x.resourceId}
    {
      var k :| 0 <= k < |a| && a[k].resourceId == id;
      if k < |invs| {
        assert invs[k] == a[k];
      }
    }
    forall id | id in FiredIds(invs)
      ensures id in FiredIds(a)
    {
      var k :| 0 <= k < |invs| && invs[k].resourceId == id;
      assert a[k] == invs[k];
    }
    assert a[|invs|] == x;
  }

  /** `f"notifications/{notification_id}/consume"`. */
  function ConsumePath(id: string): string {
    "notifications/" + id + "/consume"
  }

  /** The consume requests for a batch: one POST without a body per step,
      in the order of the steps. */
  function Consumes(endpoint: string, steps: seq<Step>): (rs: seq<Request>)
    ensures |rs| == |steps|
    ensures forall k :: 0 <= k < |steps| ==> rs[k] == Request(POST, Url(endpoint, ConsumePath(steps[k].consumeId)), None)
  {
    seq(|steps|, k requires 0 <= k < |steps| => Request(POST, Url(endpoint, ConsumePath(steps[k].consumeId)), None))
  }

  /** One more step adds its consume request at the end of a request log. */
  lemma ConsumesSnoc(log: seq<Request>, endpoint: string, steps: seq<Step>, s: Step)
    ensures log + Consumes(endpoint, steps + [s]) == log + Consumes(endpoint, steps) + [Request(POST, Url(endpoint, ConsumePath(s.consumeId)), None)]
  {
    assert Consumes(endpoint, steps + [s]) == Consumes(endpoint, steps) + [Request(POST, Url(endpoint, ConsumePath(s.consumeId)), None)];
  }

  /** After a batch the registry has lost exactly the ids the batch resolved;
      invocations were only appended; each one is for an id that was
      registered before the batch, with the callback registered under it,
      no two for the same id, and together they cover exactly the
      registered ids the batch resolved. */
  lemma {:induction false} RunShape(r: Registry, steps: seq<Step>, style: CallStyle)
    ensures var s := Run(r, steps, style);
      && s.callbacks == r.callbacks - ResolvedIds(steps)
      && |s.fired| >= |r.fired| && s.fired[..|r.fired|] == r.fired
      && (forall k :: |r.fired| <= k < |s.fired| ==>
            s.fired[k].resourceId in r.callbacks && s.fired[k].resourceId !in s.callbacks
            && s.fired[k].callback == r.callbacks[s.fired[k].resourceId])
      && (forall j, k :: |r.fired| <= j < k < |s.fired| ==> s.fired[j].resourceId != s.fired[k].resourceId)
      && FiredIds(s.fired[|r.fired|..]) == r.callbacks.Keys * ResolvedIds(steps)
  {
    RunPops(r, steps, style);
    RunFired(r, steps, style);
    RunFiredDistinct(r, steps, style);
    RunFiredIds(r, steps, style);
  }

  /** The registry loses exactly the ids resolved; the log only grows. */
  lemma {:induction false} RunPops(r: Registry, steps: seq<Step>, style: CallStyle)
    ensures var s := Run(r, steps, style);
      && s.callbacks == r.callbacks - ResolvedIds(steps)
      && |s.fired| >= |r.fired| && s.fired[..|r.fired|] == r.fired
    decreases |steps|
  {
    if steps != [] {
      var init := steps[..|steps| - 1];
      var p := Run(r, init, style);
      RunPops(r, init, style);
      assert Run(r, steps, style).fired[..|p.fired|] == p.fired;
    }
  }

  /** Each new invocation is for an id registered before the batch and no
      longer registered after it, with the callback registered under it. */
  lemma {:induction false} RunFired(r: Registry, steps: seq<Step>, style: CallStyle)
    ensures var s := Run(r, steps, style);
      forall k :: |r.fired| <= k < |s.fired| ==>
        s.fired[k].resourceId in r.callbacks && s.fired[k].resourceId !in s.callbacks
        && s.fired[k].callback == r.callbacks[s.fired[k].resourceId]
    decreases |steps|
  {
    if steps != [] {
      var init := steps[..|steps| - 1];
      var p := Run(r, init, style);
      RunFired(r, init, style);
      RunPops(r, init, style);
      var s := Run(r, steps, style);
      forall k | |r.fired| <= k < |s.fired|
        ensures s.fired[k].resourceId in r.callbacks && s.fired[k].resourceId !in s.callbacks
        ensures s.fired[k].callback == r.callbacks[s.fired[k].resourceId]
      {
        if k < |p.fired| {
          assert s.fired[k] == p.fired[k];
        }
      }
    }
  }

  /** No id is invoked twice in one batch. */
  lemma {:induction false} RunFiredDistinct(r: Registry, steps: seq<Step>, style: CallStyle)
    ensures var s := Run(r, steps, style);
      forall j, k :: |r.fired| <= j < k < |s.fired| ==> s.fired[j].resourceId != s.fired[k].resourceId
    decreases |steps|
  {
    if steps != [] {
      var init := steps[..|steps| - 1];
      var p := Run(r, init, style);
      RunFiredDistinct(r, init, style);
      RunFired(r, init, style);
      RunPops(r, init, style);
      var s := Run(r, steps, style);
      forall j, k | |r.fired| <= j < k < |s.fired|
        ensures s.fired[j].resourceId != s.fired[k].resourceId
      {
        if k >= |p.fired| {
          assert s.fired[j] == p.fired[j];
        } else {
          assert s.fired[j] == p.fired[j] && s.fired[k] == p.fired[k];
        }
      }
    }
  }

  /** The ids invoked are exactly the registered ids the batch resolves. */
  lemma {:induction false} RunFiredIds(r: Registry, steps: seq<Step>, style: CallStyle)
    ensures var s := Run(r, steps, style);
      |s.fired| >= |r.fired| && FiredIds(s.fired[|r.fired|..]) == r.callbacks.Keys * ResolvedIds(steps)
    decreases |steps|
  {
    if steps == [] {
      assert r.fired[|r.fired|..] == [];
    } else {
      var init := steps[..|steps| - 1];
      RunFiredIds(r, init, style);
      RunPops(r, init, style);
      HandleFiredIds(r, Run(r, init, style), ResolvedIds(init), steps[|steps| - 1], style);
    }
  }

  /** One step keeps the invoked ids equal to the registered ids resolved so
      far. */
  lemma HandleFiredIds(r: Registry, p: Registry, resolved: set<string>, last: Step, style: CallStyle)
    requires |p.fired| >= |r.fired| && p.callbacks == r.callbacks - resolved
    requires FiredIds(p.fired[|r.fired|..]) == r.callbacks.Keys * resolved
    ensures var s := Handle(p, last, style);
      |s.fired| >= |r.fired|
      && FiredIds(s.fired[|r.fired|..]) == r.callbacks.Keys * (resolved + if last.resolve.Some? then {last.resolve.value.resourceId} else {})
  {
    var s := Handle(p, last, style);
    if last.resolve.Some? && last.resolve.value.resourceId in p.callbacks {
      var x := s.fired[|s.fired| - 1];
      assert s.fired[|r.fired|..] == p.fired[|r.fired|..] + [x];
      FiredIdsSnoc(p.fired[|r.fired|..], x);
    }
  }

  /** Notifications whose type is not a done status leave the registry and
      the invocation log untouched. */
  lemma {:induction false} RunWithoutResolves(r: Registry, steps: seq<Step>, style: CallStyle)
    requires forall k :: 0 <= k < |steps| ==> steps[k].resolve.None?
    ensures Run(r, steps, style) == r
    decreases |steps|
  {
    if steps != [] {
      RunWithoutResolves(r, steps[..|steps| - 1], style);
    }
  }

  /** A pending id that no notification of the batch names stays pending and
      is not invoked. */
  lemma StaysPending(r: Registry, steps: seq<Step>, style: CallStyle, id: string)
    requires id in r.callbacks && id !in ResolvedIds(steps)
    ensures id in Run(r, steps, style).callbacks
    ensures forall k :: |r.fired| <= k < |Run(r, steps, style).fired| ==> Run(r, steps, style).fired[k].resourceId != id
  {
    RunShape(r, steps, style);
    var s := Run(r, steps, style);
    forall k | |r.fired| <= k < |s.fired|
      ensures s.fired[k].resourceId != id
    {
      assert s.fired[|r.fired|..][k - |r.fired|] == s.fired[k];
    }
  }

  /** A batch holding one done notification for a registered resource
      invokes that callback once and pops it; the batch is consumed once. */
  lemma SingleNotification(r: Registry, n: Notification, style: CallStyle, endpoint: string)
    requires n.resourceId in r.callbacks
    ensures var s := Run(r, [Step(Some(n), n.notificationId)], style);
      && s.callbacks == r.callbacks - {n.resourceId}
      && s.fired == r.fired + [Invocation(n.resourceId, r.callbacks[n.resourceId], Argument(style, r.callbacks[n.resourceId], n))]
    ensures Consumes(endpoint, [Step(Some(n), n.notificationId)]) == [Request(POST, Url(endpoint, ConsumePath(n.notificationId)), None)]
  {
    assert [Step(Some(n), n.notificationId)][..0] == [];
  }

  /** Two done notifications for the same resource in one batch: the second
      finds the entry already popped and invokes nothing. */
  lemma DuplicateNotification(r: Registry, a: Notification, b: Notification, style: CallStyle)
    requires a.resourceId == b.resourceId && a.resourceId in r.callbacks
    ensures var s := Run(r, [Step(Some(a), a.notificationId), Step(Some(b), b.notificationId)], style);
      && s.callbacks == r.callbacks - {a.resourceId}
      && s.fired == r.fired + [Invocation(a.resourceId, r.callbacks[a.resourceId], Argument(style, r.callbacks[a.resourceId], a))]
  {
    var steps := [Step(Some(a), a.notificationId), Step(Some(b), b.notificationId)];
    assert steps[..1] == [steps[0]];
    assert steps[..1][..0] == [];
    var p := Run(r, steps[..1], style);
    assert Run(r, steps[..1][..0], style) == r;
    assert p == Resolve(r, a.resourceId, a, style);
    assert Run(r, steps, style) == Resolve(p, b.resourceId, b, style);
  }
}
