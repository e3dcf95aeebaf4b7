/**
 * The membership monitor's fields and the sections of code that change them
 * without yielding: what a scan keeps, how routes are bumped, and how one
 * observation is fenced by pane epochs and route generations.
 */
module Membership {
  import opened Common
  import opened Report

  type PaneId = string

  /** One entry of a stream's frozen routing: the pane and the route generation it was made under. */
  datatype Leg = Leg(pane: PaneId, route: nat)

  type Members = map<TaskId, PaneId>

  function At<K>(m: map<K, nat>, k: K): nat { if k in m then m[k] else 0 }

  // ---- specification ----------------------------------------------------------------

  /** Valid entries, and known entries whose file was torn: unreadable is not gone. */
  function KeepKnown(members: Members, result: Members, torn: set<TaskId>): Members {
    (map t | t in members && t !in result && t in torn :: members[t]) + result
  }

  /** The task has the same pane in both, or is absent from both. */
  predicate Agree(a: Members, b: Members, t: TaskId) {
    (t in a <==> t in b) && (t in a && t in b ==> a[t] == b[t])
  }

  function Changed(a: Members, b: Members): set<TaskId> { set t | t in a.Keys + b.Keys && !Agree(a, b, t) }

  /** Every changed task gets a new route generation. */
  function Bumped(routes: map<TaskId, nat>, changed: set<TaskId>): map<TaskId, nat> {
    map t | t in routes.Keys + changed :: if t in changed then At(routes, t) + 1 else routes[t]
  }

  function Routing(members: Members, routes: map<TaskId, nat>): map<TaskId, Leg> {
    map t | t in members :: Leg(members[t], At(routes, t))
  }

  predicate Admitted(epochs: map<PaneId, nat>, routes: map<TaskId, nat>, task: TaskId, pane: PaneId,
                     epoch: Option<nat>, route: Option<nat>)
  {
    && (epoch.Some? ==> At(epochs, pane) == epoch.value)
    && (route.Some? ==> At(routes, task) == route.value)
  }

  /** After a bump a leg of the previous routing is current exactly for an unchanged task. */
  lemma BumpFencesChanged(members: Members, found: Members, routes: map<TaskId, nat>, t: TaskId)
    requires t in members
    ensures var leg := Routing(members, routes)[t];
            leg.route == At(Bumped(routes, Changed(members, found)), t) <==> t in found && found[t] == leg.pane
  {
  }

  lemma SameRoutes(a: map<TaskId, nat>, b: map<TaskId, nat>)
    requires a.Keys == b.Keys && forall t :: At(a, t) == At(b, t)
    ensures a == b
  {
    forall t | t in a ensures a[t] == b[t] { assert At(a, t) == At(b, t); }
  }

  // ---- the monitor ----------------------------------------------------------------------

  class MembershipMonitor {
    var members: Members
    var paneEpoch: map<PaneId, nat>
    var routeGeneration: map<TaskId, nat>
    var reconciled: seq<(TaskId, PaneId)>

    constructor ()
      ensures members == map[] && paneEpoch == map[] && routeGeneration == map[] && reconciled == []
    {
      members, paneEpoch, routeGeneration, reconciled := map[], map[], map[], [];
    }

    /** Keep known entries that the scan could not read. */
    method Found(result: Members, torn: set<TaskId>) returns (found: Members)
      ensures found == KeepKnown(members, result, torn)
    {
      found := result;
      var todo := members.Keys;
      while todo != {}
        invariant todo <= members.Keys
        invariant forall t :: t in found <==> t in result || (t in members && t in torn && t !in todo)
        invariant forall t :: t in found ==> found[t] == if t in result then result[t] else members[t]
        decreases |todo|
      {
        var task :| task in todo;
        todo := todo - {task};
        if task !in found && task in torn {
          found := found[task := members[task]];
        }
      }
      assert found.Keys == KeepKnown(members, result, torn).Keys;
    }

    /** Give every changed task its next route generation. */
    method BumpRoutes(found: Members) returns (changed: set<TaskId>)
      modifies this`routeGeneration
      ensures changed == Changed(members, found)
      ensures routeGeneration == Bumped(old(routeGeneration), changed)
    {
      changed := Changed(members, found);
      NextRoutes(changed);
    }

    method NextRoutes(changed: set<TaskId>)
      modifies this`routeGeneration
      ensures routeGeneration == Bumped(old(routeGeneration), changed)
    {
      var todo := changed;
      ghost var was := routeGeneration;
      while todo != {}
        invariant todo <= changed
        invariant forall t :: t in routeGeneration <==> t in was || (t in changed && t !in todo)
        invariant forall t :: At(routeGeneration, t) == if t in changed && t !in todo then At(was, t) + 1 else At(was, t)
        decreases |todo|
      {
        var task :| task in todo;
        routeGeneration := routeGeneration[task := At(routeGeneration, task) + 1];
        todo := todo - {task};
      }
      SameRoutes(routeGeneration, Bumped(was, changed));
    }

    /** Reconcile one observation, unless its pane or its task moved on meanwhile. */
    method Apply(task: TaskId, pane: PaneId, epoch: Option<nat>, route: Option<nat>) returns (done: bool)
      modifies this`reconciled
      ensures done == Admitted(paneEpoch, routeGeneration, task, pane, epoch, route)
      ensures reconciled == if done then old(reconciled) + [(task, pane)] else old(reconciled)
    {
      if epoch.Some? && At(paneEpoch, pane) != epoch.value {
        return false;
      }
      if route.Some? && At(routeGeneration, task) != route.value {
        return false;
      }
      reconciled := reconciled + [(task, pane)];
      return true;
    }

    /** Note that an event of the pane was taken off a stream. */
    method Consumed(pane: PaneId)
      modifies this`paneEpoch
      ensures paneEpoch == old(paneEpoch)[pane := At(old(paneEpoch), pane) + 1]
    {
      paneEpoch := paneEpoch[pane := At(paneEpoch, pane) + 1];
    }
  }
}
