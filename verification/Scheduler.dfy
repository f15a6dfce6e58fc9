/** The AP scheduler and request routing (kernel/kernel.c, lines 740-860). */
module Scheduler {
  import opened Words
  import opened ApRequest
  import opened ApServices
  import opened Protocol

  const NO_TARGET: u32 := 0xffff_ffff

  /** The part of an AP context that scheduling looks at; contexts are named by their index. */
  datatype Context = Context(boot: Boot, apicId: u32)

  function InRange(count: nat): (n: nat) {
    if count > MAX_CONTEXTS then MAX_CONTEXTS else count
  }

  /** A context that may be given work: in range and schedulable. */
  predicate Usable(contexts: seq<Context>, count: nat, i: nat) {
    i < InRange(count) && i < |contexts| && Accepting(contexts[i].boot)
  }

  /** The registry lists the usable contexts, each once, in ascending order. */
  ghost predicate Current(online: seq<nat>, contexts: seq<Context>, count: nat) {
    && (forall k :: 0 <= k < |online| ==> Usable(contexts, count, online[k]))
    && (forall i: nat :: Usable(contexts, count, i) ==> i in online)
    && (forall j, k :: 0 <= j < k < |online| ==> online[j] < online[k])
  }

  predicate UsableOwner(o: Option<u32>, contexts: seq<Context>, count: nat) {
    o.Some? && Usable(contexts, count, o.value)
  }

  /** Every usable context is picked by exactly one of the picks. */
  ghost predicate EachOnce(picks: seq<nat>, contexts: seq<Context>, count: nat) {
    && (forall t :: 0 <= t < |picks| ==> Usable(contexts, count, picks[t]))
    && (forall i: nat :: Usable(contexts, count, i) ==> i in picks)
    && (forall t, u :: 0 <= t < u < |picks| ==> picks[t] != picks[u])
  }

  /** `t` places after place `a` in a ring of `n`. */
  function Turned(a: nat, t: nat, n: nat): (r: nat)
    requires a < n && t <= n
    ensures r < n
  {
    if a + t < n then a + t else if a + t < n + n then a + t - n else a
  }

  function Following(a: nat, n: nat): (r: nat)
    requires a < n
  {
    (a + 1) % n
  }

  lemma FollowingIs(a: nat, n: nat)
    requires a < n
    ensures Following(a, n) == if a + 1 == n then 0 else a + 1
  {
    if a + 1 < n {
      SmallModulus(a + 1, n);
    }
  }

  lemma SmallModulus(a: nat, n: nat)
    requires a < n
    ensures a % n == a
  {
  }

  lemma TurnedNext(a: nat, t: nat, n: nat)
    requires a < n && t < n
    ensures Following(Turned(a, t, n), n) == Turned(a, t + 1, n)
  {
    hide Following;
    FollowingIs(Turned(a, t, n), n);
  }

  lemma TurnedStart(a: nat, n: nat)
    requires a < n
    ensures Turned(a, 0, n) == a
  {
  }

  lemma NothingToPick(contexts: seq<Context>, count: nat)
    requires Current([], contexts, count)
    ensures EachOnce([], contexts, count)
  {
  }

  /** A full turn of the ring meets every place exactly once. */
  lemma FullTurn(online: seq<nat>, contexts: seq<Context>, count: nat, a: nat, picks: seq<nat>)
    requires Current(online, contexts, count) && a < |online| && |picks| == |online|
    requires forall t :: 0 <= t < |picks| ==> picks[t] == online[Turned(a, t, |online|)]
    ensures EachOnce(picks, contexts, count)
  {
    var n := |online|;
    forall i: nat | Usable(contexts, count, i)
      ensures i in picks
    {
      var k :| 0 <= k < n && online[k] == i;
      var t := if k >= a then k - a else k + n - a;
      assert picks[t] == online[Turned(a, t, n)] && Turned(a, t, n) == k;
    }
    forall t, u | 0 <= t < u < |picks|
      ensures picks[t] != picks[u]
    {
      assert Turned(a, t, n) != Turned(a, u, n);
    }
  }

  /** Some plan entry names a known service; its owner is the registry's. */
  function OwnerOf(p: Plan, pingOwner: u32, counterOwner: u32): (o: Option<u32>) {
    match HandlerFor(p.service, p.iface)
    case None => None
    case Some(h) => Some(if h.PingHandler? then pingOwner else counterOwner)
  }

  /** The owner of the first plan entry whose service is known. */
  function FirstOwner(plan: seq<Plan>, pingOwner: u32, counterOwner: u32): (o: Option<u32>) {
    if plan == [] then None
    else
      var o := OwnerOf(plan[0], pingOwner, counterOwner);
      if o.Some? then o else FirstOwner(plan[1..], pingOwner, counterOwner)
  }

  lemma {:induction false} FirstOwnerSkips(plan: seq<Plan>, k: nat, pingOwner: u32, counterOwner: u32)
    requires k <= |plan| && forall j :: 0 <= j < k ==> OwnerOf(plan[j], pingOwner, counterOwner).None?
    ensures FirstOwner(plan, pingOwner, counterOwner) == FirstOwner(plan[k..], pingOwner, counterOwner)
  {
    if k > 0 {
      FirstOwnerSkips(plan[1..], k - 1, pingOwner, counterOwner);
      assert plan[1..][k - 1..] == plan[k..];
    } else {
      assert plan[0..] == plan;
    }
  }

  predicate AsksPing(p: Plan) {
    p.service == SERVICE_PING && p.iface == INTERFACE_PING
  }

  predicate AsksCounter(p: Plan) {
    p.service == SERVICE_COUNTER && p.iface == INTERFACE_COUNTER
  }

  /** Plan entry `k` is the first that asks for a ping or a counter step. */
  predicate FirstKnown(plan: seq<Plan>, k: int) {
    && 0 <= k < |plan| && (AsksPing(plan[k]) || AsksCounter(plan[k]))
    && forall j :: 0 <= j < k ==> !AsksPing(plan[j]) && !AsksCounter(plan[j])
  }

  /** Which owner parameter belongs to which service. */
  lemma OwnerByService(plan: seq<Plan>, pingOwner: u32, counterOwner: u32)
    ensures forall k :: FirstKnown(plan, k) ==>
              FirstOwner(plan, pingOwner, counterOwner) == Some(if AsksPing(plan[k]) then pingOwner else counterOwner)
  {
    forall k | FirstKnown(plan, k)
      ensures FirstOwner(plan, pingOwner, counterOwner) == Some(if AsksPing(plan[k]) then pingOwner else counterOwner)
    {
      FirstOwnerSkips(plan, k, pingOwner, counterOwner);
    }
  }

  /** `ap_request_plan_owner_context_index`: a registry search for one plan entry after the other. */
  method PlanOwner(plan: seq<Plan>, pingOwner: u32, counterOwner: u32) returns (o: Option<u32>)
    ensures o == FirstOwner(plan, pingOwner, counterOwner)
    ensures o.None? <==> forall k :: 0 <= k < |plan| ==> HandlerFor(plan[k].service, plan[k].iface).None?
  {
    var registry := Registry(pingOwner, counterOwner);
    var i := 0;
    while i < |plan|
      invariant 0 <= i <= |plan|
      invariant forall j :: 0 <= j < i ==> OwnerOf(plan[j], pingOwner, counterOwner).None?
    {
      var e := FindService(registry, plan[i].service, plan[i].iface);
      assert Provides(registry[0], plan[i].service, plan[i].iface) || Provides(registry[1], plan[i].service, plan[i].iface)
        <==> HandlerFor(plan[i].service, plan[i].iface).Some?;
      FirstOwnerSkips(plan, i, pingOwner, counterOwner);
      if e.Some? {
        assert OwnerOf(plan[i], pingOwner, counterOwner) == Some(e.value.owner);
        return Some(e.value.owner);
      }
      i := i + 1;
    }
    FirstOwnerSkips(plan, |plan|, pingOwner, counterOwner);
    return None;
  }

  datatype Mode = Owner | Explicit | Fallback

  datatype Route = Route(mode: Mode, target: nat, apicId: u32, owner: u32)

  /** `ap_scheduler_t`. */
  class RoundRobin {
    var online: seq<nat>
    var nextIndex: u32
    var selected: nat
    var selectedApic: u32
    var explicitTarget: bool

    constructor ()
      ensures Valid() && online == [] && nextIndex == 0 && !explicitTarget
    {
      online, nextIndex, selected, selectedApic, explicitTarget := [], 0, 0, 0, false;
    }

    /** The registry lists contexts of the array; they need not be schedulable any more. */
    ghost predicate Valid()
      reads this
    {
      |online| <= MAX_CONTEXTS && forall k :: 0 <= k < |online| ==> online[k] < MAX_CONTEXTS
    }

    /** The registry place used by the next selection. */
    function Place(): (p: nat)
      reads this
      ensures |online| > 0 ==> p < |online|
    {
      if nextIndex < |online| then nextIndex else 0
    }

    /** `build_online_ap_registry`: a rebuild on unchanged contexts keeps the place. */
    method Build(contexts: seq<Context>, count: nat)
      requires |contexts| == MAX_CONTEXTS
      modifies this
      ensures Valid() && Current(online, contexts, count) && !explicitTarget
      ensures |online| > 0 ==> nextIndex == Place() && Place() == if old(nextIndex) < |online| then old(nextIndex) else 0
      ensures Current(old(online), contexts, count) ==> online == old(online)
    {
      online := [];
      selectedApic, explicitTarget, selected := 0, false, NO_TARGET;
      var n := InRange(count);
      var i := 0;
      while i < n
        invariant 0 <= i <= n && |online| <= i && nextIndex == old(nextIndex) && !explicitTarget
        invariant forall k :: 0 <= k < |online| ==> online[k] < i && Usable(contexts, count, online[k])
        invariant forall k: nat :: k < i && Usable(contexts, count, k) ==> k in online
        invariant forall j, k :: 0 <= j < k < |online| ==> online[j] < online[k]
      {
        if Accepting(contexts[i].boot) {
          ghost var was := online;
          online := online + [i];
          assert online[|was|] == i && forall k :: k in was ==> k in online;
        }
        i := i + 1;
      }
      if Current(old(online), contexts, count) {
        SameRegistry(old(online), online, contexts, count);
      }
      if |online| > 0 && nextIndex >= |online| {
        nextIndex := 0;
      }
    }

    /** `select_ap_request_target_context` for the build-time target index `target`. */
    method Select(contexts: seq<Context>, count: nat, target: u32) returns (i: nat)
      requires |contexts| == MAX_CONTEXTS && Valid()
      modifies this`nextIndex, this`selected, this`selectedApic, this`explicitTarget
      ensures i < MAX_CONTEXTS && selected == i && selectedApic == contexts[i].apicId
      ensures explicitTarget <==> target != NO_TARGET && Usable(contexts, count, target)
      ensures explicitTarget ==> i == target && nextIndex == old(nextIndex)
      ensures !explicitTarget && |online| > 0 ==> i == online[old(Place())] && Place() == Following(old(Place()), |online|)
      ensures !explicitTarget && |online| == 0 ==> i == 0 && nextIndex == old(nextIndex)
    {
      if target != NO_TARGET && target < count && target < MAX_CONTEXTS && Accepting(contexts[target].boot) {
        explicitTarget, selected, selectedApic := true, target, contexts[target].apicId;
        return target;
      }
      explicitTarget := false;
      if |online| == 0 {
        selected, selectedApic := 0, contexts[0].apicId;
        return 0;
      }
      var place := if nextIndex >= |online| then 0 else nextIndex;
      i := online[place];
      nextIndex := Following(place, |online|);
      selected, selectedApic := i, contexts[i].apicId;
    }

    /** Fairness: as many consecutive selections as there are usable contexts pick each of them exactly
        once, from wherever the scheduler stands and wherever the registry is rebuilt in between. */
    method SelectRound(contexts: seq<Context>, count: nat, target: u32, rebuild: seq<bool>) returns (picks: seq<nat>)
      requires |contexts| == MAX_CONTEXTS && Valid() && Current(online, contexts, count) && |rebuild| == |online|
      requires target == NO_TARGET || !Usable(contexts, count, target)
      modifies this
      ensures online == old(online) && EachOnce(picks, contexts, count)
    {
      hide Current, EachOnce, Turned, Following, Usable;
      ghost var a := Place();
      if |online| > 0 {
        TurnedStart(a, |online|);
      }
      picks := [];
      var t := 0;
      while t < |rebuild|
        invariant 0 <= t <= |rebuild| && |picks| == t && online == old(online) && Valid()
        invariant |online| > 0 ==> a < |online| && Place() == Turned(a, t, |online|)
        invariant forall u :: 0 <= u < t ==> picks[u] == online[Turned(a, u, |online|)]
      {
        if rebuild[t] {
          Build(contexts, count);
        }
        var i := Select(contexts, count, target);
        TurnedNext(a, t, |online|);
        picks := picks + [i];
        t := t + 1;
      }
      if |online| > 0 {
        FullTurn(online, contexts, count, a, picks);
      } else {
        NothingToPick(contexts, count);
      }
    }

    /** `select_ap_request_route_context`; `preferred` is the scheduler's own selection, if any. */
    method RouteFor(preferred: Option<nat>, plan: seq<Plan>, contexts: seq<Context>, count: nat,
                    pingOwner: u32, counterOwner: u32) returns (route: Route)
      requires |contexts| == MAX_CONTEXTS && (preferred.Some? ==> preferred.value < MAX_CONTEXTS)
      ensures route.target < MAX_CONTEXTS && route.apicId == contexts[route.target].apicId
      ensures route.mode == Explicit <==> explicitTarget
      ensures route.mode == Owner <==>
                !explicitTarget && UsableOwner(FirstOwner(plan, pingOwner, counterOwner), contexts, count)
      ensures route.mode == Owner ==> FirstOwner(plan, pingOwner, counterOwner) == Some(route.owner) && route.target == route.owner
      ensures route.mode != Owner ==> route.target == if preferred.Some? then preferred.value else 0
    {
      var target := if preferred.Some? then preferred.value else 0;
      if explicitTarget {
        return Route(Explicit, target, contexts[target].apicId, NO_TARGET);
      }
      var owner := PlanOwner(plan, pingOwner, counterOwner);
      if owner.Some? && owner.value < count && owner.value < MAX_CONTEXTS && Accepting(contexts[owner.value].boot) {
        return Route(Owner, owner.value, contexts[owner.value].apicId, owner.value);
      }
      return Route(Fallback, target, contexts[target].apicId, if owner.Some? then owner.value else NO_TARGET);
    }

    /** Rebuild, select and route, as the kernel does before it starts a stream: the routed context is
        usable whenever any context is. */
    method Dispatch(plan: seq<Plan>, contexts: seq<Context>, count: nat, target: u32,
                    pingOwner: u32, counterOwner: u32) returns (route: Route)
      requires |contexts| == MAX_CONTEXTS
      modifies this
      ensures route.target < MAX_CONTEXTS && route.apicId == contexts[route.target].apicId
      ensures (exists i: nat :: Usable(contexts, count, i)) <==> Usable(contexts, count, route.target)
      ensures target != NO_TARGET && Usable(contexts, count, target) ==> route.target == target
      ensures !(target != NO_TARGET && Usable(contexts, count, target))
              && UsableOwner(FirstOwner(plan, pingOwner, counterOwner), contexts, count) ==>
                route.target == FirstOwner(plan, pingOwner, counterOwner).value
      ensures forall k :: !(target != NO_TARGET && Usable(contexts, count, target)) && FirstKnown(plan, k) ==>
                && (AsksPing(plan[k]) && Usable(contexts, count, pingOwner) ==> route.target == pingOwner)
                && (AsksCounter(plan[k]) && Usable(contexts, count, counterOwner) ==> route.target == counterOwner)
    {
      OwnerByService(plan, pingOwner, counterOwner);
      Build(contexts, count);
      var i := Select(contexts, count, target);
      route := RouteFor(Some(i), plan, contexts, count, pingOwner, counterOwner);
    }
  }

  /** A registry that is current is determined by the contexts. */
  lemma SameRegistry(a: seq<nat>, b: seq<nat>, contexts: seq<Context>, count: nat)
    requires Current(a, contexts, count) && Current(b, contexts, count)
    ensures a == b
  {
    SamePrefix(a, b, contexts, count, |a|);
    SamePrefix(b, a, contexts, count, |b|);
  }

  /** The members of an ascending listing below a member come before it. */
  lemma NextMember(a: seq<nat>, b: seq<nat>, n: nat, k: nat)
    requires (forall j, l :: 0 <= j < l < |a| ==> a[j] < a[l]) && (forall j, l :: 0 <= j < l < |b| ==> b[j] < b[l])
    requires n < |a| && k < |b| && b[k] == a[n] && forall j :: 0 <= j < n && j < |b| ==> a[j] == b[j]
    ensures n <= k
  {
  }

  lemma SharedMember(a: seq<nat>, b: seq<nat>, contexts: seq<Context>, count: nat, j: nat) returns (k: nat)
    requires Current(a, contexts, count) && Current(b, contexts, count) && j < |a|
    ensures k < |b| && b[k] == a[j]
  {
    hide Usable;
    assert Usable(contexts, count, a[j]);
    k :| 0 <= k < |b| && b[k] == a[j];
  }

  lemma Ascending(a: seq<nat>, contexts: seq<Context>, count: nat)
    requires Current(a, contexts, count)
    ensures forall j, l :: 0 <= j < l < |a| ==> a[j] < a[l]
  {
  }

  lemma {:induction false} SamePrefix(a: seq<nat>, b: seq<nat>, contexts: seq<Context>, count: nat, n: nat)
    requires Current(a, contexts, count) && Current(b, contexts, count) && n <= |a|
    ensures n <= |b| && forall j :: 0 <= j < n ==> a[j] == b[j]
  {
    hide Current;
    if n > 0 {
      SamePrefix(a, b, contexts, count, n - 1);
      Ascending(a, contexts, count);
      Ascending(b, contexts, count);
      var k := SharedMember(a, b, contexts, count, n - 1);
      NextMember(a, b, n - 1, k);
      var l := SharedMember(b, a, contexts, count, n - 1);
      NextMember(b, a, n - 1, l);
      assert a[n - 1] <= a[l] && b[n - 1] <= b[k];
    }
  }
}
