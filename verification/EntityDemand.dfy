/** Entity families demanded by the claimed plugin route, and the transport's counted subscriptions:
    they agree after any sequence of claims, surfaces and exits. */
module EntityDemand {
  import opened Wrappers

  // ---------------------------------------------------------------------------
  // Families.
  // ---------------------------------------------------------------------------

  const SESSION := "session"
  const SESSION_TYPE := "session_type"

  /** Families a pull answers with a request, or with a subscription of their own. */
  const OWN_FAMILIES: set<string> := {
    "botster-web.hub_status", SESSION, SESSION_TYPE, "botster-web.app", "botster-web.package_navigation",
    "botster-web.package", "botster-web.spawn_target", "botster-web.available_package"}

  /** Families a pull subscribes and counts. */
  predicate Generic(family: string) { family != "" && family !in OWN_FAMILIES }

  predicate ProcessWide(family: string) { family == SESSION || family == SESSION_TYPE }

  // ---------------------------------------------------------------------------
  // The route's side: the claim and the families held for it.
  // ---------------------------------------------------------------------------

  /** `claimed` is the route on screen, `routeKey` the one the held families belong to. */
  datatype Demand = Demand(claimed: Option<string>, routeKey: Option<string>, families: set<string>)

  const NO_DEMAND := Demand(None, None, {})

  function Releasable(families: set<string>): set<string> { set f | f in families && !ProcessWide(f) }

  /** Pulls and releases one synchronisation sends, and the families held after it. */
  datatype Sync = Sync(abandoned: set<string>, pulled: set<string>, released: set<string>, next: Demand)

  function SyncDemand(d: Demand, key: Option<string>, families: set<string>): Sync {
    var abandoned := if d.routeKey != key then Releasable(d.families) else {};
    var held := if d.routeKey != key then {} else d.families;
    if key.None? || key.value == "" then Sync(abandoned, {}, {}, d.(routeKey := None, families := {}))
    else
      var desired := families - {""};
      Sync(abandoned, desired - held, Releasable(held - desired), d.(routeKey := key, families := desired))
  }

  // ---------------------------------------------------------------------------
  // The transport's side: counts per generic family.
  // ---------------------------------------------------------------------------

  function PullOne(refs: map<string, nat>, family: string): map<string, nat> {
    if !Generic(family) then refs else refs[family := 1 + if family in refs then refs[family] else 0]
  }

  function ReleaseOne(refs: map<string, nat>, family: string): map<string, nat> {
    if ProcessWide(family) || family !in refs then refs
    else if refs[family] > 1 then refs[family := refs[family] - 1]
    else refs - {family}
  }

  function CountOf(refs: map<string, nat>, family: string): nat { if family in refs then refs[family] else 0 }

  function PullAll(refs: map<string, nat>, families: set<string>): map<string, nat> {
    map f | f in refs.Keys + families && (f in refs || Generic(f)) ::
      CountOf(refs, f) + if f in families && Generic(f) then 1 else 0
  }

  function ReleaseAll(refs: map<string, nat>, families: set<string>): map<string, nat> {
    map f | f in refs && !(f in families && !ProcessWide(f) && refs[f] <= 1) ::
      if f in families && !ProcessWide(f) then refs[f] - 1 else refs[f]
  }

  /** Sending the messages of a synchronisation. */
  function Apply(refs: map<string, nat>, sync: Sync): map<string, nat> {
    ReleaseAll(PullAll(ReleaseAll(refs, sync.abandoned), sync.pulled), sync.released)
  }

  // ---------------------------------------------------------------------------
  // Route events.
  // ---------------------------------------------------------------------------

  datatype Event = Exit | Claim(key: string) | Rendered(key: string, families: set<string>)

  datatype State = State(demand: Demand, refs: map<string, nat>)

  const START := State(NO_DEMAND, map[])

  function Run1(s: State, key: Option<string>, families: set<string>): State {
    var sync := SyncDemand(s.demand, key, families);
    State(sync.next, Apply(s.refs, sync))
  }

  /** A route exit, a claim of another route, or a surface rendered for `key`, applied only while `key` is claimed. */
  function Step(s: State, e: Event): State {
    match e
    case Exit => Run1(s.(demand := s.demand.(claimed := None)), None, {})
    case Claim(key) =>
      if key == "" || s.demand.claimed == Some(key) then s
      else Run1(s.(demand := s.demand.(claimed := Some(key))), Some(key), {})
    case Rendered(key, families) => if s.demand.claimed == Some(key) then Run1(s, Some(key), families) else s
  }

  function Run(events: seq<Event>): State {
    if events == [] then START else Step(Run(events[..|events| - 1]), events[|events| - 1])
  }

  /** A generic family is counted once if the claim holds it, and not at all otherwise. */
  ghost predicate Agree(refs: map<string, nat>, families: set<string>) {
    && (forall f :: f in refs <==> f in families && Generic(f))
    && (forall f :: f in refs ==> refs[f] == 1)
  }

  ghost predicate StateOk(s: State) {
    && Agree(s.refs, s.demand.families)
    && (s.demand.routeKey.None? ==> s.demand.families == {})
    && s.demand.routeKey == s.demand.claimed && s.demand.claimed != Some("")
    && "" !in s.demand.families
  }

  lemma ReleaseAgrees(refs: map<string, nat>, families: set<string>, gone: set<string>)
    requires Agree(refs, families)
    ensures Agree(ReleaseAll(refs, Releasable(gone)), families - gone)
  {
  }

  lemma PullAgrees(refs: map<string, nat>, families: set<string>, more: set<string>)
    requires Agree(refs, families) && more !! families
    ensures Agree(PullAll(refs, more), families + more)
  {
  }

  lemma SyncAgrees(s: State, key: Option<string>, families: set<string>)
    requires Agree(s.refs, s.demand.families) && s.demand.routeKey != Some("")
    requires s.demand.routeKey.None? ==> s.demand.families == {}
    ensures var t := Run1(s, key, families);
      Agree(t.refs, t.demand.families) && t.demand.families == if key.None? || key.value == "" then {} else families - {""}
  {
    hide Agree, ReleaseAll, PullAll;
    var d := s.demand;
    var sync := SyncDemand(d, key, families);
    var held := if d.routeKey != key then {} else d.families;
    var abandoned := if d.routeKey != key then d.families else {};
    assert Releasable({}) == {};
    ReleaseAgrees(s.refs, d.families, abandoned);
    assert d.families - abandoned == held;
    var one := ReleaseAll(s.refs, sync.abandoned);
    PullAgrees(one, held, sync.pulled);
    var two := PullAll(one, sync.pulled);
    if key.None? || key.value == "" {
      ReleaseAgrees(two, held + sync.pulled, {});
      assert held + sync.pulled - {} == {};
    } else {
      var desired := families - {""};
      ReleaseAgrees(two, held + sync.pulled, held - desired);
      assert held + sync.pulled - (held - desired) == desired;
    }
  }

  lemma StepAgrees(s: State, e: Event)
    requires StateOk(s)
    ensures StateOk(Step(s, e))
  {
    hide Agree, Apply;
    match e {
      case Exit => SyncAgrees(s.(demand := s.demand.(claimed := None)), None, {});
      case Claim(key) => SyncAgrees(s.(demand := s.demand.(claimed := Some(key))), Some(key), {});
      case Rendered(key, families) => SyncAgrees(s, Some(key), families);
    }
  }

  /** After any sequence of route events a generic family is subscribed with count 1 exactly while the
      claimed route holds it, and with count 0 otherwise. */
  lemma {:induction false} CountsAgree(events: seq<Event>)
    ensures StateOk(Run(events))
    ensures forall f :: Generic(f) ==> CountOf(Run(events).refs, f) == if f in Run(events).demand.families then 1 else 0
  {
    if events != [] {
      CountsAgree(events[..|events| - 1]);
      StepAgrees(Run(events[..|events| - 1]), events[|events| - 1]);
    }
  }

  /** The route claimed last, unless it was left. */
  function ClaimedLast(events: seq<Event>): Option<string> {
    if events == [] then None
    else
      var before := ClaimedLast(events[..|events| - 1]);
      match events[|events| - 1]
      case Exit => None
      case Claim(key) => if key == "" then before else Some(key)
      case Rendered(_, _) => before
  }

  /** The families of the surface rendered last for the claim, if one was rendered since it was claimed. */
  function RenderedLast(events: seq<Event>): set<string> {
    if events == [] then {}
    else
      var front := events[..|events| - 1];
      match events[|events| - 1]
      case Exit => {}
      case Claim(key) => if key == "" || ClaimedLast(front) == Some(key) then RenderedLast(front) else {}
      case Rendered(key, families) => if ClaimedLast(front) == Some(key) then families - {""} else RenderedLast(front)
  }

  /** Held are exactly the families of the surface rendered last for the route claimed last; so a generic family is
      counted once if that surface names it, and not at all otherwise. */
  lemma {:induction false} DemandIsRendered(events: seq<Event>)
    ensures Run(events).demand.claimed == ClaimedLast(events) && Run(events).demand.families == RenderedLast(events)
    ensures forall f :: Generic(f) ==> CountOf(Run(events).refs, f) == if f in RenderedLast(events) then 1 else 0
  {
    hide Agree, Apply, Generic;
    CountsAgree(events);
    if events != [] {
      var front, e := events[..|events| - 1], events[|events| - 1];
      DemandIsRendered(front);
      CountsAgree(front);
      var s := Run(front);
      match e {
        case Exit => SyncAgrees(s.(demand := s.demand.(claimed := None)), None, {});
        case Claim(key) => SyncAgrees(s.(demand := s.demand.(claimed := Some(key))), Some(key), {});
        case Rendered(key, families) => SyncAgrees(s, Some(key), families);
      }
    }
  }

  /** A late completion of a route that is no longer claimed demands and releases nothing. */
  lemma StaleRenderIgnored(events: seq<Event>, key: string, families: set<string>)
    ensures Run(events + [Rendered(key, families)]).demand.families
      == if Run(events).demand.claimed == Some(key) then families - {""} else Run(events).demand.families
    ensures Run(events).demand.claimed != Some(key) ==> Run(events + [Rendered(key, families)]) == Run(events)
  {
    assert (events + [Rendered(key, families)])[..|events|] == events;
    CountsAgree(events);
    if Run(events).demand.claimed == Some(key) { SyncAgrees(Run(events), Some(key), families); }
  }

  // ---------------------------------------------------------------------------
  // The objects.
  // ---------------------------------------------------------------------------

  datatype Entry = Entry(refCount: nat, subscription: nat)

  /** Every held subscription knows its one holder. */
  ghost predicate HoldersOk(generic: map<string, Entry>, session: Option<nat>, sessionType: Option<nat>, holders: map<nat, string>) {
    && (forall f :: f in generic ==>
          Generic(f) && generic[f].refCount >= 1
          && generic[f].subscription in holders && holders[generic[f].subscription] == f)
    && (session.Some? ==> session.value in holders && holders[session.value] == SESSION)
    && (sessionType.Some? ==> sessionType.value in holders && holders[sessionType.value] == SESSION_TYPE)
    && (forall n :: n in holders ==>
          || (holders[n] in generic && generic[holders[n]].subscription == n)
          || (holders[n] == SESSION && session == Some(n)) || (holders[n] == SESSION_TYPE && sessionType == Some(n)))
  }

  /** Every subscription made so far is either held or was closed, once. */
  ghost predicate ClosedOk(holders: map<nat, string>, subscribed: nat, closed: seq<nat>) {
    && (forall n :: n in holders ==> n < subscribed && n !in closed)
    && (forall n: nat :: n < subscribed ==> n in holders || n in closed)
    && (forall k :: 0 <= k < |closed| ==> closed[k] < subscribed)
    && (forall j, k :: 0 <= j < k < |closed| ==> closed[j] != closed[k])
  }

  lemma SubscribeOk(holders: map<nat, string>, subscribed: nat, closed: seq<nat>, holder: string)
    requires ClosedOk(holders, subscribed, closed)
    ensures ClosedOk(holders[subscribed := holder], subscribed + 1, closed) && subscribed !in holders
  {
  }

  lemma UnsubscribeOk(holders: map<nat, string>, subscribed: nat, closed: seq<nat>, n: nat)
    requires ClosedOk(holders, subscribed, closed) && n in holders
    ensures ClosedOk(holders - {n}, subscribed, closed + [n])
  {
    var more := closed + [n];
    forall m: nat | m < subscribed ensures m in holders - {n} || m in more {
      if m == n {
        assert more[|closed|] == n;
      } else if m in closed {
        var k :| 0 <= k < |closed| && closed[k] == m;
        assert more[k] == m;
      }
    }
  }

  lemma HolderJoins(generic: map<string, Entry>, session: Option<nat>, sessionType: Option<nat>, holders: map<nat, string>,
                    family: string, n: nat)
    requires HoldersOk(generic, session, sessionType, holders) && n !in holders
    ensures family == SESSION && session.None? ==> HoldersOk(generic, Some(n), sessionType, holders[n := family])
    ensures family == SESSION_TYPE && sessionType.None? ==> HoldersOk(generic, session, Some(n), holders[n := family])
    ensures Generic(family) && family !in generic ==>
      HoldersOk(generic[family := Entry(1, n)], session, sessionType, holders[n := family])
  {
  }

  lemma HolderLeaves(generic: map<string, Entry>, session: Option<nat>, sessionType: Option<nat>, holders: map<nat, string>,
                     family: string)
    requires HoldersOk(generic, session, sessionType, holders) && family in generic
    ensures generic[family].subscription in holders
    ensures HoldersOk(generic - {family}, session, sessionType, holders - {generic[family].subscription})
    ensures forall count: nat :: count >= 1 ==>
      HoldersOk(generic[family := generic[family].(refCount := count)], session, sessionType, holders)
  {
  }

  lemma RefsMove(generic: map<string, Entry>, family: string, entry: Entry)
    ensures RefsOf(generic[family := entry]) == RefsOf(generic)[family := entry.refCount]
    ensures RefsOf(generic - {family}) == RefsOf(generic) - {family}
    ensures family in RefsOf(generic) <==> family in generic
    ensures family in generic ==> RefsOf(generic)[family] == generic[family].refCount
  {
  }

  function RefsOf(generic: map<string, Entry>): map<string, nat> { map f | f in generic :: generic[f].refCount }

  /** The bridge numbers its subscriptions; `closed` lists those unsubscribed, in order. */
  class HubTransport {
    var generic: map<string, Entry>
    var session: Option<nat>
    var sessionType: Option<nat>
    var subscribed: nat
    var closed: seq<nat>
    ghost var holders: map<nat, string>

    ghost predicate Valid()
      reads this
    {
      HoldersOk(generic, session, sessionType, holders) && ClosedOk(holders, subscribed, closed)
    }

    constructor ()
      ensures Valid() && generic == map[] && subscribed == 0
    {
      generic, session, sessionType, subscribed, closed, holders := map[], None, None, 0, [], map[];
    }

    /** A new bridge subscription for `holder`. */
    method Subscribe(ghost holder: string) returns (n: nat)
      requires Valid()
      modifies `subscribed, `holders
      ensures n == old(subscribed) && n !in old(holders) && holders == old(holders)[n := holder]
      ensures ClosedOk(holders, subscribed, closed)
    {
      hide HoldersOk, ClosedOk;
      SubscribeOk(holders, subscribed, closed, holder);
      n := subscribed;
      subscribed := subscribed + 1;
      holders := holders[n := holder];
    }

    method EntityPull(family: string)
      requires Valid()
      modifies this
      ensures Valid() && RefsOf(generic) == PullOne(old(RefsOf(generic)), family) && closed == old(closed)
    {
      hide ClosedOk, HoldersOk, RefsOf;
      SubscribeOk(holders, subscribed, closed, family);
      HolderJoins(generic, session, sessionType, holders, family, subscribed);
      RefsMove(generic, family, Entry(1, subscribed));
      if family in generic {
        HolderLeaves(generic, session, sessionType, holders, family);
        RefsMove(generic, family, generic[family].(refCount := generic[family].refCount + 1));
      }
      if family == SESSION {
        if session.None? {
          var n := Subscribe(SESSION);
          session := Some(n);
        }
      } else if family == SESSION_TYPE {
        if sessionType.None? {
          var n := Subscribe(SESSION_TYPE);
          sessionType := Some(n);
        }
      } else if Generic(family) {
        if family in generic {
          generic := generic[family := generic[family].(refCount := generic[family].refCount + 1)];
        } else {
          var n := Subscribe(family);
          generic := generic[family := Entry(1, n)];
        }
      }
    }

    method EntityRelease(family: string)
      requires Valid()
      modifies this
      ensures Valid() && RefsOf(generic) == ReleaseOne(old(RefsOf(generic)), family) && subscribed == old(subscribed)
    {
      hide ClosedOk, HoldersOk, RefsOf;
      RefsMove(generic, family, Entry(0, 0));
      if family == SESSION || family == SESSION_TYPE || family !in generic { return; }
      var entry := generic[family];
      HolderLeaves(generic, session, sessionType, holders, family);
      if entry.refCount > 1 {
        RefsMove(generic, family, entry.(refCount := entry.refCount - 1));
        generic := generic[family := entry.(refCount := entry.refCount - 1)];
        return;
      }
      UnsubscribeOk(holders, subscribed, closed, entry.subscription);
      closed := closed + [entry.subscription];
      holders := holders - {entry.subscription};
      generic := generic - {family};
    }
  }

  /** The route's hook, holding its refs and sending its messages to the transport. */
  class RouteDemand {
    const hub: HubTransport
    var claimedPluginRouteKey: Option<string>
    var routeKey: Option<string>
    var families: set<string>

    ghost function Now(): Demand
      reads this
    {
      Demand(claimedPluginRouteKey, routeKey, families)
    }

    constructor (hub: HubTransport)
      ensures this.hub == hub && Now() == NO_DEMAND
    {
      this.hub := hub;
      claimedPluginRouteKey, routeKey, families := None, None, {};
    }

    /** Sends one pull for every family, in any order. */
    method DemandAll(wanted: set<string>)
      requires hub.Valid()
      modifies hub
      ensures hub.Valid() && RefsOf(hub.generic) == PullAll(old(RefsOf(hub.generic)), wanted)
    {
      hide PullAll, PullOne;
      var left := wanted;
      ghost var was := RefsOf(hub.generic);
      Nothing(was);
      assert wanted - wanted == {};
      while left != {}
        invariant hub.Valid() && left <= wanted && RefsOf(hub.generic) == PullAll(was, wanted - left)
        decreases |left|
      {
        var family :| family in left;
        PullNext(was, wanted - left, family);
        assert wanted - (left - {family}) == (wanted - left) + {family};
        hub.EntityPull(family);
        left := left - {family};
      }
      assert wanted - {} == wanted;
    }

    method ReleaseEach(gone: set<string>)
      requires hub.Valid()
      modifies hub
      ensures hub.Valid() && RefsOf(hub.generic) == ReleaseAll(old(RefsOf(hub.generic)), gone)
    {
      hide ReleaseAll, ReleaseOne;
      var left := gone;
      ghost var was := RefsOf(hub.generic);
      Nothing(was);
      assert gone - gone == {};
      while left != {}
        invariant hub.Valid() && left <= gone && RefsOf(hub.generic) == ReleaseAll(was, gone - left)
        decreases |left|
      {
        var family :| family in left;
        ReleaseNext(was, gone - left, family);
        assert gone - (left - {family}) == (gone - left) + {family};
        hub.EntityRelease(family);
        left := left - {family};
      }
      assert gone - {} == gone;
    }

    method SyncEntityOptionsDemand(key: Option<string>, desired: set<string>)
      requires hub.Valid()
      modifies this, hub
      ensures hub.Valid() && Now() == SyncDemand(old(Now()), key, desired).next
      ensures RefsOf(hub.generic) == Apply(old(RefsOf(hub.generic)), SyncDemand(old(Now()), key, desired))
    {
      hide ReleaseAll, PullAll;
      Nothing(RefsOf(hub.generic));
      if routeKey != key {
        ReleaseEach(Releasable(families));
        routeKey := key;
        families := {};
      }
      Nothing(RefsOf(hub.generic));
      if key.None? || key.value == "" {
        routeKey := None;
        families := {};
        return;
      }
      var wanted := desired - {""};
      DemandAll(wanted - families);
      ReleaseEach(Releasable(families - wanted));
      families := wanted;
    }
  }

  lemma Nothing(refs: map<string, nat>)
    ensures PullAll(refs, {}) == refs && ReleaseAll(refs, {}) == refs
  {
  }

  /** Sending the messages one by one adds up. */
  lemma PullNext(refs: map<string, nat>, families: set<string>, family: string)
    requires family !in families
    ensures PullOne(PullAll(refs, families), family) == PullAll(refs, families + {family})
  {
  }

  lemma ReleaseNext(refs: map<string, nat>, families: set<string>, family: string)
    requires family !in families
    ensures ReleaseOne(ReleaseAll(refs, families), family) == ReleaseAll(refs, families + {family})
  {
  }
}
