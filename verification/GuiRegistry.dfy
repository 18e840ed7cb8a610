/**
 The registered GUI clients, their registration order and the primary one, and the heartbeat that
 unregisters a client which stops answering.
 */
module GuiRegistry {
  import opened Prelude

  datatype Client = Client(capabilities: set<string>, wantPrimary: bool)

  /** `order` is oldest first. */
  datatype Registry = Registry(clients: map<string, Client>, order: seq<string>, primary: Option<string>)

  const EMPTY := Registry(map[], [], None)

  predicate Wanting(clients: map<string, Client>, id: string) {
    id in clients && clients[id].wantPrimary
  }

  function Other(id: string): string -> bool {
    (x: string) => x != id
  }

  /** The last of `order` that wants to be primary. */
  function NewestWanting(clients: map<string, Client>, order: seq<string>): (r: Option<string>)
    ensures r.None? <==> forall id :: id in order ==> !Wanting(clients, id)
    ensures r.Some? ==> r.value in order && Wanting(clients, r.value)
  {
    if order == [] then None
    else
      var last := order[|order| - 1];
      assert forall id :: id in order <==> id in order[..|order| - 1] || id == last;
      if Wanting(clients, last) then Some(last) else NewestWanting(clients, order[..|order| - 1])
  }

  function Registered(r: Registry, id: string, client: Client): Registry {
    Registry(r.clients[id := client], r.order + [id],
             if r.primary.None? && client.wantPrimary then Some(id) else r.primary)
  }

  function Unregistered(r: Registry, id: string): Registry {
    var clients := r.clients - {id};
    var order := Filter(r.order, Other(id));
    Registry(clients, order, if r.primary == Some(id) then NewestWanting(clients, order) else r.primary)
  }

  datatype RouteError = NotGuiOwned | UnknownClient | NoGui

  /** Who answers a method that needs `capability` (None: not a GUI method). */
  function Routed(r: Registry, capability: Option<string>, target: Option<string>): Result<string, RouteError> {
    if capability.None? then Err(NotGuiOwned)
    else if target.Some? && target.value !in r.clients then Err(UnknownClient)
    else if target.None? && (r.primary.None? || r.primary.value !in r.clients) then Err(NoGui)
    else
      var candidate := if target.Some? then target.value else r.primary.value;
      if capability.value in r.clients[candidate].capabilities then Ok(candidate) else Err(NoGui)
  }

  /** A GUI method is answered by the client it names, or without a name by the primary, if that client
      is registered and has the capability. A client that is not registered is unknown if it was
      named; otherwise there is no GUI to answer. */
  lemma RoutedExactly(r: Registry, capability: Option<string>, target: Option<string>, id: string)
    ensures Routed(r, capability, target) == Ok(id) <==>
            && capability.Some? && id in r.clients && capability.value in r.clients[id].capabilities
            && (target == Some(id) || (target == None && r.primary == Some(id)))
    ensures Routed(r, capability, target) == Err(NotGuiOwned) <==> capability == None
    ensures Routed(r, capability, target) == Err(UnknownClient) <==>
            capability.Some? && target.Some? && target.value !in r.clients
  {
  }

  // ----- the object -----

  class GuiClients {
    var clients: map<string, Client>
    var order: seq<string>
    var primary: Option<string>

    function View(): Registry
      reads this
    {
      Registry(clients, order, primary)
    }

    constructor ()
      ensures View() == EMPTY
    {
      clients, order, primary := map[], [], None;
    }

    method Register(id: string, client: Client) returns (isPrimary: bool)
      modifies this
      ensures View() == Registered(old(View()), id, client)
      ensures isPrimary <==> old(primary).None? && client.wantPrimary
    {
      clients := clients[id := client];
      order := order + [id];
      isPrimary := primary.None? && client.wantPrimary;
      if isPrimary {
        primary := Some(id);
      }
    }

    method Unregister(id: string)
      modifies this
      ensures View() == Unregistered(old(View()), id)
    {
      clients := clients - {id};
      order := Filter(order, Other(id));
      if primary == Some(id) {
        primary := FindNewest(clients, order);
      }
    }

    static method FindNewest(clients: map<string, Client>, order: seq<string>) returns (found: Option<string>)
      ensures found == NewestWanting(clients, order)
    {
      var i := |order|;
      assert order[..i] == order;
      while i > 0
        invariant 0 <= i <= |order|
        invariant NewestWanting(clients, order) == NewestWanting(clients, order[..i])
      {
        assert order[..i][..i - 1] == order[..i - 1];
        if order[i - 1] in clients && clients[order[i - 1]].wantPrimary {
          return Some(order[i - 1]);
        }
        i := i - 1;
      }
      return None;
    }

    method Route(capability: Option<string>, target: Option<string>) returns (r: Result<string, RouteError>)
      ensures r == Routed(View(), capability, target)
    {
      if capability.None? {
        return Err(NotGuiOwned);
      }
      var candidate: string;
      if target.Some? {
        if target.value !in clients {
          return Err(UnknownClient);
        }
        candidate := target.value;
      } else {
        if primary.None? || primary.value !in clients {
          return Err(NoGui);
        }
        candidate := primary.value;
      }
      r := if capability.value in clients[candidate].capabilities then Ok(candidate) else Err(NoGui);
    }
  }

  // ----- every run -----

  datatype Step = Join(id: string, client: Client) | Leave(id: string)

  /** Registration ids are new: joining twice under one id is no step. */
  function Next(r: Registry, joined: seq<string>, t: Step): Registry {
    match t
    case Join(id, client) => if id in joined then r else Registered(r, id, client)
    case Leave(id) => Unregistered(r, id)
  }

  function Joined(steps: seq<Step>): seq<string> {
    if steps == [] then []
    else
      var before, t := Joined(steps[..|steps| - 1]), steps[|steps| - 1];
      if t.Join? && t.id !in before then before + [t.id] else before
  }

  function RunOf(steps: seq<Step>): Registry {
    if steps == [] then EMPTY
    else Next(RunOf(steps[..|steps| - 1]), Joined(steps[..|steps| - 1]), steps[|steps| - 1])
  }

  /** No primary exactly when no registered client wants to be one; otherwise a registered client
      that does. */
  ghost predicate PrimarySound(r: Registry) {
    && (r.primary.None? <==> forall id :: id in r.clients ==> !Wanting(r.clients, id))
    && (r.primary.Some? ==> Wanting(r.clients, r.primary.value))
  }

  function Present(clients: map<string, Client>): string -> bool {
    (id: string) => id in clients
  }

  /** The order list is everyone who ever joined, in joining order, less those who left. */
  ghost predicate OrderSound(r: Registry, joined: seq<string>) {
    && (forall id :: id in r.clients ==> id in joined)
    && r.order == Filter(joined, Present(r.clients))
  }

  lemma OrderIsPresent(r: Registry, joined: seq<string>)
    requires OrderSound(r, joined)
    ensures forall id :: id in r.order <==> id in r.clients
  {
    FilterMembers(joined, Present(r.clients));
    assert forall id :: id in r.order <==> id in joined && Present(r.clients)(id);
  }

  lemma JoinKeeps(r: Registry, joined: seq<string>, id: string, client: Client)
    requires PrimarySound(r) && OrderSound(r, joined) && id !in joined
    ensures PrimarySound(Registered(r, id, client)) && OrderSound(Registered(r, id, client), joined + [id])
  {
    var after := Registered(r, id, client);
    FilterConcat(joined, [id], Present(after.clients));
    FilterSame(joined, Present(r.clients), Present(after.clients));
    assert forall x :: Wanting(after.clients, x) <==> if x == id then client.wantPrimary else Wanting(r.clients, x);
    if r.primary.None? && client.wantPrimary {
      assert id in after.clients && Wanting(after.clients, id);
    } else if r.primary.Some? {
      assert r.primary.value in after.clients && Wanting(after.clients, r.primary.value);
    }
  }

  lemma LeaveKeeps(r: Registry, joined: seq<string>, id: string)
    requires PrimarySound(r) && OrderSound(r, joined)
    ensures PrimarySound(Unregistered(r, id)) && OrderSound(Unregistered(r, id), joined)
  {
    var after := Unregistered(r, id);
    FilterTwice(joined, Present(r.clients), Other(id), Present(after.clients));
    OrderIsPresent(after, joined);
    assert forall x :: Wanting(after.clients, x) <==> x != id && Wanting(r.clients, x);
    if r.primary.Some? && r.primary != Some(id) {
      assert r.primary.value in after.clients && Wanting(after.clients, r.primary.value);
    }
  }

  lemma {:induction false} AlwaysSound(steps: seq<Step>)
    ensures PrimarySound(RunOf(steps)) && OrderSound(RunOf(steps), Joined(steps))
  {
    if steps == [] {
    } else {
      var before, t := steps[..|steps| - 1], steps[|steps| - 1];
      AlwaysSound(before);
      if t.Leave? {
        LeaveKeeps(RunOf(before), Joined(before), t.id);
      } else if t.id !in Joined(before) {
        JoinKeeps(RunOf(before), Joined(before), t.id, t.client);
      }
    }
  }

  lemma {:induction false} NewestIsLast(
      clients: map<string, Client>, order: seq<string>, a: seq<string>, x: string, b: seq<string>, y: string)
    requires order == a + [x] + b && NewestWanting(clients, order) == Some(x)
    requires x !in b && y in b
    ensures !Wanting(clients, y)
  {
    var last := |b| - 1;
    if y == b[last] {
    } else {
      assert order[..|order| - 1] == a + [x] + b[..last];
      NewestIsLast(clients, order[..|order| - 1], a, x, b[..last], y);
    }
  }

  lemma {:induction false} JoinedDistinct(steps: seq<Step>)
    ensures Distinct(Joined(steps))
  {
    if steps == [] {
    } else {
      JoinedDistinct(steps[..|steps| - 1]);
    }
  }

  /** What `id` is registered as: what it joined with, until it leaves. */
  function Registration(steps: seq<Step>, id: string): Option<Client> {
    if steps == [] then None
    else
      var before, t := steps[..|steps| - 1], steps[|steps| - 1];
      if t == Leave(id) then None
      else if t.Join? && t.id == id && id !in Joined(before) then Some(t.client)
      else Registration(before, id)
  }

  /** After any run the registered clients are those that joined and did not leave, each with the
      capabilities and the wish it joined with. */
  lemma {:induction false} RegisteredExactly(steps: seq<Step>, id: string)
    ensures var r := RunOf(steps);
            && (id in r.clients <==> Registration(steps, id).Some?)
            && (id in r.clients ==> r.clients[id] == Registration(steps, id).value)
  {
    if steps == [] {
    } else {
      RegisteredExactly(steps[..|steps| - 1], id);
    }
  }

  /** After any run: the primary is absent exactly when nobody registered wants it, is otherwise a
      registered client that wants it, and a route without a target reaches it or fails only for a
      missing primary or capability. */
  lemma PrimaryIsWanting(steps: seq<Step>, capability: string)
    ensures var r := RunOf(steps);
            && (r.primary.None? <==> forall id :: id in r.clients ==> !r.clients[id].wantPrimary)
            && (r.primary.Some? ==> r.primary.value in r.clients && r.clients[r.primary.value].wantPrimary)
            && (Routed(r, Some(capability), None).Ok? <==>
                 r.primary.Some? && r.primary.value in r.clients
                 && capability in r.clients[r.primary.value].capabilities)
  {
    AlwaysSound(steps);
    var r := RunOf(steps);
    assert forall id :: id in r.clients ==> (Wanting(r.clients, id) <==> r.clients[id].wantPrimary);
  }

  /** A primary stays primary while it is registered; when it leaves, the most recently joined
      client that is still registered and wants to be primary takes over. */
  lemma PrimaryChangesOnlyByLeaving(steps: seq<Step>, t: Step)
    requires RunOf(steps).primary.Some?
    ensures var r, after := RunOf(steps), RunOf(steps + [t]);
            && (t != Leave(r.primary.value) ==> after.primary == r.primary)
            && (t == Leave(r.primary.value) ==>
                 forall i, j :: 0 <= i < j < |Joined(steps)| && after.primary == Some(Joined(steps)[i]) ==>
                   !Wanting(after.clients, Joined(steps)[j]))
  {
    var r, joined := RunOf(steps), Joined(steps);
    assert (steps + [t])[..|steps|] == steps;
    if t == Leave(r.primary.value) {
      var after := RunOf(steps + [t]);
      AlwaysSound(steps);
      LeaveKeeps(r, joined, t.id);
      JoinedDistinct(steps);
      forall i, j | 0 <= i < j < |joined| && after.primary == Some(joined[i])
        ensures !Wanting(after.clients, joined[j])
      {
        LaterDoNotWant(after, joined, i, j);
      }
    }
  }

  lemma LaterDoNotWant(r: Registry, joined: seq<string>, i: nat, j: nat)
    requires OrderSound(r, joined) && r.primary == NewestWanting(r.clients, r.order)
    requires Distinct(joined)
    requires i < j < |joined| && r.primary == Some(joined[i])
    ensures !Wanting(r.clients, joined[j])
  {
    if joined[j] in r.clients {
      OrderIsPresent(r, joined);
      var a, b := SplitOrder(joined, Present(r.clients), i, j);
      NewestIsLast(r.clients, r.order, a, joined[i], b, joined[j]);
    }
  }

  /** Cutting a filtered list at one of its members leaves the later ones behind the cut. */
  lemma SplitOrder(s: seq<string>, keep: string -> bool, i: nat, j: nat) returns (a: seq<string>, b: seq<string>)
    requires Distinct(s) && i < j < |s| && keep(s[i]) && keep(s[j])
    ensures Filter(s, keep) == a + [s[i]] + b && s[i] !in b && s[j] in b
  {
    var tail := s[i + 1..];
    a, b := Filter(s[..i], keep), Filter(tail, keep);
    AroundAt(s, i);
    FilterAround(s, s[..i], s[i], tail, keep);
    FilterMembers(tail, keep);
    assert tail[j - i - 1] == s[j];
  }

  // ----- the heartbeat -----

  /** The last `n` of the first `i + 1` pings were all missed. */
  predicate MissedRun(pings: seq<bool>, i: nat, n: nat)
    requires i < |pings|
  {
    n <= i + 1 && forall k :: i + 1 - n <= k <= i ==> !pings[k]
  }

  /** Pings until `maxMisses` are missed in a row; `None` when that never happens. */
  method Heartbeat(pings: seq<bool>, maxMisses: nat) returns (stop: Option<nat>)
    ensures var n := if maxMisses == 0 then 1 else maxMisses;
            && (stop.Some? ==> stop.value < |pings| && MissedRun(pings, stop.value, n))
            && forall i: nat :: i < (if stop.Some? then stop.value else |pings|) ==> !MissedRun(pings, i, n)
  {
    var misses := 0;
    ghost var n := if maxMisses == 0 then 1 else maxMisses;
    var i := 0;
    while i < |pings|
      invariant 0 <= i <= |pings| && misses <= i && misses < n
      invariant forall k :: i - misses <= k < i ==> !pings[k]
      invariant misses < i ==> pings[i - misses - 1]
      invariant forall j: nat :: j < i ==> !MissedRun(pings, j, n)
    {
      if pings[i] {
        misses := 0;
      } else {
        misses := misses + 1;
        if misses >= maxMisses {
          return Some(i);
        }
      }
      i := i + 1;
    }
    return None;
  }
}
