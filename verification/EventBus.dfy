/**
 The event bus. A publish is two critical sections, recording in the history ring and distributing
 to the subscribers, so concurrent publishers may distribute in another order than they recorded.
 A publication is named by its place in the list of everything recorded.
 */
module EventBus {
  import opened Prelude
  import opened Values
  import Glob

  /** One receiver. `buffer` is None for an unbounded one; `queue` holds what it has not taken yet.
      `since`, `taken` and `missed` record history: how much had been distributed when it subscribed,
      what it has taken, and what found its queue full. */
  datatype Subscriber = Subscriber(
    patterns: seq<string>, buffer: Option<nat>, alive: bool, queue: seq<nat>, taken: seq<nat>,
    missed: seq<nat>, since: nat)

  /** `recorded` is every event ever recorded, `waiting` those not yet distributed, `sent` the order
      of distribution. Receivers that the bus dropped from its list are no longer `listed`. */
  datatype BusState = BusState(
    cap: nat, history: seq<Event>, recorded: seq<Event>, waiting: set<nat>, sent: seq<nat>,
    subscribers: seq<Subscriber>, listed: set<nat>)

  function Start(cap: nat): BusState {
    BusState(if cap >= 1 then cap else 1, [], [], {}, [], [], {})
  }

  /** A full ring drops its oldest event first. */
  function Ringed(history: seq<Event>, cap: nat, event: Event): seq<Event> {
    (if |history| >= cap && history != [] then history[1..] else history) + [event]
  }

  function Recorded(b: BusState, event: Event): BusState {
    b.(history := Ringed(b.history, b.cap, event),
       recorded := b.recorded + [event],
       waiting := b.waiting + {|b.recorded|})
  }

  /** The queue of the receiver has no room. */
  predicate Full(s: Subscriber) {
    s.buffer.Some? && |s.queue| >= s.buffer.value
  }

  /** A receiver without any buffer is handed the event if it is blocked waiting for one. */
  function Offered(s: Subscriber, n: nat, kind: string, blocked: bool): Subscriber {
    if !Glob.AnyMatches(s.patterns, kind) || !s.alive then s
    else if !Full(s) then s.(queue := s.queue + [n])
    else if s.buffer == Some(0) && blocked then s.(taken := s.taken + [n])
    else s.(missed := s.missed + [n])
  }

  /** `blocked` are the receivers blocked waiting for an event. */
  function Distributed(b: BusState, n: nat, blocked: set<nat>): BusState
    requires n < |b.recorded|
  {
    var kind := b.recorded[n].kind;
    b.(waiting := b.waiting - {n},
       sent := b.sent + [n],
       subscribers := seq(|b.subscribers|, i requires 0 <= i < |b.subscribers| =>
         if i in b.listed then Offered(b.subscribers[i], n, kind, i in blocked) else b.subscribers[i]),
       listed := set i | i in b.listed && i < |b.subscribers|
                         && (b.subscribers[i].alive || !Glob.AnyMatches(b.subscribers[i].patterns, kind)))
  }

  function Subscribed(b: BusState, patterns: seq<string>, buffer: Option<nat>): BusState {
    b.(subscribers := b.subscribers + [Subscriber(patterns, buffer, true, [], [], [], |b.sent|)],
       listed := b.listed + {|b.subscribers|})
  }

  function Taken(b: BusState, r: nat): BusState
    requires r < |b.subscribers| && b.subscribers[r].queue != []
  {
    var s := b.subscribers[r];
    b.(subscribers := b.subscribers[r := s.(queue := s.queue[1..], taken := s.taken + [s.queue[0]])])
  }

  function Dropped(b: BusState, r: nat): BusState
    requires r < |b.subscribers|
  {
    b.(subscribers := b.subscribers[r := b.subscribers[r].(alive := false)])
  }

  function Passing(since: Option<nat>, pattern: Option<string>): Event -> bool {
    (e: Event) =>
      (since.None? || e.timestampMs >= since.value) && (pattern.None? || Glob.PatternMatches(pattern.value, e.kind))
  }

  /** Recent events, oldest first. */
  function History(b: BusState, since: Option<nat>, pattern: Option<string>): seq<Event> {
    Filter(b.history, Passing(since, pattern))
  }

  // ----- the object -----

  class Bus {
    const cap: nat
    var history: seq<Event>
    var recorded: seq<Event>
    var waiting: set<nat>
    var sent: seq<nat>
    var subscribers: seq<Subscriber>
    var listed: set<nat>

    function View(): BusState
      reads this
    {
      BusState(cap, history, recorded, waiting, sent, subscribers, listed)
    }

    constructor (cap: nat)
      ensures View() == Start(cap)
    {
      this.cap := if cap >= 1 then cap else 1;
      history, recorded, waiting, sent, subscribers, listed := [], [], {}, [], [], {};
    }

    method SubscribeManyWithBuffer(patterns: seq<string>, buffer: nat) returns (r: nat)
      modifies this`subscribers, this`listed
      ensures View() == Subscribed(old(View()), patterns, Some(buffer)) && r == old(|subscribers|)
    {
      r := |subscribers|;
      subscribers := subscribers + [Subscriber(patterns, Some(buffer), true, [], [], [], |sent|)];
      listed := listed + {r};
    }

    method SubscribeUnbounded(pattern: string) returns (r: nat)
      modifies this`subscribers, this`listed
      ensures View() == Subscribed(old(View()), [pattern], None) && r == old(|subscribers|)
    {
      r := |subscribers|;
      subscribers := subscribers + [Subscriber([pattern], None, true, [], [], [], |sent|)];
      listed := listed + {r};
    }

    method Record(event: Event) returns (n: nat)
      modifies this`history, this`recorded, this`waiting
      ensures View() == Recorded(old(View()), event) && n == old(|recorded|)
    {
      if |history| >= cap && history != [] {
        history := history[1..];
      }
      history := history + [event];
      n := |recorded|;
      recorded := recorded + [event];
      waiting := waiting + {n};
    }

    method Distribute(n: nat, blocked: set<nat>)
      requires n < |recorded|
      modifies this`waiting, this`sent, this`subscribers, this`listed
      ensures View() == Distributed(old(View()), n, blocked)
    {
      var kind := recorded[n].kind;
      var before := subscribers;
      var after: seq<Subscriber> := [];
      var keep: set<nat> := {};
      var i := 0;
      while i < |before|
        invariant 0 <= i <= |before| && |after| == i && View() == old(View())
        invariant forall k :: 0 <= k < i ==>
                    after[k] == if k in listed then Offered(before[k], n, kind, k in blocked) else before[k]
        invariant forall k: nat :: k in keep <==>
                    k < i && k in listed && (before[k].alive || !Glob.AnyMatches(before[k].patterns, kind))
      {
        var s := before[i];
        if i in listed {
          if !Glob.AnyMatches(s.patterns, kind) {
            keep := keep + {i};
          } else if s.alive {
            keep := keep + {i};
            s := Deliver(s, n, kind, i in blocked);
          }
        }
        after := after + [s];
        i := i + 1;
      }
      subscribers, listed := after, keep;
      waiting, sent := waiting - {n}, sent + [n];
    }

    /** One send to a live receiver that wants the event. */
    static method Deliver(s: Subscriber, n: nat, kind: string, blocked: bool) returns (after: Subscriber)
      requires s.alive && Glob.AnyMatches(s.patterns, kind)
      ensures after == Offered(s, n, kind, blocked)
    {
      if s.buffer.None? || |s.queue| < s.buffer.value {
        after := s.(queue := s.queue + [n]);
      } else if s.buffer.value == 0 && blocked {
        after := s.(taken := s.taken + [n]);
      } else {
        after := s.(missed := s.missed + [n]);
      }
    }

    method Publish(event: Event, blocked: set<nat>)
      modifies this
      ensures View() == Distributed(Recorded(old(View()), event), old(|recorded|), blocked)
    {
      var n := Record(event);
      Distribute(n, blocked);
    }

    method TryRecv(r: nat) returns (event: Option<Event>)
      requires r < |subscribers|
      requires subscribers[r].queue != [] ==> subscribers[r].queue[0] < |recorded|
      modifies this`subscribers
      ensures if old(subscribers)[r].queue == [] then event.None? && View() == old(View())
              else event == Some(recorded[old(subscribers)[r].queue[0]]) && View() == Taken(old(View()), r)
    {
      var s := subscribers[r];
      if s.queue == [] {
        return None;
      }
      event := Some(recorded[s.queue[0]]);
      subscribers := subscribers[r := s.(queue := s.queue[1..], taken := s.taken + [s.queue[0]])];
    }
  }
}
