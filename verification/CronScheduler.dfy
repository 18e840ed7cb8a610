/**
 The cron worker: one thread sweeps the schedules under a lock, dispatches what is due outside it,
 and sleeps; reloads swap the schedules at any moment. Times are milliseconds.
 */
module CronScheduler {
  import opened Prelude

  const GRACE := 5000

  ghost predicate Lawful(next: int -> Option<int>) {
    forall t :: next(t).Some? ==> next(t).value > t
  }

  /** The first slot strictly after a given time, if any. */
  type Schedule = next: int -> Option<int> | Lawful(next) witness t => None

  /** `advancedAt` is the time `nextFire` was computed from. */
  datatype Cron = Cron(schedule: Schedule, nextFire: Option<int>, advancedAt: int)

  /** A trigger whose schedule parsed, and the clock reading its first slot is computed from. */
  datatype Parsed = Parsed(schedule: Schedule, readAt: int)

  /** What a sweep made of one slot of schedule `k`: fire it, or skip it as missed. `since` is the
      time the slot was computed from. */
  datatype Decision = Decision(
    generation: nat, k: nat, slot: int, at: int, fire: bool, schedule: Schedule, since: int)

  function Compile(schedule: Schedule, now: int): Cron {
    Cron(schedule, schedule(now), now)
  }

  /** Triggers whose schedule does not parse (None) are dropped. */
  function Compiled(parsed: seq<Option<Parsed>>): seq<Cron> {
    if parsed == [] then []
    else
      var last := parsed[|parsed| - 1];
      Compiled(parsed[..|parsed| - 1])
      + if last.Some? then [Compile(last.value.schedule, last.value.readAt)] else []
  }

  predicate Due(c: Cron, now: int) {
    c.nextFire.Some? && c.nextFire.value <= now
  }

  function Swept(c: Cron, now: int): Cron {
    if Due(c, now) then Compile(c.schedule, now) else c
  }

  function SweptAll(cs: seq<Cron>, now: int): seq<Cron> {
    seq(|cs|, k requires 0 <= k < |cs| => Swept(cs[k], now))
  }

  function Decide(c: Cron, generation: nat, k: nat, now: int): Decision
    requires Due(c, now)
  {
    var slot := c.nextFire.value;
    Decision(generation, k, slot, now, slot >= now - GRACE, c.schedule, c.advancedAt)
  }

  function Decided(c: Cron, generation: nat, k: nat, now: int): seq<Decision> {
    if Due(c, now) then [Decide(c, generation, k, now)] else []
  }

  function Decisions(cs: seq<Cron>, generation: nat, now: int): seq<Decision> {
    if cs == [] then []
    else Decisions(cs[..|cs| - 1], generation, now) + Decided(cs[|cs| - 1], generation, |cs| - 1, now)
  }

  function Earlier(a: Option<int>, b: Option<int>): Option<int> {
    if a.None? then b else if b.None? then a else if a.value <= b.value then a else b
  }

  /** The earliest next fire. */
  function Horizon(cs: seq<Cron>): Option<int> {
    if cs == [] then None else Earlier(Horizon(cs[..|cs| - 1]), cs[|cs| - 1].nextFire)
  }

  /** The numbers of the decisions to fire, counted from `base`. */
  function ToFire(ds: seq<Decision>, base: nat): seq<nat> {
    if ds == [] then []
    else ToFire(ds[..|ds| - 1], base) + if ds[|ds| - 1].fire then [base + |ds| - 1] else []
  }

  // ----- the object -----

  /** The state behind the lock, and the record of what the sweeps decided. */
  class CronState {
    var schedules: seq<Cron>
    var shutdown: bool
    var generation: nat
    var decided: seq<Decision>

    constructor ()
      ensures schedules == [] && !shutdown && generation == 0 && decided == []
    {
      schedules, shutdown, generation, decided := [], false, 0, [];
    }

    /** The clock is read for each trigger in turn, before the lock is taken. */
    method Reload(parsed: seq<Option<Parsed>>)
      modifies this`schedules, this`generation
      ensures schedules == Compiled(parsed) && generation == old(generation) + 1
    {
      var compiled: seq<Cron> := [];
      var i := 0;
      while i < |parsed|
        invariant 0 <= i <= |parsed|
        invariant compiled == Compiled(parsed[..i])
      {
        assert parsed[..i + 1][..i] == parsed[..i];
        if parsed[i].Some? {
          var c := parsed[i].value;
          compiled := compiled + [Cron(c.schedule, c.schedule(c.readAt), c.readAt)];
        }
        i := i + 1;
      }
      assert parsed[..i] == parsed;
      schedules := compiled;
      generation := generation + 1;
    }

    /** One partition: due slots within the grace are to be fired, older ones are skipped, and both
        kinds of schedule advance past `now`. */
    method Sweep(now: int) returns (batch: seq<nat>, horizon: Option<int>)
      modifies this`schedules, this`decided
      ensures schedules == SweptAll(old(schedules), now)
      ensures var ds := Decisions(old(schedules), generation, now);
              decided == old(decided) + ds && batch == ToFire(ds, |old(decided)|)
      ensures horizon == Horizon(schedules)
    {
      batch := [];
      horizon := None;
      var before, base := schedules, |decided|;
      var after: seq<Cron>, ds: seq<Decision> := [], [];
      var k := 0;
      while k < |before|
        invariant 0 <= k <= |before|
        invariant after == SweptAll(before[..k], now)
        invariant ds == Decisions(before[..k], generation, now)
        invariant batch == ToFire(ds, base)
        invariant horizon == Horizon(after)
        invariant schedules == before && decided == old(decided)
      {
        var c, d := Examine(before[k], generation, k, now);
        DecisionsSnoc(before, generation, k, now);
        SweptSnoc(before, k, now);
        if d.Some? {
          ToFireSnoc(ds, d.value, base);
          if d.value.fire {
            batch := batch + [base + |ds|];
          }
          ds := ds + [d.value];
        }
        after := after + [c];
        if c.nextFire.Some? && (horizon.None? || c.nextFire.value < horizon.value) {
          horizon := c.nextFire;
        }
        k := k + 1;
      }
      assert before[..k] == before;
      schedules := after;
      decided := decided + ds;
    }

    static method Examine(c: Cron, generation: nat, k: nat, now: int) returns (after: Cron, d: Option<Decision>)
      ensures after == Swept(c, now)
      ensures Decided(c, generation, k, now) == if d.Some? then [d.value] else []
    {
      if c.nextFire.None? || c.nextFire.value > now {
        return c, None;
      }
      var missed := c.nextFire.value < now - GRACE;
      after := Cron(c.schedule, c.schedule(now), now);
      d := Some(Decision(generation, k, c.nextFire.value, now, !missed, c.schedule, c.advancedAt));
    }
  }

  lemma DecisionsSnoc(cs: seq<Cron>, generation: nat, k: nat, now: int)
    requires k < |cs|
    ensures Decisions(cs[..k + 1], generation, now)
            == Decisions(cs[..k], generation, now) + Decided(cs[k], generation, k, now)
  {
    assert cs[..k + 1][..k] == cs[..k];
  }

  lemma SweptSnoc(cs: seq<Cron>, k: nat, now: int)
    requires k < |cs|
    ensures SweptAll(cs[..k + 1], now) == SweptAll(cs[..k], now) + [Swept(cs[k], now)]
  {
  }

  lemma ToFireSnoc(ds: seq<Decision>, d: Decision, base: nat)
    ensures ToFire(ds + [d], base) == ToFire(ds, base) + if d.fire then [base + |ds|] else []
  {
  }

  /** The horizon is the least next fire, and absent exactly when no schedule has one. */
  lemma {:induction false} HorizonIsLeast(cs: seq<Cron>)
    ensures Horizon(cs).None? <==> forall k :: 0 <= k < |cs| ==> cs[k].nextFire.None?
    ensures Horizon(cs).Some? ==> exists k :: 0 <= k < |cs| && cs[k].nextFire == Horizon(cs)
    ensures forall k :: 0 <= k < |cs| && cs[k].nextFire.Some? ==>
              Horizon(cs).Some? && Horizon(cs).value <= cs[k].nextFire.value
  {
    if cs == [] {
    } else {
      var before, last := cs[..|cs| - 1], |cs| - 1;
      HorizonIsLeast(before);
      if Horizon(cs) == cs[last].nextFire {
      } else {
        var k :| 0 <= k < |before| && before[k].nextFire == Horizon(before);
        assert cs[k] == before[k];
      }
      forall k | 0 <= k < |cs| && cs[k].nextFire.Some?
        ensures Horizon(cs).Some? && Horizon(cs).value <= cs[k].nextFire.value
      {
        if k < last {
          assert before[k] == cs[k];
        }
      }
      forall k | 0 <= k < last
        ensures before[k] == cs[k]
      {
      }
    }
  }
}
