/** How often alerts of one fingerprint are let through, over whole runs. */
module Cooldown {
  import opened Options
  import opened TierKeys

  const SECOND: int := 1_000_000_000
  const MINUTE: int := 60_000_000_000
  const MEMORY: int := 10 * MINUTE
  const CROWD: nat := 2000

  /** The configured cooldown as a duration: a 64-bit product. */
  function Duration(minutes: int): int {
    Wrap64(minutes * MINUTE)
  }

  /** The product is right exactly up to 153722867 minutes; one more makes it negative. */
  lemma DurationIs(minutes: int)
    ensures Duration(minutes) == minutes * MINUTE <==> -153_722_867 <= minutes <= 153_722_867
    ensures Duration(153_722_868) < 0
  {
    var turns := Unwrap(minutes * MINUTE);
    assert -0x8000_0000_0000_0000 <= Duration(minutes) <= 0x7FFF_FFFF_FFFF_FFFF;
  }

  /** Fire times by fingerprint, the time of the last clean-up, and the configured cooldown. */
  datatype State = State(fired: map<string, int>, lastCleanup: Option<int>, minutes: int)

  predicate ShouldFire(s: State, fingerprint: string, now: int) {
    fingerprint in s.fired ==> now - s.fired[fingerprint] > Duration(s.minutes)
  }

  function Pruned(fired: map<string, int>, now: int): map<string, int> {
    map k | k in fired && fired[k] >= now - MEMORY :: fired[k]
  }

  function Recorded(s: State, fingerprint: string, now: int): State {
    var fired := s.fired[fingerprint := now];
    if |fired| > CROWD || s.lastCleanup.None? || now - s.lastCleanup.value > MEMORY
    then s.(fired := Pruned(fired, now), lastCleanup := Some(now))
    else s.(fired := fired)
  }

  /** What happens to the engine: an alert is due (its clock is read twice), the background
      sweep runs, or the thresholds are set. */
  datatype Event = Due(fingerprint: string, checkedAt: int, at: int) | Sweep(at: int) | SetCooldown(minutes: int)

  datatype Fire = Fire(fingerprint: string, at: int, cooldown: int)

  /** The engine, the latest clock reading, and the fires recorded so far. */
  datatype Log = Log(state: State, clock: int, fires: seq<Fire>)

  predicate InTime(log: Log, e: Event) {
    match e
    case Due(_, checkedAt, at) => log.clock <= checkedAt <= at
    case Sweep(at) => log.clock <= at
    case SetCooldown(_) => true
  }

  function Next(log: Log, e: Event): Log {
    match e
    case Due(fingerprint, checkedAt, at) =>
      if ShouldFire(log.state, fingerprint, checkedAt)
      then Log(Recorded(log.state, fingerprint, at), at,
               log.fires + [Fire(fingerprint, at, Duration(log.state.minutes))])
      else log.(clock := at)
    case Sweep(at) => log.(state := log.state.(fired := Pruned(log.state.fired, at)), clock := at)
    case SetCooldown(minutes) => log.(state := log.state.(minutes := minutes))
  }

  ghost predicate IsRun(logs: seq<Log>, events: seq<Event>) {
    && |logs| == |events| + 1 && logs[0].state.fired == map[] && logs[0].fires == []
    && forall i :: 0 <= i < |events| ==> InTime(logs[i], events[i]) && logs[i + 1] == Next(logs[i], events[i])
  }

  function Least(a: int, b: int): int {
    if a < b then a else b
  }

  ghost predicate FiredAt(fires: seq<Fire>, fingerprint: string, at: int) {
    exists i :: 0 <= i < |fires| && fires[i].fingerprint == fingerprint && fires[i].at == at
  }

  /** The table remembers the last fire of a fingerprint, unless it is more than ten minutes
      past; and it remembers nothing else. */
  ghost predicate Remembers(log: Log) {
    && (forall i :: 0 <= i < |log.fires| ==>
          var f := log.fires[i];
          && f.at <= log.clock
          && (f.fingerprint in log.state.fired ==> f.at <= log.state.fired[f.fingerprint])
          && (f.fingerprint !in log.state.fired ==> f.at < log.clock - MEMORY))
    && (forall k :: k in log.state.fired ==> FiredAt(log.fires, k, log.state.fired[k]))
  }

  ghost predicate Spaced(fires: seq<Fire>) {
    forall i, j :: 0 <= i < j < |fires| && fires[i].fingerprint == fires[j].fingerprint ==>
      fires[j].at - fires[i].at > Least(fires[j].cooldown, MEMORY)
  }

  lemma PruneRemembers(log: Log, at: int)
    requires Remembers(log) && log.clock <= at
    ensures Remembers(log.(state := log.state.(fired := Pruned(log.state.fired, at)), clock := at))
  {}

  /** One fire: it is far enough from every earlier one, and becomes the remembered one. */
  lemma FireSpaced(log: Log, fingerprint: string, checkedAt: int, at: int)
    requires Remembers(log) && Spaced(log.fires) && log.clock <= checkedAt <= at
    requires ShouldFire(log.state, fingerprint, checkedAt)
    ensures Spaced(log.fires + [Fire(fingerprint, at, Duration(log.state.minutes))])
  {
    forall i | 0 <= i < |log.fires| && log.fires[i].fingerprint == fingerprint
      ensures at - log.fires[i].at > Least(Duration(log.state.minutes), MEMORY)
    {}
  }

  lemma FireRemembers(log: Log, fingerprint: string, at: int)
    requires Remembers(log) && log.clock <= at
    ensures Remembers(Log(log.state.(fired := log.state.fired[fingerprint := at]), at,
                          log.fires + [Fire(fingerprint, at, Duration(log.state.minutes))]))
  {
    var fires := log.fires + [Fire(fingerprint, at, Duration(log.state.minutes))];
    var fired := log.state.fired[fingerprint := at];
    assert fires[|log.fires|].at == at;
    forall k | k in fired ensures FiredAt(fires, k, fired[k]) {
      if k != fingerprint {
        var i :| 0 <= i < |log.fires| && log.fires[i].fingerprint == k && log.fires[i].at == log.state.fired[k];
        assert fires[i].fingerprint == k;
      }
    }
  }

  lemma StepKeeps(log: Log, e: Event)
    requires Remembers(log) && Spaced(log.fires) && InTime(log, e)
    ensures Remembers(Next(log, e)) && Spaced(Next(log, e).fires)
  {
    match e
    case Due(fingerprint, checkedAt, at) =>
      if ShouldFire(log.state, fingerprint, checkedAt) {
        FireSpaced(log, fingerprint, checkedAt, at);
        FireRemembers(log, fingerprint, at);
        var fired := log.state.fired[fingerprint := at];
        PruneRemembers(Log(log.state.(fired := fired), at, Next(log, e).fires), at);
      }
    case Sweep(at) => PruneRemembers(log, at);
    case SetCooldown(minutes) =>
  }

  lemma {:induction false} RunKeeps(logs: seq<Log>, events: seq<Event>)
    requires IsRun(logs, events)
    ensures Remembers(logs[|events|]) && Spaced(logs[|events|].fires)
  {
    if events != [] {
      var n := |events| - 1;
      RunKeeps(logs[..n + 1], events[..n]);
      StepKeeps(logs[n], events[n]);
    }
  }

  /** Over every run, with thresholds changing and the table pruned on both paths: two
      recorded fires of a fingerprint are further apart than the cooldown in force at the
      later one, or than ten minutes where the cooldown is longer than that. */
  lemma FiresAreSpaced(logs: seq<Log>, events: seq<Event>, i: nat, j: nat)
    requires IsRun(logs, events) && i < j < |logs[|events|].fires|
    requires logs[|events|].fires[i].fingerprint == logs[|events|].fires[j].fingerprint
    ensures var fires := logs[|events|].fires;
            fires[j].at - fires[i].at > Least(fires[j].cooldown, MEMORY)
  {
    RunKeeps(logs, events);
  }

  /** A cooldown of at most ten minutes is kept exactly: a due alert fires if and only if
      every earlier fire of its fingerprint is further back than the cooldown. */
  lemma FiresIff(logs: seq<Log>, events: seq<Event>, fingerprint: string, checkedAt: int)
    requires IsRun(logs, events) && logs[|events|].clock <= checkedAt
    requires Duration(logs[|events|].state.minutes) <= MEMORY
    ensures var log := logs[|events|];
            ShouldFire(log.state, fingerprint, checkedAt)
            <==> forall i :: 0 <= i < |log.fires| && log.fires[i].fingerprint == fingerprint ==>
                   checkedAt - log.fires[i].at > Duration(log.state.minutes)
  {
    RunKeeps(logs, events);
  }

  /** Whatever the cooldown: once the sweep has forgotten the first fire, the next one comes
      through a moment after ten minutes. */
  lemma LongCooldownForgotten(minutes: int, fingerprint: string) returns (logs: seq<Log>, events: seq<Event>)
    ensures IsRun(logs, events) && AlwaysSetTo(logs, minutes)
    ensures logs[|events|].fires == [Fire(fingerprint, 0, Duration(minutes)), Fire(fingerprint, MEMORY + 1, Duration(minutes))]
  {
    var start := Log(State(map[], None, minutes), 0, []);
    events := [Due(fingerprint, 0, 0), Sweep(MEMORY + 1), Due(fingerprint, MEMORY + 1, MEMORY + 1)];
    var fired := Next(start, events[0]);
    var swept := Next(fired, events[1]);
    logs := [start, fired, swept, Next(swept, events[2])];
  }

  /** Two fires of one fingerprint are always further apart than a cooldown. */
  ghost predicate Kept(fires: seq<Fire>, cooldown: int) {
    forall i, j :: 0 <= i < j < |fires| && fires[i].fingerprint == fires[j].fingerprint ==>
      fires[j].at - fires[i].at > cooldown
  }

  ghost predicate AlwaysSetTo(logs: seq<Log>, minutes: int) {
    forall i :: 0 <= i < |logs| ==> logs[i].state.minutes == minutes
  }

  /** Every run under one setting keeps a cooldown. */
  ghost predicate KeptInEveryRun(minutes: int, cooldown: int) {
    forall logs: seq<Log>, events: seq<Event> ::
      IsRun(logs, events) && AlwaysSetTo(logs, minutes) ==> Kept(logs[|events|].fires, cooldown)
  }

  lemma {:induction false} CooldownsRecorded(logs: seq<Log>, events: seq<Event>, minutes: int, j: nat)
    requires IsRun(logs, events) && AlwaysSetTo(logs, minutes) && j < |logs[|events|].fires|
    ensures logs[|events|].fires[j].cooldown == Duration(minutes)
  {
    var n := |events| - 1;
    if j < |logs[n].fires| {
      CooldownsRecorded(logs[..n + 1], events[..n], minutes, j);
    }
  }

  lemma {:induction false} FiresInOrder(logs: seq<Log>, events: seq<Event>, i: nat, j: nat)
    requires IsRun(logs, events) && i < j < |logs[|events|].fires|
    ensures logs[|events|].fires[i].at <= logs[|events|].fires[j].at
  {
    var n := |events| - 1;
    if j < |logs[n].fires| {
      FiresInOrder(logs[..n + 1], events[..n], i, j);
    } else {
      RunKeeps(logs[..n + 1], events[..n]);
    }
  }

  /** A run under one setting keeps its 64-bit product, or ten minutes if that is less. */
  lemma ProductKept(logs: seq<Log>, events: seq<Event>, minutes: int, cooldown: int)
    requires IsRun(logs, events) && AlwaysSetTo(logs, minutes)
    requires cooldown < 0 || cooldown <= Least(Duration(minutes), MEMORY)
    ensures Kept(logs[|events|].fires, cooldown)
  {
    var fires := logs[|events|].fires;
    forall i, j | 0 <= i < j < |fires| && fires[i].fingerprint == fires[j].fingerprint
      ensures fires[j].at - fires[i].at > cooldown
    {
      FiresAreSpaced(logs, events, i, j);
      FiresInOrder(logs, events, i, j);
      CooldownsRecorded(logs, events, minutes, j);
    }
  }

  /** So every run does, as it does any negative one. */
  lemma KeptBelowTen(minutes: int, cooldown: int)
    requires cooldown < 0 || cooldown <= Least(Duration(minutes), MEMORY)
    ensures KeptInEveryRun(minutes, cooldown)
  {
    forall logs: seq<Log>, events: seq<Event> | IsRun(logs, events) && AlwaysSetTo(logs, minutes)
      ensures Kept(logs[|events|].fires, cooldown)
    {
      ProductKept(logs, events, minutes, cooldown);
    }
  }

  /** No setting keeps a cooldown above ten minutes. */
  lemma NotKeptAboveTen(minutes: int, cooldown: int)
    requires cooldown > MEMORY
    ensures !KeptInEveryRun(minutes, cooldown)
  {
    var logs, events := LongCooldownForgotten(minutes, "");
    var fires := logs[|events|].fires;
    assert fires[1].at - fires[0].at == MEMORY + 1 && fires[0].fingerprint == fires[1].fingerprint;
    assert !Kept(fires, cooldown);
  }

  /** The cooldown the program computes, wrapped or not, is kept in every run exactly when it
      is at most ten minutes. */
  lemma ProductKeptIff(minutes: int)
    ensures KeptInEveryRun(minutes, Duration(minutes)) <==> Duration(minutes) <= MEMORY
  {
    if Duration(minutes) > MEMORY {
      NotKeptAboveTen(minutes, Duration(minutes));
    } else {
      KeptBelowTen(minutes, Duration(minutes));
    }
  }

  /** The configured cooldown is kept in every run exactly when it is at most ten minutes. */
  lemma CooldownKeptIff(minutes: int)
    ensures KeptInEveryRun(minutes, minutes * MINUTE) <==> minutes <= 10
  {
    if minutes > 10 {
      NotKeptAboveTen(minutes, minutes * MINUTE);
    } else {
      if minutes >= 0 {
        DurationIs(minutes);
      }
      KeptBelowTen(minutes, minutes * MINUTE);
    }
  }

  /** The table is kept small: after a fire it holds more than 2000 fingerprints only if all of
      them fired within the last ten minutes, and an older one only if the last clean-up was
      within ten minutes too. */
  lemma CleanedUp(s: State, fingerprint: string, now: int)
    ensures var t := Recorded(s, fingerprint, now);
            && fingerprint in t.fired && t.fired[fingerprint] == now
            && (|t.fired| > 2000 ==> forall k :: k in t.fired ==> now - t.fired[k] <= 10 * MINUTE)
            && (forall k :: k in t.fired && now - t.fired[k] > 10 * MINUTE ==> t.lastCleanup.Some? && now - t.lastCleanup.value <= 10 * MINUTE)
  {}

  /** Recording one fingerprint, clean-up and all, never silences another. */
  lemma RecordingLeavesOthers(s: State, fingerprint: string, other: string, now: int)
    requires fingerprint != other && ShouldFire(s, other, now)
    ensures ShouldFire(Recorded(s, fingerprint, now), other, now)
  {}

  class AlertThrottle {
    var fired: map<string, int>
    var lastCleanup: Option<int>
    var minutes: int

    function Value(): State
      reads this
    {
      State(fired, lastCleanup, minutes)
    }

    constructor (cooldownMinutes: int)
      ensures Value() == State(map[], None, cooldownMinutes)
    {
      fired, lastCleanup, minutes := map[], None, cooldownMinutes;
    }

    method CheckFire(fingerprint: string, now: int) returns (fire: bool)
      ensures fire == ShouldFire(Value(), fingerprint, now)
    {
      if fingerprint !in fired {
        return true;
      }
      var last := fired[fingerprint];
      return now - last > Duration(minutes);
    }

    method RecordFire(fingerprint: string, now: int)
      modifies this
      ensures Value() == Recorded(old(Value()), fingerprint, now)
    {
      fired := fired[fingerprint := now];
      if |fired| > CROWD || lastCleanup.None? || now - lastCleanup.value > MEMORY {
        CleanUp(now);
        lastCleanup := Some(now);
      }
    }

    /** The clean-up loop, also run by the background sweep. */
    method CleanUp(now: int)
      modifies this`fired
      ensures fired == Pruned(old(fired), now)
    {
      var cutoff := now - MEMORY;
      var rest := fired.Keys;
      while rest != {}
        invariant rest <= fired.Keys <= old(fired).Keys
        invariant forall k :: k in fired ==> fired[k] == old(fired)[k]
        invariant forall k :: k in old(fired) && k !in rest ==> (k in fired <==> old(fired)[k] >= cutoff)
      {
        var k :| k in rest;
        rest := rest - {k};
        if fired[k] < cutoff {
          fired := fired - {k};
        }
      }
    }
  }
}
