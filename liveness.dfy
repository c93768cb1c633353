/**
 * The per-camera liveness state machine of the monitor: one probe result moves the
 * counters `fails`/`succ` and, past the hysteresis thresholds, the status between
 * UNKNOWN, UP and DOWN; an alert goes out only when the camera's own cooldown has elapsed.
 */
module Liveness {

  datatype Status = Unknown | Up | Down

  /** One camera's record in the state file. */
  datatype Entry = Entry(status: Status, fails: nat, succ: nat, lastAlert: int, lastUp: int, lastDown: int)

  /** The record given to a camera that has none yet: UNKNOWN and all counters and times zero. */
  const Fresh: Entry := Entry(Unknown, 0, 0, 0, 0, 0)

  /** What one probe result does to an entry: the new entry, whether the status
      crossed a threshold (a transition), and whether that transition was announced. */
  datatype Step = Step(entry: Entry, transition: bool, alert: bool)

  /** Applies one probe result `ok`, observed at time `now`, to entry `e`. */
  function Observe(e: Entry, ok: bool, now: int, failTh: int, recTh: int, cooldown: int): (s: Step)
    // a success extends the success streak and ends the failure streak, and vice versa
    ensures ok ==> s.entry.succ == e.succ + 1 && s.entry.fails == 0
    ensures !ok ==> s.entry.fails == e.fails + 1 && s.entry.succ == 0
    ensures s.entry.fails == 0 || s.entry.succ == 0
    // hysteresis: UP only from DOWN/UNKNOWN with enough successes, DOWN only from UP/UNKNOWN with enough failures
    ensures s.transition <==>
      if ok then (e.status == Down || e.status == Unknown) && e.succ + 1 >= recTh else e.status != Down && e.fails + 1 >= failTh
    ensures s.transition ==> s.entry.status == (if ok then Up else Down)
    ensures s.transition && ok ==> s.entry.lastUp == now && s.entry.lastDown == e.lastDown
    ensures s.transition && !ok ==> s.entry.lastDown == now && s.entry.lastUp == e.lastUp
    ensures !s.transition ==>
      s.entry.status == e.status && s.entry.lastUp == e.lastUp && s.entry.lastDown == e.lastDown
    // UNKNOWN is never re-entered
    ensures s.entry.status == Unknown ==> e.status == Unknown
    // cooldown gating: only an announced transition moves the alert time
    ensures s.alert <==> s.transition && now - e.lastAlert >= cooldown
    ensures s.entry.lastAlert == if s.alert then now else e.lastAlert
  {
    if ok then
      var counted := e.(succ := e.succ + 1, fails := 0);
      if (e.status == Down || e.status == Unknown) && counted.succ >= recTh then
        var moved := counted.(status := Up, lastUp := now);
        if now - e.lastAlert >= cooldown then Step(moved.(lastAlert := now), true, true)
        else Step(moved, true, false)
      else Step(counted, false, false)
    else
      var counted := e.(fails := e.fails + 1, succ := 0);
      if counted.fails >= failTh && e.status != Down then
        var moved := counted.(status := Down, lastDown := now);
        if now - e.lastAlert >= cooldown then Step(moved.(lastAlert := now), true, true)
        else Step(moved, true, false)
      else Step(counted, false, false)
  }

  // ---------------------------------------------------------------------------
  // A stream of probes for one camera

  datatype Probe = Probe(ok: bool, at: int)

  /** The entry after a stream of probes, how many transitions it went through and
      the times at which alerts were sent. */
  datatype Trace = Trace(entry: Entry, transitions: nat, alerts: seq<int>)

  function Feed(e: Entry, ps: seq<Probe>, failTh: int, recTh: int, cooldown: int): Trace
    decreases |ps|
  {
    if ps == [] then Trace(e, 0, [])
    else
      var t := Feed(e, ps[..|ps| - 1], failTh, recTh, cooldown);
      var p := ps[|ps| - 1];
      var s := Observe(t.entry, p.ok, p.at, failTh, recTh, cooldown);
      Trace(s.entry,
            t.transitions + (if s.transition then 1 else 0),
            t.alerts + (if s.alert then [p.at] else []))
  }

  /** The number of probes at the end of `ps` whose result is `ok`. */
  function Trailing(ps: seq<Probe>, ok: bool): (n: nat)
    ensures n <= |ps|
    ensures forall i :: |ps| - n <= i < |ps| ==> ps[i].ok == ok
    ensures n < |ps| ==> ps[|ps| - 1 - n].ok != ok
    decreases |ps|
  {
    if ps == [] || ps[|ps| - 1].ok != ok then 0 else Trailing(ps[..|ps| - 1], ok) + 1
  }

  /** The counters are the lengths of the current streaks: the failure counter counts the
      failures at the end of the stream (plus the entry's own count if the stream is all
      failures), and likewise for successes. */
  lemma {:induction false} CountersAreStreaks(e: Entry, ps: seq<Probe>, failTh: int, recTh: int, cooldown: int)
    ensures Feed(e, ps, failTh, recTh, cooldown).entry.fails
      == Trailing(ps, false) + (if Trailing(ps, false) == |ps| then e.fails else 0)
    ensures Feed(e, ps, failTh, recTh, cooldown).entry.succ
      == Trailing(ps, true) + (if Trailing(ps, true) == |ps| then e.succ else 0)
    decreases |ps|
  {
    if ps != [] {
      CountersAreStreaks(e, ps[..|ps| - 1], failTh, recTh, cooldown);
    }
  }

  /** Debounce: from an entry with zero counters, the probe that causes a transition
      ends a streak of at least threshold-many equal results. */
  lemma {:induction false} TransitionNeedsStreak(e: Entry, ps: seq<Probe>, p: Probe, failTh: int, recTh: int, cooldown: int)
    requires e.fails == 0 && e.succ == 0
    requires Observe(Feed(e, ps, failTh, recTh, cooldown).entry, p.ok, p.at, failTh, recTh, cooldown).transition
    ensures !p.ok ==> Trailing(ps + [p], false) >= failTh
    ensures p.ok ==> Trailing(ps + [p], true) >= recTh
  {
    CountersAreStreaks(e, ps + [p], failTh, recTh, cooldown);
    assert (ps + [p])[..|ps + [p]| - 1] == ps;
  }

  /** Results that alternate never cross thresholds of two or more when the streak the
      first result extends is empty: no transition and no alert at all. */
  lemma {:induction false} AlternatingIsQuiet(e: Entry, ps: seq<Probe>, failTh: int, recTh: int, cooldown: int)
    requires failTh >= 2 && recTh >= 2
    requires forall i :: 0 < i < |ps| ==> ps[i].ok != ps[i - 1].ok
    requires |ps| > 0 ==> (if ps[0].ok then e.succ == 0 else e.fails == 0)
    ensures var t := Feed(e, ps, failTh, recTh, cooldown);
      t.transitions == 0 && t.alerts == [] && t.entry.status == e.status && t.entry.lastAlert == e.lastAlert
    ensures |ps| > 0 ==> Feed(e, ps, failTh, recTh, cooldown).entry.fails + Feed(e, ps, failTh, recTh, cooldown).entry.succ == 1
    decreases |ps|
  {
    if |ps| > 0 {
      AlternatingIsQuiet(e, ps[..|ps| - 1], failTh, recTh, cooldown);
      if |ps| > 1 {
        assert ps[|ps| - 2].ok != ps[|ps| - 1].ok;
        CountersAreStreaks(e, ps[..|ps| - 1], failTh, recTh, cooldown);
        assert ps[..|ps| - 1][|ps| - 2] == ps[|ps| - 2];
      }
    }
  }

  /** Consecutive alerts of one camera are at least `cooldown` apart, and the entry
      remembers the time of the latest one. */
  lemma {:induction false} AlertsRespectCooldown(e: Entry, ps: seq<Probe>, failTh: int, recTh: int, cooldown: int)
    ensures var t := Feed(e, ps, failTh, recTh, cooldown);
      && (forall i :: 0 < i < |t.alerts| ==> t.alerts[i] - t.alerts[i - 1] >= cooldown)
      && (t.alerts != [] ==> t.entry.lastAlert == t.alerts[|t.alerts| - 1])
      && (t.alerts == [] ==> t.entry.lastAlert == e.lastAlert)
    decreases |ps|
  {
    if ps != [] {
      AlertsRespectCooldown(e, ps[..|ps| - 1], failTh, recTh, cooldown);
    }
  }
}
