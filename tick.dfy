/**
 * One monitor tick as a function: the probe results are paired with the configured
 * cameras in order, and each pair is applied to that camera's record (created fresh
 * if missing) with the camera's own cooldown.
 */
module Tick {
  import opened Wrappers
  import opened Liveness
  import opened AlertLog
  import opened CameraConfig

  /** The state after the tick, whether any camera changed status, and the alerts sent, in order. */
  datatype TickOutcome = TickOutcome(state: map<string, Entry>, changed: bool, alerts: seq<AlertEvent>)

  /** The record a camera is processed with: its own, or a fresh one. */
  function EntryFor(state: map<string, Entry>, name: string): Entry {
    if name in state then state[name] else Fresh
  }

  /** The names of the cameras in `cams`. */
  function Names(cams: seq<Camera>): set<string>
    decreases |cams|
  {
    if cams == [] then {} else Names(cams[..|cams| - 1]) + {cams[|cams| - 1].name}
  }

  /** `after` is `before` with a fresh record added for every camera of `cams` that had
      none; every record already there, configured or not, is kept as it was. */
  ghost predicate Merged(before: map<string, Entry>, cams: seq<Camera>, after: map<string, Entry>) {
    && after.Keys == before.Keys + Names(cams)
    && (forall n :: n in before ==> after[n] == before[n])
    && (forall n :: n in after && n !in before ==> after[n] == Fresh)
  }

  /** Applies `oks[i]` to camera `cams[i]` for every `i`, left to right. */
  function RunTick(state: map<string, Entry>, cams: seq<Camera>, oks: seq<bool>, now: int, failTh: int, recTh: int): (o: TickOutcome)
    requires |oks| == |cams|
    ensures |o.alerts| <= |cams|
    ensures o.alerts != [] ==> o.changed
    decreases |cams|
  {
    if cams == [] then TickOutcome(state, false, [])
    else
      var n := |cams| - 1;
      var o := RunTick(state, cams[..n], oks[..n], now, failTh, recTh);
      var cam := cams[n];
      var s := Observe(EntryFor(o.state, cam.name), oks[n], now, failTh, recTh, cam.cooldown);
      TickOutcome(o.state[cam.name := s.entry], o.changed || s.transition,
                  o.alerts + (if s.alert then [AlertEvent(cam.name, cam.host, s.entry.status, now, cam.cooldown)] else []))
  }


  /** Every probed camera has a record after a tick; records of other names are left as they were. */
  lemma {:induction false} TickKeys(state: map<string, Entry>, cams: seq<Camera>, oks: seq<bool>, now: int, failTh: int, recTh: int)
    requires |oks| == |cams|
    ensures var o := RunTick(state, cams, oks, now, failTh, recTh);
      && o.state.Keys == state.Keys + Names(cams)
      && (forall n :: n in state && n !in Names(cams) ==> o.state[n] == state[n])
    decreases |cams|
  {
    if cams != [] {
      TickKeys(state, cams[..|cams| - 1], oks[..|oks| - 1], now, failTh, recTh);
    }
  }

  /** Unfolds the last step of a tick. */
  lemma LastStep(state: map<string, Entry>, cams: seq<Camera>, oks: seq<bool>, now: int, failTh: int, recTh: int)
    requires |oks| == |cams| > 0
    ensures var n := |cams| - 1;
      var o := RunTick(state, cams[..n], oks[..n], now, failTh, recTh);
      var s := Observe(EntryFor(o.state, cams[n].name), oks[n], now, failTh, recTh, cams[n].cooldown);
      RunTick(state, cams, oks, now, failTh, recTh)
        == TickOutcome(o.state[cams[n].name := s.entry], o.changed || s.transition,
                       o.alerts + (if s.alert then [AlertEvent(cams[n].name, cams[n].host, s.entry.status, now, cams[n].cooldown)] else []))
  {
  }

  /** The outcome on the first `i + 1` cameras is the outcome on the first `i` followed by camera `i`. */
  lemma PrefixStep(state: map<string, Entry>, cams: seq<Camera>, oks: seq<bool>, i: nat, now: int, failTh: int, recTh: int)
    requires |oks| == |cams| && i < |cams|
    ensures var o := RunTick(state, cams[..i], oks[..i], now, failTh, recTh);
      var s := Observe(EntryFor(o.state, cams[i].name), oks[i], now, failTh, recTh, cams[i].cooldown);
      RunTick(state, cams[..i + 1], oks[..i + 1], now, failTh, recTh)
        == TickOutcome(o.state[cams[i].name := s.entry], o.changed || s.transition,
                       o.alerts + (if s.alert then [AlertEvent(cams[i].name, cams[i].host, s.entry.status, now, cams[i].cooldown)] else []))
  {
    var cs, rs := cams[..i + 1], oks[..i + 1];
    assert cs[..i] == cams[..i] && rs[..i] == oks[..i];
    LastStep(state, cs, rs, now, failTh, recTh);
  }

  /** After a tick, no probed camera has both counters nonzero. */
  lemma {:induction false} TickCountersExclusive(state: map<string, Entry>, cams: seq<Camera>, oks: seq<bool>, now: int, failTh: int, recTh: int)
    requires |oks| == |cams|
    ensures var o := RunTick(state, cams, oks, now, failTh, recTh);
      forall name :: name in Names(cams) ==> name in o.state && (o.state[name].fails == 0 || o.state[name].succ == 0)
    decreases |cams|
  {
    if cams != [] {
      var n := |cams| - 1;
      var init := cams[..n];
      TickCountersExclusive(state, init, oks[..n], now, failTh, recTh);
      TickKeys(state, init, oks[..n], now, failTh, recTh);
      var o := RunTick(state, init, oks[..n], now, failTh, recTh);
      var s := Observe(EntryFor(o.state, cams[n].name), oks[n], now, failTh, recTh, cams[n].cooldown);
      assert RunTick(state, cams, oks, now, failTh, recTh).state == o.state[cams[n].name := s.entry];
    }
  }

  /** A tick never puts a camera back to UNKNOWN. */
  lemma {:induction false} TickNeverUnknown(state: map<string, Entry>, cams: seq<Camera>, oks: seq<bool>, now: int, failTh: int, recTh: int)
    requires |oks| == |cams|
    ensures var o := RunTick(state, cams, oks, now, failTh, recTh);
      forall n :: n in state && state[n].status != Unknown ==> n in o.state && o.state[n].status != Unknown
    decreases |cams|
  {
    if cams != [] {
      var n := |cams| - 1;
      TickNeverUnknown(state, cams[..n], oks[..n], now, failTh, recTh);
      TickKeys(state, cams[..n], oks[..n], now, failTh, recTh);
      LastStep(state, cams, oks, now, failTh, recTh);
    }
  }

  /** A tick without a status change sends no alert and leaves every status and
      up/down time as it was; the records it creates are UNKNOWN. */
  lemma {:induction false} UnchangedTickIsQuiet(state: map<string, Entry>, cams: seq<Camera>, oks: seq<bool>, now: int, failTh: int, recTh: int)
    requires |oks| == |cams|
    requires !RunTick(state, cams, oks, now, failTh, recTh).changed
    ensures var o := RunTick(state, cams, oks, now, failTh, recTh);
      && o.alerts == []
      && (forall n :: n in state ==>
            (n in o.state && o.state[n].status == state[n].status
             && o.state[n].lastUp == state[n].lastUp && o.state[n].lastDown == state[n].lastDown))
      && (forall n :: n in o.state && n !in state ==> o.state[n].status == Unknown)
    decreases |cams|
  {
    if cams != [] {
      var n := |cams| - 1;
      LastStep(state, cams, oks, now, failTh, recTh);
      UnchangedTickIsQuiet(state, cams[..n], oks[..n], now, failTh, recTh);
      TickKeys(state, cams[..n], oks[..n], now, failTh, recTh);
    }
  }

  /** Every alert of a tick is stamped with the tick's time and carries the name, host and
      cooldown of one of the probed cameras. */
  lemma {:induction false} TickAlertsStamped(state: map<string, Entry>, cams: seq<Camera>, oks: seq<bool>, now: int, failTh: int, recTh: int)
    requires |oks| == |cams|
    ensures var o := RunTick(state, cams, oks, now, failTh, recTh);
      forall i :: 0 <= i < |o.alerts| ==>
        (o.alerts[i].at == now && exists c :: c in cams && c.name == o.alerts[i].camera && c.host == o.alerts[i].host && c.cooldown == o.alerts[i].cooldown)
    decreases |cams|
  {
    if cams != [] {
      var n := |cams| - 1;
      var init := cams[..n];
      LastStep(state, cams, oks, now, failTh, recTh);
      TickAlertsStamped(state, init, oks[..n], now, failTh, recTh);
      var o := RunTick(state, init, oks[..n], now, failTh, recTh);
      var s := Observe(EntryFor(o.state, cams[n].name), oks[n], now, failTh, recTh, cams[n].cooldown);
      var o' := RunTick(state, cams, oks, now, failTh, recTh);
      forall i | 0 <= i < |o'.alerts|
        ensures o'.alerts[i].at == now && exists c :: c in cams && c.name == o'.alerts[i].camera && c.host == o'.alerts[i].host && c.cooldown == o'.alerts[i].cooldown
      {
        if i < |o.alerts| {
          assert o'.alerts[i] == o.alerts[i];
          var c :| c in init && c.name == o.alerts[i].camera && c.host == o.alerts[i].host && c.cooldown == o.alerts[i].cooldown;
          var k :| 0 <= k < n && init[k] == c;
          assert cams[k] == c;
        } else {
          assert o'.alerts[i] == AlertEvent(cams[n].name, cams[n].host, s.entry.status, now, cams[n].cooldown);
          assert cams[n] in cams;
        }
      }
    }
  }

  /** A tick keeps the alert history spaced and tracked by the state. */
  lemma {:induction false} TickKeepsCooldown(log: seq<AlertEvent>, state: map<string, Entry>, cams: seq<Camera>, oks: seq<bool>,
                                             now: int, failTh: int, recTh: int)
    requires |oks| == |cams|
    requires Spaced(log) && Tracks(log, state)
    ensures var o := RunTick(state, cams, oks, now, failTh, recTh);
      Spaced(log + o.alerts) && Tracks(log + o.alerts, o.state)
    decreases |cams|
  {
    if cams != [] {
      var n := |cams| - 1;
      TickKeepsCooldown(log, state, cams[..n], oks[..n], now, failTh, recTh);
      var o := RunTick(state, cams[..n], oks[..n], now, failTh, recTh);
      var log' := log + o.alerts;
      var cam := cams[n];
      var e := EntryFor(o.state, cam.name);
      var s := Observe(e, oks[n], now, failTh, recTh, cam.cooldown);
      var o' := RunTick(state, cams, oks, now, failTh, recTh);
      var ev := AlertEvent(cam.name, cam.host, s.entry.status, now, cam.cooldown);
      LastStep(state, cams, oks, now, failTh, recTh);
      assert o'.state == o.state[cam.name := s.entry];
      StepKeepsCooldown(log', o.state, cam.name, e, s.entry, s.alert, ev);
      if s.alert {
        assert o'.alerts == o.alerts + [ev];
        assert log + o'.alerts == log' + [ev];
      } else {
        assert o'.alerts == o.alerts;
      }
    } else {
      assert log + [] == log;
    }
  }

  /** A name occurs in `Names(cams)` only as the name of one of the cameras. */
  lemma {:induction false} NamesAreCameraNames(cams: seq<Camera>, name: string)
    requires name in Names(cams)
    ensures exists j :: 0 <= j < |cams| && cams[j].name == name
    decreases |cams|
  {
    var n := |cams| - 1;
    if cams[n].name != name {
      NamesAreCameraNames(cams[..n], name);
      var j :| 0 <= j < n && cams[..n][j].name == name;
      assert cams[j].name == name;
    }
  }

  /** When camera `i` is the only configured camera with its name, a tick moves that
      camera's record exactly as one `Observe` step on its probe result does. */
  lemma {:induction false} TickMovesOneCamera(state: map<string, Entry>, cams: seq<Camera>, oks: seq<bool>, i: nat,
                                              now: int, failTh: int, recTh: int)
    requires |oks| == |cams| && i < |cams|
    requires forall j :: 0 <= j < |cams| && j != i ==> cams[j].name != cams[i].name
    ensures var o := RunTick(state, cams, oks, now, failTh, recTh);
      && cams[i].name in o.state
      && o.state[cams[i].name] == Observe(EntryFor(state, cams[i].name), oks[i], now, failTh, recTh, cams[i].cooldown).entry
    decreases |cams|
  {
    var n := |cams| - 1;
    var name := cams[i].name;
    LastStep(state, cams, oks, now, failTh, recTh);
    if i == n {
      var o := RunTick(state, cams[..n], oks[..n], now, failTh, recTh);
      TickKeys(state, cams[..n], oks[..n], now, failTh, recTh);
      if name in Names(cams[..n]) {
        NamesAreCameraNames(cams[..n], name);
        assert false;
      }
      assert EntryFor(o.state, name) == EntryFor(state, name);
    } else {
      forall j | 0 <= j < n && j != i
        ensures cams[..n][j].name != cams[..n][i].name
      {
        assert cams[..n][j] == cams[j];
      }
      TickMovesOneCamera(state, cams[..n], oks[..n], i, now, failTh, recTh);
      assert cams[n].name != name;
    }
  }

  /** Successive ticks feed a camera with a name of its own its probe results as one
      stream: if its record was the outcome of `Feed` on the probes so far, after the tick
      it is the outcome of `Feed` on those probes and this tick's one. */
  lemma TickExtendsFeed(state: map<string, Entry>, cams: seq<Camera>, oks: seq<bool>, i: nat, now: int, failTh: int, recTh: int,
                        e: Entry, ps: seq<Probe>)
    requires |oks| == |cams| && i < |cams|
    requires forall j :: 0 <= j < |cams| && j != i ==> cams[j].name != cams[i].name
    requires EntryFor(state, cams[i].name) == Feed(e, ps, failTh, recTh, cams[i].cooldown).entry
    ensures var o := RunTick(state, cams, oks, now, failTh, recTh);
      && cams[i].name in o.state
      && o.state[cams[i].name] == Feed(e, ps + [Probe(oks[i], now)], failTh, recTh, cams[i].cooldown).entry
  {
    TickMovesOneCamera(state, cams, oks, i, now, failTh, recTh);
    assert (ps + [Probe(oks[i], now)])[..|ps|] == ps;
  }
}
