/**
 * The history of alerts the monitor has sent, across all cameras, and the cooldown
 * discipline it obeys: each alert for a camera comes at least that camera's cooldown
 * after the previous alert for the same camera, and the camera's `lastAlert` field
 * always holds the time of its latest alert.
 */
module AlertLog {
  import opened Wrappers
  import opened Liveness

  /** One sent alert: which camera (by name and host), the status it announced, when, and the cooldown in force. */
  datatype AlertEvent = AlertEvent(camera: string, host: string, status: Status, at: int, cooldown: int)

  /** Time of the latest alert for `name` in `log`, if any. */
  function LastAlert(log: seq<AlertEvent>, name: string): (r: Option<int>)
    ensures r.None? <==> forall i :: 0 <= i < |log| ==> log[i].camera != name
    ensures r.Some? ==> exists i :: 0 <= i < |log| && log[i].camera == name && log[i].at == r.value
                                 && forall k :: i < k < |log| ==> log[k].camera != name
    decreases |log|
  {
    if log == [] then None
    else if log[|log| - 1].camera == name then Some(log[|log| - 1].at)
    else LastAlert(log[..|log| - 1], name)
  }

  /** `ev` may follow `log`: its camera's previous alert, if any, is at least `ev.cooldown` earlier. */
  predicate Permits(log: seq<AlertEvent>, ev: AlertEvent) {
    match LastAlert(log, ev.camera)
    case None => true
    case Some(t) => ev.at - t >= ev.cooldown
  }

  /** Every alert in the log was permitted by the alerts before it. */
  ghost predicate Spaced(log: seq<AlertEvent>) {
    forall j :: 0 <= j < |log| ==> Permits(log[..j], log[j])
  }

  /** The state map remembers, for every camera that has been alerted on, the time of its latest alert. */
  ghost predicate Tracks(log: seq<AlertEvent>, state: map<string, Entry>) {
    forall name :: LastAlert(log, name).Some? ==>
      name in state && state[name].lastAlert == LastAlert(log, name).value
  }

  lemma {:induction false} LastAlertAppend(log: seq<AlertEvent>, ev: AlertEvent, name: string)
    ensures LastAlert(log + [ev], name) == if name == ev.camera then Some(ev.at) else LastAlert(log, name)
  {
    assert (log + [ev])[..|log|] == log;
  }

  /** Appending a permitted alert keeps the log spaced. */
  lemma {:induction false} SpacedAppend(log: seq<AlertEvent>, ev: AlertEvent)
    requires Spaced(log)
    requires Permits(log, ev)
    ensures Spaced(log + [ev])
  {
    var log' := log + [ev];
    forall j | 0 <= j < |log'| ensures Permits(log'[..j], log'[j]) {
      if j < |log| {
        assert log'[..j] == log[..j];
      } else {
        assert log'[..j] == log;
      }
    }
  }

  /** Storing an entry whose alert time is unchanged keeps the history tracked. */
  lemma TracksQuietUpdate(log: seq<AlertEvent>, state: map<string, Entry>, name: string, e: Entry)
    requires Tracks(log, state)
    requires name in state ==> e.lastAlert == state[name].lastAlert
    ensures Tracks(log, state[name := e])
  {
  }

  /** Recording an alert in the log and its time in the camera's entry keeps the history tracked. */
  lemma TracksAlertUpdate(log: seq<AlertEvent>, state: map<string, Entry>, ev: AlertEvent, e: Entry)
    requires Tracks(log, state)
    requires e.lastAlert == ev.at
    ensures Tracks(log + [ev], state[ev.camera := e])
  {
    forall name | LastAlert(log + [ev], name).Some?
      ensures name in state[ev.camera := e] && state[ev.camera := e][name].lastAlert == LastAlert(log + [ev], name).value
    {
      LastAlertAppend(log, ev, name);
    }
  }

  /** An alert the entry's cooldown check lets through is permitted by the log the entry tracks. */
  lemma {:induction false} GateImpliesPermits(log: seq<AlertEvent>, state: map<string, Entry>, e: Entry, ev: AlertEvent)
    requires Tracks(log, state)
    requires e == if ev.camera in state then state[ev.camera] else Fresh
    requires ev.camera !in state ==> LastAlert(log, ev.camera).None?
    requires ev.at - e.lastAlert >= ev.cooldown
    ensures Permits(log, ev)
  {
  }

  /** One camera processed in a tick keeps the history spaced and tracked: either its
      alert went through the cooldown check and is logged with the new alert time, or
      nothing is logged and the alert time stays. */
  lemma StepKeepsCooldown(log: seq<AlertEvent>, state: map<string, Entry>, name: string, before: Entry, after: Entry,
                          alerted: bool, ev: AlertEvent)
    requires Spaced(log) && Tracks(log, state)
    requires before == if name in state then state[name] else Fresh
    requires alerted ==> ev.camera == name && ev.at - before.lastAlert >= ev.cooldown && after.lastAlert == ev.at
    requires !alerted ==> after.lastAlert == before.lastAlert
    ensures alerted ==> Spaced(log + [ev]) && Tracks(log + [ev], state[name := after])
    ensures !alerted ==> Tracks(log, state[name := after])
  {
    if alerted {
      GateImpliesPermits(log, state, before, ev);
      SpacedAppend(log, ev);
      TracksAlertUpdate(log, state, ev, after);
    } else {
      TracksQuietUpdate(log, state, name, after);
    }
  }

  /** Two alerts for camera `name`, all of whose alerts carry the cooldown `cooldown >= 0`,
      are at least that cooldown apart. */
  lemma {:induction false} SpacedPair(log: seq<AlertEvent>, name: string, cooldown: int, i: nat, j: nat)
    requires Spaced(log) && cooldown >= 0
    requires forall k :: 0 <= k < |log| && log[k].camera == name ==> log[k].cooldown == cooldown
    requires i < j < |log| && log[i].camera == name && log[j].camera == name
    ensures log[j].at - log[i].at >= cooldown
    decreases j
  {
    assert Permits(log[..j], log[j]);
    assert log[..j][i].camera == name;
    var t := LastAlert(log[..j], name).value;
    var k :| 0 <= k < j && log[..j][k].camera == name && log[..j][k].at == t
             && forall m :: k < m < j ==> log[..j][m].camera != name;
    assert i <= k;
    if i < k {
      SpacedPair(log, name, cooldown, i, k);
    }
  }

  /** With one cooldown per camera, no two alerts for the same camera are less than that
      cooldown apart, not only consecutive ones. */
  lemma SpacedPairwise(log: seq<AlertEvent>, name: string, cooldown: int)
    requires Spaced(log) && cooldown >= 0
    requires forall i :: 0 <= i < |log| && log[i].camera == name ==> log[i].cooldown == cooldown
    ensures forall i, j :: 0 <= i < j < |log| && log[i].camera == name && log[j].camera == name ==>
      log[j].at - log[i].at >= cooldown
  {
    forall i, j | 0 <= i < j < |log| && log[i].camera == name && log[j].camera == name
      ensures log[j].at - log[i].at >= cooldown
    {
      SpacedPair(log, name, cooldown, i, j);
    }
  }
}
