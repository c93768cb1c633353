/**
 * The daily heartbeat's summary: every configured camera is listed under UP, DOWN or
 * UNKNOWN according to its record, in configuration order; a camera without a record
 * counts as UNKNOWN.
 */
module Heartbeat {
  import opened Liveness
  import opened CameraConfig

  /** A camera's status as the state map gives it; no record reads as UNKNOWN. */
  function StatusOf(state: map<string, Entry>, name: string): Status {
    if name in state then state[name].status else Unknown
  }

  /** The names of the cameras in `cams` whose status is `s`, in order. */
  function NamesWith(cams: seq<Camera>, state: map<string, Entry>, s: Status): seq<string>
    decreases |cams|
  {
    if cams == [] then []
    else
      var last := cams[|cams| - 1];
      NamesWith(cams[..|cams| - 1], state, s) + (if StatusOf(state, last.name) == s then [last.name] else [])
  }

  /** Walks the cameras once, sorting each name into one of three lists. */
  method Summarize(cams: seq<Camera>, state: map<string, Entry>) returns (up: seq<string>, down: seq<string>, unknown: seq<string>)
    ensures up == NamesWith(cams, state, Up)
    ensures down == NamesWith(cams, state, Down)
    ensures unknown == NamesWith(cams, state, Unknown)
  {
    up, down, unknown := [], [], [];
    for i := 0 to |cams|
      invariant up == NamesWith(cams[..i], state, Up)
      invariant down == NamesWith(cams[..i], state, Down)
      invariant unknown == NamesWith(cams[..i], state, Unknown)
    {
      assert cams[..i + 1][..i] == cams[..i];
      var name := cams[i].name;
      var st := StatusOf(state, name);
      if st == Up {
        up := up + [name];
      } else if st == Down {
        down := down + [name];
      } else {
        unknown := unknown + [name];
      }
    }
    assert cams[..|cams|] == cams;
  }

  /** The three lists together are exactly as long as the camera list. */
  lemma {:induction false} SummaryCoversAll(cams: seq<Camera>, state: map<string, Entry>)
    ensures |NamesWith(cams, state, Up)| + |NamesWith(cams, state, Down)| + |NamesWith(cams, state, Unknown)| == |cams|
    decreases |cams|
  {
    if cams != [] {
      SummaryCoversAll(cams[..|cams| - 1], state);
    }
  }

  /** A name is listed under status `s` exactly when some camera of that name has status `s`. */
  lemma {:induction false} ListedIffStatus(cams: seq<Camera>, state: map<string, Entry>, s: Status, name: string)
    ensures name in NamesWith(cams, state, s) <==>
      (StatusOf(state, name) == s && exists i :: 0 <= i < |cams| && cams[i].name == name)
    decreases |cams|
  {
    if cams != [] {
      var init := cams[..|cams| - 1];
      var last := cams[|cams| - 1];
      ListedIffStatus(init, state, s, name);
      var tail := if StatusOf(state, last.name) == s then [last.name] else [];
      assert NamesWith(cams, state, s) == NamesWith(init, state, s) + tail;
      if name in NamesWith(init, state, s) {
        var i :| 0 <= i < |init| && init[i].name == name;
        assert cams[i] == init[i];
      }
      if StatusOf(state, name) == s && exists i :: 0 <= i < |cams| && cams[i].name == name {
        var i :| 0 <= i < |cams| && cams[i].name == name;
        if i < |init| {
          assert init[i] == cams[i];
        } else {
          assert name in tail;
        }
      }
    }
  }

  /** The heartbeat reports "all cameras UP" exactly when every camera's status is UP. */
  lemma AllUpWhenNothingElse(cams: seq<Camera>, state: map<string, Entry>)
    ensures (NamesWith(cams, state, Down) == [] && NamesWith(cams, state, Unknown) == [])
        <==> forall i :: 0 <= i < |cams| ==> StatusOf(state, cams[i].name) == Up
  {
    if forall i :: 0 <= i < |cams| ==> StatusOf(state, cams[i].name) == Up {
      if NamesWith(cams, state, Down) != [] {
        ListedIffStatus(cams, state, Down, NamesWith(cams, state, Down)[0]);
      }
      if NamesWith(cams, state, Unknown) != [] {
        ListedIffStatus(cams, state, Unknown, NamesWith(cams, state, Unknown)[0]);
      }
    } else {
      var i :| 0 <= i < |cams| && StatusOf(state, cams[i].name) != Up;
      ListedIffStatus(cams, state, StatusOf(state, cams[i].name), cams[i].name);
    }
  }
}
