/**
 * The camera configuration: the document read from `cameras.yaml`, its normalisation
 * (process-wide defaults, each camera's own cooldown or the default one), and the
 * by-name camera lookups of the `/ping` command and the ping buttons.
 */
module CameraConfig {
  import opened Wrappers

  const DefaultPoll := 10
  const DefaultFailThreshold := 3
  const DefaultRecoverThreshold := 2
  const DefaultCooldown := 600

  /** One camera as written in the document; any key may be missing. */
  datatype RawCamera = RawCamera(name: Option<string>, host: Option<string>, cooldown: Option<int>)

  /** The document as written; any key may be missing. */
  datatype RawConfig = RawConfig(
    poll: Option<int>, failThreshold: Option<int>, recoverThreshold: Option<int>,
    cooldown: Option<int>, cameras: Option<seq<RawCamera>>)

  datatype Camera = Camera(name: string, host: string, cooldown: int)

  datatype Config = Config(poll: int, failTh: int, recTh: int, cooldownDefault: int, cameras: seq<Camera>)

  /** A camera entry without the required key; `index` is its position in the list. */
  datatype ConfigError = MissingName(index: nat) | MissingHost(index: nat)

  /** A raw camera that has both required keys. */
  predicate Complete(rc: RawCamera) {
    rc.name.Some? && rc.host.Some?
  }

  function RawCameras(raw: RawConfig): seq<RawCamera> {
    raw.cameras.GetOr([])
  }

  function CooldownDefault(raw: RawConfig): int {
    raw.cooldown.GetOr(DefaultCooldown)
  }

  /** The error raised by the first incomplete camera at position `index`: the name is looked up before the host. */
  function ErrorAt(rc: RawCamera, index: nat): ConfigError
    requires !Complete(rc)
  {
    if rc.name.None? then MissingName(index) else MissingHost(index)
  }

  /** A normalised camera for each raw one, from position `from` on, or the error of the first incomplete one. */
  function NormalizeCameras(rcs: seq<RawCamera>, default: int, from: nat): (r: Result<seq<Camera>, ConfigError>)
    requires from <= |rcs|
    ensures r.Success? <==> forall i :: from <= i < |rcs| ==> Complete(rcs[i])
    ensures r.Success? ==> |r.value| == |rcs| - from
    ensures r.Success? ==> forall i :: from <= i < |rcs| ==>
      r.value[i - from] == Camera(rcs[i].name.value, rcs[i].host.value, rcs[i].cooldown.GetOr(default))
    ensures r.Failure? ==> exists i :: from <= i < |rcs| && !Complete(rcs[i]) && r.error == ErrorAt(rcs[i], i)
                                    && forall k :: from <= k < i ==> Complete(rcs[k])
    decreases |rcs| - from
  {
    if from == |rcs| then Success([])
    else
      var rc := rcs[from];
      if !Complete(rc) then Failure(ErrorAt(rc, from))
      else
        match NormalizeCameras(rcs, default, from + 1)
        case Failure(e) => Failure(e)
        case Success(rest) => Success([Camera(rc.name.value, rc.host.value, rc.cooldown.GetOr(default))] + rest)
  }

  /** The whole configuration, or the error of the first incomplete camera; nothing partial. */
  function ParseConfig(raw: RawConfig): (r: Result<Config, ConfigError>)
    ensures r.Success? <==> forall i :: 0 <= i < |RawCameras(raw)| ==> Complete(RawCameras(raw)[i])
    ensures r.Success? ==>
      && r.value.poll == raw.poll.GetOr(DefaultPoll)
      && r.value.failTh == raw.failThreshold.GetOr(DefaultFailThreshold)
      && r.value.recTh == raw.recoverThreshold.GetOr(DefaultRecoverThreshold)
      && r.value.cooldownDefault == CooldownDefault(raw)
      && |r.value.cameras| == |RawCameras(raw)|
    ensures r.Success? ==> forall i :: 0 <= i < |RawCameras(raw)| ==>
      && r.value.cameras[i].name == RawCameras(raw)[i].name.value
      && r.value.cameras[i].host == RawCameras(raw)[i].host.value
      && r.value.cameras[i].cooldown == RawCameras(raw)[i].cooldown.GetOr(r.value.cooldownDefault)
  {
    match NormalizeCameras(RawCameras(raw), CooldownDefault(raw), 0)
    case Failure(e) => Failure(e)
    case Success(cams) =>
      Success(Config(raw.poll.GetOr(DefaultPoll), raw.failThreshold.GetOr(DefaultFailThreshold),
                     raw.recoverThreshold.GetOr(DefaultRecoverThreshold), CooldownDefault(raw), cams))
  }

  // ---------------------------------------------------------------------------
  // The loader as the Python bot writes it: the scalar settings and an emptied camera
  // list are stored before the per-camera loop, which can stop half-way.

  /** The normalised cameras before the first incomplete one. */
  function CompletePrefix(rcs: seq<RawCamera>, default: int): (cams: seq<Camera>)
    ensures |cams| <= |rcs|
    ensures forall i :: 0 <= i < |cams| ==>
      (Complete(rcs[i]) && cams[i] == Camera(rcs[i].name.value, rcs[i].host.value, rcs[i].cooldown.GetOr(default)))
    ensures |cams| < |rcs| ==> !Complete(rcs[|cams|])
  {
    if rcs == [] || !Complete(rcs[0]) then []
    else [Camera(rcs[0].name.value, rcs[0].host.value, rcs[0].cooldown.GetOr(default))]
         + CompletePrefix(rcs[1..], default)
  }

  /** The configuration fields as the Python bot leaves them after loading `raw`, with the
      error it raised, if any. Whatever was loaded before plays no part. */
  function LoadAsWritten(raw: RawConfig): (r: (Config, Option<ConfigError>))
    ensures r.1.None? <==> ParseConfig(raw).Success?
    ensures r.1.None? ==> r.0 == ParseConfig(raw).value
    ensures r.1.Some? ==> r.1.value == ParseConfig(raw).error && |r.0.cameras| < |RawCameras(raw)|
    ensures r.0.poll == raw.poll.GetOr(DefaultPoll) && r.0.failTh == raw.failThreshold.GetOr(DefaultFailThreshold)
            && r.0.recTh == raw.recoverThreshold.GetOr(DefaultRecoverThreshold) && r.0.cooldownDefault == CooldownDefault(raw)
    ensures forall i :: 0 <= i < |r.0.cameras| ==>
      (Complete(RawCameras(raw)[i])
       && r.0.cameras[i] == Camera(RawCameras(raw)[i].name.value, RawCameras(raw)[i].host.value, RawCameras(raw)[i].cooldown.GetOr(r.0.cooldownDefault)))
  {
    var scalars := Config(raw.poll.GetOr(DefaultPoll), raw.failThreshold.GetOr(DefaultFailThreshold),
                          raw.recoverThreshold.GetOr(DefaultRecoverThreshold), CooldownDefault(raw), []);
    match ParseConfig(raw)
    case Success(cfg) => (cfg, None)
    case Failure(e) => (scalars.(cameras := CompletePrefix(RawCameras(raw), CooldownDefault(raw))), Some(e))
  }

  /** A reload whose second camera lacks its name fails, yet the configuration in force
      afterwards is not the one before it: the poll interval is the new one and the
      camera "Gate" is no longer monitored. */
  lemma FailedLoadReplacesConfig()
    ensures var before := Config(10, 3, 2, 600, [Camera("Gate", "10.0.0.1", 600)]);
      var raw := RawConfig(Some(30), None, None, None,
        Some([RawCamera(Some("Lobby"), Some("10.0.0.2"), None), RawCamera(None, Some("10.0.0.3"), None)]));
      var (after, err) := LoadAsWritten(raw);
      && err == Some(MissingName(1))
      && after != before
      && after.poll == 30
      && after.cameras == [Camera("Lobby", "10.0.0.2", 600)]
  {
    var rcs := [RawCamera(Some("Lobby"), Some("10.0.0.2"), None), RawCamera(None, Some("10.0.0.3"), None)];
    assert !Complete(rcs[1]);
    assert CompletePrefix(rcs[1..], 600) == [];
  }

  // ---------------------------------------------------------------------------
  // Camera lookup by name

  /** ASCII lower-casing, enough to compare camera names without regard to case: no
      upper-case letter is left, and every other character stays where it was. */
  function Lower(s: string): (r: string)
    ensures |r| == |s|
    ensures forall i :: 0 <= i < |r| ==> !('A' <= r[i] <= 'Z')
    ensures forall i :: 0 <= i < |s| && !('A' <= s[i] <= 'Z') ==> r[i] == s[i]
  {
    seq(|s|, i requires 0 <= i < |s| => if 'A' <= s[i] <= 'Z' then (s[i] - 'A' + 'a') as char else s[i])
  }

  /** Lower-casing twice is lower-casing once, so a lower-cased name matches itself. */
  lemma LowerIdempotent(s: string)
    ensures Lower(Lower(s)) == Lower(s)
  {
    var r := Lower(s);
    assert forall i :: 0 <= i < |r| ==> Lower(r)[i] == r[i];
  }

  predicate NameMatches(c: Camera, name: string, ignoreCase: bool) {
    if ignoreCase then Lower(c.name) == Lower(name) else c.name == name
  }

  /** The first configured camera whose name matches: exactly for a ping button, without
      regard to case for the `/ping <name>` command. */
  function FindCamera(cams: seq<Camera>, name: string, ignoreCase: bool): (r: Option<Camera>)
    ensures r.None? <==> forall i :: 0 <= i < |cams| ==> !NameMatches(cams[i], name, ignoreCase)
    ensures r.Some? ==> exists i :: 0 <= i < |cams| && cams[i] == r.value && NameMatches(cams[i], name, ignoreCase)
                                 && forall k :: 0 <= k < i ==> !NameMatches(cams[k], name, ignoreCase)
    decreases |cams|
  {
    if cams == [] then None
    else if NameMatches(cams[0], name, ignoreCase) then Some(cams[0])
    else
      var r := FindCamera(cams[1..], name, ignoreCase);
      if r.Some? then
        ghost var i :| 0 <= i < |cams[1..]| && cams[1..][i] == r.value && NameMatches(cams[1..][i], name, ignoreCase)
                        && forall k :: 0 <= k < i ==> !NameMatches(cams[1..][k], name, ignoreCase);
        assert cams[i + 1] == r.value;
        r
      else r
  }

  /** A lookup that ignores case finds every camera an exact lookup finds, though
      possibly an earlier one whose name differs only in case. */
  lemma {:induction false} ExactMatchFoundIgnoringCase(cams: seq<Camera>, name: string)
    requires FindCamera(cams, name, false).Some?
    ensures FindCamera(cams, name, true).Some?
    ensures Lower(FindCamera(cams, name, true).value.name) == Lower(name)
  {
    var c := FindCamera(cams, name, false).value;
    var i :| 0 <= i < |cams| && cams[i] == c && NameMatches(cams[i], name, false);
    assert NameMatches(cams[i], name, true);
  }
}
