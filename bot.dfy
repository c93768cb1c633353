/**
 * The monitor bot's mutable state and the operations that change it: the monitoring
 * tick, adding records for newly configured cameras at start-up and on reload, the
 * broadcast that drops unreachable subscribers, the daily heartbeat, and the access
 * requests and approvals that move chats between the pending and subscriber sets.
 *
 * Writing the state file and the subscriber file is modelled by a snapshot of what was
 * written and a counter of writes. Sending a message is an oracle `deliver(b, chat, k)`:
 * whether attempt `k` to send broadcast number `b` to `chat` goes through.
 */
module Bot {
  import opened Wrappers
  import opened Liveness
  import opened AlertLog
  import opened CameraConfig
  import opened Notify
  import opened Heartbeat
  import opened Tick

  datatype StartReply = AdminWelcome | AlreadyApproved | StillPending | RequestSent
  datatype StopReply = Unsubscribed | RequestCancelled | NotRegistered
  datatype Decision = Approve | Deny
  datatype ApprovalReply = AdminsOnly | BadFormat | Approved(chat: int) | Denied(chat: int) | NoMatchingRequest
  datatype ReloadReply = ReloadAdminsOnly | ReloadFailed(error: ConfigError) | Reloaded(oldInterval: int, newInterval: int, cameraCount: nat)
  datatype PingReply = PingDenied | CameraNotFound | PingTarget(name: string, host: string)

  /** The delivery `d` broadcasts the alert `ev`. */
  predicate AnnouncesOne(d: Delivery, ev: AlertEvent) {
    && d.message.CameraAlert? && d.message.camera == ev.camera && d.message.host == ev.host
    && d.message.status == ev.status && d.message.at == ev.at
  }

  /** The deliveries `ds` are the broadcasts of the alerts `alerts`, one for one and in order. */
  predicate Announces(ds: seq<Delivery>, alerts: seq<AlertEvent>)
    decreases |ds|
  {
    && |ds| == |alerts|
    && (ds != [] ==>
          && Announces(ds[..|ds| - 1], alerts[..|alerts| - 1])
          && AnnouncesOne(ds[|ds| - 1], alerts[|alerts| - 1]))
  }

  lemma AnnouncesAppend(ds: seq<Delivery>, alerts: seq<AlertEvent>, d: Delivery, ev: AlertEvent)
    requires Announces(ds, alerts)
    requires AnnouncesOne(d, ev)
    ensures Announces(ds + [d], alerts + [ev])
  {
    assert (ds + [d])[..|ds|] == ds;
    assert (alerts + [ev])[..|alerts|] == alerts;
  }

  /** Deliveries that announce at most one alert extend an announcing sequence. */
  lemma AnnouncesExtend(ds: seq<Delivery>, sent: seq<Delivery>, alerts: seq<AlertEvent>, evs: seq<AlertEvent>)
    requires Announces(ds, alerts)
    requires |sent| == |evs| <= 1
    requires |sent| == 1 ==> AnnouncesOne(sent[0], evs[0])
    ensures Announces(ds + sent, alerts + evs)
  {
    if |sent| == 1 {
      assert sent == [sent[0]] && evs == [evs[0]];
      AnnouncesAppend(ds, alerts, sent[0], evs[0]);
    } else {
      assert ds + sent == ds && alerts + evs == alerts;
    }
  }

  /** A set with a positive size has a member. */
  lemma SomeMember(s: set<int>)
    requires |s| > 0
    ensures exists c :: c in s
  {
    // the case split supplies the quantifier the solver needs
    if forall c :: c !in s {
    }
  }

  lemma AppendAssoc<T>(a: seq<T>, b: seq<T>, c: seq<T>)
    ensures a + (b + c) == (a + b) + c
  {
  }

  class BotApp {
    const adminIds: set<int>
    const deliver: (nat, int, nat) -> bool

    var config: Config
    /** The interval the monitoring job is currently scheduled with. */
    var monitorInterval: int
    var state: map<string, Entry>
    var subscribers: set<int>
    var pending: set<int>

    /** The content of the state file and how many times it was written. */
    var savedState: map<string, Entry>
    var stateSaves: nat
    /** The content of the subscriber file and how many times it was written. */
    var savedSubscribers: set<int>
    var savedPending: set<int>
    var subscriberSaves: nat

    /** Broadcasts so far, and what each one delivered. */
    var broadcasts: nat
    var outbox: seq<Delivery>
    /** Every camera alert sent so far. */
    ghost var alertLog: seq<AlertEvent>

    /** The cooldown discipline: the alerts so far are spaced by their cameras' cooldowns,
        and each alerted camera's record holds the time of its latest alert. */
    ghost predicate Valid()
      reads this`state, this`alertLog
    {
      Spaced(alertLog) && Tracks(alertLog, state)
    }

    /** The part of the state that broadcasting changes. */
    ghost function Notification(): Notified
      reads this`broadcasts, this`subscribers, this`savedSubscribers, this`savedPending, this`subscriberSaves
    {
      Notified(broadcasts, subscribers, savedSubscribers, savedPending, subscriberSaves)
    }

    /** The subscriber side is `n` broadcasts on from `start`. */
    ghost predicate NotifiedSince(start: Notified, n: nat)
      reads this`broadcasts, this`subscribers, this`savedSubscribers, this`savedPending, this`subscriberSaves, this`pending
    {
      BroadcastRun(deliver, start, Notification(), pending, n)
    }

    /** Start-up with an already parsed configuration document and the contents of the
        state and subscriber files. */
    constructor (adminIds: set<int>, deliver: (nat, int, nat) -> bool, raw: RawConfig,
                 loadedState: map<string, Entry>, loadedSubscribers: set<int>, loadedPending: set<int>)
      requires adminIds != {}
      requires ParseConfig(raw).Success?
      ensures Valid()
      ensures this.adminIds == adminIds && this.deliver == deliver
      ensures config == ParseConfig(raw).value && monitorInterval == config.poll
      ensures Merged(loadedState, config.cameras, state)
      ensures subscribers == loadedSubscribers && pending == loadedPending
      ensures savedState == loadedState && stateSaves == 0
      ensures savedSubscribers == loadedSubscribers && savedPending == loadedPending && subscriberSaves == 0
      ensures broadcasts == 0 && outbox == [] && alertLog == []
    {
      this.adminIds := adminIds;
      this.deliver := deliver;
      config := ParseConfig(raw).value;
      monitorInterval := ParseConfig(raw).value.poll;
      state := loadedState;
      subscribers, pending := loadedSubscribers, loadedPending;
      savedState, stateSaves := loadedState, 0;
      savedSubscribers, savedPending, subscriberSaves := loadedSubscribers, loadedPending, 0;
      broadcasts, outbox := 0, [];
      alertLog := [];
      new;
      AddMissingEntries();
    }

    /** Gives every configured camera without a record a fresh one. */
    method AddMissingEntries()
      requires Valid()
      modifies this`state
      ensures Valid()
      ensures Merged(old(state), config.cameras, state)
    {
      var cams := config.cameras;
      for i := 0 to |cams|
        invariant Valid()
        invariant Merged(old(state), cams[..i], state)
      {
        assert cams[..i + 1][..i] == cams[..i];
        var name := cams[i].name;
        if name !in state {
          TracksQuietUpdate(alertLog, state, name, Fresh);
          state := state[name := Fresh];
        }
      }
      assert cams[..|cams|] == cams;
    }

    // -------------------------------------------------------------------------
    // Monitoring

    /** One tick: probe result `results[i]` belongs to camera `config.cameras[i]` (pairs
        beyond the shorter list are ignored). Each camera's record moves as `Observe`
        says; an alert is broadcast on an announced transition; the state file is written
        only when some status changed. */
    method MonitorTick(results: seq<bool>, now: int) returns (ghost announced: seq<Delivery>)
      requires Valid()
      modifies this`state, this`alertLog, this`savedState, this`stateSaves,
               this`subscribers, this`savedSubscribers, this`savedPending, this`subscriberSaves, this`broadcasts, this`outbox
      ensures Valid()
      ensures var n := if |results| < |config.cameras| then |results| else |config.cameras|;
        var o := RunTick(old(state), config.cameras[..n], results[..n], now, config.failTh, config.recTh);
        && Ticked(old(state), old(alertLog), old(outbox), old(Notification()), config.cameras[..n], results[..n],
                  now, config.failTh, config.recTh, announced)
        && stateSaves == old(stateSaves) + (if o.changed then 1 else 0)
        && savedState == (if o.changed then state else old(savedState))
    {
      var cams := config.cameras;
      // With no cameras (bot.py:411-412 returns early) the pairs are empty, the loop runs
      // zero times and nothing is written, so no separate branch is needed here.
      var n := if |results| < |cams| then |results| else |cams|;
      // the pairs `zip` forms
      var cs, rs := cams[..n], results[..n];
      var changed;
      changed, announced := ProbeAll(cs, rs, now);
      SaveStateIf(changed);
    }

    /** The tick over the pairs `cs` and `rs` has been applied, starting from the record map
        `state0`, the alert log `log0`, the outbox `outbox0` and the subscriber side `start`:
        the records are the functional tick's, its alerts are appended to the log, and
        `announced`, the deliveries appended to the outbox, announce those alerts one for one,
        each sent to the subscribers left by the ones before and dropping the chats it could not
        reach. A tick without alerts leaves the subscriber side as it was. */
    ghost predicate Ticked(state0: map<string, Entry>, log0: seq<AlertEvent>, outbox0: seq<Delivery>, start: Notified,
                           cs: seq<Camera>, rs: seq<bool>, now: int, failTh: int, recTh: int, announced: seq<Delivery>)
      requires |cs| == |rs|
      reads this`state, this`alertLog, this`outbox, this`broadcasts, this`subscribers, this`savedSubscribers, this`savedPending, this`subscriberSaves, this`pending
    {
      var o := RunTick(state0, cs, rs, now, failTh, recTh);
      && state == o.state && alertLog == log0 + o.alerts
      && outbox == outbox0 + announced && Announces(announced, o.alerts)
      && NotifiedSince(start, |announced|)
      && RunDeliveries(deliver, start.broadcasts, start.subscribers, announced)
      && (o.alerts == [] ==> Notification() == start)
    }

    /** Writes the record map to the state file when `changed` holds. */
    method SaveStateIf(changed: bool)
      modifies this`savedState, this`stateSaves
      ensures stateSaves == old(stateSaves) + (if changed then 1 else 0)
      ensures savedState == (if changed then state else old(savedState))
    {
      if changed {
        savedState := state;
        stateSaves := stateSaves + 1;
      }
    }

    /** The first `i` pairs of the tick over `cs` and `rs` have been applied, starting from
        the record map `state0`, the alert log `log0`, the outbox `outbox0` and the subscriber
        side `start`: the records, the changed flag and the alert log are the functional
        tick's on those pairs, and `announced`, the `nb` deliveries appended so far, announce
        its alerts one for one as a run of broadcasts from `start`. */
    ghost predicate TickedSoFar(state0: map<string, Entry>, log0: seq<AlertEvent>, outbox0: seq<Delivery>, start: Notified,
                                cs: seq<Camera>, rs: seq<bool>, i: nat, now: int, failTh: int, recTh: int,
                                changed: bool, announced: seq<Delivery>, nb: nat)
      requires |cs| == |rs| && i <= |cs|
      reads this`state, this`alertLog, this`outbox, this`broadcasts, this`subscribers, this`savedSubscribers, this`savedPending, this`subscriberSaves, this`pending
    {
      var o := RunTick(state0, cs[..i], rs[..i], now, failTh, recTh);
      && state == o.state && changed == o.changed && alertLog == log0 + o.alerts
      && outbox == outbox0 + announced && Announces(announced, o.alerts)
      && nb == |announced| && NotifiedSince(start, nb)
      && RunDeliveries(deliver, start.broadcasts, start.subscribers, announced)
    }

    /** The loop of a tick: probe result `rs[i]` is applied to camera `cs[i]`, in order.
        Returns whether any status changed. */
    method ProbeAll(cs: seq<Camera>, rs: seq<bool>, now: int) returns (changed: bool, ghost announced: seq<Delivery>)
      requires |cs| == |rs|
      requires Valid()
      modifies this`state, this`alertLog,
               this`subscribers, this`savedSubscribers, this`savedPending, this`subscriberSaves, this`broadcasts, this`outbox
      ensures Valid()
      ensures Ticked(old(state), old(alertLog), old(outbox), old(Notification()), cs, rs, now, config.failTh, config.recTh, announced)
      ensures changed == RunTick(old(state), cs, rs, now, config.failTh, config.recTh).changed
    {
      var n := |cs|;
      var failTh, recTh := config.failTh, config.recTh;
      changed, announced := false, [];
      ghost var start: Notified, nb: nat := Notification(), 0;
      var i := 0;
      while i < n
        invariant 0 <= i <= n
        invariant TickedSoFar(old(state), old(alertLog), old(outbox), start, cs, rs, i, now, failTh, recTh, changed, announced, nb)
      {
        changed, announced, nb := ProbeNext(cs, rs, i, now, failTh, recTh, changed, old(state), old(alertLog), old(outbox), start, announced, nb);
        i := i + 1;
      }
      assert cs[..n] == cs && rs[..n] == rs;
      if announced == [] {
        QuietRun(deliver, start, Notification(), pending);
      }
      TickKeepsCooldown(old(alertLog), old(state), cs, rs, now, failTh, recTh);
    }

    /** One turn of the tick's loop: applies pair `i` and keeps the loop's invariant. */
    method ProbeNext(cs: seq<Camera>, rs: seq<bool>, i: nat, now: int, failTh: int, recTh: int, changed: bool,
                     ghost state0: map<string, Entry>, ghost log0: seq<AlertEvent>, ghost outbox0: seq<Delivery>,
                     ghost start: Notified, ghost announced: seq<Delivery>, ghost nb: nat)
      returns (changed': bool, ghost announced': seq<Delivery>, ghost nb': nat)
      requires |cs| == |rs| && i < |cs|
      requires TickedSoFar(state0, log0, outbox0, start, cs, rs, i, now, failTh, recTh, changed, announced, nb)
      modifies this`state, this`alertLog,
               this`subscribers, this`savedSubscribers, this`savedPending, this`subscriberSaves, this`broadcasts, this`outbox
      ensures TickedSoFar(state0, log0, outbox0, start, cs, rs, i + 1, now, failTh, recTh, changed', announced', nb')
    {
      ghost var o := RunTick(state0, cs[..i], rs[..i], now, failTh, recTh);
      ghost var s := Observe(EntryFor(state, cs[i].name), rs[i], now, failTh, recTh, cs[i].cooldown);
      ghost var evs := if s.alert then [AlertEvent(cs[i].name, cs[i].host, s.entry.status, now, cs[i].cooldown)] else [];
      var transition;
      ghost var sent;
      transition, sent := ApplyProbe(cs[i], rs[i], now, failTh, recTh, start, nb, announced);
      changed' := changed || transition;
      AppendAssoc(log0, o.alerts, evs);
      AppendAssoc(outbox0, announced, sent);
      AnnouncesExtend(announced, sent, o.alerts, evs);
      PrefixStep(state0, cs, rs, i, now, failTh, recTh);
      announced', nb' := announced + sent, nb + |sent|;
    }

    /** The loop body of a tick for one camera: `ok` is applied to the camera's record
        (a fresh one if it has none) with the configured thresholds `failTh` and `recTh`;
        on an announced transition the alert is broadcast and logged. Returns whether the
        status changed. */
    method ApplyProbe(cam: Camera, ok: bool, now: int, failTh: int, recTh: int,
                      ghost start: Notified, ghost m: nat, ghost prior: seq<Delivery>)
      returns (transition: bool, ghost sent: seq<Delivery>)
      requires NotifiedSince(start, m)
      requires |prior| == m && RunDeliveries(deliver, start.broadcasts, start.subscribers, prior)
      modifies this`state, this`alertLog,
               this`subscribers, this`savedSubscribers, this`savedPending, this`subscriberSaves, this`broadcasts, this`outbox
      ensures var s := Observe(EntryFor(old(state), cam.name), ok, now, failTh, recTh, cam.cooldown);
        && transition == s.transition
        && state == old(state)[cam.name := s.entry]
        && alertLog == old(alertLog) + (if s.alert then [AlertEvent(cam.name, cam.host, s.entry.status, now, cam.cooldown)] else [])
        && outbox == old(outbox) + sent
        && |sent| == (if s.alert then 1 else 0)
        && (s.alert ==>
              var dead := Unreachable(deliver, old(broadcasts), old(subscribers));
              sent[0] == Delivery(CameraAlert(cam.name, cam.host, s.entry.status, now), old(subscribers) - dead, dead))
      ensures NotifiedSince(start, m + |sent|)
      ensures RunDeliveries(deliver, start.broadcasts, start.subscribers, prior + sent)
    {
      var entry := EntryFor(state, cam.name);
      var prev := entry.status;
      transition, sent := false, [];
      if ok {
        entry := entry.(succ := entry.succ + 1, fails := 0);
        if (prev == Down || prev == Unknown) && entry.succ >= recTh {
          entry := entry.(status := Up, lastUp := now);
          transition := true;
          if now - entry.lastAlert >= cam.cooldown {
            sent := Announce(cam, Up, now, start, m, prior);
            entry := entry.(lastAlert := now);
          }
        }
      } else {
        entry := entry.(fails := entry.fails + 1, succ := 0);
        if entry.fails >= failTh && prev != Down {
          entry := entry.(status := Down, lastDown := now);
          transition := true;
          if now - entry.lastAlert >= cam.cooldown {
            sent := Announce(cam, Down, now, start, m, prior);
            entry := entry.(lastAlert := now);
          }
        }
      }
      state := state[cam.name := entry];
      if sent == [] {
        assert prior + sent == prior;
      }
    }

    /** Broadcasts and logs the alert that camera `cam` is now `status`, continuing the run
        of broadcasts from `start` whose `m` deliveries so far are `prior`. */
    method Announce(cam: Camera, status: Status, now: int, ghost start: Notified, ghost m: nat, ghost prior: seq<Delivery>)
      returns (ghost sent: seq<Delivery>)
      requires NotifiedSince(start, m)
      requires |prior| == m && RunDeliveries(deliver, start.broadcasts, start.subscribers, prior)
      modifies this`alertLog,
               this`subscribers, this`savedSubscribers, this`savedPending, this`subscriberSaves, this`broadcasts, this`outbox
      ensures alertLog == old(alertLog) + [AlertEvent(cam.name, cam.host, status, now, cam.cooldown)]
      ensures var dead := Unreachable(deliver, old(broadcasts), old(subscribers));
        sent == [Delivery(CameraAlert(cam.name, cam.host, status, now), old(subscribers) - dead, dead)]
      ensures outbox == old(outbox) + sent
      ensures NotifiedSince(start, m + 1)
      ensures RunDeliveries(deliver, start.broadcasts, start.subscribers, prior + sent)
    {
      ghost var before, mid := outbox, Notification();
      Broadcast(CameraAlert(cam.name, cam.host, status, now));
      BroadcastRunCompose(deliver, start, mid, Notification(), pending, m, 1);
      sent := [outbox[|before|]];
      RunDeliveriesExtend(deliver, start.broadcasts, start.subscribers, prior, sent);
      alertLog := alertLog + [AlertEvent(cam.name, cam.host, status, now, cam.cooldown)];
    }

    // -------------------------------------------------------------------------
    // Notification

    /** Sends `msg` to every subscriber with up to `Tries` attempts each, then drops the
        subscribers that could not be reached and, if any were dropped, writes the
        subscriber file. */
    method Broadcast(msg: Message)
      modifies this`subscribers, this`savedSubscribers, this`savedPending, this`subscriberSaves, this`broadcasts, this`outbox
      ensures var dead := Unreachable(deliver, old(broadcasts), old(subscribers));
        && subscribers == old(subscribers) - dead
        && outbox == old(outbox) + [Delivery(msg, old(subscribers) - dead, dead)]
        && broadcasts == old(broadcasts) + 1
        && subscriberSaves == old(subscriberSaves) + (if dead == {} then 0 else 1)
        && (dead != {} ==> savedSubscribers == subscribers && savedPending == pending)
        && (dead == {} ==> savedSubscribers == old(savedSubscribers) && savedPending == old(savedPending))
      ensures NotifiedSince(old(Notification()), 1)
    {
      var recipients := subscribers;
      var b := broadcasts;
      var dead := SendAll(recipients, b);
      var deadSet := set c | c in dead;
      assert deadSet == Unreachable(deliver, b, recipients) by {
        forall c ensures c in deadSet <==> c in Unreachable(deliver, b, recipients) {
          assert c in deadSet <==> c in dead;
        }
      }
      for j := 0 to |dead|
        invariant forall c :: c in subscribers <==> c in recipients && c !in dead[..j]
        invariant broadcasts == b && outbox == old(outbox)
        invariant savedSubscribers == old(savedSubscribers) && savedPending == old(savedPending)
        invariant subscriberSaves == old(subscriberSaves)
      {
        subscribers := subscribers - {dead[j]};
      }
      assert dead[..|dead|] == dead;
      assert subscribers == recipients - deadSet by {
        forall c ensures c in subscribers <==> c in recipients - deadSet {
          assert c in deadSet <==> c in dead;
        }
      }
      outbox := outbox + [Delivery(msg, recipients - deadSet, deadSet)];
      broadcasts := broadcasts + 1;
      if |dead| > 0 {
        assert dead[0] in deadSet;
        SaveSubscribers();
      } else {
        assert deadSet == {};
      }
    }

    /** The sending loop of a broadcast (broadcast number `b`): each chat of `recipients`
        is tried in some order with `SendWithRetry`; the chats whose every attempt failed
        are returned, in the order they were tried. */
    method SendAll(recipients: set<int>, b: nat) returns (dead: seq<int>)
      ensures forall c :: c in dead <==> c in recipients && !Reaches(deliver, b, c)
    {
      var remaining := recipients;
      dead := [];
      while |remaining| > 0
        invariant remaining <= recipients
        invariant forall c :: c in dead ==> c in recipients && c !in remaining && !Reaches(deliver, b, c)
        invariant forall c :: c in recipients && c !in remaining && !Reaches(deliver, b, c) ==> c in dead
        decreases |remaining|
      {
        SomeMember(remaining);
        var chat :| chat in remaining;
        var attempt := (k: nat) => deliver(b, chat, k);
        var ok, _ := SendWithRetry(attempt, Tries);
        assert forall k: nat :: attempt(k) == deliver(b, chat, k);
        assert ok <==> Reaches(deliver, b, chat);
        if !ok {
          dead := dead + [chat];
        }
        remaining := remaining - {chat};
      }
      assert remaining == {};
    }

    /** Writes both chat sets to the subscriber file. */
    method SaveSubscribers()
      modifies this`savedSubscribers, this`savedPending, this`subscriberSaves
      ensures savedSubscribers == subscribers && savedPending == pending
      ensures subscriberSaves == old(subscriberSaves) + 1
    {
      savedSubscribers, savedPending := subscribers, pending;
      subscriberSaves := subscriberSaves + 1;
    }

    /** The daily summary goes to the subscribers, if there are any: the number of cameras
        and the names of those DOWN and UNKNOWN. */
    method DailyHeartbeat()
      modifies this`subscribers, this`savedSubscribers, this`savedPending, this`subscriberSaves, this`broadcasts, this`outbox
      ensures old(subscribers) == {} ==> outbox == old(outbox)
      ensures old(subscribers) != {} ==>
        var dead := Unreachable(deliver, old(broadcasts), old(subscribers));
        var summary := HeartbeatSummary(|config.cameras|, NamesWith(config.cameras, state, Down), NamesWith(config.cameras, state, Unknown));
        outbox == old(outbox) + [Delivery(summary, old(subscribers) - dead, dead)]
      ensures NotifiedSince(old(Notification()), if old(subscribers) == {} then 0 else 1)
    {
      if subscribers == {} {
        return;
      }
      var up, down, unknown := Summarize(config.cameras, state);
      Broadcast(HeartbeatSummary(|config.cameras|, down, unknown));
    }

    /** `/testalert`: an admin sends a test message to every subscriber. */
    method TestAlertCommand(chat: int) returns (sent: bool)
      modifies this`subscribers, this`savedSubscribers, this`savedPending, this`subscriberSaves, this`broadcasts, this`outbox
      ensures sent <==> chat in adminIds
      ensures !sent ==> outbox == old(outbox)
      ensures NotifiedSince(old(Notification()), if sent then 1 else 0)
      ensures sent ==>
        var dead := Unreachable(deliver, old(broadcasts), old(subscribers));
        outbox == old(outbox) + [Delivery(TestAlert, old(subscribers) - dead, dead)]
    {
      if chat !in adminIds {
        return false;
      }
      Broadcast(TestAlert);
      sent := true;
    }

    // -------------------------------------------------------------------------
    // Access control

    /** A chat may use the bot when it is a subscriber or an admin: an admin always may,
        and a chat still waiting for approval may not. */
    predicate IsAuthorized(chat: int)
      reads this`subscribers, this`pending
      ensures chat in adminIds ==> IsAuthorized(chat)
      ensures pending !! subscribers && chat in pending && chat !in adminIds ==> !IsAuthorized(chat)
    {
      chat in subscribers || chat in adminIds
    }

    /** `/start`: a chat that is not an admin, a subscriber or already pending asks for access. */
    method StartCommand(chat: int) returns (r: StartReply)
      modifies this`pending, this`savedSubscribers, this`savedPending, this`subscriberSaves
      ensures r == (if chat in adminIds then AdminWelcome
                    else if chat in subscribers then AlreadyApproved
                    else if chat in old(pending) then StillPending
                    else RequestSent)
      ensures pending == if r == RequestSent then old(pending) + {chat} else old(pending)
      ensures r == RequestSent ==> savedPending == pending && savedSubscribers == subscribers
      ensures r != RequestSent ==> savedSubscribers == old(savedSubscribers) && savedPending == old(savedPending)
      ensures subscriberSaves == old(subscriberSaves) + (if r == RequestSent then 1 else 0)
      ensures r == RequestSent ==> !IsAuthorized(chat)
      ensures old(pending) !! subscribers ==> pending !! subscribers
    {
      if chat in adminIds {
        return AdminWelcome;
      }
      if chat in subscribers {
        return AlreadyApproved;
      }
      if chat in pending {
        return StillPending;
      }
      pending := pending + {chat};
      SaveSubscribers();
      r := RequestSent;
    }

    /** `/stop`: a subscriber unsubscribes, or a pending chat withdraws its request. */
    method StopCommand(chat: int) returns (r: StopReply)
      modifies this`subscribers, this`pending, this`savedSubscribers, this`savedPending, this`subscriberSaves
      ensures r == (if chat in old(subscribers) then Unsubscribed
                    else if chat in old(pending) then RequestCancelled
                    else NotRegistered)
      ensures subscribers == old(subscribers) - {chat}
      ensures pending == if r == RequestCancelled then old(pending) - {chat} else old(pending)
      ensures subscriberSaves == old(subscriberSaves) + (if r == NotRegistered then 0 else 1)
      ensures r != NotRegistered ==> savedSubscribers == subscribers && savedPending == pending
      ensures r == NotRegistered ==> savedSubscribers == old(savedSubscribers) && savedPending == old(savedPending)
      ensures chat !in adminIds ==> !IsAuthorized(chat)
    {
      if chat in subscribers {
        subscribers := subscribers - {chat};
        SaveSubscribers();
        return Unsubscribed;
      }
      if chat in pending {
        pending := pending - {chat};
        SaveSubscribers();
        return RequestCancelled;
      }
      r := NotRegistered;
    }

    /** An admin's approve or deny button for chat `target` (`None` when the button's data
        does not hold a chat id). */
    method ApprovalButton(from: int, decision: Decision, target: Option<int>) returns (r: ApprovalReply)
      modifies this`subscribers, this`pending, this`savedSubscribers, this`savedPending, this`subscriberSaves
      ensures from !in adminIds ==> r == AdminsOnly
      ensures from in adminIds && target.None? ==> r == BadFormat
      ensures from in adminIds && target.Some? ==>
        r == (if target.value !in old(pending) then NoMatchingRequest
              else if decision == Approve then Approved(target.value) else Denied(target.value))
      ensures r.Approved? ==> pending == old(pending) - {r.chat} && subscribers == old(subscribers) + {r.chat} && IsAuthorized(r.chat)
      ensures r.Denied? ==> pending == old(pending) - {r.chat} && subscribers == old(subscribers)
      ensures !r.Approved? && !r.Denied? ==> pending == old(pending) && subscribers == old(subscribers)
      ensures subscriberSaves == old(subscriberSaves) + (if r.Approved? || r.Denied? then 1 else 0)
      ensures (r.Approved? || r.Denied?) ==> savedSubscribers == subscribers && savedPending == pending
      ensures !r.Approved? && !r.Denied? ==> savedSubscribers == old(savedSubscribers) && savedPending == old(savedPending)
      ensures old(pending) !! old(subscribers) ==> pending !! subscribers
    {
      if from !in adminIds {
        return AdminsOnly;
      }
      if target.None? {
        return BadFormat;
      }
      var chat := target.value;
      if chat !in pending {
        return NoMatchingRequest;
      }
      pending := pending - {chat};
      if decision == Approve {
        subscribers := subscribers + {chat};
        r := Approved(chat);
      } else {
        r := Denied(chat);
      }
      SaveSubscribers();
    }

    // -------------------------------------------------------------------------
    // Configuration reload and camera lookup

    /** `/reload`: an admin re-reads the configuration. A document with an incomplete camera
        is refused as a whole and the configuration in force stays; otherwise the new one
        replaces it, new cameras get fresh records, the state file is written and the
        monitoring job is rescheduled with the new interval. */
    method ReloadCommand(chat: int, raw: RawConfig) returns (r: ReloadReply)
      requires Valid()
      modifies this`config, this`state, this`savedState, this`stateSaves, this`monitorInterval
      ensures Valid()
      ensures chat !in adminIds ==> r == ReloadAdminsOnly
      ensures chat in adminIds && ParseConfig(raw).Failure? ==> r == ReloadFailed(ParseConfig(raw).error)
      ensures !r.Reloaded? ==>
        config == old(config) && state == old(state) && savedState == old(savedState)
        && stateSaves == old(stateSaves) && monitorInterval == old(monitorInterval)
      ensures chat in adminIds && ParseConfig(raw).Success? ==>
        && r == Reloaded(old(config.poll), config.poll, |config.cameras|)
        && config == ParseConfig(raw).value
        && Merged(old(state), config.cameras, state)
        && savedState == state && stateSaves == old(stateSaves) + 1
        && monitorInterval == config.poll
    {
      if chat !in adminIds {
        return ReloadAdminsOnly;
      }
      var oldInterval := config.poll;
      match ParseConfig(raw)
      case Failure(e) =>
        r := ReloadFailed(e);
      case Success(cfg) =>
        config := cfg;
        AddMissingEntries();
        savedState := state;
        stateSaves := stateSaves + 1;
        monitorInterval := config.poll;
        r := Reloaded(oldInterval, config.poll, |config.cameras|);
    }

    /** `/ping <name>`: the camera to ping, matched without regard to case. */
    function PingCommand(chat: int, name: string): (r: PingReply)
      reads this`subscribers, this`pending, this`config
      ensures !IsAuthorized(chat) ==> r == PingDenied
      ensures IsAuthorized(chat) ==> (r == CameraNotFound <==> forall c :: c in config.cameras ==> Lower(c.name) != Lower(name))
      ensures r.PingTarget? ==> Lower(r.name) == Lower(name)
      ensures r.PingTarget? ==> exists i :: 0 <= i < |config.cameras| && config.cameras[i].name == r.name && config.cameras[i].host == r.host
                                           && forall k :: 0 <= k < i ==> Lower(config.cameras[k].name) != Lower(name)
    {
      if !IsAuthorized(chat) then PingDenied
      else match FindCamera(config.cameras, name, true)
        case None => CameraNotFound
        case Some(c) => PingTarget(c.name, c.host)
    }

    /** A ping button: the camera to ping, matched exactly; the configuration may have
        changed since the button was shown. */
    function PingButton(from: int, name: string): (r: PingReply)
      reads this`subscribers, this`pending, this`config
      ensures !IsAuthorized(from) ==> r == PingDenied
      ensures IsAuthorized(from) ==> (r == CameraNotFound <==> forall c :: c in config.cameras ==> c.name != name)
      ensures r.PingTarget? ==> r.name == name
      ensures r.PingTarget? ==> exists i :: 0 <= i < |config.cameras| && config.cameras[i].name == name && config.cameras[i].host == r.host
                                           && forall k :: 0 <= k < i ==> config.cameras[k].name != name
    {
      if !IsAuthorized(from) then PingDenied
      else match FindCamera(config.cameras, name, false)
        case None => CameraNotFound
        case Some(c) => PingTarget(c.name, c.host)
    }
  }
}
