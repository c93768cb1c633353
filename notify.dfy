/**
 * Delivery of one message to one chat: up to `tries` attempts, sleeping between them
 * for a back-off that starts at 2 seconds and doubles after each failed attempt.
 * The outcome of each attempt is an oracle: the chat service is not part of this model.
 */
module Notify {
  import opened Liveness

  /** Attempts per recipient in a broadcast. */
  const Tries: nat := 3

  /** What a broadcast says; the text and HTML layout are not modelled. */
  datatype Message =
    | CameraAlert(camera: string, host: string, status: Status, at: int)
    | HeartbeatSummary(total: nat, down: seq<string>, unknown: seq<string>)
    | TestAlert

  /** One broadcast: the message, who received it, and who was dropped as unreachable. */
  datatype Delivery = Delivery(message: Message, delivered: set<int>, pruned: set<int>)

  function Pow2(n: nat): (r: nat)
    ensures r >= 1
  {
    if n == 0 then 1 else 2 * Pow2(n - 1)
  }

  /** The sleep before retry number `k + 1`: 2, 4, 8, ... seconds. */
  function Backoff(k: nat): nat {
    2 * Pow2(k)
  }

  /** Sends with retries. `attempt(i)` says whether attempt `i` goes through.
      `ok` is false exactly when the last allowed attempt failed (the Python bot
      re-raises then); `sleeps` lists the back-off delays slept, one before each retry. */
  method SendWithRetry(attempt: nat -> bool, tries: nat) returns (ok: bool, sleeps: seq<nat>)
    ensures ok <==> tries == 0 || exists i :: 0 <= i < tries && attempt(i)
    ensures forall i :: 0 <= i < |sleeps| ==> !attempt(i) && sleeps[i] == Backoff(i)
    ensures ok && tries > 0 ==> |sleeps| < tries && attempt(|sleeps|)
    ensures !ok ==> |sleeps| == tries - 1
  {
    var backoff := 2;
    sleeps := [];
    var i := 0;
    while i < tries
      invariant 0 <= i <= tries
      invariant tries > 0 ==> i < tries
      invariant |sleeps| == i
      invariant forall k :: 0 <= k < i ==> !attempt(k) && sleeps[k] == Backoff(k)
      invariant backoff == Backoff(i)
    {
      if attempt(i) {
        return true, sleeps;
      }
      if i == tries - 1 {
        assert forall k :: 0 <= k < tries ==> !attempt(k);
        return false, sleeps;
      }
      sleeps := sleeps + [backoff];
      backoff := backoff * 2;
      i := i + 1;
    }
    // with no attempts allowed the loop never runs and the send counts as done
    ok := true;
  }

  /** Broadcast `b` reaches `chat` within the allowed attempts, under outcome oracle `deliver`. */
  predicate Reaches(deliver: (nat, int, nat) -> bool, b: nat, chat: int) {
    exists k :: 0 <= k < Tries && deliver(b, chat, k)
  }

  /** The recipients broadcast `b` drops: those whose every attempt failed. */
  function Unreachable(deliver: (nat, int, nat) -> bool, b: nat, subs: set<int>): set<int> {
    set c | c in subs && !Reaches(deliver, b, c)
  }

  /** The subscribers left after `n` broadcasts numbered `b`, `b + 1`, ..., starting from
      `subs`: each broadcast drops the chats it could not reach. */
  function Survivors(deliver: (nat, int, nat) -> bool, b: nat, subs: set<int>, n: nat): set<int>
    decreases n
  {
    if n == 0 then subs
    else
      var before := Survivors(deliver, b, subs, n - 1);
      before - Unreachable(deliver, b + n - 1, before)
  }

  /** How many of those `n` broadcasts dropped some chat, and so wrote the subscriber file. */
  function Prunings(deliver: (nat, int, nat) -> bool, b: nat, subs: set<int>, n: nat): nat
    decreases n
  {
    if n == 0 then 0
    else
      var before := Survivors(deliver, b, subs, n - 1);
      Prunings(deliver, b, subs, n - 1) + (if Unreachable(deliver, b + n - 1, before) == {} then 0 else 1)
  }

  /** A chat is still subscribed after `n` broadcasts iff it was subscribed before and
      every one of them reached it. */
  lemma {:induction false} SurvivorsReached(deliver: (nat, int, nat) -> bool, b: nat, subs: set<int>, n: nat, c: int)
    ensures c in Survivors(deliver, b, subs, n) <==> c in subs && forall k :: b <= k < b + n ==> Reaches(deliver, k, c)
    decreases n
  {
    if n > 0 {
      SurvivorsReached(deliver, b, subs, n - 1, c);
      var before := Survivors(deliver, b, subs, n - 1);
      if c in before && !Reaches(deliver, b + n - 1, c) {
        assert c in Unreachable(deliver, b + n - 1, before);
      }
      if c in subs && forall k :: b <= k < b + n ==> Reaches(deliver, k, c) {
        assert Reaches(deliver, b + n - 1, c);
      }
    }
  }

  /** The subscriber file is written during `n` broadcasts iff some chat was dropped. */
  lemma {:induction false} PruningsIffDropped(deliver: (nat, int, nat) -> bool, b: nat, subs: set<int>, n: nat)
    ensures Survivors(deliver, b, subs, n) <= subs
    ensures Prunings(deliver, b, subs, n) == 0 <==> Survivors(deliver, b, subs, n) == subs
    decreases n
  {
    if n > 0 {
      PruningsIffDropped(deliver, b, subs, n - 1);
      var before := Survivors(deliver, b, subs, n - 1);
      var dead := Unreachable(deliver, b + n - 1, before);
      if dead != {} {
        var c :| c in dead;
        assert c !in Survivors(deliver, b, subs, n);
      }
    }
  }

  /** A run of `m + k` broadcasts is a run of `m` followed by a run of `k`. */
  lemma {:induction false} SurvivorsSplit(deliver: (nat, int, nat) -> bool, b: nat, subs: set<int>, m: nat, k: nat)
    ensures var mid := Survivors(deliver, b, subs, m);
      && Survivors(deliver, b, subs, m + k) == Survivors(deliver, b + m, mid, k)
      && Prunings(deliver, b, subs, m + k) == Prunings(deliver, b, subs, m) + Prunings(deliver, b + m, mid, k)
    decreases k
  {
    if k > 0 {
      SurvivorsSplit(deliver, b, subs, m, k - 1);
    }
  }

  /** `ds` are the deliveries of a run of broadcasts numbered from `b`, starting from the
      subscribers `subs`: broadcast `k` went to the chats still subscribed and dropped
      those of them it could not reach. */
  predicate RunDeliveries(deliver: (nat, int, nat) -> bool, b: nat, subs: set<int>, ds: seq<Delivery>) {
    forall k :: 0 <= k < |ds| ==>
      && ds[k].pruned == Unreachable(deliver, b + k, Survivors(deliver, b, subs, k))
      && ds[k].delivered == Survivors(deliver, b, subs, k) - ds[k].pruned
  }

  /** One more broadcast, from where the run left off, extends the run's deliveries. */
  lemma RunDeliveriesExtend(deliver: (nat, int, nat) -> bool, b: nat, subs: set<int>, ds: seq<Delivery>, sent: seq<Delivery>)
    requires RunDeliveries(deliver, b, subs, ds)
    requires |sent| <= 1
    requires |sent| == 1 ==>
      var before := Survivors(deliver, b, subs, |ds|);
      && sent[0].pruned == Unreachable(deliver, b + |ds|, before)
      && sent[0].delivered == before - sent[0].pruned
    ensures RunDeliveries(deliver, b, subs, ds + sent)
  {
    forall k | 0 <= k < |ds + sent|
      ensures (ds + sent)[k].pruned == Unreachable(deliver, b + k, Survivors(deliver, b, subs, k))
      ensures (ds + sent)[k].delivered == Survivors(deliver, b, subs, k) - (ds + sent)[k].pruned
    {
      if k < |ds| {
        assert (ds + sent)[k] == ds[k];
      } else {
        assert (ds + sent)[k] == sent[0];
      }
    }
  }

  /** What broadcasting changes: the broadcast counter, the subscribers, and the content of
      the subscriber file with its write counter. */
  datatype Notified = Notified(broadcasts: nat, subscribers: set<int>, savedSubscribers: set<int>, savedPending: set<int>, saves: nat)

  /** `to` follows from `from` by `n` broadcasts: each dropped the chats it could not reach,
      and the subscriber file was written once per broadcast that dropped some, the last
      time with the subscribers then left and the pending chats `pending`. */
  predicate BroadcastRun(deliver: (nat, int, nat) -> bool, from: Notified, to: Notified, pending: set<int>, n: nat) {
    var pruned := Prunings(deliver, from.broadcasts, from.subscribers, n);
    && to.broadcasts == from.broadcasts + n
    && to.subscribers == Survivors(deliver, from.broadcasts, from.subscribers, n)
    && to.saves == from.saves + pruned
    && (pruned == 0 ==> to.savedSubscribers == from.savedSubscribers && to.savedPending == from.savedPending)
    && (pruned > 0 ==> to.savedSubscribers == to.subscribers && to.savedPending == pending)
  }

  /** Two runs of broadcasts, one after the other, are one run. */
  lemma BroadcastRunCompose(deliver: (nat, int, nat) -> bool, a: Notified, b: Notified, c: Notified, pending: set<int>, m: nat, k: nat)
    requires BroadcastRun(deliver, a, b, pending, m) && BroadcastRun(deliver, b, c, pending, k)
    ensures BroadcastRun(deliver, a, c, pending, m + k)
  {
    SurvivorsSplit(deliver, a.broadcasts, a.subscribers, m, k);
    PruningsIffDropped(deliver, b.broadcasts, b.subscribers, k);
  }

  /** A run of no broadcasts changes nothing. */
  lemma QuietRun(deliver: (nat, int, nat) -> bool, from: Notified, to: Notified, pending: set<int>)
    requires BroadcastRun(deliver, from, to, pending, 0)
    ensures to == from
  {
  }
}
