/**
 * The keep-alive monitor that the event loop spawns for every accepted
 * connection (pumpkin/src/main.rs, the task started for each client). Time is
 * integer milliseconds, the random challenge is a parameter, and the result of
 * waiting on the reply channel is an optional input.
 */
module KeepAlive {
  import opened Wrappers

  /** A live session is silent for at most this long before it is kicked (15 s). */
  const KEEP_ALIVE_TIMEOUT_MS: int := 15000

  /** The monitor only tells the live phase of the protocol from every other phase. */
  datatype ConnectionState = Play | NotPlay

  /**
   * What the environment gives one wake-up of the monitor: the clock, the
   * connection's state, the random 64-bit id that would be sent, and what the
   * reply channel yields (None when the channel is closed).
   */
  datatype Tick = Tick(now: int, state: ConnectionState, challenge: int, reply: Option<int>)

  /**
   * One wake-up's outcome: the connection was kicked and the task ends, or the
   * task carries on with a timestamp of the last acknowledged keep-alive and,
   * when a probe was sent, its id.
   */
  datatype TickOutcome = Kicked | Continue(lastAlive: int, sent: Option<int>)

  /** Instant::duration_since saturates at zero when the later instant is earlier. */
  function Elapsed(now: int, last: int): (d: int)
    ensures d >= 0
    ensures now >= last ==> d == now - last
    ensures now < last ==> d == 0
  {
    if now >= last then now - last else 0
  }

  /** One iteration of the monitor loop, given the stored last_alive_received. */
  function MonitorTick(lastAlive: int, t: Tick): (r: TickOutcome)
    // outside the live phase the deadline is suspended: the timestamp follows the clock
    ensures t.state == NotPlay ==> r == Continue(t.now, None)
    // in the live phase a deadline already reached kicks before anything is sent
    ensures t.state == Play && Elapsed(t.now, lastAlive) >= KEEP_ALIVE_TIMEOUT_MS ==> r == Kicked
    // otherwise the probe goes out, and only an echo of that very id refreshes the timestamp
    ensures t.state == Play && Elapsed(t.now, lastAlive) < KEEP_ALIVE_TIMEOUT_MS ==>
      r.Continue? && r.sent == Some(t.challenge) &&
      r.lastAlive == (if t.reply == Some(t.challenge) then t.now else lastAlive)
    ensures r.Kicked? <==> t.state == Play && Elapsed(t.now, lastAlive) >= KEEP_ALIVE_TIMEOUT_MS
  {
    if t.state == Play then
      if Elapsed(t.now, lastAlive) >= KEEP_ALIVE_TIMEOUT_MS then Kicked
      else
        var last := match t.reply
          case Some(id) => if id == t.challenge then t.now else lastAlive
          case None => lastAlive;
        Continue(last, Some(t.challenge))
    else
      Continue(t.now, None)
  }

  /** The outcome of a finite run of the monitor over a sequence of wake-ups. */
  datatype Run = Run(lastAlive: int, kickedAt: Option<nat>, probes: seq<int>)

  /**
   * The monitor loop over the wake-ups ticks[from..]: it stops at the
   * first kick (recorded as its index), and otherwise threads the timestamp.
   */
  function Monitor(lastAlive: int, ticks: seq<Tick>, from: nat): (r: Run)
    requires from <= |ticks|
    ensures r.kickedAt.Some? ==> from <= r.kickedAt.value < |ticks|
    decreases |ticks| - from
  {
    if from == |ticks| then Run(lastAlive, None, [])
    else match MonitorTick(lastAlive, ticks[from])
      case Kicked => Run(lastAlive, Some(from), [])
      case Continue(last, sent) =>
        var rest := Monitor(last, ticks, from + 1);
        Run(rest.lastAlive, rest.kickedAt,
            (if sent.Some? then [sent.value] else []) + rest.probes)
  }

  /** One unfolding of Monitor at wake-up `i`, stated once for the loop below. */
  lemma MonitorStep(lastAlive: int, ticks: seq<Tick>, i: nat)
    requires i < |ticks|
    ensures MonitorTick(lastAlive, ticks[i]).Kicked? ==>
      Monitor(lastAlive, ticks, i) == Run(lastAlive, Some(i), [])
    ensures MonitorTick(lastAlive, ticks[i]).Continue? ==>
      var o := MonitorTick(lastAlive, ticks[i]);
      var next := Monitor(o.lastAlive, ticks, i + 1);
      Monitor(lastAlive, ticks, i) == Prefixed(if o.sent.Some? then [o.sent.value] else [], next)
  {
  }

  /**
   * The monitor task driven over finitely many wake-ups: the loop of the
   * source, storing to the timestamp each iteration and leaving at a kick.
   * The probes are the ids handed to send_packet, in order.
   */
  method RunMonitor(initialLast: int, ticks: seq<Tick>)
    returns (lastAlive: int, kickedAt: Option<nat>, probes: seq<int>)
    ensures Monitor(initialLast, ticks, 0) == Run(lastAlive, kickedAt, probes)
    ensures kickedAt.Some? ==>
      kickedAt.value < |ticks| && MonitorTick(lastAlive, ticks[kickedAt.value]) == Kicked
  {
    lastAlive := initialLast;
    kickedAt := None;
    probes := [];
    ghost var whole := Monitor(initialLast, ticks, 0);
    var i := 0;
    while i < |ticks|
      invariant 0 <= i <= |ticks|
      invariant whole == Prefixed(probes, Monitor(lastAlive, ticks, i))
    {
      MonitorStep(lastAlive, ticks, i);
      var outcome := MonitorTick(lastAlive, ticks[i]);
      if outcome.Kicked? {
        kickedAt := Some(i);
        return;
      }
      var sent := if outcome.sent.Some? then [outcome.sent.value] else [];
      PrefixedTwice(probes, sent, Monitor(outcome.lastAlive, ticks, i + 1));
      probes := probes + sent;
      lastAlive := outcome.lastAlive;
      i := i + 1;
    }
  }

  /** A run with `done` prepended to its probes. */
  function Prefixed(done: seq<int>, r: Run): (p: Run)
    ensures p.lastAlive == r.lastAlive && p.kickedAt == r.kickedAt
    ensures done == [] ==> p == r
  {
    Run(r.lastAlive, r.kickedAt, done + r.probes)
  }

  lemma PrefixedTwice(a: seq<int>, b: seq<int>, r: Run)
    ensures Prefixed(a, Prefixed(b, r)) == Prefixed(a + b, r)
  {
    assert a + (b + r.probes) == (a + b) + r.probes;
  }

  /** A connection that never enters the live phase is never kicked, however long it runs. */
  lemma {:induction false} NotPlayNeverKicked(lastAlive: int, ticks: seq<Tick>, from: nat)
    requires from <= |ticks|
    requires forall k :: from <= k < |ticks| ==> ticks[k].state == NotPlay
    ensures Monitor(lastAlive, ticks, from).kickedAt == None
    ensures Monitor(lastAlive, ticks, from).lastAlive ==
      if from == |ticks| then lastAlive else ticks[|ticks| - 1].now
    decreases |ticks| - from
  {
    if from < |ticks| {
      NotPlayNeverKicked(ticks[from].now, ticks, from + 1);
    }
  }

  /**
   * Wake-ups whose clock readings never go backwards and are less than the
   * timeout apart, the first one less than the timeout after `start`.
   */
  ghost predicate Cadenced(start: int, ticks: seq<Tick>, from: nat)
    requires from <= |ticks|
  {
    (from < |ticks| ==> start <= ticks[from].now < start + KEEP_ALIVE_TIMEOUT_MS) &&
    forall k :: from <= k < |ticks| - 1 ==>
      ticks[k].now <= ticks[k + 1].now < ticks[k].now + KEEP_ALIVE_TIMEOUT_MS
  }

  /**
   * No false timeouts: if every live-phase wake-up receives the echo of its
   * own challenge and the wake-ups come faster than the timeout, the monitor
   * never kicks, for a run of any length.
   */
  lemma {:induction false} EchoingPeerNeverKicked(lastAlive: int, ticks: seq<Tick>, from: nat)
    requires from <= |ticks|
    requires Cadenced(lastAlive, ticks, from)
    requires forall k :: from <= k < |ticks| && ticks[k].state == Play ==>
      ticks[k].reply == Some(ticks[k].challenge)
    ensures Monitor(lastAlive, ticks, from).kickedAt == None
    decreases |ticks| - from
  {
    if from < |ticks| {
      var t := ticks[from];
      assert MonitorTick(lastAlive, t) == Continue(t.now, if t.state == Play then Some(t.challenge) else None);
      EchoingPeerNeverKicked(t.now, ticks, from + 1);
    }
  }

  /**
   * Without a matching echo the timestamp stays put in the live phase, so a
   * silent live session is kicked at its first wake-up 15 s after the last
   * acknowledgement, and not at any earlier one.
   */
  lemma {:induction false} SilentPeerKickedAtDeadline(lastAlive: int, ticks: seq<Tick>, from: nat, deadline: nat)
    requires from <= deadline < |ticks|
    requires forall k :: from <= k <= deadline ==> ticks[k].state == Play
    requires forall k :: from <= k < deadline ==> ticks[k].reply != Some(ticks[k].challenge)
    requires forall k :: from <= k < deadline ==> Elapsed(ticks[k].now, lastAlive) < KEEP_ALIVE_TIMEOUT_MS
    requires Elapsed(ticks[deadline].now, lastAlive) >= KEEP_ALIVE_TIMEOUT_MS
    ensures Monitor(lastAlive, ticks, from).kickedAt == Some(deadline)
    ensures Monitor(lastAlive, ticks, from).lastAlive == lastAlive
    decreases deadline - from
  {
    if from < deadline {
      assert MonitorTick(lastAlive, ticks[from]) == Continue(lastAlive, Some(ticks[from].challenge));
      SilentPeerKickedAtDeadline(lastAlive, ticks, from + 1, deadline);
    }
  }

  /** The monitor kicks only at a live-phase wake-up that found the deadline reached. */
  lemma {:induction false} KickOnlyAtDeadline(lastAlive: int, ticks: seq<Tick>, from: nat)
    requires from <= |ticks|
    ensures var r := Monitor(lastAlive, ticks, from);
      r.kickedAt.Some? ==>
        ticks[r.kickedAt.value].state == Play &&
        Elapsed(ticks[r.kickedAt.value].now, r.lastAlive) >= KEEP_ALIVE_TIMEOUT_MS
    decreases |ticks| - from
  {
    if from < |ticks| {
      match MonitorTick(lastAlive, ticks[from])
      case Kicked =>
      case Continue(last, _) => KickOnlyAtDeadline(last, ticks, from + 1);
    }
  }

  /** A run sends at most one probe per wake-up, and every probe carries the challenge of a live-phase wake-up. */
  lemma {:induction false} ProbesAreChallenges(lastAlive: int, ticks: seq<Tick>, from: nat)
    requires from <= |ticks|
    ensures |Monitor(lastAlive, ticks, from).probes| <= |ticks| - from
    ensures forall p :: p in Monitor(lastAlive, ticks, from).probes ==>
      exists k :: from <= k < |ticks| && ticks[k].state == Play && ticks[k].challenge == p
    decreases |ticks| - from
  {
    if from < |ticks| {
      match MonitorTick(lastAlive, ticks[from])
      case Kicked =>
      case Continue(last, _) => ProbesAreChallenges(last, ticks, from + 1);
    }
  }
}
