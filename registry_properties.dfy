/**
 * What the registry state machine of module Registry guarantees: fresh and
 * increasing tokens, the shape of an accept drain, teardown before
 * promotion, and the invariant that no token is both a client and a player.
 */
module RegistryProperties {
  import opened Registry

  /** The clients that k successful accepts add when the counter starts at `base`. */
  function NewClients(base: Token, k: nat): (m: map<Token, Client>)
  {
    map t: Token | base < t <= base + k :: Client(t)
  }

  /** The tokens handed to register, in call order. */
  function Registered(a: seq<Action>): seq<Token>
  {
    if a == [] then []
    else (if a[0].Register? then [a[0].token] else []) + Registered(a[1..])
  }

  /** The consecutive tokens lo, lo + 1, ..., hi - 1. */
  function Range(lo: Token, hi: Token): seq<Token>
    requires lo <= hi
    decreases hi - lo
  {
    if lo == hi then [] else [lo] + Range(lo + 1, hi)
  }

  /** Range(lo, hi) holds hi - lo tokens, the i-th being lo + i. */
  lemma {:induction false} RangeAt(lo: Token, hi: Token)
    requires lo <= hi
    ensures |Range(lo, hi)| == hi - lo
    ensures forall i :: 0 <= i < hi - lo ==> Range(lo, hi)[i] == lo + i
    decreases hi - lo
  {
    if lo < hi {
      RangeAt(lo + 1, hi);
    }
  }

  lemma {:induction false} RegisteredAppend(a: seq<Action>, b: seq<Action>)
    ensures Registered(a + b) == Registered(a) + Registered(b)
  {
    if a == [] {
      assert a + b == b;
    } else {
      var head := if a[0].Register? then [a[0].token] else [];
      assert (a + b)[0] == a[0];
      assert (a + b)[1..] == a[1..] + b;
      RegisteredAppend(a[1..], b);
      assert Registered(a + b) == head + (Registered(a[1..]) + Registered(b));
      assert head + (Registered(a[1..]) + Registered(b)) == (head + Registered(a[1..])) + Registered(b);
    }
  }

  lemma {:induction false} RangeAppend(lo: Token, mid: Token, hi: Token)
    requires lo <= mid <= hi
    ensures Range(lo, mid) + Range(mid, hi) == Range(lo, hi)
    decreases mid - lo
  {
    if lo < mid {
      RangeAppend(lo + 1, mid, hi);
      assert Range(lo, mid) + Range(mid, hi) == [lo] + (Range(lo + 1, mid) + Range(mid, hi));
    } else {
      assert Range(lo, mid) + Range(mid, hi) == Range(mid, hi);
    }
  }

  lemma {:induction false} NothingRegistered(a: seq<Action>)
    requires forall k :: 0 <= k < |a| ==> !a[k].Register?
    ensures Registered(a) == []
    decreases |a|
  {
    if a != [] {
      NothingRegistered(a[1..]);
    }
  }

  /** A step registered exactly the tokens between the counter before and after it. */
  ghost predicate RegistersRange(s: State, r: Step) {
    s.uniqueId <= r.state.uniqueId && Registered(r.actions) == Range(s.uniqueId + 1, r.state.uniqueId + 1)
  }

  /** Two consecutive steps that each register their range register the joint range. */
  lemma RegistersRangeChain(s: State, e: Step, rest: Step)
    requires RegistersRange(s, e) && RegistersRange(e.state, rest)
    ensures RegistersRange(s, After(e.actions, rest))
  {
    RegisteredAppend(e.actions, rest.actions);
    RangeAppend(s.uniqueId + 1, e.state.uniqueId + 1, rest.state.uniqueId + 1);
  }

  // ---------------------------------------------------------------- accepts

  /**
   * One accept bumps the counter; a registered connection appears in
   * `clients` under the fresh token and nowhere else, a failed registration
   * ends the loop with `clients` and `players` as they were.
   */
  lemma AcceptOneEffect(s: State, inc: Incoming)
    requires Valid(s)
    ensures var r := AcceptOne(s, inc); var id := s.uniqueId + 1;
      && r.state.uniqueId == id
      && r.state.players == s.players
      && Valid(r.state)
      && Registered(r.actions) == [id]
      && (inc.registration.Done? ==>
            && r.flow == Continue
            && id !in s.clients && id !in s.players
            && r.state.clients == s.clients[id := Client(id)]
            && |r.state.clients| == |s.clients| + 1)
      && (inc.registration.Failed? ==>
            r.flow == Exit(inc.registration.error) && r.state.clients == s.clients)
  {
    var r := AcceptOne(s, inc);
    assert Registered(r.actions) == [s.uniqueId + 1] by {
      if inc.registration.Done? {
        assert r.actions == [Register(s.uniqueId + 1)] + [SpawnMonitor(s.uniqueId + 1)];
        RegisteredAppend([Register(s.uniqueId + 1)], [SpawnMonitor(s.uniqueId + 1)]);
      }
    }
  }

  /** k + 1 accepts from `base` are one accept under base + 1 followed by k accepts from there. */
  lemma NewClientsShift(s: State, k: nat)
    ensures Accepted(s).clients + NewClients(s.uniqueId + 1, k) == s.clients + NewClients(s.uniqueId, k + 1)
  {
  }

  lemma NewClientsNone(c: map<Token, Client>, base: Token)
    ensures c + NewClients(base, 0) == c
  {
  }

  /** The tokens of `clients` are all at most the counter (a consequence of Valid). */
  ghost predicate ClientsBelow(s: State) {
    forall t :: t in s.clients ==> t <= s.uniqueId
  }

  /** The registry after one accept whose registration succeeded. */
  function Accepted(s: State): State
  {
    AcceptOne(s, Incoming(Done)).state
  }

  /** One step of a drain whose next registration succeeds. */
  lemma DrainAcceptStep(s: State, pending: seq<Incoming>, stop: IoError, from: nat)
    requires from < |pending| && pending[from].registration == Done
    ensures Drain(s, pending, stop, from) ==
      After([Register(s.uniqueId + 1), SpawnMonitor(s.uniqueId + 1)], Drain(Accepted(s), pending, stop, from + 1))
  {
  }

  /**
   * A drain whose registrations all succeed accepts every pending connection
   * under consecutive fresh tokens, leaves `players` alone, and ends as its
   * stop error says: WouldBlock goes back to polling, any other error ends the loop.
   */
  lemma {:induction false} DrainAcceptsAll(s: State, pending: seq<Incoming>, stop: IoError, from: nat)
    requires from <= |pending|
    requires forall k :: from <= k < |pending| ==> pending[k].registration == Done
    ensures var r := Drain(s, pending, stop, from);
      && r.state.uniqueId == s.uniqueId + (|pending| - from)
      && r.state.players == s.players
      && r.flow == (if stop == WouldBlock then Continue else Exit(stop))
    decreases |pending| - from
  {
    if from < |pending| {
      DrainAcceptStep(s, pending, stop, from);
      DrainAcceptsAll(Accepted(s), pending, stop, from + 1);
    }
  }

  /** The clients such a drain adds are exactly the new ones, each under its own token. */
  lemma {:induction false} DrainAcceptsAllClients(s: State, pending: seq<Incoming>, stop: IoError, from: nat)
    requires from <= |pending|
    requires forall k :: from <= k < |pending| ==> pending[k].registration == Done
    ensures Drain(s, pending, stop, from).state.clients == s.clients + NewClients(s.uniqueId, |pending| - from)
    decreases |pending| - from
  {
    if from < |pending| {
      DrainAcceptStep(s, pending, stop, from);
      var rest := Drain(Accepted(s), pending, stop, from + 1);
      assert Drain(s, pending, stop, from).state == rest.state;
      DrainAcceptsAllClients(Accepted(s), pending, stop, from + 1);
      NewClientsShift(s, |pending| - from - 1);
    } else {
      NewClientsNone(s.clients, s.uniqueId);
    }
  }

  /** The same drain grows `clients` by exactly the number of pending connections. */
  lemma {:induction false} DrainAcceptsAllCount(s: State, pending: seq<Incoming>, stop: IoError, from: nat)
    requires ClientsBelow(s) && from <= |pending|
    requires forall k :: from <= k < |pending| ==> pending[k].registration == Done
    ensures |Drain(s, pending, stop, from).state.clients| == |s.clients| + (|pending| - from)
    decreases |pending| - from
  {
    if from < |pending| {
      DrainAcceptStep(s, pending, stop, from);
      assert s.uniqueId + 1 !in s.clients;
      DrainAcceptsAllCount(Accepted(s), pending, stop, from + 1);
    }
  }

  /**
   * A drain whose j-th registration fails has bumped the counter for the
   * connections before it and for the failing one, and ends the loop with
   * the registration's error.
   */
  lemma {:induction false} DrainStopsAtFailedRegistration(s: State, pending: seq<Incoming>, stop: IoError, from: nat, j: nat)
    requires from <= j < |pending|
    requires forall k :: from <= k < j ==> pending[k].registration == Done
    requires pending[j].registration.Failed?
    ensures var r := Drain(s, pending, stop, from);
      && r.flow == Exit(pending[j].registration.error)
      && r.state.uniqueId == s.uniqueId + (j - from) + 1
      && r.state.players == s.players
    decreases j - from
  {
    if from < j {
      DrainAcceptStep(s, pending, stop, from);
      DrainStopsAtFailedRegistration(Accepted(s), pending, stop, from + 1, j);
    }
  }

  /** Such a drain has added the connections before the failing one to `clients`, and no other. */
  lemma {:induction false} DrainStopsAtFailedRegistrationClients(s: State, pending: seq<Incoming>, stop: IoError, from: nat, j: nat)
    requires from <= j < |pending|
    requires forall k :: from <= k < j ==> pending[k].registration == Done
    requires pending[j].registration.Failed?
    ensures Drain(s, pending, stop, from).state.clients == s.clients + NewClients(s.uniqueId, j - from)
    decreases j - from
  {
    if from < j {
      DrainAcceptStep(s, pending, stop, from);
      var rest := Drain(Accepted(s), pending, stop, from + 1);
      assert Drain(s, pending, stop, from).state == rest.state;
      DrainStopsAtFailedRegistrationClients(Accepted(s), pending, stop, from + 1, j);
      NewClientsShift(s, j - from - 1);
    } else {
      assert Drain(s, pending, stop, from).state.clients == s.clients;
      NewClientsNone(s.clients, s.uniqueId);
    }
  }

  /**
   * Every drain keeps the invariant, leaves `players` alone, and only adds
   * clients under tokens above the old counter.
   */
  lemma {:induction false} DrainFrame(s: State, pending: seq<Incoming>, stop: IoError, from: nat)
    requires Valid(s) && from <= |pending|
    ensures var r := Drain(s, pending, stop, from);
      && Valid(r.state)
      && r.state.players == s.players
      && s.uniqueId <= r.state.uniqueId
      && (forall t :: t in r.state.clients ==> t in s.clients || s.uniqueId < t)
    decreases |pending| - from
  {
    if from < |pending| {
      AcceptOneEffect(s, pending[from]);
      var a := AcceptOne(s, pending[from]);
      if a.flow.Continue? {
        DrainFrame(a.state, pending, stop, from + 1);
      }
    }
  }

  /** A drain registers exactly the tokens between the old and the new counter, in increasing order. */
  lemma {:induction false} DrainRegisters(s: State, pending: seq<Incoming>, stop: IoError, from: nat)
    requires from <= |pending|
    ensures RegistersRange(s, Drain(s, pending, stop, from))
    decreases |pending| - from
  {
    if from < |pending| {
      var a := AcceptOne(s, pending[from]);
      var id := s.uniqueId + 1;
      if a.flow.Continue? {
        assert a.actions == [Register(id)] + [SpawnMonitor(id)];
        RegisteredAppend([Register(id)], [SpawnMonitor(id)]);
        DrainRegisters(a.state, pending, stop, from + 1);
        assert RegistersRange(s, a);
        RegistersRangeChain(s, a, Drain(a.state, pending, stop, from + 1));
      }
    }
  }

  // ---------------------------------------------------------- connections

  /**
   * Teardown beats promotion: a client whose `closed` flag was set after its
   * poll has its packets left unprocessed, leaves `clients`, is deregistered
   * and never becomes a player, whatever `make_player` says.
   */
  lemma ClientTeardownWins(s: State, t: Token, obs: ClientObs)
    requires t in s.clients && obs.closed
    ensures var r := ClientReady(s, t, obs);
      && r.state.clients == s.clients - {t}
      && r.state.players == s.players
      && r.state.uniqueId == s.uniqueId
      && r.flow == FlowOf(obs.deregistration)
      && Deregister(t) in r.actions
      && ProcessPackets(t) !in r.actions
      && (forall id :: AddPlayer(id) !in r.actions && SpawnPlayer(id) !in r.actions)
  {
  }

  /**
   * Promotion: a client that was not closed and asks for promotion after its
   * packets were processed leaves `clients` and enters `players` under the
   * same token, with nothing deregistered.
   */
  lemma ClientPromoted(s: State, t: Token, obs: ClientObs)
    requires Valid(s) && t in s.clients && !obs.closed && obs.makePlayer
    ensures var r := ClientReady(s, t, obs);
      && r.state.clients == s.clients - {t}
      && t !in s.players
      && r.state.players == s.players[t := Player(s.clients[t])]
      && r.state.uniqueId == s.uniqueId
      && r.flow == Continue
      && r.actions == [PollClient(t), LoadClosed(t), ProcessPackets(t), LoadMakePlayer(t), AddPlayer(t), SpawnPlayer(t)]
      && Valid(r.state)
  {
  }

  /** A client that is neither closed nor promoted leaves both maps as they were. */
  lemma ClientIdle(s: State, t: Token, obs: ClientObs)
    requires t in s.clients && !obs.closed && !obs.makePlayer
    ensures var r := ClientReady(s, t, obs);
      r.state == s && r.flow == Continue &&
      r.actions == [PollClient(t), LoadClosed(t), ProcessPackets(t), LoadMakePlayer(t)]
  {
  }

  /**
   * The read order of the client branch: `closed` is read right after the
   * poll and before packets are processed, packets are processed exactly
   * when it was false, and `make_player` is read after that.
   */
  lemma ClientReadOrder(s: State, t: Token, obs: ClientObs)
    requires t in s.clients
    ensures var a := ClientReady(s, t, obs).actions;
      && |a| >= 3 && a[0] == PollClient(t) && a[1] == LoadClosed(t)
      && (ProcessPackets(t) in a <==> !obs.closed)
      && (if obs.closed then a[2] == LoadMakePlayer(t)
          else a[2] == ProcessPackets(t) && a[3] == LoadMakePlayer(t))
  {
  }

  /**
   * The player branch reads `closed` once: packets are processed exactly when
   * it was false, and the player leaves `players` (after its removal hooks,
   * then deregistered) exactly when it was true. `clients` is untouched.
   */
  lemma PlayerBranch(s: State, t: Token, obs: PlayerObs)
    requires t in s.players
    ensures var r := PlayerReady(s, t, obs);
      && r.state.clients == s.clients
      && r.state.uniqueId == s.uniqueId
      && (ProcessPackets(t) in r.actions <==> !obs.closed)
      && (t !in r.state.players <==> obs.closed)
      && (obs.closed ==> r.state.players == s.players - {t} && r.flow == FlowOf(obs.deregistration)
                         && r.actions == [PollClient(t), LoadClosed(t), RemoveHooks(t), Deregister(t)])
      && (!obs.closed ==> r.state.players == s.players && r.flow == Continue)
  {
  }

  /** An event for a token that is neither a client nor a player changes nothing and calls nothing. */
  lemma UnknownToken(s: State, t: Token, pobs: PlayerObs, cobs: ClientObs)
    requires t !in s.clients && t !in s.players
    ensures ConnectionReady(s, t, pobs, cobs) == Step(s, Continue, [])
  {
  }

  /** With the invariant, a client's event runs the client branch only ... */
  lemma ClientEventIsClientBranch(s: State, t: Token, pobs: PlayerObs, cobs: ClientObs)
    requires Valid(s) && t in s.clients
    ensures ConnectionReady(s, t, pobs, cobs) == ClientReady(s, t, cobs)
  {
  }

  /** ... and a player's event runs the player branch only. */
  lemma PlayerEventIsPlayerBranch(s: State, t: Token, pobs: PlayerObs, cobs: ClientObs)
    requires Valid(s) && t in s.players
    ensures ConnectionReady(s, t, pobs, cobs) == PlayerReady(s, t, pobs)
  {
    var p := PlayerReady(s, t, pobs);
    assert t !in p.state.clients;
    assert p.actions + [] == p.actions;
  }

  /**
   * An event for a connection token keeps the invariant, never touches the
   * counter, never adds a client, and only adds a player that was a client
   * under the same token.
   */
  lemma ConnectionReadyFrame(s: State, t: Token, pobs: PlayerObs, cobs: ClientObs)
    requires Valid(s)
    ensures var r := ConnectionReady(s, t, pobs, cobs);
      && Valid(r.state)
      && r.state.uniqueId == s.uniqueId
      && r.state.clients.Keys <= s.clients.Keys
      && (forall u :: u in r.state.players ==> u in s.players || u in s.clients)
  {
    var p := PlayerReady(s, t, pobs);
    assert Valid(p.state);
  }

  /** An event for a connection token registers nothing. */
  lemma ConnectionReadyRegistersNothing(s: State, t: Token, pobs: PlayerObs, cobs: ClientObs)
    ensures Registered(ConnectionReady(s, t, pobs, cobs).actions) == []
  {
    var p := PlayerReady(s, t, pobs);
    NothingRegistered(p.actions);
    if p.flow.Continue? {
      var c := ClientReady(p.state, t, cobs);
      NothingRegistered(c.actions);
      RegisteredAppend(p.actions, c.actions);
    }
  }

  // ------------------------------------------------------------- the loop

  /**
   * Any event keeps the invariant, only adds clients under fresh tokens,
   * and only adds players that were clients.
   */
  lemma HandleEventFrame(s: State, ev: Event)
    requires Valid(s)
    ensures var r := HandleEvent(s, ev);
      && Valid(r.state)
      && s.uniqueId <= r.state.uniqueId
      && (forall t :: t in r.state.clients ==> t in s.clients || s.uniqueId < t)
      && (forall t :: t in r.state.players ==> t in s.players || t in s.clients)
  {
    if ev.token == SERVER {
      DrainFrame(s, ev.pending, ev.stop, 0);
    } else {
      ConnectionReadyFrame(s, ev.token, ev.player, ev.client);
    }
  }

  /** Any event registers exactly the tokens between the old and the new counter. */
  lemma HandleEventRegisters(s: State, ev: Event)
    ensures RegistersRange(s, HandleEvent(s, ev))
  {
    if ev.token == SERVER {
      DrainRegisters(s, ev.pending, ev.stop, 0);
    } else {
      ConnectionReadyRegistersNothing(s, ev.token, ev.player, ev.client);
      PlayerBranchCounter(s, ev.token, ev.player);
    }
  }

  lemma PlayerBranchCounter(s: State, t: Token, pobs: PlayerObs)
    ensures PlayerReady(s, t, pobs).state.uniqueId == s.uniqueId
  {
  }

  /** A batch of events keeps the invariant. */
  lemma {:induction false} HandleEventsFrame(s: State, events: seq<Event>, from: nat)
    requires Valid(s) && from <= |events|
    ensures Valid(HandleEvents(s, events, from).state)
    decreases |events| - from
  {
    if from < |events| {
      HandleEventFrame(s, events[from]);
      var e := HandleEvent(s, events[from]);
      if e.flow.Continue? {
        HandleEventsFrame(e.state, events, from + 1);
      }
    }
  }

  /** A batch registers exactly the tokens between the old and the new counter. */
  lemma {:induction false} HandleEventsRegisters(s: State, events: seq<Event>, from: nat)
    requires from <= |events|
    ensures RegistersRange(s, HandleEvents(s, events, from))
    decreases |events| - from
  {
    if from < |events| {
      HandleEventRegisters(s, events[from]);
      var e := HandleEvent(s, events[from]);
      if e.flow.Continue? {
        HandleEventsRegisters(e.state, events, from + 1);
        RegistersRangeChain(s, e, HandleEvents(e.state, events, from + 1));
      }
    }
  }

  /** Every run of the loop keeps the invariant: the key sets of `clients` and `players` stay disjoint. */
  lemma {:induction false} ServeFrame(s: State, wakeups: seq<Wakeup>, from: nat)
    requires Valid(s) && from <= |wakeups|
    ensures Valid(Serve(s, wakeups, from).state)
    decreases |wakeups| - from
  {
    if from < |wakeups| {
      match wakeups[from]
      case PollFailed(e) =>
        if e == Interrupted {
          ServeFrame(s, wakeups, from + 1);
        }
      case Polled(events) =>
        HandleEventsFrame(s, events, 0);
        var b := HandleEvents(s, events, 0);
        if b.flow.Continue? {
          ServeFrame(b.state, wakeups, from + 1);
        }
    }
  }

  /** A run registers exactly the tokens between the old and the new counter. */
  lemma {:induction false} ServeRegisters(s: State, wakeups: seq<Wakeup>, from: nat)
    requires from <= |wakeups|
    ensures RegistersRange(s, Serve(s, wakeups, from))
    decreases |wakeups| - from
  {
    if from < |wakeups| {
      match wakeups[from]
      case PollFailed(e) =>
        if e == Interrupted {
          ServeRegisters(s, wakeups, from + 1);
        }
      case Polled(events) =>
        HandleEventsRegisters(s, events, 0);
        var b := HandleEvents(s, events, 0);
        if b.flow.Continue? {
          ServeRegisters(b.state, wakeups, from + 1);
          RegistersRangeChain(s, b, Serve(b.state, wakeups, from + 1));
        }
    }
  }

  /**
   * Token uniqueness: over any run of the server from its start, the tokens
   * handed to register are 2, 3, 4, ...: strictly increasing, never the
   * listener's, and all registry keys stay disjoint.
   */
  lemma TokensStrictlyIncrease(wakeups: seq<Wakeup>)
    ensures var r := Serve(Initial(), wakeups, 0); var ids := Registered(r.actions);
      && Valid(r.state)
      && (forall i :: 0 <= i < |ids| ==> ids[i] == SERVER + 2 + i)
      && (forall i, j :: 0 <= i < j < |ids| ==> ids[i] < ids[j])
  {
    ServeFrame(Initial(), wakeups, 0);
    ServeRegisters(Initial(), wakeups, 0);
    var r := Serve(Initial(), wakeups, 0);
    RangeAt(SERVER + 2, r.state.uniqueId + 1);
  }

  /** A token that is not a client and not above the counter stays out of `clients` after any event. */
  lemma NeverClientAgain(s: State, ev: Event, t: Token)
    requires Valid(s) && t !in s.clients && t <= s.uniqueId
    ensures var r := HandleEvent(s, ev); t !in r.state.clients && t <= r.state.uniqueId
  {
    HandleEventFrame(s, ev);
  }

  /**
   * No demotion: once a token is a player it never becomes a client again,
   * over any run of the loop.
   */
  lemma {:induction false} PlayersNeverDemoted(s: State, wakeups: seq<Wakeup>, from: nat, t: Token)
    requires Valid(s) && from <= |wakeups| && t in s.players
    ensures t !in Serve(s, wakeups, from).state.clients
  {
    StaysOutOfClients(s, wakeups, from, t);
  }

  lemma {:induction false} StaysOutOfClients(s: State, wakeups: seq<Wakeup>, from: nat, t: Token)
    requires Valid(s) && from <= |wakeups| && t !in s.clients && t <= s.uniqueId
    ensures t !in Serve(s, wakeups, from).state.clients
    decreases |wakeups| - from
  {
    if from < |wakeups| {
      match wakeups[from]
      case PollFailed(e) =>
        if e == Interrupted {
          StaysOutOfClients(s, wakeups, from + 1, t);
        }
      case Polled(events) =>
        StaysOutOfClientsInBatch(s, events, 0, t);
        HandleEventsFrame(s, events, 0);
        var b := HandleEvents(s, events, 0);
        if b.flow.Continue? {
          StaysOutOfClients(b.state, wakeups, from + 1, t);
        }
    }
  }

  lemma {:induction false} StaysOutOfClientsInBatch(s: State, events: seq<Event>, from: nat, t: Token)
    requires Valid(s) && from <= |events| && t !in s.clients && t <= s.uniqueId
    ensures var r := HandleEvents(s, events, from); t !in r.state.clients && t <= r.state.uniqueId
    decreases |events| - from
  {
    if from < |events| {
      NeverClientAgain(s, events[from], t);
      HandleEventFrame(s, events[from]);
      var e := HandleEvent(s, events[from]);
      if e.flow.Continue? {
        StaysOutOfClientsInBatch(e.state, events, from + 1, t);
      }
    }
  }
}
