/**
 * The event loop of the server's `main` (pumpkin/src/main.rs) as an object
 * whose fields are the loop's mutable locals: the token counter `unique_id`
 * and the maps `clients` and `players`. Each method does in place what the
 * corresponding function of module Registry describes, and returns the
 * calls it made into collaborators outside the model.
 */
module EventLoop {
  import opened Registry
  import RegistryProperties

  class Reactor {
    var uniqueId: Token
    var clients: map<Token, Client>
    var players: map<Token, Player>

    /** The registry as a value. */
    function Snapshot(): State
      reads this
    {
      State(uniqueId, clients, players)
    }

    ghost predicate Valid()
      reads this
    {
      Registry.Valid(Snapshot())
    }

    /** The loop's state before the first poll: `unique_id = SERVER.0 + 1`, no clients, no players. */
    constructor ()
      ensures Snapshot() == Initial() && Valid()
    {
      uniqueId := SERVER + 1;
      clients := map[];
      players := map[];
    }

    /** `unique_id += 1; let id = unique_id;`: the new token is fresh and never the listener's. */
    method NextToken() returns (id: Token)
      requires Valid()
      modifies this
      ensures Valid()
      ensures id == old(uniqueId) + 1 && uniqueId == id
      ensures clients == old(clients) && players == old(players)
      ensures id >= SERVER + 2 && id !in clients && id !in players
    {
      uniqueId := uniqueId + 1;
      id := uniqueId;
    }

    /** One accepted connection: a fresh token, registration, its client and keep-alive task, the insert. */
    method AcceptOne(inc: Incoming) returns (flow: Flow, actions: seq<Action>)
      requires Valid()
      modifies this
      ensures Valid()
      ensures Step(Snapshot(), flow, actions) == Registry.AcceptOne(old(Snapshot()), inc)
    {
      var id := NextToken();
      actions := [Register(id)];
      if inc.registration.Failed? {
        flow := Exit(inc.registration.error);
        return;
      }
      var client := Client(id);
      actions := actions + [SpawnMonitor(id)];
      clients := clients[id := client];
      flow := Continue;
    }

    /**
     * The accept drain for a listener event: accept until the queue reports
     * `stop`. WouldBlock goes back to polling; any other error, or a failed
     * registration, ends the loop.
     */
    method DrainAccepts(pending: seq<Incoming>, stop: IoError) returns (flow: Flow, actions: seq<Action>)
      requires Valid()
      modifies this
      ensures Valid()
      ensures Step(Snapshot(), flow, actions) == Drain(old(Snapshot()), pending, stop, 0)
    {
      actions := [];
      var i := 0;
      while i < |pending|
        invariant 0 <= i <= |pending|
        invariant Valid()
        invariant Drain(old(Snapshot()), pending, stop, 0) == After(actions, Drain(Snapshot(), pending, stop, i))
      {
        ghost var before := Snapshot();
        RegistryProperties.AcceptOneEffect(before, pending[i]);
        var f, a := AcceptOne(pending[i]);
        AfterAfter(actions, a, Drain(Snapshot(), pending, stop, i + 1));
        actions := actions + a;
        if f.Exit? {
          flow := f;
          return;
        }
        i := i + 1;
      }
      flow := if stop == WouldBlock then Continue else Exit(stop);
      assert actions + [] == actions;
    }

    /**
     * The player branch: poll, read `closed` once; process packets when it
     * was false; when it was true remove the player, run its removal hooks
     * and deregister its socket.
     */
    method OnPlayerReady(t: Token, obs: PlayerObs) returns (flow: Flow, actions: seq<Action>)
      modifies this
      ensures Step(Snapshot(), flow, actions) == PlayerReady(old(Snapshot()), t, obs)
    {
      flow := Continue;
      actions := [];
      if t in players {
        actions := [PollClient(t), LoadClosed(t)];
        var closed := obs.closed;
        if !closed {
          actions := actions + [ProcessPackets(t)];
        }
        if closed {
          if t in players {
            players := players - {t};
            actions := actions + [RemoveHooks(t), Deregister(t)];
            flow := FlowOf(obs.deregistration);
          }
        }
      }
    }

    /**
     * The client branch: poll, read `closed`, process packets unless closed,
     * read `make_player`; then teardown if closed, else promotion if asked.
     */
    method OnClientReady(t: Token, obs: ClientObs) returns (flow: Flow, actions: seq<Action>)
      modifies this
      ensures Step(Snapshot(), flow, actions) == ClientReady(old(Snapshot()), t, obs)
    {
      flow := Continue;
      actions := [];
      var done, makePlayer := false, false;
      if t in clients {
        actions := [PollClient(t), LoadClosed(t)];
        var closed := obs.closed;
        if !closed {
          actions := actions + [ProcessPackets(t)];
        }
        actions := actions + [LoadMakePlayer(t)];
        done, makePlayer := closed, obs.makePlayer;
      }
      if done || makePlayer {
        if t in clients {
          var client := clients[t];
          clients := clients - {t};
          if done {
            actions := actions + [Deregister(t)];
            flow := FlowOf(obs.deregistration);
          } else if makePlayer {
            var id := client.id;
            actions := actions + [AddPlayer(id)];
            players := players[id := Player(client)];
            actions := actions + [SpawnPlayer(id)];
          }
        }
      }
    }

    /** An event for a connection token: the player branch, then the client branch. */
    method OnConnectionReady(t: Token, pobs: PlayerObs, cobs: ClientObs) returns (flow: Flow, actions: seq<Action>)
      requires Valid()
      modifies this
      ensures Valid()
      ensures Step(Snapshot(), flow, actions) == ConnectionReady(old(Snapshot()), t, pobs, cobs)
    {
      RegistryProperties.ConnectionReadyFrame(Snapshot(), t, pobs, cobs);
      flow, actions := OnPlayerReady(t, pobs);
      if flow.Exit? {
        return;
      }
      var more;
      flow, more := OnClientReady(t, cobs);
      actions := actions + more;
    }

    /** One readiness event, dispatched on its token. */
    method HandleEvent(ev: Event) returns (flow: Flow, actions: seq<Action>)
      requires Valid()
      modifies this
      ensures Valid()
      ensures Step(Snapshot(), flow, actions) == Registry.HandleEvent(old(Snapshot()), ev)
    {
      if ev.token == SERVER {
        flow, actions := DrainAccepts(ev.pending, ev.stop);
      } else {
        flow, actions := OnConnectionReady(ev.token, ev.player, ev.client);
      }
    }

    /** `for event in events.iter()`: the events of one poll, in order, until one ends the loop. */
    method HandleEvents(events: seq<Event>) returns (flow: Flow, actions: seq<Action>)
      requires Valid()
      modifies this
      ensures Valid()
      ensures Step(Snapshot(), flow, actions) == Registry.HandleEvents(old(Snapshot()), events, 0)
    {
      actions := [];
      for i := 0 to |events|
        invariant Valid()
        invariant Registry.HandleEvents(old(Snapshot()), events, 0) ==
          After(actions, Registry.HandleEvents(Snapshot(), events, i))
      {
        var f, a := HandleEvent(events[i]);
        AfterAfter(actions, a, Registry.HandleEvents(Snapshot(), events, i + 1));
        actions := actions + a;
        if f.Exit? {
          flow := f;
          return;
        }
      }
      flow := Continue;
      assert actions + [] == actions;
    }

    /**
     * The loop over finitely many wake-ups: an interrupted poll is retried,
     * any other poll error is returned, every batch is handled in order.
     */
    method Serve(wakeups: seq<Wakeup>) returns (flow: Flow, actions: seq<Action>)
      requires Valid()
      modifies this
      ensures Valid()
      ensures Step(Snapshot(), flow, actions) == Registry.Serve(old(Snapshot()), wakeups, 0)
    {
      actions := [];
      var i := 0;
      while i < |wakeups|
        invariant 0 <= i <= |wakeups|
        invariant Valid()
        invariant Registry.Serve(old(Snapshot()), wakeups, 0) == After(actions, Registry.Serve(Snapshot(), wakeups, i))
      {
        match wakeups[i] {
          case PollFailed(e) =>
            if e != Interrupted {
              flow := Exit(e);
              assert actions + [] == actions;
              return;
            }
          case Polled(events) =>
            var f, a := HandleEvents(events);
            AfterAfter(actions, a, Registry.Serve(Snapshot(), wakeups, i + 1));
            actions := actions + a;
            if f.Exit? {
              flow := f;
              return;
            }
        }
        i := i + 1;
      }
      flow := Continue;
      assert actions + [] == actions;
    }
  }
}
