/**
 * The connection registry of the server's event loop (pumpkin/src/main.rs,
 * the `loop` inside `main`), as a pure state machine: a token counter and two
 * maps from token to owner, `clients` for connections not yet promoted and
 * `players` for promoted ones. Every answer of the operating system (accept,
 * register, deregister, poll) and every flag that packet processing leaves
 * behind is an input; every call into code outside this file (polling a
 * client, processing packets, the player's removal hooks, deregistering,
 * building and spawning a player) is recorded, in order, as an Action.
 */
module Registry {

  /** A mio token: the key of a registered socket. */
  type Token = nat

  /** The listener's token. */
  const SERVER: Token := 0

  /** A connection before promotion; the socket and the shared flags are outside the model. */
  datatype Client = Client(id: Token)

  /** A promoted connection: it owns its client; the world state is outside the model. */
  datatype Player = Player(client: Client)

  /** The kinds of std::io::Error that the loop tells apart. */
  datatype IoError = WouldBlock | Interrupted | OtherError(code: int)

  /** The result of a register or deregister call. */
  datatype OsResult = Done | Failed(error: IoError)

  /** One connection that accept returned, with the answer register will give for it. */
  datatype Incoming = Incoming(registration: OsResult)

  /** What the readiness flags of a player's client read right after its poll. */
  datatype PlayerObs = PlayerObs(closed: bool, deregistration: OsResult)

  /**
   * What a client's flags read: `closed` right after its poll, `makePlayer`
   * after its packets were processed (or skipped), and what deregister answers.
   */
  datatype ClientObs = ClientObs(closed: bool, makePlayer: bool, deregistration: OsResult)

  /**
   * One readiness event as the loop meets it, with what the environment will
   * answer while it is handled: for the listener token the accepts that are
   * pending and the error that ends them; for any other token the flags of
   * the player and the client under that token.
   */
  datatype Event = Event(token: Token, pending: seq<Incoming>, stop: IoError, player: PlayerObs, client: ClientObs)

  /** One wake-up of the loop: poll returned a batch of events, or failed. */
  datatype Wakeup = Polled(events: seq<Event>) | PollFailed(error: IoError)

  /** Whether the loop goes on, or returns the error from main. */
  datatype Flow = Continue | Exit(error: IoError)

  /** The calls the loop makes into the collaborators it does not own. */
  datatype Action =
    | Register(token: Token)        // poll.registry().register for a new connection
    | SpawnMonitor(token: Token)    // the keep-alive task is spawned
    | PollClient(token: Token)      // client.poll(event)
    | LoadClosed(token: Token)      // the `closed` flag is read
    | ProcessPackets(token: Token)  // process_packets of the player or the client
    | LoadMakePlayer(token: Token)  // the `make_player` flag is read
    | RemoveHooks(token: Token)     // player.remove()
    | Deregister(token: Token)      // poll.registry().deregister
    | AddPlayer(token: Token)       // server.add_player
    | SpawnPlayer(token: Token)     // world.spawn_player

  /** The registry: `unique_id`, `clients` and `players`. */
  datatype State = State(uniqueId: Token, clients: map<Token, Client>, players: map<Token, Player>)

  /** The new state, whether the loop goes on, and the calls made on the way. */
  datatype Step = Step(state: State, flow: Flow, actions: seq<Action>)

  /**
   * The registry invariant: the counter is at least the first connection
   * token minus one, every registered token lies between 2 and the counter,
   * every owner is keyed by its own id, and no token is both a client and a player.
   */
  ghost predicate Valid(s: State) {
    && s.uniqueId >= SERVER + 1
    && s.clients.Keys !! s.players.Keys
    && (forall t :: t in s.clients ==> SERVER + 2 <= t <= s.uniqueId && s.clients[t].id == t)
    && (forall t :: t in s.players ==> SERVER + 2 <= t <= s.uniqueId && s.players[t].client.id == t)
  }

  /** The registry before the first event: `unique_id = SERVER.0 + 1` and two empty maps. */
  function Initial(): (s: State)
    ensures Valid(s)
    ensures s.uniqueId == SERVER + 1 && s.clients == map[] && s.players == map[]
  {
    State(SERVER + 1, map[], map[])
  }

  /** The loop's answer to a fallible OS call followed by `?`. */
  function FlowOf(r: OsResult): (f: Flow)
    ensures f.Continue? <==> r.Done?
    ensures r.Failed? ==> f == Exit(r.error)
  {
    match r
    case Done => Continue
    case Failed(e) => Exit(e)
  }

  /** Prepends calls made earlier to a step. */
  function After(earlier: seq<Action>, r: Step): (p: Step)
    ensures p.state == r.state && p.flow == r.flow
    ensures earlier == [] ==> p == r
  {
    Step(r.state, r.flow, earlier + r.actions)
  }

  /** Prepending twice is prepending the concatenation. */
  lemma AfterAfter(a: seq<Action>, b: seq<Action>, r: Step)
    ensures After(a, After(b, r)) == After(a + b, r)
  {
    assert a + (b + r.actions) == (a + b) + r.actions;
  }

  /** The token that the next accepted connection receives: the counter is bumped first. */
  function NextToken(s: State): (id: Token)
  {
    s.uniqueId + 1
  }

  /**
   * One successful accept: bump the counter, register the socket (which may
   * fail and end the loop), build the client, spawn its keep-alive task and
   * insert it into `clients`.
   */
  function AcceptOne(s: State, inc: Incoming): (r: Step)
  {
    var id := NextToken(s);
    var bumped := s.(uniqueId := id);
    match inc.registration
    case Failed(e) => Step(bumped, Exit(e), [Register(id)])
    case Done => Step(bumped.(clients := s.clients[id := Client(id)]), Continue, [Register(id), SpawnMonitor(id)])
  }

  /**
   * The accept drain: accept the pending connections pending[from..] one by
   * one, then meet `stop`; WouldBlock ends the drain and any other error
   * ends the loop. A failed registration ends the loop at once.
   */
  function Drain(s: State, pending: seq<Incoming>, stop: IoError, from: nat): (r: Step)
    requires from <= |pending|
    decreases |pending| - from
  {
    if from == |pending| then
      Step(s, if stop == WouldBlock then Continue else Exit(stop), [])
    else
      var a := AcceptOne(s, pending[from]);
      if a.flow.Exit? then a else After(a.actions, Drain(a.state, pending, stop, from + 1))
  }

  /**
   * The player branch for token t: poll the client, read `closed` once; when
   * it is false process the player's packets, when it is true take the player
   * out of `players`, run its removal hooks and deregister its socket.
   */
  function PlayerReady(s: State, t: Token, obs: PlayerObs): (r: Step)
  {
    if t !in s.players then Step(s, Continue, [])
    else if !obs.closed then Step(s, Continue, [PollClient(t), LoadClosed(t), ProcessPackets(t)])
    else
      Step(s.(players := s.players - {t}), FlowOf(obs.deregistration),
           [PollClient(t), LoadClosed(t), RemoveHooks(t), Deregister(t)])
  }

  /** The calls the client branch makes before it decides: poll, read closed, maybe process, read make_player. */
  function ClientReads(t: Token, closed: bool): (a: seq<Action>)
  {
    [PollClient(t), LoadClosed(t)] + (if closed then [] else [ProcessPackets(t)]) + [LoadMakePlayer(t)]
  }

  /**
   * The client branch for token t: after the reads, a closed client is taken
   * out of `clients` and deregistered; otherwise a client that asks for
   * promotion is taken out of `clients`, turned into a player by the server
   * and inserted into `players` under its id, then spawned into the world.
   */
  function ClientReady(s: State, t: Token, obs: ClientObs): (r: Step)
  {
    if t !in s.clients then Step(s, Continue, [])
    else
      var prefix := ClientReads(t, obs.closed);
      var c := s.clients[t];
      if obs.closed then
        Step(s.(clients := s.clients - {t}), FlowOf(obs.deregistration), prefix + [Deregister(t)])
      else if obs.makePlayer then
        Step(s.(clients := s.clients - {t}, players := s.players[c.id := Player(c)]), Continue,
             prefix + [AddPlayer(c.id), SpawnPlayer(c.id)])
      else Step(s, Continue, prefix)
  }

  /** An event for a connection token: the player branch, then, unless it ended the loop, the client branch. */
  function ConnectionReady(s: State, t: Token, pobs: PlayerObs, cobs: ClientObs): (r: Step)
  {
    var p := PlayerReady(s, t, pobs);
    if p.flow.Exit? then p else After(p.actions, ClientReady(p.state, t, cobs))
  }

  /** One event: the listener token drains accepts, any other token is dispatched. */
  function HandleEvent(s: State, ev: Event): (r: Step)
  {
    if ev.token == SERVER then Drain(s, ev.pending, ev.stop, 0)
    else ConnectionReady(s, ev.token, ev.player, ev.client)
  }

  /** The events events[from..] of one poll batch, in order, until one ends the loop. */
  function HandleEvents(s: State, events: seq<Event>, from: nat): (r: Step)
    requires from <= |events|
    decreases |events| - from
  {
    if from == |events| then Step(s, Continue, [])
    else
      var e := HandleEvent(s, events[from]);
      if e.flow.Exit? then e else After(e.actions, HandleEvents(e.state, events, from + 1))
  }

  /**
   * The loop over the wake-ups wakeups[from..]: an interrupted poll is
   * retried, any other poll error ends the loop, a batch is handled in order.
   */
  function Serve(s: State, wakeups: seq<Wakeup>, from: nat): (r: Step)
    requires from <= |wakeups|
    decreases |wakeups| - from
  {
    if from == |wakeups| then Step(s, Continue, [])
    else match wakeups[from]
      case PollFailed(e) =>
        if e == Interrupted then Serve(s, wakeups, from + 1) else Step(s, Exit(e), [])
      case Polled(events) =>
        var b := HandleEvents(s, events, 0);
        if b.flow.Exit? then b else After(b.actions, Serve(b.state, wakeups, from + 1))
  }
}
