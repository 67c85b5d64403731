/**
 * The connection lifecycle of an Artifact as reference sequences of steps.
 * Everything the Artifact hands to code it cannot see (connection hooks,
 * in-band registration, the XMPP connect, `setup`, leaving the connected
 * context) is represented by the outcome that code produced, given as an input.
 */
module Lifecycle {
  import opened Wrappers
  import opened Identity

  /** The kinds of exception that leave an Artifact operation. */
  datatype Error =
    | AuthenticationFailure  // the server rejected the credentials during connect
    | ConnectionFailure      // any other failure of the transport while connecting
    | RegistrationFailure    // in-band registration raised
    | ClientFailure          // constructing the client or its security layer raised
    | HookFailure            // an overridden connection hook raised
    | SetupFailure           // an overridden `setup` raised
    | SendFailure            // the transport rejected an outgoing message
    | NoClient               // `send` before any client exists (attribute access on None)
    | DisconnectFailure      // leaving the connected context raised
    | NotImplemented         // the base `run`

  /** Normal completion, or the exception raised. */
  datatype Outcome = Ok | Fail(error: Error)

  /** What entering the connected context of the client produced. */
  datatype ConnectResult = Connected | SaslRejected | TransportError

  /** The outcomes of the external steps of one start, in the order they would run. */
  datatype StartOracle = StartOracle(
    beforeHook: Outcome,
    registration: Outcome,
    client: Outcome,
    connect: ConnectResult,
    afterHook: Outcome,
    setup: Outcome)

  /** The observable steps of an Artifact, in the order it performs them. */
  datatype Event =
    | BeforeConnectionHook
    | Register
    | CreateClient          // client, message dispatcher and presence manager are created
    | Connect
    | RegisterChatCallback
    | AfterConnectionHook
    | Setup
    | SetAlive
    | SetUnavailable
    | ClientStop
    | ConnectionExit
    | ClearAlive
    | RunBody
    | Transmit(sender: Jid, to: Option<Jid>, body: string)

  /** The steps one operation performed and how it ended. */
  datatype Run = Run(events: seq<Event>, outcome: Outcome)

  /** Every step of a start that succeeds, in order. */
  function CanonicalStart(autoRegister: bool): seq<Event> {
    [BeforeConnectionHook] + (if autoRegister then [Register] else [])
      + [CreateClient, Connect, RegisterChatCallback, AfterConnectionHook, Setup, SetAlive]
  }

  /** A SASL rejection becomes the distinct authentication error; other connect failures pass through. */
  function ConnectOutcome(c: ConnectResult): (r: Outcome)
    ensures r.Ok? <==> c == Connected
    ensures r == Fail(AuthenticationFailure) <==> c == SaslRejected
  {
    match c
    case Connected => Ok
    case SaslRejected => Fail(AuthenticationFailure)
    case TransportError => Fail(ConnectionFailure)
  }

  /** The steps `_async_start` performs: it stops at the first step that raises. */
  function StartSequence(autoRegister: bool, o: StartOracle): Run {
    var hooked := [BeforeConnectionHook];
    if o.beforeHook.Fail? then Run(hooked, o.beforeHook)
    else
      var registered := if autoRegister then hooked + [Register] else hooked;
      if autoRegister && o.registration.Fail? then Run(registered, o.registration)
      else
        var created := registered + [CreateClient];
        if o.client.Fail? then Run(created, o.client)
        else
          var connected := created + [Connect];
          if o.connect != Connected then Run(connected, ConnectOutcome(o.connect))
          else
            var wired := connected + [RegisterChatCallback, AfterConnectionHook];
            if o.afterHook.Fail? then Run(wired, o.afterHook)
            else if o.setup.Fail? then Run(wired + [Setup], o.setup)
            else Run(wired + [Setup, SetAlive], Ok)
  }

  /** Every start performs a prefix of the canonical steps, all of them exactly when it completes. */
  lemma StartSequenceIsPrefix(autoRegister: bool, o: StartOracle)
    ensures StartSequence(autoRegister, o).events <= CanonicalStart(autoRegister)
    ensures StartSequence(autoRegister, o).outcome.Ok? <==>
      StartSequence(autoRegister, o).events == CanonicalStart(autoRegister)
  {
  }

  /** A start completes exactly when every external step does. */
  lemma StartCompletesWhenAllStepsDo(autoRegister: bool, o: StartOracle)
    ensures StartSequence(autoRegister, o).outcome.Ok? <==>
      (o.beforeHook.Ok? && (autoRegister ==> o.registration.Ok?) && o.client.Ok? && o.connect == Connected
       && o.afterHook.Ok? && o.setup.Ok?)
  {
  }

  /** Only a complete start raises the liveness flag, and it does so as its last step. */
  lemma StartRaisesAliveLast(autoRegister: bool, o: StartOracle)
    ensures SetAlive in StartSequence(autoRegister, o).events <==> StartSequence(autoRegister, o).outcome.Ok?
    ensures SetAlive in StartSequence(autoRegister, o).events ==>
      StartSequence(autoRegister, o).events[|StartSequence(autoRegister, o).events| - 1] == SetAlive
  {
  }

  /** Registration happens only when asked for; the chat callback is wired only after a successful connect. */
  lemma StartWiresAfterConnect(autoRegister: bool, o: StartOracle)
    ensures Register in StartSequence(autoRegister, o).events <==> (autoRegister && o.beforeHook.Ok?)
    ensures RegisterChatCallback in StartSequence(autoRegister, o).events <==>
      (Connect in StartSequence(autoRegister, o).events && o.connect == Connected)
  {
  }

  /** Whether a start gets as far as creating the client: every step before it completed. */
  predicate ReachesClient(autoRegister: bool, o: StartOracle) {
    o.beforeHook.Ok? && (autoRegister ==> o.registration.Ok?)
  }

  /** Whether a start ends with a client: it reaches the client step and construction completes. */
  predicate BuildsClient(autoRegister: bool, o: StartOracle) {
    ReachesClient(autoRegister, o) && o.client.Ok?
  }

  /** Whether a start gets a session: it builds a client and the connect succeeds. */
  predicate ReachesSession(autoRegister: bool, o: StartOracle) {
    BuildsClient(autoRegister, o) && o.connect == Connected
  }

  /** Client construction is attempted exactly when a start reaches the client step, the
      connect exactly when the client was built, and the chat callback is registered exactly
      when the start gets a session. */
  lemma StartReachedSteps(autoRegister: bool, o: StartOracle)
    ensures CreateClient in StartSequence(autoRegister, o).events <==> ReachesClient(autoRegister, o)
    ensures Connect in StartSequence(autoRegister, o).events <==> BuildsClient(autoRegister, o)
    ensures RegisterChatCallback in StartSequence(autoRegister, o).events <==> ReachesSession(autoRegister, o)
  {
  }

  /** A rejected login ends the start at the connect step: no callback, no liveness. */
  lemma AuthenticationFailureAborts(autoRegister: bool, o: StartOracle)
    requires o.beforeHook.Ok? && (autoRegister ==> o.registration.Ok?) && o.client.Ok?
    requires o.connect == SaslRejected
    ensures StartSequence(autoRegister, o).outcome == Fail(AuthenticationFailure)
    ensures StartSequence(autoRegister, o).events[|StartSequence(autoRegister, o).events| - 1] == Connect
    ensures SetAlive !in StartSequence(autoRegister, o).events
    ensures RegisterChatCallback !in StartSequence(autoRegister, o).events
  {
  }

  /**
   * The steps `_async_stop` performs: announce unavailability when a presence
   * manager exists, disconnect only when alive, then clear the flag; an
   * exception while leaving the connected context skips the clearing.
   */
  function StopSequence(hasPresence: bool, alive: bool, exit: Outcome): Run {
    var announced := if hasPresence then [SetUnavailable] else [];
    if !alive then Run(announced + [ClearAlive], Ok)
    else if exit.Fail? then Run(announced + [ClientStop, ConnectionExit], exit)
    else Run(announced + [ClientStop, ConnectionExit, ClearAlive], Ok)
  }

  /**
   * Unavailability is announced first exactly when a presence manager exists;
   * the disconnect happens exactly when the Artifact was alive; the stop
   * completes, with clearing the flag as its last step, unless leaving the
   * connected context raised.
   */
  lemma StopSequenceOrder(hasPresence: bool, alive: bool, exit: Outcome)
    ensures var r := StopSequence(hasPresence, alive, exit);
      && (hasPresence <==> (r.events != [] && r.events[0] == SetUnavailable))
      && (ClientStop in r.events <==> alive)
      && (ConnectionExit in r.events <==> alive)
      && (r.outcome.Ok? <==> (!alive || exit.Ok?))
      && (r.outcome.Ok? <==> (r.events != [] && r.events[|r.events| - 1] == ClearAlive))
      && (ClearAlive in r.events <==> r.outcome.Ok?)
      && (r.outcome.Fail? ==> r.outcome == exit)
  {
  }

  /** A stop on an Artifact that is not alive never disconnects and never fails. */
  lemma StopWhenNotAliveIsQuiet(hasPresence: bool, exit: Outcome)
    ensures StopSequence(hasPresence, false, exit).outcome == Ok
    ensures ClientStop !in StopSequence(hasPresence, false, exit).events
    ensures ConnectionExit !in StopSequence(hasPresence, false, exit).events
  {
  }

  /** What `run` produced; without an override it is the base `run`, which always raises. */
  function RunOutcome(overridden: Option<Outcome>): Outcome {
    if overridden.Some? then overridden.value else Fail(NotImplemented)
  }
}
