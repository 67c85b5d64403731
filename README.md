# Artifact model

A Dafny model of the `Artifact` class of `spade_artifact`: an XMPP-connected
entity that keeps a knowledge store, buffers inbound chat messages in a FIFO
mailbox, raises a liveness flag once its start sequence completes, clears it on
stop, and sends messages with its own identity filled in as sender.

Modules, one concern each:

- `Wrappers` (`wrappers.dfy`): `Option`, the model of Python's `None`.
- `Identity` (`identity.dfy`): identities as parsed `(localpart, domain)`
  pairs, their text form, and "the text before the '@'".
- `Lifecycle` (`lifecycle.dfy`): error kinds, the outcomes of external steps,
  the observable steps (`Event`), and the reference step sequences of start
  (`StartSequence`, `CanonicalStart`) and stop (`StopSequence`) with lemmas
  about their order.
- `Artifacts` (`artifact.dfy`): the `Message` class (whose `sender` and `sent`
  fields `send` updates in place) and the `Artifact` class. Its fields are the
  knowledge store (`values: map`), the mailbox (`queue: seq<Message>`), the
  liveness flag (`alive`) and flags for the collaborators start assigns
  (`hasClient`, `hasPresence`, `hasConnection`, `hasStream`, `chatCallback`).
  Ghost fields record every step taken (`trace`), every message enqueued
  (`arrived`) and every message handed out (`taken`). `Valid()` keeps
  `arrived == taken + queue`, which is FIFO order stated as an invariant. It
  also keeps "alive implies a client and a connected context exist".
- `Scenarios` (`scenarios.dfy`): client code that drives a fresh Artifact
  through the documented situations, using only the operations' contracts.

Everything the Artifact hands to code it cannot see is an input. This covers
the overridable hooks and `setup`, in-band registration, client construction, the XMPP connect,
the transport send, leaving the connected context, and timeout expiry. Such
an input is an `Outcome`, a `ConnectResult` or `expired: bool`. The
`Artifact` methods state their whole new state against these inputs, on the
understanding that the code the Artifact calls out to does not itself act on
the Artifact (see "## Left out").

Where the code's behaviour departs from what its docstrings and a reader would
expect, the model follows the code:

- A stopped Artifact may be started again through `_async_start` and `_async_stop`:
  nothing in them forbids it. `start()` itself closes its event loop when it
  returns, so restarting through it is not possible.
- `_async_stop` clears the flag only when leaving the connected context does
  not raise. If `__aexit__` raises, the flag stays raised (`AsyncStop`'s `exit`).
- A failed start cleans nothing up. Once the client has been constructed, the
  client, presence manager and connected context stay assigned after any later
  failure. A client whose construction raises leaves all three as they were.
- A failing registration propagates whatever it raised. It is not turned into
  a registration-specific error. Only a SASL rejection during connect is
  translated, into `AuthenticationFailure`.
- `send` fills in the sender before the transport is tried, so it does so on
  failure too. On failure `sent` keeps its earlier value rather than becoming
  false. `send` fails for want of a session only when no client was ever
  created: after a stop the client object remains, and the transport decides.
- `receive` tests `if timeout:`, so `0` counts as "no timeout" and a
  negative timeout counts as a timeout.
- An aioxmpp JID is a non-empty tuple, so it is always truthy. `not msg.sender`
  therefore means "sender is None", which is `sender.None?` here.

## Model

| member | source | states |
|---|---|---|
| `Identity.BeforeAt` | spade_artifact/artifact.py:163-166 | the text before the first '@' is a prefix of the text, holds no '@', and is followed by '@' unless it is the whole text |
| `Identity.BeforeAtOfJoin` | spade_artifact/artifact.py:163-166 | for `localpart@domain` with a separator-free local part, the text before the '@' is exactly the local part |
| `Lifecycle.ConnectOutcome` | spade_artifact/artifact.py:128-138 | connect completes exactly when the server accepted the session; a SASL rejection, and only that, becomes `AuthenticationFailure` |
| `Lifecycle.StartSequenceIsPrefix` | spade_artifact/artifact.py:83-114 | every start performs a prefix of hook, optional registration, client creation, connect, chat callback, hook, setup, set alive; all of it exactly when it completes |
| `Lifecycle.StartCompletesWhenAllStepsDo` | spade_artifact/artifact.py:83-114 | a start completes exactly when the before hook, the registration (if asked for), the client construction, the connect, the after hook and setup all complete |
| `Lifecycle.StartRaisesAliveLast` | spade_artifact/artifact.py:113-114 | the liveness flag is raised exactly by a complete start, as its very last step |
| `Lifecycle.StartWiresAfterConnect` | spade_artifact/artifact.py:85-109 | registration runs exactly when asked for and the before hook passed; the chat callback is registered exactly when the connect was performed and succeeded |
| `Lifecycle.StartReachedSteps` | spade_artifact/artifact.py:83-109 | client construction is attempted exactly when the before hook and any registration completed (`ReachesClient`); the connect exactly when, in addition, the client was built (`BuildsClient`); the chat callback is registered exactly when, in addition, the connect succeeded (`ReachesSession`) |
| `Lifecycle.AuthenticationFailureAborts` | spade_artifact/artifact.py:102-138 | a rejected login ends the start with `AuthenticationFailure` at the connect step, with no chat callback and no liveness |
| `Lifecycle.StopSequenceOrder` | spade_artifact/artifact.py:174-187 | unavailability is announced first exactly when a presence manager exists; the disconnect happens exactly when alive; the stop completes, clearing the flag last, unless leaving the connection raised, and then it raises that |
| `Lifecycle.StopWhenNotAliveIsQuiet` | spade_artifact/artifact.py:180-187 | a stop on an Artifact that is not alive performs no disconnect and completes, whatever leaving the connection would do |
| `Artifacts.Artifact.constructor` | spade_artifact/artifact.py:21-45 | a new Artifact has an empty store, an empty mailbox, no client, presence or connection, and is not alive |
| `Artifacts.Artifact.Name` | spade_artifact/artifact.py:163-166 | the name holds no '@' and, for an identity with a local part, is the text before the '@' of the identity |
| `Artifacts.Artifact.Get` | spade_artifact/artifact.py:210-224 | a known name yields its stored value, an unknown one absence; reading changes nothing |
| `Artifacts.Artifact.Set` | spade_artifact/artifact.py:199-208 | afterwards `Get(name)` yields the new value and every other name reads as before; nothing but the store changes |
| `Artifacts.Artifact.MailboxSize` | spade_artifact/artifact.py:282-290 | the size is the number of messages ever enqueued minus the number ever received |
| `Artifacts.Artifact.MessageReceived` | spade_artifact/artifact.py:226-241 | exactly one message is appended at the tail, earlier entries untouched, the size grows by one |
| `Artifacts.Artifact.Receive` | spade_artifact/artifact.py:257-280 | without a usable timeout (None or 0): absence exactly on an empty mailbox, otherwise the head, removed; with one: the head, removed, or absence on expiry with the mailbox unchanged; never an error |
| `Artifacts.Artifact.Send` | spade_artifact/artifact.py:243-255 | an unset sender becomes the own identity and a set one is kept; `sent` is raised exactly when the transport took the message and otherwise keeps its value; without a client the send fails |
| `Artifacts.Artifact.IsAlive` | spade_artifact/artifact.py:189-197 | an alive Artifact has a client and a connected context |
| `Artifacts.Artifact.AsyncStart` | spade_artifact/artifact.py:69-114 | the steps taken are `StartSequence`, the result is its outcome, alive afterwards exactly when it was before or the start completed; the client, presence manager and connected context are assigned afterwards exactly when they were before or the start built a client, the stream exactly when it was before or the connect succeeded, and a start that built a client leaves the chat callback registered exactly when the connect succeeded |
| `Artifacts.Artifact.AsyncStop` | spade_artifact/artifact.py:174-187 | the steps taken are `StopSequence` for the presence and liveness before the call; alive afterwards only when it was and leaving the connection raised |
| `Artifacts.Artifact.Start` | spade_artifact/artifact.py:47-57 | start completes or raises as `run` does: a failed `_async_start` raises its error and leaves liveness as it was, a complete one runs the main body, whose outcome is the result, and stays alive; it returns nothing; the base `run` always raises `NotImplemented`; the client, presence, connection, stream and chat callback end as after `AsyncStart` |
| `Scenarios.DeliverThenDrain` | spade_artifact/artifact.py:239-241 | messages delivered in some order are received in that order, and then the mailbox yields absence |
| `Scenarios.LastWriteWins` | spade_artifact/artifact.py:208-224 | after two writes to one name the second value is read back; a name never written reads as absence |
| `Scenarios.StartWithoutRegistration` | spade_artifact/artifact.py:135-138 | without registration, a rejected login raises `AuthenticationFailure` and leaves the Artifact not alive |
| `Scenarios.StopTwice` | spade_artifact/artifact.py:176-187 | two stops in a row both complete, the second whatever leaving the connection would do, and the Artifact is not alive |
| `Scenarios.StopAfterRejectedLogin` | spade_artifact/artifact.py:87-102 | a rejected login raises `AuthenticationFailure` but leaves the presence manager assigned, so a following stop announces unavailability, disconnects nothing, completes, and leaves the Artifact not alive |
| `Scenarios.SendAfterRejectedLogin` | spade_artifact/artifact.py:87-102 | a rejected login leaves the client assigned, so a later send returns what the transport did and marks the message sent exactly when it took it |
| `Scenarios.StartFailsAtClient` | spade_artifact/artifact.py:87-94 | a client whose construction raises makes the start raise that error with no client assigned, and a following stop neither announces nor disconnects and completes |
| `Scenarios.StartFailsBeforeClient` | spade_artifact/artifact.py:83-87 | a before-connection hook that raises makes `start` raise that error with no client created and the Artifact not alive |
| `Scenarios.SendWithoutSender` | spade_artifact/artifact.py:250-255 | after a start, a message without sender goes out with the own identity as sender and is marked sent exactly when the transport took it |
| `Scenarios.SendBeforeStart` | spade_artifact/artifact.py:250-254 | before any start the send fails for want of a client, leaves `sent` false, and has already filled in the sender |

## Left out

- The connection hooks, `setup` and `run` (artifact.py:83, 111, 113, 57): only
  their outcome is modelled. They are taken not to touch the store, the
  mailbox, the liveness flag or the collaborator fields, although in the code
  they run on the Artifact and may call `set`, `receive`, `send` or
  `_async_stop`. `Start`'s liveness after a completed `run`, and the unchanged
  store and mailbox across a start, hold only for such code.
- The asyncio event loop: `new_event_loop`, `run_until_complete`, and the
  cancellation of all tasks and closing of the loop in `start`'s `finally`.
  `start` and `stop` are direct method calls (`Start`, `AsyncStop`). Because
  the loop is closed when `start` returns, a later `stop()` or `start()` would
  fail at runtime; that is not captured.
- Concurrency: callbacks and coroutines are sequential calls. A message that
  arrives while a timed `receive` waits is modelled as a `MessageReceived`
  before the `Receive`. Loss of a message when a wait is cancelled is not modelled.
- Wall-clock time: the timeout duration of `asyncio.wait_for` is replaced by
  the `expired` input.
- The XMPP library: client construction together with its security layer
  (`password` and `verify_security` are kept but unused), the in-band
  registration stream, and `connected().__aenter__` / `__aexit__`. Each appears
  only as an `Event` and the outcome given as input (`client`, `registration`,
  `connect`, `exit`).
- `client.summon(SimpleMessageDispatcher)`, `PresenceManager(self)`,
  `client.connected()` and `register_callback` in `_async_start`, and
  `client.stop()` and `presence.set_unavailable()` in `_async_stop`: these are
  taken never to raise. A failure of one of them, which would leave the
  collaborators only partly assigned, is not modelled.
- The message codec (`Message.from_node`, `msg.prepare()`): `MessageReceived`
  takes the already decoded message, and the `Message` class keeps only
  sender, recipient, body and `sent`.
- `aioxmpp.JID.fromstr`: the constructor takes an already parsed identity,
  with no resource part.
- The dispatcher's filter (chat messages from any sender): `MessageReceived` is
  the callback itself, and the model does not restrict when it may be called.
  The code does not restrict this either.
- `PresenceManager` and `PubSubMixin` internals: only the announcement of
  unavailability remains, as an `Event`.
- Logging through `loguru`.
- Artifacts.Artifact.MessageReceived: the code enqueues with
  `loop.run_until_complete(queue.put(msg))` from a callback that runs inside
  the already running loop, where asyncio raises `RuntimeError` and the
  message is dropped. The model covers only the intended enqueue.
- Identity.Jid: an absent local part (`None` in the code, for which `name`
  returns `None`) is written as the empty string, and `Name` then yields "".
- Artifacts.Artifact.Get: a value stored as Python `None` reads back as
  `Some` of that value here. In the code it cannot be told apart from
  absence, and that conflation is not modelled.
