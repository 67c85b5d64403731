/**
 * The Artifact: a knowledge store, a FIFO mailbox fed by the chat callback,
 * a liveness flag raised at the end of start and cleared by stop, and a send
 * that defaults the sender to the Artifact's own identity.
 */
module Artifacts {
  import opened Wrappers
  import opened Identity
  import opened Lifecycle

  /** Whatever the Artifact's own logic stores; the store never looks inside. */
  type Value

  /** A chat message as the Artifact's logic sees it; `send` updates it in place. */
  class Message {
    var sender: Option<Jid>
    var to: Option<Jid>
    var body: string
    var sent: bool

    constructor (to: Option<Jid>, body: string, sender: Option<Jid>)
      ensures this.to == to && this.body == body && this.sender == sender && !sent
    {
      this.to := to;
      this.body := body;
      this.sender := sender;
      sent := false;
    }
  }

  /** Python truthiness of an optional timeout: `None` and zero mean "no timeout". */
  predicate Truthy(timeout: Option<real>) {
    timeout.Some? && timeout.value != 0.0
  }

  class Artifact {
    const jid: Jid
    const password: string
    const verifySecurity: bool

    /** The knowledge store. */
    var values: map<string, Value>
    /** The mailbox, head first. */
    var queue: seq<Message>
    /** The liveness flag. */
    var alive: bool
    /** Whether the client (with its message dispatcher), the presence manager,
        the connected context and the stream have been assigned. */
    var hasClient: bool
    var hasPresence: bool
    var hasConnection: bool
    var hasStream: bool
    /** Whether the chat callback is registered on the current client's dispatcher. */
    var chatCallback: bool

    /** Every step performed so far. */
    ghost var trace: seq<Event>
    /** Every message ever enqueued, and every message ever handed out by `Receive`. */
    ghost var arrived: seq<Message>
    ghost var taken: seq<Message>

    /** Messages leave the mailbox in the order they arrived; liveness implies a session. */
    ghost predicate Valid()
      reads this
    {
      WellFormed(jid)
      && arrived == taken + queue
      && (alive ==> hasClient && hasConnection)
    }

    constructor (jid: Jid, password: string, verifySecurity: bool)
      requires WellFormed(jid)
      ensures Valid()
      ensures this.jid == jid && this.password == password && this.verifySecurity == verifySecurity
      ensures values == map[] && queue == [] && !alive
      ensures !hasClient && !hasPresence && !hasConnection && !hasStream && !chatCallback
      ensures trace == [] && arrived == [] && taken == []
    {
      this.jid := jid;
      this.password := password;
      this.verifySecurity := verifySecurity;
      values := map[];
      queue := [];
      alive := false;
      hasClient, hasPresence, hasConnection, hasStream, chatCallback := false, false, false, false, false;
      trace, arrived, taken := [], [], [];
    }

    // ---------------------------------------------------------------- identity

    /** The name of the Artifact: the local part, i.e. the text before the '@'. */
    function Name(): (r: string)
      requires WellFormed(jid)
      ensures '@' !in r
      ensures jid.localpart != "" ==> r == BeforeAt(ToText(jid))
    {
      if jid.localpart != "" then BeforeAtOfJoin(jid.localpart, jid.domain); jid.localpart
      else jid.localpart
    }

    // --------------------------------------------------------- knowledge store

    /** The value stored under `name`, or absence for a name never set. */
    function Get(name: string): (r: Option<Value>)
      reads this
      ensures r.Some? <==> name in values
      ensures r.Some? ==> r.value == values[name]
    {
      if name in values then Some(values[name]) else None
    }

    /** Stores `value` under `name`, replacing any earlier value. */
    method Set(name: string, value: Value)
      requires Valid()
      modifies this`values
      ensures Valid()
      ensures values == old(values)[name := value]
      ensures Get(name) == Some(value)
      ensures forall other :: other != name ==> Get(other) == old(Get(other))
    {
      values := values[name := value];
    }

    // ----------------------------------------------------------------- mailbox

    /** The number of messages enqueued and not yet received. */
    function MailboxSize(): (n: nat)
      reads this
      requires Valid()
      ensures n == |arrived| - |taken|
    {
      |queue|
    }

    /** The chat callback: enqueues the decoded message at the tail. */
    method MessageReceived(msg: Message)
      requires Valid()
      modifies this`queue, this`arrived
      ensures Valid()
      ensures queue == old(queue) + [msg]
      ensures arrived == old(arrived) + [msg] && taken == old(taken)
      ensures MailboxSize() == old(MailboxSize()) + 1
    {
      queue := queue + [msg];
      arrived := arrived + [msg];
    }

    /**
     * Takes the head of the mailbox, or returns absence. Without a usable
     * timeout an empty mailbox gives absence at once; with one, `expired`
     * says whether the wait ran out before a message was at hand.
     */
    method Receive(timeout: Option<real>, expired: bool) returns (r: Option<Message>)
      requires Valid()
      modifies this`queue, this`taken
      ensures Valid()
      ensures old(queue) == [] ==> r == None
      ensures !Truthy(timeout) ==> (r.None? <==> old(queue) == [])
      ensures Truthy(timeout) && old(queue) != [] ==> (r.None? <==> expired)
      ensures r.None? ==> queue == old(queue) && taken == old(taken)
      ensures r.Some? ==>
        old(queue) != [] && r.value == old(queue)[0]
        && queue == old(queue)[1..] && taken == old(taken) + [r.value] && arrived == old(arrived)
      ensures MailboxSize() == old(MailboxSize()) - (if r.Some? then 1 else 0)
    {
      if Truthy(timeout) && expired {
        r := None;
      } else if queue == [] {
        r := None;
      } else {
        r := Some(queue[0]);
        queue := queue[1..];
        taken := taken + [r.value];
      }
    }

    // -------------------------------------------------------------------- send

    /**
     * Sends `msg`: an unset sender becomes the Artifact's own identity, and
     * `sent` is raised only once the transport has taken the message.
     */
    method Send(msg: Message, transport: Outcome) returns (r: Outcome)
      requires Valid()
      modifies this`trace, msg
      ensures Valid()
      ensures old(msg.sender).None? ==> msg.sender == Some(jid)
      ensures old(msg.sender).Some? ==> msg.sender == old(msg.sender)
      ensures r == if hasClient then transport else Fail(NoClient)
      ensures msg.sent == (old(msg.sent) || r.Ok?)
      ensures msg.to == old(msg.to) && msg.body == old(msg.body)
      ensures trace == old(trace) + (if r.Ok? then [Transmit(msg.sender.value, msg.to, msg.body)] else [])
    {
      if msg.sender.None? {
        msg.sender := Some(jid);
      }
      if !hasClient {
        return Fail(NoClient);
      }
      if transport.Fail? {
        return transport;
      }
      trace := trace + [Transmit(msg.sender.value, msg.to, msg.body)];
      msg.sent := true;
      r := Ok;
    }

    // --------------------------------------------------------------- lifecycle

    /** Whether the Artifact is alive; it is only while a session exists. */
    function IsAlive(): (b: bool)
      reads this
      requires Valid()
      ensures b ==> hasClient && hasConnection
    {
      alive
    }

    /** Connects and sets up the Artifact, raising the liveness flag only at the very end. */
    method AsyncStart(autoRegister: bool, o: StartOracle) returns (r: Outcome)
      requires Valid()
      modifies this`alive, this`hasClient, this`hasPresence, this`hasConnection, this`hasStream,
        this`chatCallback, this`trace
      ensures Valid()
      ensures r == StartSequence(autoRegister, o).outcome
      ensures trace == old(trace) + StartSequence(autoRegister, o).events
      ensures alive == (old(alive) || r.Ok?)
      ensures r.Ok? ==> hasClient && hasPresence && hasConnection && hasStream && chatCallback
      ensures hasClient == (old(hasClient) || BuildsClient(autoRegister, o))
      ensures hasPresence == (old(hasPresence) || BuildsClient(autoRegister, o))
      ensures hasConnection == (old(hasConnection) || BuildsClient(autoRegister, o))
      ensures hasStream == (old(hasStream) || ReachesSession(autoRegister, o))
      ensures chatCallback ==
        if BuildsClient(autoRegister, o) then ReachesSession(autoRegister, o) else old(chatCallback)
    {
      // a step runs only when every earlier one completed; `steps` records the steps that ran
      ghost var steps := [BeforeConnectionHook];
      r := o.beforeHook;
      if r.Ok? && autoRegister {
        steps := steps + [Register];
        r := o.registration;
      }
      if r.Ok? {
        steps := steps + [CreateClient];
        r := o.client;
      }
      if r.Ok? {
        // a fresh client comes with a fresh dispatcher, on which no callback is registered yet
        hasClient, hasPresence, chatCallback := true, true, false;
        hasConnection := true;
        steps := steps + [Connect];
        r := ConnectOutcome(o.connect);
        if r.Ok? {
          hasStream := true;
        }
      }
      if r.Ok? {
        chatCallback := true;
        steps := steps + [RegisterChatCallback, AfterConnectionHook];
        r := o.afterHook;
      }
      if r.Ok? {
        steps := steps + [Setup];
        r := o.setup;
      }
      if r.Ok? {
        alive := true;
        steps := steps + [SetAlive];
      }
      trace := trace + steps;
    }

    /** Announces unavailability, disconnects when alive, and clears the liveness flag. */
    method AsyncStop(exit: Outcome) returns (r: Outcome)
      requires Valid()
      modifies this`alive, this`trace
      ensures Valid()
      ensures r == StopSequence(old(hasPresence), old(alive), exit).outcome
      ensures trace == old(trace) + StopSequence(old(hasPresence), old(alive), exit).events
      ensures alive == (old(alive) && exit.Fail?)
    {
      ghost var steps := if hasPresence then [SetUnavailable] else [];
      r := Ok;
      if alive {
        // the flag is only raised once a client and its connected context exist
        assert hasClient && hasConnection;
        steps := steps + [ClientStop, ConnectionExit];
        r := exit;
      }
      if r.Ok? {
        alive := false;
        steps := steps + [ClearAlive];
      }
      trace := trace + steps;
    }

    /**
     * Starts the Artifact and then runs its main body; `run` is the outcome of
     * an overridden `run`, or None for the base one. Returning from `run`
     * does not stop the connection.
     */
    method Start(autoRegister: bool, o: StartOracle, run: Option<Outcome>) returns (r: Outcome)
      requires Valid()
      modifies this`alive, this`hasClient, this`hasPresence, this`hasConnection, this`hasStream,
        this`chatCallback, this`trace
      ensures Valid()
      ensures StartSequence(autoRegister, o).outcome.Fail? ==>
        r == StartSequence(autoRegister, o).outcome
        && trace == old(trace) + StartSequence(autoRegister, o).events
      ensures StartSequence(autoRegister, o).outcome.Ok? ==>
        r == RunOutcome(run) && alive
        && trace == old(trace) + StartSequence(autoRegister, o).events + [RunBody]
      ensures StartSequence(autoRegister, o).outcome.Fail? ==> alive == old(alive)
      ensures run.None? ==> r.Fail?
      ensures hasClient == (old(hasClient) || BuildsClient(autoRegister, o))
      ensures hasPresence == (old(hasPresence) || BuildsClient(autoRegister, o))
      ensures hasConnection == (old(hasConnection) || BuildsClient(autoRegister, o))
      ensures hasStream == (old(hasStream) || ReachesSession(autoRegister, o))
      ensures chatCallback ==
        if BuildsClient(autoRegister, o) then ReachesSession(autoRegister, o) else old(chatCallback)
    {
      r := AsyncStart(autoRegister, o);
      if r.Ok? {
        trace := trace + [RunBody];
        r := RunOutcome(run);
      }
    }
  }
}
