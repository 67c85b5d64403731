/**
 * Client code that drives one fresh Artifact through the situations its
 * documentation describes, using nothing but the contracts of its operations.
 */
module Scenarios {
  import opened Wrappers
  import opened Identity
  import opened Lifecycle
  import opened Artifacts

  const Own := Jid("artifact", "localhost")

  /** A start in which every external step completes. */
  const Smooth := StartOracle(Ok, Ok, Ok, Connected, Ok, Ok)

  /** Messages delivered one after another come out of `Receive` in that order, then absence. */
  method DeliverThenDrain(ms: seq<Message>) returns (got: seq<Message>, after: Option<Message>)
    ensures got == ms
    ensures after == None
  {
    var a := new Artifact(Own, "secret", false);
    var i := 0;
    while i < |ms|
      invariant 0 <= i <= |ms|
      invariant a.Valid() && a.queue == ms[..i]
    {
      a.MessageReceived(ms[i]);
      i := i + 1;
    }
    assert ms[..i] == ms;
    got := [];
    while |got| < |ms|
      invariant a.Valid() && |got| <= |ms| && got + a.queue == ms
      decreases |ms| - |got|
    {
      var r := a.Receive(None, false);
      got := got + [r.value];
    }
    after := a.Receive(None, false);
  }

  /** A later write to a name wins; a name never written reads as absence. */
  method LastWriteWins(first: Value, second: Value) returns (x: Option<Value>, y: Option<Value>)
    ensures x == Some(second)
    ensures y == None
  {
    var a := new Artifact(Own, "secret", false);
    a.Set("x", first);
    a.Set("x", second);
    x := a.Get("x");
    y := a.Get("y");
  }

  /** Without auto-registration, a server that does not know the account rejects the login. */
  method StartWithoutRegistration() returns (r: Outcome, alive: bool)
    ensures r == Fail(AuthenticationFailure)
    ensures !alive
  {
    var a := new Artifact(Own, "secret", false);
    r := a.AsyncStart(false, StartOracle(Ok, Ok, Ok, SaslRejected, Ok, Ok));
    alive := a.IsAlive();
  }

  /** A second stop in a row disconnects nothing and cannot fail, whatever leaving would do. */
  method StopTwice(exit: Outcome) returns (first: Outcome, second: Outcome, alive: bool)
    ensures first == Ok && second == Ok
    ensures !alive
  {
    var a := new Artifact(Own, "secret", false);
    var started := a.AsyncStart(true, Smooth);
    first := a.AsyncStop(Ok);
    ghost var before := a.trace;
    second := a.AsyncStop(exit);
    assert a.trace == before + [SetUnavailable, ClearAlive];
    alive := a.IsAlive();
  }

  /** A rejected login leaves the presence manager assigned, so a following stop
      announces unavailability, but it disconnects nothing. */
  method StopAfterRejectedLogin(exit: Outcome)
    returns (started: Outcome, stopped: Outcome, presence: bool, alive: bool)
    ensures started == Fail(AuthenticationFailure)
    ensures stopped == Ok
    ensures presence
    ensures !alive
  {
    var a := new Artifact(Own, "secret", false);
    started := a.AsyncStart(true, StartOracle(Ok, Ok, Ok, SaslRejected, Ok, Ok));
    presence := a.hasPresence;
    ghost var before := a.trace;
    stopped := a.AsyncStop(exit);
    assert a.trace == before + [SetUnavailable, ClearAlive];
    alive := a.IsAlive();
  }

  /** A rejected login leaves the client assigned, so a later send reaches the transport. */
  method SendAfterRejectedLogin(to: Jid, body: string, transport: Outcome)
    returns (r: Outcome, sent: bool)
    ensures r == transport
    ensures sent <==> transport.Ok?
  {
    var a := new Artifact(Own, "secret", false);
    var started := a.AsyncStart(false, StartOracle(Ok, Ok, Ok, SaslRejected, Ok, Ok));
    var m := new Message(Some(to), body, None);
    r := a.Send(m, transport);
    sent := m.sent;
  }

  /** A hook that raises before connecting leaves no client behind. */
  method StartFailsBeforeClient() returns (r: Outcome, client: bool, alive: bool)
    ensures r == Fail(HookFailure)
    ensures !client && !alive
  {
    var a := new Artifact(Own, "secret", false);
    r := a.Start(true, StartOracle(Fail(HookFailure), Ok, Ok, Connected, Ok, Ok), Some(Ok));
    client, alive := a.hasClient, a.IsAlive();
  }

  /** A client that cannot be constructed makes the start raise before anything is
      assigned, so a following stop neither announces nor disconnects. */
  method StartFailsAtClient(exit: Outcome) returns (r: Outcome, stopped: Outcome, client: bool)
    ensures r == Fail(ClientFailure)
    ensures stopped == Ok
    ensures !client
  {
    var a := new Artifact(Own, "secret", false);
    r := a.AsyncStart(true, StartOracle(Ok, Ok, Fail(ClientFailure), Connected, Ok, Ok));
    client := a.hasClient;
    ghost var before := a.trace;
    stopped := a.AsyncStop(exit);
    assert a.trace == before + [ClearAlive];
  }

  /** Sending a message without a sender after a start fills in the Artifact's own identity. */
  method SendWithoutSender(to: Jid, body: string, transport: Outcome)
    returns (r: Outcome, sender: Option<Jid>, sent: bool)
    ensures r == transport
    ensures sender == Some(Own)
    ensures sent <==> transport.Ok?
  {
    var a := new Artifact(Own, "secret", false);
    var started := a.AsyncStart(false, Smooth);
    var m := new Message(Some(to), body, None);
    r := a.Send(m, transport);
    sender, sent := m.sender, m.sent;
  }

  /** Before any start there is no client: the send fails, though the sender is already filled in. */
  method SendBeforeStart(to: Jid, body: string, transport: Outcome)
    returns (r: Outcome, sender: Option<Jid>, sent: bool)
    ensures r == Fail(NoClient)
    ensures sender == Some(Own)
    ensures !sent
  {
    var a := new Artifact(Own, "secret", false);
    var m := new Message(Some(to), body, None);
    r := a.Send(m, transport);
    sender, sent := m.sender, m.sent;
  }
}
