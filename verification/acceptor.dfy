/**
 * The part of a connection acceptor that is not socket I/O: binding the
 * listening socket with a bounded retry over three consecutive ports, and
 * reporting to the coordinator's queue.
 *
 * Whether an attempt to bind succeeds is the environment's answer; it is
 * given as an oracle `succeeds`, where attempt k (counting from 0) succeeds
 * iff `succeeds` has a `true` at position k (missing answers are failures).
 */
module Acceptor {
  import opened Protocol
  import opened Connections

  /** The largest TCP port number a server socket accepts. */
  const MaxPort: int := 65535

  /** Three attempts on each port. */
  const TriesPerPort: nat := 3
  /** The preferred port and the two after it. */
  const PortCount: nat := 3
  const MaxAttempts: nat := TriesPerPort * PortCount

  /** The environment's answer to bind attempt `k`. */
  predicate Succeeds(succeeds: seq<bool>, k: nat) {
    k < |succeeds| && succeeds[k]
  }

  /** The port attempt `k` tries: three tries per port, starting at `port`. */
  function AttemptPort(port: int, k: nat): int {
    port + k / TriesPerPort
  }

  /** The result of the retry loop from attempt `k` on: the port of the first
      successful attempt, or 0 once all nine attempts have failed. */
  function BindFrom(port: int, succeeds: seq<bool>, k: nat): (r: int)
    requires k <= MaxAttempts
    ensures r == 0 || (AttemptPort(port, k) <= r <= port + PortCount - 1)
    decreases MaxAttempts - k
  {
    if k == MaxAttempts then 0
    else if Succeeds(succeeds, k) then AttemptPort(port, k)
    else BindFrom(port, succeeds, k + 1)
  }

  /** Some attempt at or after `k` succeeds. */
  predicate SomeSuccessFrom(succeeds: seq<bool>, k: nat) {
    exists j | k <= j < MaxAttempts :: Succeeds(succeeds, j)
  }

  /** For a positive preferred port, the loop reports failure (0) exactly when
      every remaining attempt fails. */
  lemma {:induction false} BindFailsIffAllFail(port: int, succeeds: seq<bool>, k: nat)
    requires port > 0 && k <= MaxAttempts
    ensures BindFrom(port, succeeds, k) == 0 <==> !SomeSuccessFrom(succeeds, k)
    decreases MaxAttempts - k
  {
    if k < MaxAttempts && !Succeeds(succeeds, k) {
      BindFailsIffAllFail(port, succeeds, k + 1);
      assert SomeSuccessFrom(succeeds, k) ==> SomeSuccessFrom(succeeds, k + 1);
    }
  }

  /** The port reported is the one of the first attempt that succeeds. */
  lemma {:induction false} BindReportsFirstSuccess(port: int, succeeds: seq<bool>, k: nat, j: nat)
    requires k <= j < MaxAttempts && Succeeds(succeeds, j)
    requires forall i | k <= i < j :: !Succeeds(succeeds, i)
    ensures BindFrom(port, succeeds, k) == AttemptPort(port, j)
    decreases j - k
  {
    if k < j {
      BindReportsFirstSuccess(port, succeeds, k + 1, j);
    }
  }

  class ConnectionAcceptor {
    /** Whether the listening socket is bound (`acceptor != null`). */
    var bound: bool
    var port: int
    var keepRunning: bool
    /** The coordinator's queue, as this acceptor appends to it. */
    var operationQueue: seq<QueueElement>

    constructor (port: int, operationQueue: seq<QueueElement>)
      ensures this.port == port && this.operationQueue == operationQueue
      ensures keepRunning && !bound
    {
      this.port := port;
      this.operationQueue := operationQueue;
      keepRunning := true;
      bound := false;
    }

    function GetPort(): int
      reads this
    {
      port
    }

    function IsKeepRunning(): bool
      reads this
    {
      keepRunning
    }

    /** Clears the run flag; no method of the acceptor sets it again. */
    method FinishAcceptor()
      modifies this`keepRunning
      ensures !IsKeepRunning()
    {
      keepRunning := false;
    }

    /** `bindAcceptor`: up to three attempts on each of `port`, `port + 1` and
        `port + 2`. Returns the port bound, or 0 after nine failures; an
        acceptor that is already bound returns `port` without an attempt. */
    method BindAcceptor(succeeds: seq<bool>) returns (r: int)
      requires 0 <= port && port + PortCount - 1 <= MaxPort
      modifies this`bound
      ensures r == if old(bound) then port else BindFrom(port, succeeds, 0)
      ensures bound <==> old(bound) || SomeSuccessFrom(succeeds, 0)
    {
      var currentPort := port;
      var numberOfTries := 1;
      ghost var attempt := 0;
      while !bound
        invariant 0 <= attempt < MaxAttempts
        invariant attempt == (currentPort - port) * TriesPerPort + numberOfTries - 1
        invariant currentPort == AttemptPort(port, attempt)
        invariant numberOfTries == attempt % TriesPerPort + 1
        invariant forall j | 0 <= j < attempt :: !Succeeds(succeeds, j)
        invariant !old(bound) ==> BindFrom(port, succeeds, attempt) == BindFrom(port, succeeds, 0)
        invariant bound ==> old(bound) || Succeeds(succeeds, attempt)
        invariant old(bound) ==> bound && attempt == 0
        decreases MaxAttempts - attempt, if bound then 0 else 1
      {
        if Succeeds(succeeds, (currentPort - port) * TriesPerPort + numberOfTries - 1) {
          bound := true;
        } else {
          if numberOfTries % TriesPerPort == 0 {
            numberOfTries := 1;
            if currentPort == port + PortCount - 1 {
              assert attempt == MaxAttempts - 1;
              assert !SomeSuccessFrom(succeeds, 0);
              return 0;
            }
            currentPort := currentPort + 1;
          } else {
            numberOfTries := numberOfTries + 1;
          }
          attempt := attempt + 1;
        }
      }
      return currentPort;
    }

    /** `setupAcceptor`: `port` becomes the bound port; when binding failed,
        one SOCKET_ERROR with a null connection is queued and the acceptor
        stops. */
    method SetupAcceptor(succeeds: seq<bool>)
      requires 0 <= port && port + PortCount - 1 <= MaxPort
      modifies this`bound, this`port, this`operationQueue, this`keepRunning
      ensures port == if old(bound) then old(port) else BindFrom(old(port), succeeds, 0)
      ensures bound <==> old(bound) || SomeSuccessFrom(succeeds, 0)
      ensures port == 0 ==>
        && operationQueue == old(operationQueue) + [QueueElement(SocketError, Null)]
        && !keepRunning
      ensures port != 0 ==> operationQueue == old(operationQueue) && keepRunning == old(keepRunning)
    {
      port := BindAcceptor(succeeds);
      if port == 0 {
        operationQueue := operationQueue + [QueueElement(SocketError, Null)];
        keepRunning := false;
      }
    }

    /** `writeToOperationQueue`: a null connection is refused; otherwise the
        event is appended. */
    method WriteToOperationQueue(operationType: OperationType, connection: Connection) returns (ok: bool)
      modifies this`operationQueue
      ensures ok <==> !connection.Null?
      ensures operationQueue ==
        if ok then old(operationQueue) + [QueueElement(operationType, connection)] else old(operationQueue)
    {
      if connection.Null? {
        return false;
      }
      operationQueue := operationQueue + [QueueElement(operationType, connection)];
      return true;
    }
  }
}
