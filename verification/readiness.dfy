/** The readiness poll (`statusCheck`) both executors run against a freshly started container:
    up to `maxAttempts` GET requests to its endpoint, stopping at the first 200. The HTTP GET is
    an oracle `probe(endpoint, attempt)`; the one-second sleeps between attempts are not modelled. */
module Readiness {
  import opened Base

  /** What one GET brings back: a transport error, or a response with its status code. */
  datatype ProbeReply = Unreachable(message: string) | Status(code: int)

  const StatusOK := 200

  /** The first of the attempts 0 .. maxAttempts-1 that answers 200, if any. */
  function FirstReady(probe: (string, nat) -> ProbeReply, endpoint: string, maxAttempts: int): Option<nat> {
    if maxAttempts <= 0 then None
    else
      var before := FirstReady(probe, endpoint, maxAttempts - 1);
      if before.Some? then before
      else if probe(endpoint, maxAttempts - 1) == Status(StatusOK) then Some(maxAttempts - 1)
      else None
  }

  /** The first ready attempt is within the budget, answers 200, and no earlier attempt does;
      there is none exactly when no attempt within the budget answers 200. */
  lemma {:induction false} FirstReadySound(probe: (string, nat) -> ProbeReply, endpoint: string, maxAttempts: int)
    ensures FirstReady(probe, endpoint, maxAttempts).None? <==>
      forall i: nat :: i < maxAttempts ==> probe(endpoint, i) != Status(StatusOK)
    ensures FirstReady(probe, endpoint, maxAttempts).Some? ==>
      var k := FirstReady(probe, endpoint, maxAttempts).value;
      k < maxAttempts && probe(endpoint, k) == Status(StatusOK)
      && forall i: nat :: i < k ==> probe(endpoint, i) != Status(StatusOK)
  {
    if maxAttempts > 0 {
      FirstReadySound(probe, endpoint, maxAttempts - 1);
    }
  }

  /** Once an attempt has answered 200, a larger budget finds the same first one. */
  lemma {:induction false} FirstReadyStable(probe: (string, nat) -> ProbeReply, endpoint: string, n: int, m: int)
    requires n <= m
    requires FirstReady(probe, endpoint, n).Some?
    ensures FirstReady(probe, endpoint, m) == FirstReady(probe, endpoint, n)
    decreases m - n
  {
    if n < m {
      FirstReadyStable(probe, endpoint, n, m - 1);
    }
  }

  /** How many GET requests the poll makes: up to and including the first 200, or the whole
      budget. */
  function Polls(probe: (string, nat) -> ProbeReply, endpoint: string, maxAttempts: int): nat {
    match FirstReady(probe, endpoint, maxAttempts)
    case Some(k) => k + 1
    case None => if maxAttempts > 0 then maxAttempts else 0
  }

  /** What the poll is meant to report: success at the first 200, and an error naming the budget
      when every attempt failed. */
  function Readiness(probe: (string, nat) -> ProbeReply, endpoint: string, maxAttempts: int): Outcome {
    if FirstReady(probe, endpoint, maxAttempts).Some? then Pass else Fail(ReadinessTimeout(maxAttempts))
  }

  /** The poll succeeds exactly when some attempt within the budget answers 200; otherwise it
      reports the budget. It never makes more requests than the budget. */
  lemma ReadinessSound(probe: (string, nat) -> ProbeReply, endpoint: string, maxAttempts: int)
    ensures Readiness(probe, endpoint, maxAttempts).Pass? <==>
      exists i: nat :: i < maxAttempts && probe(endpoint, i) == Status(StatusOK)
    ensures Readiness(probe, endpoint, maxAttempts).Fail? ==>
      Readiness(probe, endpoint, maxAttempts).error == ReadinessTimeout(maxAttempts)
    ensures Polls(probe, endpoint, maxAttempts) <= if maxAttempts > 0 then maxAttempts else 0
  {
    FirstReadySound(probe, endpoint, maxAttempts);
  }

  /** A container that never answers: every attempt fails to connect. */
  function NeverUp(endpoint: string, attempt: nat): ProbeReply {
    Unreachable("connection refused")
  }

  /** With a container that never answers, the intended poll reports a timeout after the whole
      budget, where `StatusCheck` as written reports success. */
  lemma NeverUpTimesOut(endpoint: string)
    ensures Readiness(NeverUp, endpoint, 60) == Fail(ReadinessTimeout(60))
    ensures Polls(NeverUp, endpoint, 60) == 60
  {
    FirstReadySound(NeverUp, endpoint, 60);
  }

  /** `statusCheck` as written: its only error return sits under `i == maxAttempts`, which the
      loop condition `i < maxAttempts` rules out, so it reports success whatever the probes say. */
  method StatusCheck(probe: (string, nat) -> ProbeReply, endpoint: string, maxAttempts: int) returns (r: Outcome, polls: nat)
    ensures r == Pass
    ensures polls == Polls(probe, endpoint, maxAttempts)
  {
    polls := 0;
    var i := 0;
    while i < maxAttempts
      invariant 0 <= i && polls == i && (if maxAttempts > 0 then i <= maxAttempts else i == 0)
      invariant FirstReady(probe, endpoint, i).None?
    {
      var reply := probe(endpoint, i);
      polls := polls + 1;
      if reply.Status? && reply.code == StatusOK {
        FirstReadyStable(probe, endpoint, i + 1, maxAttempts);
        return Pass, polls;
      }
      if i == maxAttempts {
        // the error return of the source: the loop condition rules it out
        assert false;
      }
      i := i + 1;
    }
    r := Pass;
  }

  /** The poll as intended: the same requests, and a timeout error once the budget is spent. */
  method WaitReady(probe: (string, nat) -> ProbeReply, endpoint: string, maxAttempts: int) returns (r: Outcome, polls: nat)
    ensures r == Readiness(probe, endpoint, maxAttempts)
    ensures polls == Polls(probe, endpoint, maxAttempts)
  {
    polls := 0;
    var i := 0;
    while i < maxAttempts
      invariant 0 <= i && polls == i && (if maxAttempts > 0 then i <= maxAttempts else i == 0)
      invariant FirstReady(probe, endpoint, i).None?
    {
      var reply := probe(endpoint, i);
      polls := polls + 1;
      if reply.Status? && reply.code == StatusOK {
        FirstReadyStable(probe, endpoint, i + 1, maxAttempts);
        return Pass, polls;
      }
      i := i + 1;
    }
    r := Fail(ReadinessTimeout(maxAttempts));
  }
}
