/**
 The bridge object behind the cooldown (internal/bridge/bridge.go): the methods that read and write its
 refusal under the lock, and the retry loop. The ghost record ties them to the steps of RefusalCooldown.
 */
module BridgeDial {
  import opened Arithmetic
  import opened Wrappers
  import opened RefusalCooldown

  /** What one attempt to open a relay session came back with. */
  datatype Attempt = Opens | Fault | Refusal(answer: nat)

  /** One turn of the retry loop: the backoff before it, its attempt, and the context after it. */
  datatype Turn = Turn(backoffCut: bool, attempt: Attempt, contextDead: bool)

  datatype DialResult = Opened | Cancelled | TransportFault | RelayRefused(answer: nat)

  predicate Doubling(base: nat, backoffs: seq<nat>) {
    forall i :: 0 <= i < |backoffs| ==> backoffs[i] == Doubled(base, i)
  }

  lemma DoublingStarts(base: nat)
    ensures Doubled(base, 0) == base && Doubling(base, [])
  {
  }

  lemma DoublingGoesOn(base: nat, backoffs: seq<nat>, next: nat)
    requires Doubling(base, backoffs) && next == Doubled(base, |backoffs|)
    ensures Doubling(base, backoffs + [next]) && next * 2 == Doubled(base, |backoffs| + 1)
  {
  }

  /** A fault the loop goes on after. */
  predicate GoesOn(turn: Turn) { turn.attempt.Fault? && !turn.contextDead }

  /** The first `n` turns ended in faults the loop went on after, none of their backoffs cut short. */
  predicate AllGoOn(turns: seq<Turn>, n: nat)
    requires n <= |turns|
  {
    forall i :: 0 <= i < n ==> GoesOn(turns[i]) && (i > 0 ==> !turns[i].backoffCut)
  }

  /** Why the dial ended after its last attempt. */
  predicate EndsAs(turns: seq<Turn>, attempts: nat, result: DialResult)
    requires 0 < attempts <= |turns|
  {
    var last := turns[attempts - 1];
    match result
    case Opened => last.attempt.Opens?
    case TransportFault => attempts == |turns| && GoesOn(last)
    case RelayRefused(answer) => last.attempt == Attempt.Refusal(answer) && !last.contextDead
    case Cancelled =>
      || (!last.attempt.Opens? && last.contextDead)
      || (GoesOn(last) && attempts < |turns| && turns[attempts].backoffCut)
  }

  // ---- the dial as steps of the machine ----

  function OutcomeOf(result: DialResult, logged: nat): Outcome {
    match result
    case Opened => Outcome.Opened
    case Cancelled => Outcome.Cancelled
    case TransportFault => Failed
    case RelayRefused(_) => Refused(logged)
  }

  function Fails(id: Id, n: nat): seq<Event> { seq(n, _ => AttemptFails(id)) }

  function Ending(id: Id, result: DialResult): seq<Event> {
    match result
    case Opened => [AttemptOpens(id)]
    case TransportFault => [AttemptFails(id)]
    case RelayRefused(_) => [AttemptRefused(id), Note(id)]
    case Cancelled => [AttemptCancelled(id)]
  }

  /** How many faults the loop went on after; a cancelled one may have gone on into its last backoff. */
  function Faults(turns: seq<Turn>, attempts: nat, result: DialResult): nat
    requires 0 < attempts <= |turns|
  {
    if result.Cancelled? && GoesOn(turns[attempts - 1]) then attempts else attempts - 1
  }

  /** The machine after a dial: the session leaves, and a refusal that ended the dial is on record. */
  function Dialled(s: State, id: Id, waited: Option<int>, result: DialResult): State {
    s.(log := if result.RelayRefused? then s.log + [RefusalCooldown.Refusal(s.now, id, waited)] else s.log,
       sessions := s.sessions[id := Leave(waited, OutcomeOf(result, |s.log|))])
  }

  lemma {:induction false} FailsRun(
      config: RefusalCooldown.Config, s: State, id: Id, waited: Option<int>, done: nat, n: nat, more: seq<Event>,
      end: State)
    requires id in s.sessions && s.sessions[id] == Dialling(waited, done) && done + n <= config.retries
    requires Run(config, s.(sessions := s.sessions[id := Dialling(waited, done + n)]), more, end)
    ensures Run(config, s, Fails(id, n) + more, end)
    decreases n
  {
    if n == 0 {
      assert s.sessions[id := Dialling(waited, done)] == s.sessions;
      assert Fails(id, 0) + more == more;
    } else {
      var next := s.(sessions := s.sessions[id := Dialling(waited, done + 1)]);
      assert Step(config, s, AttemptFails(id)) == next;
      assert next.sessions[id := Dialling(waited, done + n)] == s.sessions[id := Dialling(waited, done + n)];
      FailsRun(config, next, id, waited, done + 1, n - 1, more, end);
      assert (Fails(id, n) + more)[1..] == Fails(id, n - 1) + more;
    }
  }

  lemma EndingRun(
      config: RefusalCooldown.Config, s: State, id: Id, waited: Option<int>, done: nat, result: DialResult)
    requires id in s.sessions && s.sessions[id] == Dialling(waited, done)
    requires result.TransportFault? ==> done == config.retries
    ensures Run(config, s, Ending(id, result), Dialled(s, id, waited, result))
  {
    var events := Ending(id, result);
    if result.RelayRefused? {
      var refusing := s.(sessions := s.sessions[id := Refusing(waited)]);
      assert Step(config, s, AttemptRefused(id)) == refusing;
      assert refusing.sessions[id := Leave(waited, Refused(|s.log|))] == Dialled(s, id, waited, result).sessions;
      assert Run(config, refusing, [Note(id)], Dialled(s, id, waited, result));
      assert events[1..] == [Note(id)];
    } else {
      assert Step(config, s, events[0]) == Dialled(s, id, waited, result);
    }
  }

  /**
   Whatever the retry loop ends with, the machine has a run of the same attempts of that session from where it
   starts to dial: it leaves with the same outcome, and with the record DialWithRetry leaves behind.
   */
  lemma DialIsARun(
      config: RefusalCooldown.Config, s: State, id: Id, waited: Option<int>, turns: seq<Turn>, attempts: nat,
      result: DialResult)
    requires id in s.sessions && s.sessions[id] == Dialling(waited, 0)
    requires |turns| == config.retries + 1 && 0 < attempts <= |turns|
    requires AllGoOn(turns, attempts - 1) && EndsAs(turns, attempts, result)
    ensures Run(config, s, Fails(id, Faults(turns, attempts, result)) + Ending(id, result),
                Dialled(s, id, waited, result))
  {
    var n := Faults(turns, attempts, result);
    var mid := s.(sessions := s.sessions[id := Dialling(waited, n)]);
    EndingRun(config, mid, id, waited, n, result);
    assert Dialled(mid, id, waited, result).sessions == Dialled(s, id, waited, result).sessions;
    FailsRun(config, s, id, waited, 0, n, Ending(id, result), Dialled(s, id, waited, result));
  }

  class Bridge {
    const refusalCooldown: int
    const dialRetries: nat
    const dialBackoff: nat
    var refusedAt: Option<int>
    var refusal: Option<nat>
    ghost var log: seq<RefusalCooldown.Refusal>

    ghost predicate Valid()
      reads this
    {
      refusedAt == RefusedAt(log) && (refusal.Some? <==> log != [])
    }

    constructor (refusalCooldown: int, dialRetries: nat, dialBackoff: nat)
      ensures Valid() && log == []
      ensures this.refusalCooldown == refusalCooldown && this.dialRetries == dialRetries
      ensures this.dialBackoff == dialBackoff
    {
      this.refusalCooldown, this.dialRetries, this.dialBackoff := refusalCooldown, dialRetries, dialBackoff;
      refusedAt, refusal, log := None, None, [];
    }

    /** How much of the cooldown is left and after which refusal; zero and none when nobody has to wait. */
    method RefusalWait(now: int) returns (wait: int, seen: Option<int>)
      requires Valid()
      ensures refusalCooldown <= 0 ==> wait == 0 && seen == None
      ensures refusalCooldown > 0 ==>
                seen == RefusedAt(log) && if seen.None? then wait == 0 else now + wait == seen.value + refusalCooldown
    {
      if refusalCooldown <= 0 { return 0, None; }
      if refusedAt.None? { return 0, refusedAt; }
      return refusalCooldown - (now - refusedAt.value), refusedAt;
    }

    /** The relay's answer to another session while this one waited out the refusal at `seen`. */
    method RefusalSince(seen: int) returns (r: Option<nat>)
      requires Valid()
      ensures r.Some? <==> NewerThan(log, seen)
      ensures r.Some? ==> r == refusal
    {
      if refusal.None? || refusedAt.value <= seen { return None; }
      return refusal;
    }

    method NoteRefusal(now: int, answer: nat, ghost session: Id, ghost waited: Option<int>)
      requires Valid()
      modifies this
      ensures Valid() && refusal == Some(answer)
      ensures log == old(log) + [RefusalCooldown.Refusal(now, session, waited)]
    {
      refusedAt := Some(now);
      refusal := Some(answer);
      log := log + [RefusalCooldown.Refusal(now, session, waited)];
    }

    /**
     Asks at most dialRetries + 1 times, each time after a doubled backoff, and goes on only after a fault
     with the context alive. A refusal ends it, and is recorded unless the context is already dead.
     */
    method DialWithRetry(turns: seq<Turn>, now: int, ghost session: Id, ghost waited: Option<int>)
      returns (result: DialResult, attempts: nat, backoffs: seq<nat>)
      requires Valid() && |turns| == dialRetries + 1
      modifies this
      ensures Valid() && 0 < attempts <= dialRetries + 1
      ensures AllGoOn(turns, attempts - 1) && !(attempts > 1 && turns[attempts - 1].backoffCut)
      ensures EndsAs(turns, attempts, result)
      ensures |backoffs| <= dialRetries && Doubling(dialBackoff, backoffs)
      ensures if result.RelayRefused?
              then log == old(log) + [RefusalCooldown.Refusal(now, session, waited)] && refusal == Some(result.answer)
              else log == old(log) && refusal == old(refusal) && refusedAt == old(refusedAt)
    {
      hide RefusedAt, Doubled, Doubling;
      var backoff := dialBackoff;
      attempts, backoffs := 0, [];
      DoublingStarts(dialBackoff);
      while attempts <= dialRetries
        invariant attempts <= dialRetries + 1 && |backoffs| == (if attempts > 0 then attempts - 1 else 0)
        invariant backoff == Doubled(dialBackoff, |backoffs|) && Doubling(dialBackoff, backoffs)
        invariant AllGoOn(turns, attempts)
        invariant Valid() && log == old(log) && refusal == old(refusal) && refusedAt == old(refusedAt)
        decreases dialRetries + 1 - attempts
      {
        var turn := turns[attempts];
        if attempts > 0 {
          DoublingGoesOn(dialBackoff, backoffs, backoff);
          backoffs := backoffs + [backoff];
          if turn.backoffCut { return DialResult.Cancelled, attempts, backoffs; }
          backoff := backoff * 2;
        }
        attempts := attempts + 1;
        if turn.attempt.Opens? { return DialResult.Opened, attempts, backoffs; }
        if turn.contextDead { return DialResult.Cancelled, attempts, backoffs; }
        if turn.attempt.Refusal? {
          NoteRefusal(now, turn.attempt.answer, session, waited);
          return RelayRefused(turn.attempt.answer), attempts, backoffs;
        }
      }
      return TransportFault, attempts, backoffs;
    }
  }
}
