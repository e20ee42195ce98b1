/**
 * The two counted retry loops of the driver: waiting for the provider to
 * report a destroyed server gone, and waiting for the new server to accept
 * the SSH key. Each poll's answer is an oracle `ok(k)`, the answer of the
 * poll numbered `k` from 0; sleeping and logging are not modelled.
 */
module Polling {
  import opened Wrappers
  import opened Values

  /** How a counted loop ended and how many polls it made. */
  datatype Wait = Wait(polls: nat, outcome: Outcome<Error>)

  /** The first poll from `k` on, below `budget`, that succeeds. */
  function FirstSuccess(ok: nat -> bool, k: nat, budget: int): (r: Option<nat>)
    ensures r.Some? ==> k <= r.value < budget && ok(r.value)
    ensures r.Some? ==> forall j :: k <= j < r.value ==> !ok(j)
    ensures r.None? ==> forall j :: k <= j < budget ==> !ok(j)
    decreases budget - k
  {
    if k >= budget then None
    else if ok(k) then Some(k)
    else FirstSuccess(ok, k + 1, budget)
  }

  /** `budget.times do ... return if ok ... end; raise failure`: a negative budget makes no poll. */
  function Retry(ok: nat -> bool, budget: int, failure: Error): (w: Wait)
    ensures w.polls <= if budget < 0 then 0 else budget
    ensures w.outcome.Pass? <==> exists j :: 0 <= j < budget && ok(j)
    ensures w.outcome.Pass? ==> 0 < w.polls && ok(w.polls - 1) && forall j :: 0 <= j < w.polls - 1 ==> !ok(j)
    ensures w.outcome.Fail? ==> w.outcome.error == failure && w.polls == (if budget < 0 then 0 else budget)
  {
    match FirstSuccess(ok, 0, budget)
    case Some(k) => Wait(k + 1, Pass)
    case None => Wait(if budget < 0 then 0 else budget, Fail(failure))
  }

  /** `wait_for_server_to_delete`: `destroy_timeout.to_i / 15` polls, each asking whether the server is gone. */
  function DeleteWait(timeout: Value, gone: nat -> bool): (w: Wait)
    ensures ToI(timeout).Err? ==> w == Wait(0, Fail(ToI(timeout).error))
    ensures ToI(timeout).Ok? ==> w.polls * 15 <= if ToI(timeout).value < 0 then 0 else ToI(timeout).value
    ensures ToI(timeout).Ok? && w.outcome.Fail? ==> w.outcome.error == DeleteTimedOut(timeout)
  {
    match ToI(timeout)
    case Err(e) => Wait(0, Fail(e))
    case Ok(t) => Retry(gone, t / 15, DeleteTimedOut(timeout))
  }

  /** `wait_for_ssh_key_access`: `ssh_timeout.to_i` attempts, each asking whether `uname -a` ran. */
  function SshWait(timeout: Value, accepts: nat -> bool): (w: Wait)
    ensures ToI(timeout).Err? ==> w == Wait(0, Fail(ToI(timeout).error))
    ensures ToI(timeout).Ok? ==> w.polls <= if ToI(timeout).value < 0 then 0 else ToI(timeout).value
    ensures ToI(timeout).Ok? && w.outcome.Fail? ==> w.outcome.error == SshTimedOut(timeout)
  {
    match ToI(timeout)
    case Err(e) => Wait(0, Fail(e))
    case Ok(t) => Retry(accepts, t, SshTimedOut(timeout))
  }

  /**
   * The delete wait makes at most `timeout / 15` polls (floored), stops at the first poll that finds the
   * server gone, and raises when none does; a timeout under 15 raises without polling.
   */
  lemma DeleteWaitBounds(timeout: Value, gone: nat -> bool, t: int)
    requires ToI(timeout) == Ok(t)
    ensures DeleteWait(timeout, gone).polls * 15 <= if t < 0 then 0 else t
    ensures DeleteWait(timeout, gone).outcome.Pass? <==> exists j :: 0 <= j && j * 15 + 15 <= t && gone(j)
    ensures DeleteWait(timeout, gone).outcome.Pass? ==>
      && 0 < DeleteWait(timeout, gone).polls && gone(DeleteWait(timeout, gone).polls - 1)
      && forall j :: 0 <= j < DeleteWait(timeout, gone).polls - 1 ==> !gone(j)
    ensures DeleteWait(timeout, gone).outcome.Fail? ==> DeleteWait(timeout, gone).outcome.error == DeleteTimedOut(timeout)
    ensures t < 15 ==> DeleteWait(timeout, gone) == Wait(0, Fail(DeleteTimedOut(timeout)))
  {
    var w := DeleteWait(timeout, gone);
    assert w == Retry(gone, t / 15, DeleteTimedOut(timeout));
    forall j | 0 <= j
      ensures j < t / 15 <==> j * 15 + 15 <= t
    {
      DivFloor(j, t);
    }
  }

  /** For the divisor 15, a whole count of steps fits under `t` exactly when it is below the floored quotient. */
  lemma DivFloor(j: int, t: int)
    ensures j < t / 15 <==> j * 15 + 15 <= t
  {
    var q := t / 15;
    assert t == q * 15 + t % 15 && 0 <= t % 15 < 15;
    if j < q {
      assert j * 15 + 15 <= q * 15;
    } else {
      assert q * 15 <= j * 15;
    }
  }

  /**
   * For a non-negative timeout, the delete wait raises exactly when the server is still there at every
   * one of the `timeout / 15` polls, and then it has made all of them.
   */
  lemma DeleteWaitExhausted(timeout: Value, gone: nat -> bool, t: int)
    requires ToI(timeout) == Ok(t) && t >= 0
    ensures DeleteWait(timeout, gone).outcome.Fail? <==> forall j :: 0 <= j < t / 15 ==> !gone(j)
    ensures DeleteWait(timeout, gone).outcome.Fail? ==> DeleteWait(timeout, gone).polls == t / 15
  {
    assert DeleteWait(timeout, gone) == Retry(gone, t / 15, DeleteTimedOut(timeout));
  }

  /** The SSH wait makes at most `ssh_timeout` attempts and stops at the first that succeeds. */
  lemma SshWaitBounds(timeout: Value, accepts: nat -> bool, t: int)
    requires ToI(timeout) == Ok(t)
    ensures SshWait(timeout, accepts).polls <= if t < 0 then 0 else t
    ensures SshWait(timeout, accepts).outcome.Pass? <==> exists j :: 0 <= j < t && accepts(j)
    ensures SshWait(timeout, accepts).outcome.Pass? ==>
      accepts(SshWait(timeout, accepts).polls - 1) && forall j :: 0 <= j < SshWait(timeout, accepts).polls - 1 ==> !accepts(j)
    ensures SshWait(timeout, accepts).outcome.Fail? ==> SshWait(timeout, accepts).outcome.error == SshTimedOut(timeout)
  {
  }

  /** The loop of `wait_for_server_to_delete`. */
  method WaitForServerToDelete(timeout: Value, gone: nat -> bool) returns (polls: nat, r: Outcome<Error>)
    ensures Wait(polls, r) == DeleteWait(timeout, gone)
  {
    var t := ToI(timeout);
    if t.Err? {
      return 0, Fail(t.error);
    }
    var budget := t.value / 15;
    polls := 0;
    while polls < budget
      invariant if budget >= 0 then polls <= budget else polls == 0
      invariant FirstSuccess(gone, 0, budget) == FirstSuccess(gone, polls, budget)
    {
      if gone(polls) {
        return polls + 1, Pass;
      }
      polls := polls + 1;
    }
    r := Fail(DeleteTimedOut(timeout));
  }

  /** The loop of `wait_for_ssh_key_access`. */
  method WaitForSshKeyAccess(timeout: Value, accepts: nat -> bool) returns (attempts: nat, r: Outcome<Error>)
    ensures Wait(attempts, r) == SshWait(timeout, accepts)
  {
    var t := ToI(timeout);
    if t.Err? {
      return 0, Fail(t.error);
    }
    attempts := 0;
    while attempts < t.value
      invariant if t.value >= 0 then attempts <= t.value else attempts == 0
      invariant FirstSuccess(accepts, 0, t.value) == FirstSuccess(accepts, attempts, t.value)
    {
      if accepts(attempts) {
        return attempts + 1, Pass;
      }
      attempts := attempts + 1;
    }
    r := Fail(SshTimedOut(timeout));
  }
}
