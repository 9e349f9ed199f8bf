/** The retry logic of one request (oem/nvidia/request.hpp).

    `sends` counts the calls of send(); it is a history of the request, not a field of the source. */
module RetryTimer {
  import opened Common

  datatype Retry = Retry(numRetries: Byte, armed: bool, sends: nat)

  function Fresh(numRetries: Byte): Retry {
    Retry(numRetries, false, 0)
  }

  function StartRc(r: Retry, sendRc: int, arms: bool): int {
    if sendRc != 0 then sendRc else if r.numRetries != 0 && !arms then -1 else 0
  }

  function Started(r: Retry, sendRc: int, arms: bool): Retry {
    var sent := r.(sends := r.sends + 1);
    if sendRc == 0 && r.numRetries != 0 && arms then sent.(armed := true) else sent
  }

  function Stopped(r: Retry): Retry {
    r.(armed := false)
  }

  /** The timer callback: the counter is an 8-bit unsigned integer and wraps when it is decremented at zero. */
  function Ticked(r: Retry): Retry {
    if r.numRetries != 0 then r.(numRetries := r.numRetries - 1, sends := r.sends + 1)
    else Stopped(r.(numRetries := 255))
  }

  class RequestRetryTimer {
    var numRetries: Byte
    var armed: bool
    ghost var sends: nat

    ghost function Value(): Retry
      reads this
    {
      Retry(numRetries, armed, sends)
    }

    constructor (numRetries: Byte)
      ensures Value() == Fresh(numRetries)
    {
      this.numRetries := numRetries;
      armed := false;
      sends := 0;
    }

    /** `sendRc` is what send() returns, `arms` whether starting the timer succeeds. */
    method Start(sendRc: int, arms: bool) returns (rc: int)
      modifies this
      ensures Value() == Started(old(Value()), sendRc, arms)
      ensures rc == StartRc(old(Value()), sendRc, arms)
    {
      sends := sends + 1;
      rc := sendRc;
      if rc != 0 {
        return;
      }
      if numRetries != 0 {
        if !arms {
          return -1;
        }
        armed := true;
      }
      return 0;
    }

    method Stop()
      modifies this
      ensures Value() == Stopped(old(Value()))
    {
      armed := false;
    }

    method Callback()
      modifies this
      ensures Value() == Ticked(old(Value()))
    {
      var before := numRetries;
      numRetries := if before == 0 then 255 else before - 1;
      if before != 0 {
        sends := sends + 1;
      } else {
        Stop();
      }
    }
  }

  // ---------------------------------------------------------------- runs

  datatype Action = Ticks | Stops

  /** A tick happens only while the timer is armed. */
  ghost predicate IsRun(r: Retry, actions: seq<Action>)
    decreases |actions|
  {
    actions == [] ||
    (IsRun(r, actions[..|actions|-1]) &&
     (actions[|actions|-1] == Ticks ==> After(r, actions[..|actions|-1]).armed))
  }

  ghost function After(r: Retry, actions: seq<Action>): Retry
    decreases |actions|
  {
    if actions == [] then r else
    var before := After(r, actions[..|actions|-1]);
    if actions[|actions|-1] == Ticks then Ticked(before) else Stopped(before)
  }

  ghost function TickCount(actions: seq<Action>): nat
    decreases |actions|
  {
    if actions == [] then 0
    else TickCount(actions[..|actions|-1]) + if actions[|actions|-1] == Ticks then 1 else 0
  }

  /** From a successful start of a request with n retries: the first n ticks send once each, the tick after
      them wraps the counter, sends nothing and disarms the timer, and no run has a tick after that one. The timer
      is armed exactly until that tick or a stop, if the request has retries. */
  lemma {:induction false} RetryBound(n: Byte, actions: seq<Action>)
    requires IsRun(Started(Fresh(n), 0, true), actions)
    ensures var r := After(Started(Fresh(n), 0, true), actions); var ticks := TickCount(actions);
            && 1 <= r.sends <= n + 1
            && ticks <= n + 1
            && (ticks <= n ==> r.sends == 1 + ticks && r.sends + r.numRetries == n + 1)
            && (ticks == n + 1 ==> r.sends == n + 1 && r.numRetries == 255 && !r.armed)
            && (r.armed <==> n > 0 && ticks <= n && Stops !in actions)
    decreases |actions|
  {
    if actions != [] {
      RetryBound(n, actions[..|actions|-1]);
    }
  }

  /** Each of these numbers of ticks can happen: a request with n retries that is never stopped is sent k + 1
      times by its k-th tick, for every k up to n, and its timer goes on to the tick that wraps. */
  lemma {:induction false} RetriesHappen(n: Byte, k: nat)
    requires n > 0 && k <= n + 1
    ensures var actions := seq(k, _ => Ticks);
            && IsRun(Started(Fresh(n), 0, true), actions) && TickCount(actions) == k
            && After(Started(Fresh(n), 0, true), actions).sends == if k <= n then k + 1 else n + 1
  {
    if k > 0 {
      RetriesHappen(n, k - 1);
      var actions := seq(k, _ => Ticks);
      assert actions[..k - 1] == seq(k - 1, _ => Ticks);
      RetryBound(n, actions[..k - 1]);
      assert Stops !in actions[..k - 1];
      RetryBound(n, actions);
    }
  }

  /** `times[i]` is when the i-th tick fires, counted from the start: a timer never fires early, and it is
      re-armed by its own expiry, so two ticks are at least one period apart. */
  ghost predicate TickTimes(times: seq<nat>, period: nat) {
    && (times != [] ==> times[0] >= period)
    && forall i :: 0 < i < |times| ==> times[i] >= times[i - 1] + period
  }

  lemma {:induction false} TickTimesGrow(times: seq<nat>, period: nat, i: nat)
    requires TickTimes(times, period) && i < |times|
    ensures times[i] >= (i + 1) * period
  {
    if i > 0 {
      TickTimesGrow(times, period, i - 1);
      assert (i + 1) * period == i * period + period;
    }
  }

  lemma MultiplyMonotone(a: nat, b: nat, c: nat)
    requires a <= b
    ensures a * c <= b * c
  {
  }

  /** No more than 1 + min(n, expiry / period) sends happen by the expiry, and if the expiry comes before the
      (n+1)-st period is over the counter has not wrapped. */
  lemma SendsByExpiry(n: Byte, actions: seq<Action>, times: seq<nat>, period: nat, expiry: nat)
    requires IsRun(Started(Fresh(n), 0, true), actions)
    requires |times| == TickCount(actions) && TickTimes(times, period)
    requires forall i :: 0 <= i < |times| ==> times[i] <= expiry
    ensures var r := After(Started(Fresh(n), 0, true), actions);
            && r.sends <= 1 + n && (r.sends - 1) * period <= expiry
            && (expiry < (n + 1) * period ==> r.sends + r.numRetries == n + 1)
  {
    RetryBound(n, actions);
    var r, ticks := After(Started(Fresh(n), 0, true), actions), TickCount(actions);
    if ticks > 0 {
      TickTimesGrow(times, period, ticks - 1);
      assert r.sends - 1 <= ticks;
      MultiplyMonotone(r.sends - 1, ticks, period);
    }
  }

  /** A request is not limited to n + 1 sends over its whole life: started again after the wrap it is armed
      with 255 retries. */
  lemma RestartAfterWrapSendsMore(n: Byte, actions: seq<Action>)
    requires IsRun(Started(Fresh(n), 0, true), actions) && TickCount(actions) == n + 1
    ensures var again := Started(After(Started(Fresh(n), 0, true), actions), 0, true);
            again.sends == n + 2 && again.armed && again.numRetries == 255
  {
    RetryBound(n, actions);
  }
}
