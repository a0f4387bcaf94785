/** Asynchronous send with retry: sendMessageAsync posts attempts until the transport accepts one, and
    each accepted attempt later completes and may call sendMessageAsync again. */
module AsyncSend {
  import opened Basics

  /** What one invokeAsync call returns, and the milliseconds it took. */
  datatype Reply = Reply(accepted: bool, elapsed: int)

  /** How an accepted attempt ends. Rejected: processSendResponse threw, with the time then left. */
  datatype Completion = TimedOut | NoResponse | Processed | Rejected(left: int)

  datatype CallbackKind = NoCallback | Plain | AutoDelete

  datatype Notice = Success | Failure | Freed | Threw

  /** replies(i) answers the i-th invokeAsync call of this logical send. */
  datatype Config = Config(callback: CallbackKind, maxRetryTimes: int, replies: nat -> Reply)

  /** calls: the attempt numbers passed to invokeAsync, in order. pending: the accepted attempt that has
      not completed. log: what the user sees. */
  datatype Send = Send(calls: seq<int>, pending: Option<int>, log: seq<Notice>)

  const FIRST_ATTEMPT: int := 1

  function Idle(): Send {
    Send([], None, [])
  }

  function Budget(cfg: Config): int {
    if cfg.maxRetryTimes > 1 then cfg.maxRetryTimes else 1
  }

  /** One callback invocation, and the delete that follows it. */
  function Notify(cfg: Config, s: Send, n: Notice): Send {
    s.(log := s.log + [n] + if cfg.callback.AutoDelete? then [Freed] else [])
  }

  /** The tail of sendMessageAsync when every attempt was refused. */
  function GiveUp(cfg: Config, s: Send): Send {
    if cfg.callback.NoCallback? then s.(log := s.log + [Threw]) else Notify(cfg, s, Failure)
  }

  /** sendMessageAsync from attempt on: the first call is made whatever the timeout, later ones only below
      maxRetryTimes and with time left. */
  function Post(cfg: Config, s: Send, attempt: int, timeout: int): Send
    decreases cfg.maxRetryTimes - attempt
  {
    var reply := cfg.replies(|s.calls|);
    var called := s.(calls := s.calls + [attempt]);
    if reply.accepted then called.(pending := Some(attempt))
    else if attempt + 1 < cfg.maxRetryTimes && timeout - reply.elapsed > 0 then
      Post(cfg, called, attempt + 1, timeout - reply.elapsed)
    else GiveUp(cfg, called)
  }

  // ---- One posting ----

  /** The milliseconds that n calls from the i-th on take. */
  function Spent(cfg: Config, i: nat, n: nat): int
    decreases n
  {
    if n == 0 then 0 else cfg.replies(i).elapsed + Spent(cfg, i + 1, n - 1)
  }

  /** Call i follows a refusal, has a number below maxRetryTimes and is made with time left since the first. */
  predicate InTime(cfg: Config, calls: seq<int>, first: nat, timeout: int, i: nat)
    requires first < i < |calls|
  {
    !cfg.replies(i - 1).accepted && calls[i] < cfg.maxRetryTimes && Spent(cfg, first, i - first) < timeout
  }

  /** t is s after one posting, numbered from attempt on. After the first call, every call is made in time, and
      as many are made as that allows. */
  ghost predicate Attempts(cfg: Config, s: Send, t: Send, attempt: int, timeout: int) {
    var first, last := |s.calls|, |t.calls| - 1;
    && first <= last
    && (forall i :: 0 <= i < first ==> t.calls[i] == s.calls[i])
    && (forall i :: first <= i <= last ==> t.calls[i] == attempt + i - first)
    && (forall i :: first < i <= last ==> InTime(cfg, t.calls, first, timeout, i))
    && (cfg.replies(last).accepted || t.calls[last] + 1 >= cfg.maxRetryTimes
        || Spent(cfg, first, last + 1 - first) >= timeout)
  }

  /** If the last call of the posting was accepted it is pending; if it was refused the user is told. */
  predicate Reported(cfg: Config, s: Send, t: Send)
    requires t.calls != []
  {
    var last := |t.calls| - 1;
    if cfg.replies(last).accepted then t.pending == Some(t.calls[last]) && t.log == s.log
    else t.pending == s.pending && t.log == s.log + match cfg.callback
           case NoCallback => [Threw]
           case Plain => [Failure]
           case AutoDelete => [Failure, Freed]
  }

  lemma AttemptsLater(cfg: Config, s: Send, called: Send, t: Send, attempt: int, timeout: int)
    requires called == s.(calls := s.calls + [attempt])
    requires !cfg.replies(|s.calls|).accepted && attempt + 1 < cfg.maxRetryTimes
    requires var left := timeout - cfg.replies(|s.calls|).elapsed;
      left > 0 && Attempts(cfg, called, t, attempt + 1, left)
    ensures Attempts(cfg, s, t, attempt, timeout)
  {
    var m := |s.calls|;
    assert t.calls[m] == called.calls[m];
    forall i | m < i < |t.calls| ensures InTime(cfg, t.calls, m, timeout, i) {
      assert Spent(cfg, m, i - m) == cfg.replies(m).elapsed + Spent(cfg, m + 1, i - m - 1);
      if i > m + 1 {
        assert InTime(cfg, t.calls, m + 1, timeout - cfg.replies(m).elapsed, i);
      }
    }
    var n := |t.calls| - m;
    assert Spent(cfg, m, n) == cfg.replies(m).elapsed + Spent(cfg, m + 1, n - 1);
  }

  /** One sendMessageAsync makes the attempts that Attempts says, and no other. */
  lemma {:induction false} PostExactly(cfg: Config, s: Send, attempt: int, timeout: int)
    ensures var t := Post(cfg, s, attempt, timeout); Attempts(cfg, s, t, attempt, timeout) && Reported(cfg, s, t)
    decreases cfg.maxRetryTimes - attempt
  {
    var reply := cfg.replies(|s.calls|);
    var called := s.(calls := s.calls + [attempt]);
    if !reply.accepted && attempt + 1 < cfg.maxRetryTimes && timeout - reply.elapsed > 0 {
      PostExactly(cfg, called, attempt + 1, timeout - reply.elapsed);
      AttemptsLater(cfg, s, called, Post(cfg, s, attempt, timeout), attempt, timeout);
    } else {
      assert Spent(cfg, |s.calls|, 1) == reply.elapsed + Spent(cfg, |s.calls| + 1, 0);
    }
  }

  /** SendCallbackWrap::operationComplete, and onException for a timeout, for the pending attempt. */
  function Complete(cfg: Config, s: Send, c: Completion): Send
    requires s.pending.Some?
  {
    var attempt, done := s.pending.value, s.(pending := None);
    if cfg.callback.NoCallback? then done
    else match c
      case TimedOut => Notify(cfg, done, Failure)
      case NoResponse => Notify(cfg, done, Failure)
      case Processed => Notify(cfg, done, Success)
      case Rejected(left) =>
        if attempt < cfg.maxRetryTimes && cfg.maxRetryTimes > 1 then Post(cfg, done, attempt + 1, left)
        else Notify(cfg, done, Failure)
  }

  /** The completion posts the next attempt with the time that the rejected response left. */
  ghost predicate RetriedAs(cfg: Config, s: Send, t: Send, c: Completion)
    requires s.pending.Some?
  {
    var done := s.(pending := None);
    && !cfg.callback.NoCallback? && c.Rejected?
    && 1 < cfg.maxRetryTimes && s.pending.value < cfg.maxRetryTimes
    && Attempts(cfg, done, t, s.pending.value + 1, c.left) && Reported(cfg, done, t)
  }

  /** The completion ends the send: a user with a callback is told, a success only for a processed response. */
  predicate ToldAs(cfg: Config, s: Send, t: Send, c: Completion)
    requires s.pending.Some?
  {
    && !(c.Rejected? && 1 < cfg.maxRetryTimes && s.pending.value < cfg.maxRetryTimes && !cfg.callback.NoCallback?)
    && t.calls == s.calls && t.pending.None?
    && t.log == s.log + match cfg.callback
         case NoCallback => []
         case Plain => [if c.Processed? then Success else Failure]
         case AutoDelete => [if c.Processed? then Success else Failure, Freed]
  }

  /** What a completion leads to, for every callback and every way an attempt can end. */
  lemma CompleteExactly(cfg: Config, s: Send, c: Completion)
    requires s.pending.Some?
    ensures var t := Complete(cfg, s, c); RetriedAs(cfg, s, t, c) || ToldAs(cfg, s, t, c)
  {
    if !cfg.callback.NoCallback? && c.Rejected? && s.pending.value < cfg.maxRetryTimes && cfg.maxRetryTimes > 1 {
      PostExactly(cfg, s.(pending := None), s.pending.value + 1, c.left);
    } else {
      assert s.log + [] == s.log;
    }
  }

  /** The wrapper objects and the transport of one logical send, in place. */
  class Sender {
    const cfg: Config
    var calls: seq<int>
    var pending: Option<int>
    var log: seq<Notice>

    constructor (cfg: Config)
      ensures this.cfg == cfg && Value() == Idle()
    {
      this.cfg := cfg;
      calls, pending, log := [], None, [];
    }

    function Value(): Send
      reads this
    {
      Send(calls, pending, log)
    }

    method InvokeAsync(attempt: int) returns (accepted: bool, elapsed: int)
      modifies this
      ensures Reply(accepted, elapsed) == cfg.replies(|old(calls)|)
      ensures Value() == old(Value()).(calls := old(calls) + [attempt],
                                       pending := if accepted then Some(attempt) else old(pending))
    {
      accepted, elapsed := cfg.replies(|calls|).accepted, cfg.replies(|calls|).elapsed;
      calls := calls + [attempt];
      if accepted {
        pending := Some(attempt);
      }
    }

    method NotifyCallback(n: Notice)
      modifies this`log
      ensures Value() == Notify(cfg, old(Value()), n)
      ensures log == old(log) + if cfg.callback.AutoDelete? then [n, Freed] else [n]
    {
      log := log + [n];
      if cfg.callback.AutoDelete? {
        log := log + [Freed];
      }
    }

    method SendMessageAsync(timeoutMilliseconds: int, retrySendTimes: int)
      modifies this
      ensures Value() == Post(cfg, old(Value()), retrySendTimes, timeoutMilliseconds)
      ensures Attempts(cfg, old(Value()), Value(), retrySendTimes, timeoutMilliseconds)
      ensures Reported(cfg, old(Value()), Value())
    {
      PostExactly(cfg, Value(), retrySendTimes, timeoutMilliseconds);
      var accepted, elapsed := InvokeAsync(retrySendTimes);
      if !accepted {
        var retryTime, timeOut := retrySendTimes + 1, timeoutMilliseconds - elapsed;
        while retryTime < cfg.maxRetryTimes && timeOut > 0
          invariant Post(cfg, old(Value()), retrySendTimes, timeoutMilliseconds)
            == if retryTime < cfg.maxRetryTimes && timeOut > 0 then Post(cfg, Value(), retryTime, timeOut)
               else GiveUp(cfg, Value())
          decreases cfg.maxRetryTimes - retryTime
        {
          accepted, elapsed := InvokeAsync(retryTime);
          if accepted {
            return;
          }
          retryTime, timeOut := retryTime + 1, timeOut - elapsed;
        }
        if !cfg.callback.NoCallback? {
          NotifyCallback(Failure);
        } else {
          log := log + [Threw];
        }
      }
    }

    method OperationComplete(c: Completion)
      requires pending.Some?
      modifies this
      ensures Value() == Complete(cfg, old(Value()), c)
      ensures RetriedAs(cfg, old(Value()), Value(), c) || ToldAs(cfg, old(Value()), Value(), c)
    {
      CompleteExactly(cfg, Value(), c);
      var retryTimes := pending.value;
      pending := None;
      if cfg.callback.NoCallback? {
        return;
      }
      match c
      case Processed => NotifyCallback(Success);
      case Rejected(left) =>
        if retryTimes < cfg.maxRetryTimes && cfg.maxRetryTimes > 1 {
          SendMessageAsync(left, retryTimes + 1);
        } else {
          NotifyCallback(Failure);
        }
      case _ => NotifyCallback(Failure);
    }
  }

  // ---- Whole sends ----

  /** The send after the given completions; a completion is only possible while an attempt is pending. */
  function Run(cfg: Config, timeout: int, events: seq<Completion>): Option<Send> {
    if events == [] then Some(Post(cfg, Idle(), FIRST_ATTEMPT, timeout)) else
      var before := Run(cfg, timeout, events[..|events| - 1]);
      if before.None? || before.value.pending.None? then None
      else Some(Complete(cfg, before.value, events[|events| - 1]))
  }

  ghost predicate Increasing(calls: seq<int>) {
    forall i, j :: 0 <= i < j < |calls| ==> calls[i] < calls[j]
  }

  /** Attempt numbers start at 1, strictly increase and stay within the budget. */
  ghost predicate WithinBudget(cfg: Config, s: Send) {
    && Increasing(s.calls)
    && (forall i :: 0 <= i < |s.calls| ==> FIRST_ATTEMPT <= s.calls[i] <= Budget(cfg))
    && (s.pending.Some? ==> s.calls != [] && s.pending.value == s.calls[|s.calls| - 1])
  }

  /** Exactly one notice, then exactly one free for an auto-delete callback. */
  function Told(cfg: Config, n: Notice): (r: seq<Notice>)
    ensures r != [] && r[0] == n
  {
    [n] + if cfg.callback.AutoDelete? then [Freed] else []
  }

  /** With a callback: an attempt is out and nothing was said, or nothing is out and the user was told
      exactly once. Without one the only thing that can happen is the exception of the first post. */
  ghost predicate OneNotice(cfg: Config, s: Send) {
    if s.pending.Some? then s.log == []
    else if cfg.callback.NoCallback? then s.log == [] || s.log == [Threw]
    else s.log == Told(cfg, Success) || s.log == Told(cfg, Failure)
  }

  lemma {:induction false} PostKeeps(cfg: Config, s: Send, attempt: int, timeout: int)
    requires WithinBudget(cfg, s) && s.pending.None? && s.log == []
    requires FIRST_ATTEMPT <= attempt <= Budget(cfg)
    requires forall i :: 0 <= i < |s.calls| ==> s.calls[i] < attempt
    ensures var t := Post(cfg, s, attempt, timeout);
      && WithinBudget(cfg, t) && OneNotice(cfg, t)
      && |s.calls| < |t.calls|
      && t.log != Told(cfg, Success)
      && (t.log == [] <==> t.pending.Some?)
    decreases cfg.maxRetryTimes - attempt
  {
    var reply := cfg.replies(|s.calls|);
    var called := s.(calls := s.calls + [attempt]);
    if !reply.accepted {
      if attempt + 1 < cfg.maxRetryTimes && timeout - reply.elapsed > 0 {
        PostKeeps(cfg, called, attempt + 1, timeout - reply.elapsed);
      }
    }
  }

  /** A completion either ends the send with its one notice or moves on to a later attempt; success is
      reported exactly for a processed response. */
  lemma CompleteKeeps(cfg: Config, s: Send, c: Completion)
    requires s.pending.Some? && WithinBudget(cfg, s) && OneNotice(cfg, s)
    ensures var t := Complete(cfg, s, c);
      && WithinBudget(cfg, t) && OneNotice(cfg, t)
      && (t.pending.Some? ==> |s.calls| < |t.calls|) && |s.calls| <= |t.calls|
      && (!cfg.callback.NoCallback? ==> (t.log == Told(cfg, Success) <==> c.Processed?))
      && (cfg.callback.NoCallback? ==> t.log == [])
  {
    var attempt, done := s.pending.value, s.(pending := None);
    if c.Rejected? && attempt < cfg.maxRetryTimes {
      PostKeeps(cfg, done, attempt + 1, c.left);
    }
  }

  lemma {:induction false} RunKeeps(cfg: Config, timeout: int, events: seq<Completion>)
    requires Run(cfg, timeout, events).Some?
    ensures var s := Run(cfg, timeout, events).value;
      && WithinBudget(cfg, s) && OneNotice(cfg, s)
      && |events| <= |s.calls| && (s.pending.Some? ==> |events| < |s.calls|)
  {
    if events == [] {
      PostKeeps(cfg, Idle(), FIRST_ATTEMPT, timeout);
    } else {
      var n := |events| - 1;
      RunKeeps(cfg, timeout, events[..n]);
      CompleteKeeps(cfg, Run(cfg, timeout, events[..n]).value, events[n]);
    }
  }

  lemma {:induction false} FirstCall(cfg: Config, timeout: int, events: seq<Completion>)
    requires Run(cfg, timeout, events).Some?
    ensures var s := Run(cfg, timeout, events).value; s.calls != [] && s.calls[0] == 1
  {
    if events == [] {
      PostExactly(cfg, Idle(), FIRST_ATTEMPT, timeout);
    } else {
      var n := |events| - 1;
      FirstCall(cfg, timeout, events[..n]);
      CompleteExactly(cfg, Run(cfg, timeout, events[..n]).value, events[n]);
    }
  }

  lemma {:induction false} IncreasingCount(calls: seq<int>, low: int, high: int)
    requires Increasing(calls) && (forall i :: 0 <= i < |calls| ==> low <= calls[i] <= high) && low <= high + 1
    ensures |calls| <= high - low + 1
    decreases |calls|
  {
    if calls == [] {
    } else {
      var n := |calls| - 1;
      IncreasingCount(calls[..n], low, calls[n] - 1);
    }
  }

  /** A send with a callback tells the user exactly once. In every run, whatever the transport and the broker
      do, either an attempt is still out and nothing was said, or exactly one notice was given, a success
      exactly when the last response was processed, with one free right after it for an auto-delete callback. */
  lemma NotifiedExactlyOnce(cfg: Config, timeout: int, events: seq<Completion>)
    requires Run(cfg, timeout, events).Some? && !cfg.callback.NoCallback?
    ensures var s := Run(cfg, timeout, events).value;
      var processed := events != [] && events[|events| - 1].Processed?;
      if s.pending.Some? then s.log == []
      else s.log == Told(cfg, if processed then Success else Failure)
  {
    RunKeeps(cfg, timeout, events);
    if events == [] {
      PostKeeps(cfg, Idle(), FIRST_ATTEMPT, timeout);
    } else {
      RunKeeps(cfg, timeout, events[..|events| - 1]);
      CompleteKeeps(cfg, Run(cfg, timeout, events[..|events| - 1]).value, events[|events| - 1]);
    }
  }

  /** The send terminates within its budget: attempt numbers start at 1, strictly increase and never pass
      max(1, maxRetryTimes), so there are at most that many invokeAsync calls and at most that many
      completions before nothing is pending any more. */
  lemma TerminatesWithinBudget(cfg: Config, timeout: int, events: seq<Completion>)
    requires Run(cfg, timeout, events).Some?
    ensures var s := Run(cfg, timeout, events).value;
      && s.calls != [] && s.calls[0] == 1 && Increasing(s.calls)
      && (forall i :: 0 <= i < |s.calls| ==> 1 <= s.calls[i] && (s.calls[i] == 1 || s.calls[i] <= cfg.maxRetryTimes))
      && |s.calls| <= Budget(cfg) && |events| <= Budget(cfg)
      && (|events| == Budget(cfg) ==> s.pending.None?)
  {
    RunKeeps(cfg, timeout, events);
    FirstCall(cfg, timeout, events);
    IncreasingCount(Run(cfg, timeout, events).value.calls, FIRST_ATTEMPT, Budget(cfg));
  }

  /** A rejected response is retried if and only if the attempt was below maxRetryTimes. */
  lemma RetriedIff(cfg: Config, s: Send, left: int)
    requires s.pending.Some? && WithinBudget(cfg, s) && OneNotice(cfg, s) && !cfg.callback.NoCallback?
    ensures Complete(cfg, s, Rejected(left)).calls != s.calls <==> s.pending.value < cfg.maxRetryTimes
  {
    if s.pending.value < cfg.maxRetryTimes {
      PostKeeps(cfg, s.(pending := None), s.pending.value + 1, left);
    }
  }

  /** One sendMessageAsync calls the attempt it is given, and after that only attempts below maxRetryTimes,
      whatever the transport answers and however long it takes. */
  lemma {:induction false} LaterCallsBelowMax(cfg: Config, s: Send, attempt: int, timeout: int)
    ensures var t := Post(cfg, s, attempt, timeout);
      && |s.calls| < |t.calls| && t.calls[..|s.calls|] == s.calls && t.calls[|s.calls|] == attempt
      && (forall i :: |s.calls| < i < |t.calls| ==> t.calls[i] < cfg.maxRetryTimes)
    decreases cfg.maxRetryTimes - attempt
  {
    var reply := cfg.replies(|s.calls|);
    var called := s.(calls := s.calls + [attempt]);
    if !reply.accepted && attempt + 1 < cfg.maxRetryTimes && timeout - reply.elapsed > 0 {
      LaterCallsBelowMax(cfg, called, attempt + 1, timeout - reply.elapsed);
    }
  }

  /** The k-th completion rejects attempt maxRetryTimes - 1. */
  predicate RejectsLastButOne(cfg: Config, timeout: int, events: seq<Completion>, k: nat)
    requires k < |events|
  {
    var before := Run(cfg, timeout, events[..k]);
    events[k].Rejected? && before.Some? && before.value.pending == Some(cfg.maxRetryTimes - 1)
  }

  lemma CompleteCallsMax(cfg: Config, s: Send, c: Completion)
    requires cfg.maxRetryTimes > 1 && !cfg.callback.NoCallback? && s.pending.Some?
    ensures cfg.maxRetryTimes in Complete(cfg, s, c).calls
      <==> cfg.maxRetryTimes in s.calls || (c.Rejected? && s.pending.value == cfg.maxRetryTimes - 1)
  {
    var t := Complete(cfg, s, c);
    if c.Rejected? && s.pending.value < cfg.maxRetryTimes {
      LaterCallsBelowMax(cfg, s.(pending := None), s.pending.value + 1, c.left);
      var n := |s.calls|;
      assert t.calls == s.calls + t.calls[n..];
      assert t.calls[n..][0] == s.pending.value + 1;
      assert forall i :: 0 < i < |t.calls[n..]| ==> t.calls[n..][i] == t.calls[n + i];
    }
  }

  /** The last attempt, number maxRetryTimes > 1, is called if and only if the broker rejects the attempt
      before it; a refusal never leads there. */
  lemma {:induction false} LastAttemptIff(cfg: Config, timeout: int, events: seq<Completion>)
    requires cfg.maxRetryTimes > 1 && !cfg.callback.NoCallback? && Run(cfg, timeout, events).Some?
    ensures cfg.maxRetryTimes in Run(cfg, timeout, events).value.calls
      <==> exists k :: 0 <= k < |events| && RejectsLastButOne(cfg, timeout, events, k)
  {
    if events == [] {
      LaterCallsBelowMax(cfg, Idle(), FIRST_ATTEMPT, timeout);
    } else {
      var n := |events| - 1;
      LastAttemptIff(cfg, timeout, events[..n]);
      CompleteCallsMax(cfg, Run(cfg, timeout, events[..n]).value, events[n]);
      forall k | 0 <= k < n
        ensures RejectsLastButOne(cfg, timeout, events, k) <==> RejectsLastButOne(cfg, timeout, events[..n], k)
      {
        assert events[..n][..k] == events[..k];
      }
      if cfg.maxRetryTimes in Run(cfg, timeout, events).value.calls
         && cfg.maxRetryTimes !in Run(cfg, timeout, events[..n]).value.calls {
        assert RejectsLastButOne(cfg, timeout, events, n);
      }
    }
  }

  /** When the transport refuses everything and the time does not run out, sendMessageAsync calls the attempt
      it is given and then each number below maxRetryTimes in turn, and stops one short of it. */
  lemma {:induction false} RefusalsStopOneShort(cfg: Config, s: Send, attempt: int, timeout: int)
    requires forall i: nat :: !cfg.replies(i).accepted
    requires forall n: nat {:trigger Spent(cfg, |s.calls|, n)} :: n < cfg.maxRetryTimes - attempt ==>
      Spent(cfg, |s.calls|, n) < timeout
    ensures var t := Post(cfg, s, attempt, timeout);
      && |t.calls| == |s.calls| + (if attempt < cfg.maxRetryTimes - 1 then cfg.maxRetryTimes - attempt else 1)
      && t.calls[..|s.calls|] == s.calls
      && forall i :: |s.calls| <= i < |t.calls| ==> t.calls[i] == attempt + i - |s.calls|
    decreases cfg.maxRetryTimes - attempt
  {
    var reply := cfg.replies(|s.calls|);
    var called := s.(calls := s.calls + [attempt]);
    assert !reply.accepted;
    if attempt + 1 < cfg.maxRetryTimes {
      assert Spent(cfg, |s.calls|, 1) == reply.elapsed + Spent(cfg, |s.calls| + 1, 0);
      forall n: nat | n < cfg.maxRetryTimes - (attempt + 1)
        ensures Spent(cfg, |called.calls|, n) < timeout - reply.elapsed
      {
        assert Spent(cfg, |s.calls|, n + 1) == reply.elapsed + Spent(cfg, |s.calls| + 1, n);
      }
      RefusalsStopOneShort(cfg, called, attempt + 1, timeout - reply.elapsed);
      var t := Post(cfg, called, attempt + 1, timeout - reply.elapsed);
      assert t.calls[..|s.calls|] == t.calls[..|called.calls|][..|s.calls|] == s.calls;
      assert t.calls[|s.calls|] == t.calls[..|called.calls|][|s.calls|] == attempt;
    }
  }
}
