/** The dosing automation client: it submits a dosing job list, then polls the
    balance's notifications and confirms every action the balance asks for,
    until the automation reports that it has finished or the polling budget
    is spent. An action type outside the four known ones raises an exception
    that nothing catches, so it ends the polling loop. */
module DosingAutomation {
  import opened WebService

  const PollTimeoutMs: int := 500
  /** The loop stops once the counter exceeds this value. */
  const MaxPollingCount: nat := 200

  /** The exception HandleActionRequest raises for an unknown action type. */
  datatype Fault = ArgumentOutOfRange(actionType: ActionType)

  /** How a call ends: normally, or with an exception that escapes it. */
  datatype Completion = Returned | Threw(fault: Fault)

  /** The requests a call sends, and how it ends. */
  datatype Run = Run(sent: seq<Request>, completion: Completion)

  predicate IsKnown(t: ActionType)
  {
    !t.OtherAction?
  }

  /** An action notification whose type HandleActionRequest rejects. */
  predicate IsUnknownAction(n: Notification)
  {
    n.DosingAction? && !IsKnown(n.actionType)
  }

  predicate HasFinished(batch: seq<Notification>)
  {
    exists i :: 0 <= i < |batch| && batch[i].AutomationFinished?
  }

  function Poll(sessionId: string): Request
  {
    GetNotifications(sessionId, PollTimeoutMs)
  }

  // ---------------------------------------------------------------------
  // Starting the job list

  /** One StartExecuteDosingJobListAsync request with the caller's session id
      and jobs; true exactly when its outcome is Success. */
  method StartJobList(sessionId: string, dosingJobs: seq<DosingJob>, client: Balance) returns (ok: bool)
    modifies client
    ensures client.trace == old(client.trace) + [StartExecuteDosingJobList(sessionId, dosingJobs)]
    ensures client.polls == old(client.polls)
    ensures ok <==> client.script.startJobList == Success
  {
    var outcome := client.StartExecuteDosingJobList(sessionId, dosingJobs);
    if outcome != Success {
      // the per-job validation errors are only logged
      return false;
    }
    return true;
  }

  // ---------------------------------------------------------------------
  // Handling one action request

  /** Confirms a known action with exactly the session id, action type and
      item it was given; an unknown action type throws before anything is
      sent. */
  method HandleActionRequest(actionType: ActionType, actionItem: string, sessionId: string, client: Balance)
    returns (c: Completion)
    modifies client
    ensures IsKnown(actionType) ==>
              c == Returned
              && client.trace == old(client.trace) + [ConfirmDosingJobAction(sessionId, actionType, actionItem)]
    ensures !IsKnown(actionType) ==>
              c == Threw(ArgumentOutOfRange(actionType)) && client.trace == old(client.trace)
    ensures client.polls == old(client.polls)
  {
    match actionType
    case PlaceDosingHead =>
      client.ConfirmDosingJobAction(sessionId, PlaceDosingHead, actionItem);
      c := Returned;
    case RemoveDosingHead =>
      client.ConfirmDosingJobAction(sessionId, RemoveDosingHead, actionItem);
      c := Returned;
    case PlaceVial =>
      client.ConfirmDosingJobAction(sessionId, PlaceVial, actionItem);
      c := Returned;
    case RemoveVial =>
      client.ConfirmDosingJobAction(sessionId, RemoveVial, actionItem);
      c := Returned;
    case OtherAction(_) =>
      c := Threw(ArgumentOutOfRange(actionType));
  }

  // ---------------------------------------------------------------------
  // The polling loop, as functions

  /** What the loop body's foreach sends for one batch, notification by
      notification: action notifications are confirmed, the first unknown
      action type throws and ends the batch; the others send nothing. */
  function Dispatch(sessionId: string, batch: seq<Notification>): Run
    decreases |batch|
  {
    if batch == [] then Run([], Returned)
    else
      var prev := Dispatch(sessionId, batch[..|batch| - 1]);
      var last := batch[|batch| - 1];
      if prev.completion.Threw? || !last.DosingAction? then prev
      else if IsKnown(last.actionType) then
        Run(prev.sent + [ConfirmDosingJobAction(sessionId, last.actionType, last.actionItem)], Returned)
      else Run(prev.sent, Threw(ArgumentOutOfRange(last.actionType)))
  }

  /** The loop from the iteration whose counter is `count` on: poll, stop when
      the counter exceeds the budget or the batch holds a finished
      notification, otherwise handle the batch and go round again. `start` is
      the number of polls the balance had answered before the loop began. */
  function Polling(sessionId: string, batches: seq<seq<Notification>>, start: nat, count: nat): Run
    requires count <= MaxPollingCount + 1
    decreases MaxPollingCount + 1 - count
  {
    var batch := BatchAt(batches, start + count);
    if count > MaxPollingCount || HasFinished(batch) then Run([Poll(sessionId)], Returned)
    else
      var d := Dispatch(sessionId, batch);
      if d.completion.Threw? then Run([Poll(sessionId)] + d.sent, d.completion)
      else
        var rest := Polling(sessionId, batches, start, count + 1);
        Run([Poll(sessionId)] + d.sent + rest.sent, rest.completion)
  }

  lemma {:induction false} DispatchThrewStays(sessionId: string, batch: seq<Notification>, i: nat)
    requires i <= |batch| && Dispatch(sessionId, batch[..i]).completion.Threw?
    ensures Dispatch(sessionId, batch) == Dispatch(sessionId, batch[..i])
    decreases |batch| - i
  {
    if i < |batch| {
      var next := batch[..i + 1];
      assert next[..|next| - 1] == batch[..i];
      DispatchThrewStays(sessionId, batch, i + 1);
    } else {
      assert batch[..i] == batch;
    }
  }

  lemma Associative<T>(a: seq<T>, b: seq<T>, c: seq<T>)
    ensures a + (b + c) == a + b + c
  {
  }

  // ---------------------------------------------------------------------
  // What one batch does, stated independently of the foreach

  /** Position of the first action notification with an unknown type. */
  function FirstUnknown(batch: seq<Notification>): (r: Option<nat>)
    ensures r.Some? ==> r.value < |batch| && IsUnknownAction(batch[r.value])
    ensures r.Some? ==> forall j :: 0 <= j < r.value ==> !IsUnknownAction(batch[j])
    ensures r.None? <==> forall j :: 0 <= j < |batch| ==> !IsUnknownAction(batch[j])
  {
    if batch == [] then None
    else if IsUnknownAction(batch[0]) then Some(0)
    else match FirstUnknown(batch[1..])
      case None => None
      case Some(k) => Some(k + 1)
  }

  /** The confirmation a notification calls for, if any. */
  function ConfirmationOf(sessionId: string, n: Notification): seq<Request>
  {
    if n.DosingAction? then [ConfirmDosingJobAction(sessionId, n.actionType, n.actionItem)] else []
  }

  /** One confirmation per action notification, in batch order. */
  function ConfirmationsFor(sessionId: string, batch: seq<Notification>): seq<Request>
  {
    if batch == [] then [] else ConfirmationOf(sessionId, batch[0]) + ConfirmationsFor(sessionId, batch[1..])
  }

  lemma {:induction false} ConfirmationsAppend(sessionId: string, batch: seq<Notification>, n: Notification)
    ensures ConfirmationsFor(sessionId, batch + [n])
            == ConfirmationsFor(sessionId, batch) + ConfirmationOf(sessionId, n)
    decreases |batch|
  {
    if batch == [] {
      assert [n][1..] == [];
    } else {
      assert (batch + [n])[1..] == batch[1..] + [n];
      ConfirmationsAppend(sessionId, batch[1..], n);
      Associative(ConfirmationOf(sessionId, batch[0]), ConfirmationsFor(sessionId, batch[1..]),
                  ConfirmationOf(sessionId, n));
    }
  }

  /** A batch without unknown action types is answered by confirming every
      action in order; otherwise the actions before the first unknown one are
      confirmed and the unknown type is the exception. */
  lemma {:induction false} DispatchCharacterised(sessionId: string, batch: seq<Notification>)
    ensures FirstUnknown(batch).None? ==>
              Dispatch(sessionId, batch) == Run(ConfirmationsFor(sessionId, batch), Returned)
    ensures FirstUnknown(batch).Some? ==>
              var i := FirstUnknown(batch).value;
              Dispatch(sessionId, batch)
              == Run(ConfirmationsFor(sessionId, batch[..i]), Threw(ArgumentOutOfRange(batch[i].actionType)))
    decreases |batch|
  {
    if batch != [] {
      var p := batch[..|batch| - 1];
      var last := batch[|batch| - 1];
      assert batch == p + [last];
      DispatchCharacterised(sessionId, p);
      ConfirmationsAppend(sessionId, p, last);
      match FirstUnknown(p)
      case Some(i) =>
        assert FirstUnknown(batch) == Some(i) by {
          assert forall j :: 0 <= j < i ==> batch[j] == p[j];
        }
        assert batch[..i] == p[..i];
      case None =>
        assert forall j :: 0 <= j < |p| ==> batch[j] == p[j];
        if IsUnknownAction(last) {
          assert FirstUnknown(batch) == Some(|p|);
        } else {
          assert FirstUnknown(batch).None?;
        }
    }
  }

  /** The requests the polling loop may send: a poll, or the confirmation of
      a known action type, all with the session id it was given. */
  predicate LoopRequest(sessionId: string, r: Request)
  {
    r == Poll(sessionId)
    || (r.ConfirmDosingJobAction? && r.sessionId == sessionId && IsKnown(r.actionType))
  }

  lemma {:induction false} DispatchSends(sessionId: string, batch: seq<Notification>)
    ensures forall r :: r in Dispatch(sessionId, batch).sent ==>
              r.ConfirmDosingJobAction? && r.sessionId == sessionId && IsKnown(r.actionType)
    ensures Dispatch(sessionId, batch).completion.Threw? ==>
              !IsKnown(Dispatch(sessionId, batch).completion.fault.actionType)
    decreases |batch|
  {
    if batch != [] {
      DispatchSends(sessionId, batch[..|batch| - 1]);
    }
  }

  // ---------------------------------------------------------------------
  // What the whole loop does

  /** A batch the loop handles without stopping: nothing finished and no
      unknown action type. */
  predicate Clean(batch: seq<Notification>)
  {
    !HasFinished(batch) && FirstUnknown(batch).None?
  }

  predicate CleanAt(batches: seq<seq<Notification>>, start: nat, j: nat)
  {
    Clean(BatchAt(batches, start + j))
  }

  /** Loop iterations `lo` up to `hi` that go round again: each polls and
      confirms every action of its batch. */
  function Rounds(sessionId: string, batches: seq<seq<Notification>>, start: nat, lo: nat, hi: nat): seq<Request>
    requires lo <= hi
    decreases hi - lo
  {
    if lo == hi then []
    else [Poll(sessionId)] + ConfirmationsFor(sessionId, BatchAt(batches, start + lo))
         + Rounds(sessionId, batches, start, lo + 1, hi)
  }

  /** The loop ends normally at iteration k when every earlier batch was
      clean and either batch k holds a finished notification or the counter
      has passed the budget: it sends the rounds before k and one last poll. */
  lemma {:induction false} PollingReturns(sessionId: string, batches: seq<seq<Notification>>, start: nat,
                                          count: nat, k: nat)
    requires count <= k <= MaxPollingCount + 1
    requires forall j :: count <= j < k ==> CleanAt(batches, start, j)
    requires k == MaxPollingCount + 1 || HasFinished(BatchAt(batches, start + k))
    ensures Polling(sessionId, batches, start, count)
            == Run(Rounds(sessionId, batches, start, count, k) + [Poll(sessionId)], Returned)
    decreases k - count
  {
    if count < k {
      assert CleanAt(batches, start, count);
      PollingCleanRound(sessionId, batches, start, count);
      PollingReturns(sessionId, batches, start, count + 1, k);
      var head := [Poll(sessionId)] + ConfirmationsFor(sessionId, BatchAt(batches, start + count));
      Associative(head, Rounds(sessionId, batches, start, count + 1, k), [Poll(sessionId)]);
    }
  }

  /** An iteration whose batch holds no finished notification but an unknown
      action type at position i polls, confirms the actions before i and
      ends with the exception. */
  lemma PollingThrowsHere(sessionId: string, batches: seq<seq<Notification>>, start: nat, k: nat)
    requires k <= MaxPollingCount
    requires !HasFinished(BatchAt(batches, start + k)) && FirstUnknown(BatchAt(batches, start + k)).Some?
    ensures var batch := BatchAt(batches, start + k);
            var i := FirstUnknown(batch).value;
            Polling(sessionId, batches, start, k)
            == Run([Poll(sessionId)] + ConfirmationsFor(sessionId, batch[..i]),
                   Threw(ArgumentOutOfRange(batch[i].actionType)))
  {
    DispatchCharacterised(sessionId, BatchAt(batches, start + k));
  }

  /** The loop ends with the exception at iteration k <= 200 when every
      earlier batch was clean and batch k, which holds no finished
      notification, has an unknown action type at position i: it sends the
      rounds before k, one poll and the confirmations before position i. */
  lemma {:induction false} PollingThrowsAt(sessionId: string, batches: seq<seq<Notification>>, start: nat,
                                           count: nat, k: nat)
    requires count <= k <= MaxPollingCount
    requires forall j :: count <= j < k ==> CleanAt(batches, start, j)
    requires !HasFinished(BatchAt(batches, start + k)) && FirstUnknown(BatchAt(batches, start + k)).Some?
    ensures var batch := BatchAt(batches, start + k);
            var i := FirstUnknown(batch).value;
            Polling(sessionId, batches, start, count)
            == Run(Rounds(sessionId, batches, start, count, k) + [Poll(sessionId)]
                   + ConfirmationsFor(sessionId, batch[..i]),
                   Threw(ArgumentOutOfRange(batch[i].actionType)))
    decreases k - count
  {
    var batch := BatchAt(batches, start + k);
    var i := FirstUnknown(batch).value;
    var tail := ConfirmationsFor(sessionId, batch[..i]);
    if count == k {
      PollingThrowsHere(sessionId, batches, start, k);
      assert Rounds(sessionId, batches, start, k, k) == [];
    } else {
      PollingThrowsAt(sessionId, batches, start, count + 1, k);
      assert CleanAt(batches, start, count);
      PollingCleanRound(sessionId, batches, start, count);
      var head := [Poll(sessionId)] + ConfirmationsFor(sessionId, BatchAt(batches, start + count));
      var mid := Rounds(sessionId, batches, start, count + 1, k);
      assert Rounds(sessionId, batches, start, count, k) == head + mid;
      Associative(head, mid + [Poll(sessionId)], tail);
      Associative(head, mid, [Poll(sessionId)]);
    }
  }

  /** An iteration whose batch is clean polls, confirms every action and goes
      round again. */
  lemma PollingCleanRound(sessionId: string, batches: seq<seq<Notification>>, start: nat, count: nat)
    requires count <= MaxPollingCount && CleanAt(batches, start, count)
    ensures var rest := Polling(sessionId, batches, start, count + 1);
            Polling(sessionId, batches, start, count)
            == Run([Poll(sessionId)] + ConfirmationsFor(sessionId, BatchAt(batches, start + count)) + rest.sent,
                   rest.completion)
  {
    DispatchCharacterised(sessionId, BatchAt(batches, start + count));
  }

  /** Every request of the loop is a poll or the confirmation of a known
      action, with the loop's session id, and the only exception it lets out
      is the one for an unknown action type. */
  lemma {:induction false} PollingSends(sessionId: string, batches: seq<seq<Notification>>, start: nat, count: nat)
    requires count <= MaxPollingCount + 1
    ensures forall r :: r in Polling(sessionId, batches, start, count).sent ==> LoopRequest(sessionId, r)
    ensures Polling(sessionId, batches, start, count).completion.Threw? ==>
              !IsKnown(Polling(sessionId, batches, start, count).completion.fault.actionType)
    decreases MaxPollingCount + 1 - count
  {
    var batch := BatchAt(batches, start + count);
    if !(count > MaxPollingCount || HasFinished(batch)) {
      DispatchSends(sessionId, batch);
      if Dispatch(sessionId, batch).completion == Returned {
        PollingSends(sessionId, batches, start, count + 1);
      }
    }
  }

  /** The number of polls in a request sequence. */
  function PollsIn(requests: seq<Request>): nat
  {
    if requests == [] then 0
    else (if requests[0].GetNotifications? then 1 else 0) + PollsIn(requests[1..])
  }

  lemma {:induction false} PollsInAppend(a: seq<Request>, b: seq<Request>)
    ensures PollsIn(a + b) == PollsIn(a) + PollsIn(b)
    decreases |a|
  {
    if a != [] {
      assert (a + b)[1..] == a[1..] + b;
      PollsInAppend(a[1..], b);
    } else {
      assert a + b == b;
    }
  }

  lemma {:induction false} NoPollsIn(requests: seq<Request>)
    requires forall r :: r in requests ==> r.ConfirmDosingJobAction?
    ensures PollsIn(requests) == 0
    decreases |requests|
  {
    if requests != [] {
      assert requests[0] in requests;
      assert forall r :: r in requests[1..] ==> r in requests;
      NoPollsIn(requests[1..]);
    }
  }

  /** From iteration `count` on, the loop polls at least once and at most
      202 - count times: the counter is tested after the poll, so iteration
      201 still polls. */
  lemma {:induction false} PollingBound(sessionId: string, batches: seq<seq<Notification>>, start: nat, count: nat)
    requires count <= MaxPollingCount + 1
    ensures 1 <= PollsIn(Polling(sessionId, batches, start, count).sent) <= MaxPollingCount + 2 - count
    decreases MaxPollingCount + 1 - count
  {
    var batch := BatchAt(batches, start + count);
    assert PollsIn([Poll(sessionId)]) == 1;
    if !(count > MaxPollingCount || HasFinished(batch)) {
      var d := Dispatch(sessionId, batch);
      DispatchSends(sessionId, batch);
      NoPollsIn(d.sent);
      PollsInAppend([Poll(sessionId)], d.sent);
      if d.completion == Returned {
        PollingBound(sessionId, batches, start, count + 1);
        PollsInAppend([Poll(sessionId)] + d.sent, Polling(sessionId, batches, start, count + 1).sent);
      }
    }
  }

  lemma {:induction false} PollsInRounds(sessionId: string, batches: seq<seq<Notification>>, start: nat,
                                         lo: nat, hi: nat)
    requires lo <= hi
    ensures PollsIn(Rounds(sessionId, batches, start, lo, hi)) == hi - lo
    decreases hi - lo
  {
    if lo < hi {
      var c := ConfirmationsFor(sessionId, BatchAt(batches, start + lo));
      ConfirmationsAreConfirms(sessionId, BatchAt(batches, start + lo));
      NoPollsIn(c);
      assert PollsIn([Poll(sessionId)]) == 1;
      PollsInAppend([Poll(sessionId)], c);
      PollsInRounds(sessionId, batches, start, lo + 1, hi);
      PollsInAppend([Poll(sessionId)] + c, Rounds(sessionId, batches, start, lo + 1, hi));
    }
  }

  lemma {:induction false} ConfirmationsAreConfirms(sessionId: string, batch: seq<Notification>)
    ensures forall r :: r in ConfirmationsFor(sessionId, batch) ==> r.ConfirmDosingJobAction?
    decreases |batch|
  {
    if batch != [] {
      ConfirmationsAreConfirms(sessionId, batch[1..]);
    }
  }

  /** When no batch of the 201 the loop handles finishes the automation or
      names an unknown action, the budget runs out: exactly 202 polls, and
      the call returns normally. */
  lemma PollingExhausted(sessionId: string, batches: seq<seq<Notification>>, start: nat)
    requires forall j :: 0 <= j <= MaxPollingCount ==> CleanAt(batches, start, j)
    ensures PollsIn(Polling(sessionId, batches, start, 0).sent) == MaxPollingCount + 2
    ensures Polling(sessionId, batches, start, 0).completion == Returned
  {
    PollingReturns(sessionId, batches, start, 0, MaxPollingCount + 1);
    PollsInRounds(sessionId, batches, start, 0, MaxPollingCount + 1);
    PollsInAppend(Rounds(sessionId, batches, start, 0, MaxPollingCount + 1), [Poll(sessionId)]);
    assert PollsIn([Poll(sessionId)]) == 1;
  }

  // ---------------------------------------------------------------------
  // The polling loop, as the source runs it

  /** The foreach of one loop iteration, over a batch that holds no finished
      notification: it sends what Dispatch says and ends as Dispatch says. */
  method HandleBatch(sessionId: string, batch: seq<Notification>, client: Balance) returns (c: Completion)
    requires !HasFinished(batch)
    modifies client
    ensures client.trace == old(client.trace) + Dispatch(sessionId, batch).sent
    ensures c == Dispatch(sessionId, batch).completion
    ensures client.polls == old(client.polls)
  {
    var i := 0;
    while i < |batch|
      invariant 0 <= i <= |batch|
      invariant client.polls == old(client.polls)
      invariant Dispatch(sessionId, batch[..i]).completion == Returned
      invariant client.trace == old(client.trace) + Dispatch(sessionId, batch[..i]).sent
    {
      assert batch[..i + 1][..i] == batch[..i];
      match batch[i] {
        case DosingAction(actionType, actionItem) =>
          c := HandleActionRequest(actionType, actionItem, sessionId, client);
          if c.Threw? {
            DispatchThrewStays(sessionId, batch, i + 1);
            return c;
          }
        case JobFinished(_) =>
          // the job's outcome is only logged
        case AutomationFinished(_) =>
          // a batch holding this notification ends the loop before its foreach
          assert false;
        case OtherNotification =>
      }
      i := i + 1;
    }
    assert batch[..i] == batch;
    return Returned;
  }

  /** One iteration of the polling loop with counter `count`: poll, then stop
      or handle the batch. `step` is what it sends; when the loop goes round
      again, Polling from `count` is `step` followed by Polling from
      `count + 1`, and otherwise it is exactly this round. */
  method PollRound(sessionId: string, client: Balance, ghost start: nat, count: nat)
    returns (done: bool, c: Completion, ghost step: seq<Request>)
    requires count <= MaxPollingCount + 1 && client.polls == start + count
    modifies client
    ensures client.polls == start + count + 1
    ensures client.trace == old(client.trace) + step
    ensures done ==> Polling(sessionId, client.script.batches, start, count) == Run(step, c)
    ensures !done ==> count < MaxPollingCount + 1 && c == Returned
    ensures !done ==>
              var rest := Polling(sessionId, client.script.batches, start, count + 1);
              Polling(sessionId, client.script.batches, start, count) == Run(step + rest.sent, rest.completion)
  {
    var batch := client.GetNotifications(sessionId, PollTimeoutMs);
    if count > MaxPollingCount || HasFinished(batch) {
      // stop polling
      return true, Returned, [Poll(sessionId)];
    }
    c := HandleBatch(sessionId, batch, client);
    step := [Poll(sessionId)] + Dispatch(sessionId, batch).sent;
    done := c.Threw?;
    if !done {
      var rest := Polling(sessionId, client.script.batches, start, count + 1);
      assert step + rest.sent == [Poll(sessionId)] + Dispatch(sessionId, batch).sent + rest.sent;
    }
  }

  /** StartHandlingDosingAutomationNotifications: the requests sent are those
      Polling describes, starting with counter 0 at the balance's current
      poll position, and the call ends as Polling says. */
  method StartHandlingDosingAutomationNotifications(sessionId: string, client: Balance) returns (c: Completion)
    modifies client
    ensures var run := Polling(sessionId, client.script.batches, old(client.polls), 0);
            client.trace == old(client.trace) + run.sent && c == run.completion
  {
    ghost var start := client.polls;
    ghost var batches := client.script.batches;
    ghost var whole := Polling(sessionId, batches, start, 0);
    ghost var before := client.trace;
    var pollingCount: nat := 0;
    while true
      invariant pollingCount <= MaxPollingCount + 1
      invariant client.polls == start + pollingCount
      invariant before + whole.sent == client.trace + Polling(sessionId, batches, start, pollingCount).sent
      invariant whole.completion == Polling(sessionId, batches, start, pollingCount).completion
      decreases MaxPollingCount + 1 - pollingCount
    {
      var done;
      ghost var step;
      ghost var traceBefore := client.trace;
      done, c, step := PollRound(sessionId, client, start, pollingCount);
      if done {
        return;
      }
      Associative(traceBefore, step, Polling(sessionId, batches, start, pollingCount + 1).sent);
      pollingCount := pollingCount + 1;
    }
  }
}
