/** The dosing automation sample program: inside a session it zeroes the
    balance, starts the terminal's automated dosing method, submits a fixed
    job list and then serves the balance's action requests until the
    automation finishes. Each step runs only when the one before it
    succeeded; the session is disposed however the block is left. */
module DosingProgram {
  import opened WebService
  import opened Infrastructure
  import opened Weighing
  import opened DosingAutomation

  /** The demonstration job list: two Sugar jobs, for two different vials,
      each with a positive target in milligrams (221 mg and 22 mg). */
  function CreateDosingJobList(): (jobs: seq<DosingJob>)
    ensures |jobs| == 2
    ensures forall k :: 0 <= k < |jobs| ==>
              jobs[k].substanceName == "Sugar" && jobs[k].targetWeight.unit == Milligram
              && jobs[k].targetWeight.value > 0.0
    ensures jobs[0].vialName == "Vial1" && jobs[0].targetWeight.value == 221.0
    ensures jobs[1].vialName == "Vial2" && jobs[1].targetWeight.value == 22.0
  {
    [DosingJob("Sugar", "Vial1", WeightWithUnit(221.0, Milligram)),
     DosingJob("Sugar", "Vial2", WeightWithUnit(22.0, Milligram))]
  }

  /** What the sample sends after opening the session with id `sessionId`,
      and how it ends, given the balance's script; `start` is the number of
      polls the balance had answered before. */
  function SampleSpec(sessionId: string, script: Script, start: nat): Run
  {
    var zero := [Request.Zero(sessionId)];
    if script.zero != Success then Run(zero, Returned)
    else
      var task := TryStartAutomatedDosingMethod(sessionId, script.methods, script.startTask);
      if !task.started then Run(zero + task.requests, Returned)
      else
        var submit := zero + task.requests + [StartExecuteDosingJobList(sessionId, CreateDosingJobList())];
        if script.startJobList != Success then Run(submit, Returned)
        else
          var polling := Polling(sessionId, script.batches, start, 0);
          Run(submit + polling.sent, polling.completion)
  }

  /** StartDosingAutomationSample: one OpenSession, then what SampleSpec
      says, with the session id decrypted from the balance's reply. The
      final message is reached exactly when no exception escaped, and the
      session is disposed either way. */
  method StartDosingAutomationSample(config: WebConfig, balance: Balance, decrypt: SessionIdDecryptor)
    returns (c: Completion, finished: bool, session: Session)
    modifies balance
    ensures session.client == balance && session.disposed
    ensures session.sessionId
            == decrypt(config.password, balance.script.openSession.encryptedSessionId, balance.script.openSession.salt)
    ensures var run := SampleSpec(session.sessionId, balance.script, old(balance.polls));
            balance.trace == old(balance.trace) + [Request.OpenSession] + run.sent && c == run.completion
    ensures finished <==> c == Returned
  {
    session := new Session(config, balance, decrypt);
    var sessionId := session.sessionId;
    c := Returned;
    var zeroOutcome := balance.Zero(sessionId);
    if zeroOutcome == Success {
      var task := TryStartAutomatedDosingMethod(sessionId, balance.script.methods, balance.script.startTask);
      balance.Receive(task.requests);
      if task.started {
        var jobs := CreateDosingJobList();
        var submitted := StartJobList(sessionId, jobs, balance);
        if submitted {
          c := StartHandlingDosingAutomationNotifications(sessionId, balance);
        }
      }
    }
    // the Logger.Finish call is skipped when an exception escapes
    finished := c == Returned;
    session.Dispose();
  }

  /** The requests the sample sends after opening its session are the zero
      request, then a method listing exactly when zeroing succeeded, then the
      job list exactly when the dosing method was also started, then polls
      exactly when the job list was also accepted. */
  lemma SampleStages(sessionId: string, script: Script, start: nat)
    ensures var sent := SampleSpec(sessionId, script, start).sent;
            var started := TryStartAutomatedDosingMethod(sessionId, script.methods, script.startTask).started;
            |sent| >= 1 && sent[0] == Request.Zero(sessionId)
            && (GetListOfMethods(sessionId) in sent <==> script.zero == Success)
            && (StartExecuteDosingJobList(sessionId, CreateDosingJobList()) in sent
                <==> script.zero == Success && started)
            && (Poll(sessionId) in sent
                <==> script.zero == Success && started && script.startJobList == Success)
  {
    var sent := SampleSpec(sessionId, script, start).sent;
    var task := TryStartAutomatedDosingMethod(sessionId, script.methods, script.startTask);
    var jobs := StartExecuteDosingJobList(sessionId, CreateDosingJobList());
    if script.zero == Success {
      assert sent[1] == GetListOfMethods(sessionId);
      if task.started && script.startJobList == Success {
        var polling := Polling(sessionId, script.batches, start, 0);
        var submit := [Request.Zero(sessionId)] + task.requests + [jobs];
        PollingBound(sessionId, script.batches, start, 0);
        assert polling.sent[0] == Poll(sessionId);
        assert sent[|submit|] == Poll(sessionId);
        assert sent[|submit| - 1] == jobs;
      } else if task.started {
        assert sent[|sent| - 1] == jobs;
        assert forall r :: r in sent ==> !r.GetNotifications?;
      } else {
        assert forall r :: r in sent ==> !r.GetNotifications? && !r.StartExecuteDosingJobList?;
      }
    }
  }

  /** Every request sent after OpenSession carries the session's own id, and
      none of them cancels or closes the session: the disposal sends
      nothing. */
  lemma SampleRequestsUseSession(sessionId: string, script: Script, start: nat)
    ensures forall r :: r in SampleSpec(sessionId, script, start).sent ==>
              SessionOf(r) == Some(sessionId) && !r.Cancel? && !r.CloseSession?
  {
    var task := TryStartAutomatedDosingMethod(sessionId, script.methods, script.startTask);
    if script.zero == Success && task.started && script.startJobList == Success {
      PollingSends(sessionId, script.batches, start, 0);
    }
  }

  /** The sample ends with an exception only when the polling loop met an
      action type outside the four it handles. */
  lemma SampleThrowsOnlyOnUnknownAction(sessionId: string, script: Script, start: nat)
    ensures var c := SampleSpec(sessionId, script, start).completion;
            c.Threw? ==> !IsKnown(c.fault.actionType)
  {
    PollingSends(sessionId, script.batches, start, 0);
  }
}
