# Automated powder dispenser: balance clients and recipe sampler

This project models, in Dafny, the two client workflows of the
AutomatedPowderDispenser repository that drive a laboratory balance, and
proves what they promise.

**The dosing-automation sample client (C#).**
- It opens a session on the balance's web service.
- It zeroes the balance and starts the first automated-dosing method on the terminal.
- It submits a job list.
- It then polls for notifications. Every action the balance asks for is confirmed, and polling stops on a "finished" notification or when the attempt budget is spent.

The remote balance is the class `WebService.Balance`:
- a scripted source of responses (`Script`);
- an append-only `trace` of every request it receives;
- a count of the polls it has answered.

Each C# operation is a method proved against a specification function of the script: `Dispatch` for one batch, `Polling` for the loop, `SampleSpec` for the whole program. Lemmas state what those functions send:
- the loop bound;
- the dispatch order;
- the confirmation payloads;
- what is never sent.

**The recipe-driven powder sampler (Python).**
- `AutomatedSampler` connects the robot arm (`UR`, through its dashboard server) and the balance (`WM`, over a serial line).
- For every vial of a JSON recipe it does, in order:
  - zero the balance behind closed doors;
  - place the vial;
  - for each material: set the target and tolerance registers, fetch the powder, tare, wait for the operator to dispense by hand, and put the powder back;
  - return the vial.
- The Streamlit front end validates and summarises the same recipes.

JSON values are the datatype `PyJson.Json`. Python exceptions are `Result` and `Completion` values. The devices share one `Devices.Bench`, which holds:
- the replies the devices will give;
- a `wire` log of the raw serial, dashboard and console traffic;
- a `calls` log of the device operations the sampler invokes.

What `execute` asks of the devices depends only on the recipe. It is the pure `Sampler.ExecutionPlan`: the device calls in order, plus the exception the recipe itself raises, if any. The methods are proved to perform a prefix of that plan. A device can still fail part way: an unacknowledged register write, or the end of console input.

The two loops of `execute` receive the plan of one item as a ghost function `planOf`, which their precondition ties to `MaterialPlan` or `VialPlan`. They are proved to perform `Sampler.Sequence` or `Sampler.Numbered` of those plans. `Sampler.SequenceMaterials` and `Sampler.NumberedVials` show that these chains are `MaterialsPlan` and `VialsPlan`. The loops' proofs therefore never unfold the plans of single items.

`SamplerSafety` replays a plan on an abstract bench (doors, vial, powder) and proves the plan safe:
- zeroing happens behind closed doors with the pan empty;
- vials pass only through open doors;
- in a whole run, every powder goes back before its vial does;
- each vial returns to the slot it came from.

A run cut short by a device makes only safe calls as far as it goes (`SamplerSafety.RunDiscipline`). But the `finally` of `execute` only disconnects the robot. When the end of console input stops the operator's prompt, the powder is left out over the vial, and any device error leaves the vial on the balance.

`RecipeCheck` proves that a recipe the validator accepts runs without the recipe raising, and that the summary can be built for it.

Three behaviours of the code as written are easy to misread; the model follows the code:
- `Session.Dispose` sends neither a cancel nor a close-session request. Its inner `if (!_disposed)` comes right after `_disposed = true`, so that branch is dead.
- The polling loop checks its counter after the poll, and only stops once the counter exceeds 200. A loop that never sees a "finished" notification therefore polls 202 times, not 200.
- `Logger.Finish` is skipped when an exception escapes the polling loop, because nothing catches it. The sample's `finished` flag is true exactly when no exception escaped.

## Model

| member | source | states |
|---|---|---|
| WebService.Balance.OpenSession | Documents/WebServiceDocumentationAndExamples/MTSampleApplication/WebServiceSampleApplication/V02/WebServiceInfrastructure/Session.cs:17 | one OpenSession request is appended to the trace; the reply is the balance's scripted encrypted id and salt |
| WebService.Balance.Cancel | Documents/WebServiceDocumentationAndExamples/MTSampleApplication/WebServiceSampleApplication/V02/WebServiceInfrastructure/Session.cs:25 | one Cancel request with the given session id and cancel type is appended; the poll count is unchanged |
| WebService.Balance.CloseSession | Documents/WebServiceDocumentationAndExamples/MTSampleApplication/WebServiceSampleApplication/V02/WebServiceInfrastructure/Session.cs:37 | one CloseSession request with the given session id is appended |
| WebService.Balance.Zero | Documents/WebServiceDocumentationAndExamples/MTSampleApplication/WebServiceSampleApplication/V02/GetWeightValues/WeighingService.cs:8-20 | one Zero request with the session id is appended; the outcome is the scripted one |
| WebService.Balance.StartExecuteDosingJobList | Documents/WebServiceDocumentationAndExamples/MTSampleApplication/WebServiceSampleApplication/V02/DosingAutomation/DosingAutomationService.cs:22-23 | one job-list request carrying the session id and the jobs is appended; the outcome is the scripted one |
| WebService.Balance.GetNotifications | Documents/WebServiceDocumentationAndExamples/MTSampleApplication/WebServiceSampleApplication/V02/DosingAutomation/DosingAutomationService.cs:47 | one poll request with session id and timeout is appended; the batch is the next scripted one, and the poll count goes up by one |
| WebService.Balance.ConfirmDosingJobAction | Documents/WebServiceDocumentationAndExamples/MTSampleApplication/WebServiceSampleApplication/V02/DosingAutomation/DosingAutomationService.cs:100 | one confirmation carrying exactly the session id, action type and item is appended |
| WebService.Balance.Receive | Documents/WebServiceDocumentationAndExamples/MTSampleApplication/WebServiceSampleApplication/V02/GetWeightValues/WeighingTaskService.cs:20-28 | the weighing-task requests are appended to the trace in order |
| Infrastructure.Session.constructor | Documents/WebServiceDocumentationAndExamples/MTSampleApplication/WebServiceSampleApplication/V02/WebServiceInfrastructure/Session.cs:11-19 | exactly one OpenSession is sent; the session id is the decryption of the reply's id and salt under the configured password; the session is not disposed |
| Infrastructure.Session.CancelAll | Documents/WebServiceDocumentationAndExamples/MTSampleApplication/WebServiceSampleApplication/V02/WebServiceInfrastructure/Session.cs:23-26 | exactly one Cancel(sessionId, All) is sent and the session's own state is untouched |
| Infrastructure.Session.Dispose | Documents/WebServiceDocumentationAndExamples/MTSampleApplication/WebServiceSampleApplication/V02/WebServiceInfrastructure/Session.cs:29-42 | afterwards the session is disposed, nothing is sent, the session id and client are kept, and a second Dispose changes nothing |
| Weighing.FirstAutomatedDosing | Documents/WebServiceDocumentationAndExamples/MTSampleApplication/WebServiceSampleApplication/V02/GetWeightValues/WeighingTaskService.cs:21 | the index of the first method whose type is AutomatedDosing; none exactly when no method has that type |
| Weighing.TryStartAutomatedDosingMethod | Documents/WebServiceDocumentationAndExamples/MTSampleApplication/WebServiceSampleApplication/V02/GetWeightValues/WeighingTaskService.cs:17-36 | GetListOfMethods is sent first with the session id; a StartTask is sent, with the name of the first AutomatedDosing method, exactly when such a method exists; the result is true exactly when that task was started with outcome Success |
| DosingAutomation.StartJobList | Documents/WebServiceDocumentationAndExamples/MTSampleApplication/WebServiceSampleApplication/V02/DosingAutomation/DosingAutomationService.cs:19-39 | exactly one job-list request with the caller's session id and jobs is sent; the result is true exactly when its outcome is Success |
| DosingAutomation.HandleActionRequest | Documents/WebServiceDocumentationAndExamples/MTSampleApplication/WebServiceSampleApplication/V02/DosingAutomation/DosingAutomationService.cs:90-116 | each of the four known action types is confirmed once with the given session id, type and item; any other type throws ArgumentOutOfRange and sends nothing |
| DosingAutomation.FirstUnknown | Documents/WebServiceDocumentationAndExamples/MTSampleApplication/WebServiceSampleApplication/V02/DosingAutomation/DosingAutomationService.cs:57-63 | the position of the first action notification with an unknown type in a batch; none exactly when every action type in it is known |
| DosingAutomation.Dispatch | Documents/WebServiceDocumentationAndExamples/MTSampleApplication/WebServiceSampleApplication/V02/DosingAutomation/DosingAutomationService.cs:57-83 | specification of one batch: its notifications in order, each action notification confirmed with the session id, the first unknown action type throwing and ending the batch, other notifications sending nothing |
| DosingAutomation.Polling | Documents/WebServiceDocumentationAndExamples/MTSampleApplication/WebServiceSampleApplication/V02/DosingAutomation/DosingAutomationService.cs:44-87 | specification of the loop from one counter value on: poll, stop once the counter exceeds 200 or the batch holds a finished notification, otherwise dispatch the batch and, unless it threw, go round again |
| DosingAutomation.DispatchCharacterised | Documents/WebServiceDocumentationAndExamples/MTSampleApplication/WebServiceSampleApplication/V02/DosingAutomation/DosingAutomationService.cs:57-83 | a batch confirms its action notifications in batch order, one per action, and job-finished and unrecognised notifications send nothing; with an unknown action type it confirms those before it and then throws |
| DosingAutomation.DispatchSends | Documents/WebServiceDocumentationAndExamples/MTSampleApplication/WebServiceSampleApplication/V02/DosingAutomation/DosingAutomationService.cs:57-112 | handling a batch sends only confirmations of known action types with the loop's session id, and throws only for an unknown type |
| DosingAutomation.PollingReturns | Documents/WebServiceDocumentationAndExamples/MTSampleApplication/WebServiceSampleApplication/V02/DosingAutomation/DosingAutomationService.cs:44-87 | when every batch before iteration k is handled cleanly and iteration k stops the loop, the loop sends those rounds, one final poll and nothing from the finished batch, and returns normally |
| DosingAutomation.PollingThrowsAt | Documents/WebServiceDocumentationAndExamples/MTSampleApplication/WebServiceSampleApplication/V02/DosingAutomation/DosingAutomationService.cs:44-87 | an unknown action type in an unfinished batch ends the loop with that exception, after the confirmations that precede it in the batch |
| DosingAutomation.PollingCleanRound | Documents/WebServiceDocumentationAndExamples/MTSampleApplication/WebServiceSampleApplication/V02/DosingAutomation/DosingAutomationService.cs:47-86 | a round with a clean batch sends its poll, then the batch's confirmations, then whatever the next round sends |
| DosingAutomation.PollingSends | Documents/WebServiceDocumentationAndExamples/MTSampleApplication/WebServiceSampleApplication/V02/DosingAutomation/DosingAutomationService.cs:44-87 | the loop sends only polls with the caller's session id and 500 ms timeout, and confirmations of known action types with that session id |
| DosingAutomation.PollingBound | Documents/WebServiceDocumentationAndExamples/MTSampleApplication/WebServiceSampleApplication/V02/DosingAutomation/DosingAutomationService.cs:44-87 | from counter value `count` the loop polls at least once and at most 202 − count times |
| DosingAutomation.PollingExhausted | Documents/WebServiceDocumentationAndExamples/MTSampleApplication/WebServiceSampleApplication/V02/DosingAutomation/DosingAutomationService.cs:44-87 | when no batch ever stops the loop early, it polls exactly 202 times and returns normally |
| DosingAutomation.HandleBatch | Documents/WebServiceDocumentationAndExamples/MTSampleApplication/WebServiceSampleApplication/V02/DosingAutomation/DosingAutomationService.cs:57-83 | the foreach over a batch without a finished notification sends and ends as Dispatch says; the in-batch finished branch is unreachable |
| DosingAutomation.PollRound | Documents/WebServiceDocumentationAndExamples/MTSampleApplication/WebServiceSampleApplication/V02/DosingAutomation/DosingAutomationService.cs:47-86 | one iteration sends a prefix of Polling's requests: all of them when it stops, and otherwise its own part followed by Polling from the next counter value |
| DosingAutomation.StartHandlingDosingAutomationNotifications | Documents/WebServiceDocumentationAndExamples/MTSampleApplication/WebServiceSampleApplication/V02/DosingAutomation/DosingAutomationService.cs:41-88 | the requests sent and the way the call ends are exactly those of Polling from counter 0 |
| DosingProgram.CreateDosingJobList | Documents/WebServiceDocumentationAndExamples/MTSampleApplication/WebServiceSampleApplication/V03/DosingAutomation/Program.cs:59-74 | two Sugar jobs in milligrams, in order: Vial1 with 221, then Vial2 with 22 |
| DosingProgram.SampleSpec | Documents/WebServiceDocumentationAndExamples/MTSampleApplication/WebServiceSampleApplication/V03/DosingAutomation/Program.cs:39-56 | specification of the sample under an open session: zero, and only after a successful zero try to start the dosing method, only after that submit the job list, and only after that run the polling loop; its requests and how it ends |
| DosingProgram.StartDosingAutomationSample | Documents/WebServiceDocumentationAndExamples/MTSampleApplication/WebServiceSampleApplication/V03/DosingAutomation/Program.cs:25-57 | one OpenSession, then exactly what SampleSpec sends under the decrypted session id; the session is disposed on every path; the final message is reached exactly when no exception escaped |
| DosingProgram.SampleStages | Documents/WebServiceDocumentationAndExamples/MTSampleApplication/WebServiceSampleApplication/V03/DosingAutomation/Program.cs:39-50 | zeroing comes first; the dosing method is looked up exactly when zeroing succeeded; the job list is sent exactly when the method also started; polls are sent exactly when the job list was also accepted |
| DosingProgram.SampleRequestsUseSession | Documents/WebServiceDocumentationAndExamples/MTSampleApplication/WebServiceSampleApplication/V03/DosingAutomation/Program.cs:36-56 | every request after opening carries the single session's id, and none is a cancel or a close |
| DosingProgram.SampleThrowsOnlyOnUnknownAction | Documents/WebServiceDocumentationAndExamples/MTSampleApplication/WebServiceSampleApplication/V03/DosingAutomation/Program.cs:42-49 | the only exception that can escape the sample is the one for an unknown action type |
| PyJson.FloatOf | Code/automatedsampler.py:192 | float() fails exactly on null, lists, objects and unparsable strings (TypeError or ValueError) and on integers beyond the double range (OverflowError); other integers and floats convert to themselves |
| PyJson.Truncate | Code/automatedsampler.py:166 | int() of a float rounds toward zero |
| PyJson.IntOf | Code/automatedsampler.py:166 | int() succeeds on every integer and returns it; it fails exactly on null, lists, objects and unparsable strings |
| PyJson.LoopOver | Code/automatedsampler.py:165 | iterating a list yields its items; any other value yields nothing or raises |
| Devices.Strip | Code/automatedsampler.py:247 | the stripped answer is no longer than the answer and neither starts nor ends with whitespace, which is every ASCII character str.isspace() accepts |
| Devices.StripTrims | Code/automatedsampler.py:247 | strip() removes whitespace from both ends and nothing else: the result is a slice s[i..j] of the answer with only whitespace before i and from j on, and it neither starts nor ends with whitespace |
| Devices.LowerChangesLetters | Code/automatedsampler.py:247 | lower-casing maps each letter A-Z to the letter 32 code points on (a-z) and keeps every other character; so it changes exactly the upper-case letters |
| Devices.WaitForContinue | Code/automatedsampler.py:244-250 | lines are read until one says "continue" once stripped and lower-cased; every earlier line said something else; the end of input raises EOFError |
| Devices.UR.constructor | Code/automatedsampler.py:10-14 | a new robot starts disconnected |
| Devices.UR.Connect | Code/automatedsampler.py:16-26 | the dashboard connect result, anded with isConnected when the client has it, decides the outcome: connected on success, RuntimeError with the flag unchanged otherwise |
| Devices.UR.Disconnect | Code/automatedsampler.py:28-32 | the dashboard is disconnected only when the robot was connected; afterwards it is disconnected, so a second call sends nothing |
| Devices.UR.RunProgram | Code/automatedsampler.py:34-45 | raises RuntimeError and sends nothing when not connected; otherwise loads and plays the program, then polls running until the first false |
| Devices.WM.SendCommand | Code/automatedsampler.py:62-65 | one command written and one reply read, which is returned |
| Devices.WM.WaitReady | Code/automatedsampler.py:67-73 | sends "I" until the first reply that is not "I" |
| Devices.WM.ResetScale | Code/automatedsampler.py:75-78 | sends "@", returns its reply, then waits until ready |
| Devices.WM.OpenDoor | Code/automatedsampler.py:80-84 | sends "WS 4", returns its reply, then waits until ready |
| Devices.WM.CloseDoor | Code/automatedsampler.py:86-90 | sends "WS 0", returns its reply, then waits until ready |
| Devices.WM.Tare | Code/automatedsampler.py:92-95 | sends "T", returns its reply, then waits until ready |
| Devices.WM.Zero | Code/automatedsampler.py:97-100 | sends "ZI", returns its reply, then waits until ready |
| Devices.WM.GetWeight | Code/automatedsampler.py:102-111 | sends "S" until a reply parses as a number, which is returned; every earlier reply was "I"; any other unparsable reply raises RuntimeError |
| Devices.WM.A10Set | Code/automatedsampler.py:113-121 | sends `A10 no value unit` once; succeeds with the reply exactly when it starts with "A10 A", and raises RuntimeError otherwise |
| Devices.WM.SetTargetWeight | Code/automatedsampler.py:123-125 | the A10 write to register 0 |
| Devices.WM.SetToleranceUpper | Code/automatedsampler.py:127-129 | the A10 write to register 1 |
| Devices.WM.SetToleranceLower | Code/automatedsampler.py:131-133 | the A10 write to register 2 |
| Sampler.ExecTolerance | Code/automatedsampler.py:196-206 | the percentage comes from `tol_pct`, else from the nested `tolerance.pct`, when it is not null; otherwise upper, lower and unit come from the top-level `tol_*` keys, else the nested fields, else 0.0, 0.0 and "mg"; a `tolerance` that is not an object raises AttributeError |
| Sampler.SlotOf | Code/automatedsampler.py:165-166 | a vial's slot is int() of its "slot", or its 1-based position when it has none; a vial that is not an object raises AttributeError |
| Sampler.TolerancePlan | Code/automatedsampler.py:195-210 | specification of the tolerance step: the AttributeError of a nested tolerance that is not an object, float() of the percentage or of both limits (each can raise), then the upper and the lower limit, with unit "%" for a percentage |
| Sampler.PowderPlan | Code/automatedsampler.py:214-231 | specification of one powder: fetch it, tare, wait for the operator, return it |
| Sampler.DosingPlan | Code/automatedsampler.py:193-231 | specification of a material once its target is known: the target in mg, then the tolerances, then the powder, stopping where the tolerances raise |
| Sampler.MaterialPlan | Code/automatedsampler.py:187-231 | specification of one material: `mat["name"]` (TypeError or KeyError), a missing `target_mg` (ValueError), float() of the target, then DosingPlan |
| Sampler.MaterialsPlan | Code/automatedsampler.py:186-231 | specification of a vial's materials: the first n MaterialPlans in order, stopping at the first that raises |
| Sampler.PlacementPlan | Code/automatedsampler.py:168-183 | specification of placing a vial: close doors, zero, open doors, run the slot's retrieve program, close doors |
| Sampler.ReturnPlan | Code/automatedsampler.py:233-237 | specification of returning a vial: open doors, run the slot's return program |
| Sampler.VialMaterials | Code/automatedsampler.py:186 | specification of a vial's material loop over `vial.get("materials", [])`: MaterialsPlan of its items, or the error of iterating a value that is not a list |
| Sampler.VialPlan | Code/automatedsampler.py:165-237 | specification of one vial: its slot (which can raise), then placement, the materials and the return, stopping where the materials raise |
| Sampler.VialsPlan | Code/automatedsampler.py:165-239 | specification of the vial loop: the first n VialPlans in order, numbered from 1, stopping at the first that raises |
| Sampler.ExecutionPlan | Code/automatedsampler.py:164-239 | specification of everything between connect and disconnect: VialsPlan of the recipe's vials, or the error of iterating vials that are not a list |
| Sampler.AutomatedSampler.constructor | Code/automatedsampler.py:147-155 | keeps the robot and balance, and starts with an empty vial list |
| Sampler.AutomatedSampler.LoadRecipe | Code/automatedsampler.py:157-159 | the vials become the recipe's "vials", or an empty list when absent; a recipe that is not an object raises AttributeError and keeps the old vials |
| Sampler.AutomatedSampler.SetTolerances | Code/automatedsampler.py:196-210 | performs TolerancePlan: a percentage is written as both limits with unit "%", else the two absolute limits with their unit, each value converted before either is written |
| Sampler.AutomatedSampler.HandlePowder | Code/automatedsampler.py:214-231 | in order: fetch the powder, tare, wait for the operator, return the powder |
| Sampler.AutomatedSampler.DispenseMaterial | Code/automatedsampler.py:187-231 | performs MaterialPlan: a material without "name" raises before any command, then a missing `target_mg` raises ValueError and an unconvertible one raises from float(), both before any command; otherwise the dosing follows |
| Sampler.AutomatedSampler.Dose | Code/automatedsampler.py:193-231 | performs DosingPlan: the target in mg, the tolerances, then the powder handling, stopping at the first device that raises |
| Sampler.AutomatedSampler.PlaceVial | Code/automatedsampler.py:168-183 | close doors, zero, open doors, retrieve the vial from its slot, close doors |
| Sampler.AutomatedSampler.ReturnVialTo | Code/automatedsampler.py:233-237 | open doors, return the vial to its slot |
| Sampler.AutomatedSampler.DispenseMaterials | Code/automatedsampler.py:186-231 | performs the materials' plans in sequence, up to the first that raises; with MaterialPlan as the plan of one material this is MaterialsPlan (Sampler.SequenceMaterials) |
| Sampler.AutomatedSampler.ProcessVial | Code/automatedsampler.py:165-239 | performs VialPlan: a slot that cannot be read raises before any command; otherwise the placement, then the materials and the return |
| Sampler.AutomatedSampler.Attend | Code/automatedsampler.py:186-237 | performs the placed vial's materials, then its return to the same slot; "materials" that cannot be iterated raise TypeError at once, and a material that raises leaves the vial on the balance |
| Sampler.AutomatedSampler.ProcessVials | Code/automatedsampler.py:165-239 | performs the vials' plans in order, numbered from 1, up to the first that raises; with VialPlan as the plan of one vial this is VialsPlan (Sampler.NumberedVials) |
| Sampler.SequenceMaterials | Code/automatedsampler.py:186-231 | the materials performed one after another, each by its MaterialPlan, are MaterialsPlan: every material in order, up to the first that raises |
| Sampler.NumberedVials | Code/automatedsampler.py:165-239 | the vials performed one after another, the i-th by its VialPlan at position i, are VialsPlan: every vial in order, up to the first that raises |
| Sampler.AutomatedSampler.Execute | Code/automatedsampler.py:161-241 | connects first: a failed connect raises and does nothing more; otherwise it performs a prefix of ExecutionPlan that ends only where the plan or a device raises, then always disconnects |
| SamplerSafety.ToleranceDiscipline | Code/automatedsampler.py:196-210 | setting the tolerances is safe while a vial is placed with no powder out, and changes nothing at the bench |
| SamplerSafety.PowderDiscipline | Code/automatedsampler.py:214-231 | fetching, taring, dispensing and returning a powder over a placed vial is safe and puts the powder back |
| SamplerSafety.MaterialDiscipline | Code/automatedsampler.py:186-231 | a material, however far its recipe entry gets, leaves the bench as it found it |
| SamplerSafety.MaterialsDiscipline | Code/automatedsampler.py:186-231 | the same for all the materials of a vial |
| SamplerSafety.PlacementDiscipline | Code/automatedsampler.py:168-183 | from an idle bench, zeroing happens behind closed doors with the pan empty, and the vial enters through open doors and ends placed behind closed doors |
| SamplerSafety.ReturnDiscipline | Code/automatedsampler.py:233-237 | the vial leaves through open doors to the slot it came from, leaving the bench idle |
| SamplerSafety.VialDiscipline | Code/automatedsampler.py:165-239 | every command for one vial is safe and no powder is left out; when the recipe raises nothing, the bench ends idle |
| SamplerSafety.VialsDiscipline | Code/automatedsampler.py:165-239 | the same for all the vials in order |
| SamplerSafety.ExecutionDiscipline | Code/automatedsampler.py:161-241 | for any recipe and any door state, every command of the whole plan is safe, and at its end no powder is out; the last vial is back in its slot unless the recipe raised |
| SamplerSafety.WalkPrefix | Code/automatedsampler.py:164-241 | every prefix of a safe command sequence is safe, so a run cut short made only safe calls |
| SamplerSafety.WalkLast | Code/automatedsampler.py:193-231 | after the operator's dispensing a vial is placed and its powder out; after a register write a vial is placed and no powder out |
| SamplerSafety.MaterialRaises | Code/automatedsampler.py:187-231 | one material raises only the recipe's own exceptions (from the name, the target or the tolerances), never RuntimeError or EOFError |
| SamplerSafety.MaterialsRaise | Code/automatedsampler.py:186-231 | the materials raise only the recipe's own exceptions, never RuntimeError or EOFError |
| SamplerSafety.VialRaises | Code/automatedsampler.py:165-237 | one vial raises only the recipe's own exceptions (from its slot or its materials), never RuntimeError or EOFError |
| SamplerSafety.VialsRaise | Code/automatedsampler.py:165-239 | the vials raise only the recipe's own exceptions, never RuntimeError or EOFError |
| SamplerSafety.RunDiscipline | Code/automatedsampler.py:161-241 | any run of execute, however far it got (the calls ExecutionPlan has up to where it stopped): every call made was safe; a powder is left out exactly when the run ended with EOFError, which can only come from the operator's prompt; a run ended by a device (RuntimeError or EOFError) leaves a vial on the balance; a run that returned leaves the last vial in its slot |
| RecipeCheck.MaterialHasPct | Code/steamlit_sampler.py:13-15 | true exactly when `tol_pct` or a nested `tolerance.pct` is present; a nested value that is not a container raises TypeError |
| RecipeCheck.MaterialHasAbs | Code/steamlit_sampler.py:17-22 | true exactly when both limits are present at the top level or both in the nested tolerance |
| RecipeCheck.NameIssues | Code/steamlit_sampler.py:49-51 | specification of the name check: one issue when `name` is missing, falsy or not a string |
| RecipeCheck.TargetIssues | Code/steamlit_sampler.py:53-59 | specification of the target check: one issue when `target_mg` is missing, another when float() of it fails |
| RecipeCheck.PctIssues | Code/steamlit_sampler.py:69-74 | specification of the percentage check: one issue when float() of `tol_pct`, else the nested `pct`, fails; a nested tolerance that is not an object raises |
| RecipeCheck.AbsIssues | Code/steamlit_sampler.py:75-88 | specification of the absolute check: one issue when a limit is missing or null, else one when either is not numeric; one more when the unit, by default "mg", is not a string |
| RecipeCheck.ToleranceIssues | Code/steamlit_sampler.py:61-88 | specification of the tolerance checks: one issue when neither form is given, else the checks of the forms given, percentage first |
| RecipeCheck.MaterialIssues | Code/steamlit_sampler.py:43-88 | specification of one material's checks: one issue for a material that is not an object, else the name, target and tolerance issues in that order |
| RecipeCheck.MaterialsIssues | Code/steamlit_sampler.py:43-88 | specification of a vial's material loop: the issues of each material in order, numbered from 1, stopping at an exception |
| RecipeCheck.VialIssues | Code/steamlit_sampler.py:30-88 | specification of one vial's checks: one issue for a vial that is not an object or lacks a non-empty materials list, else the slot issue and its materials' issues |
| RecipeCheck.VialsIssues | Code/steamlit_sampler.py:30-88 | specification of the vial loop: the issues of each vial in order, numbered from 1, stopping at an exception |
| RecipeCheck.RecipeIssues | Code/steamlit_sampler.py:24-90 | specification of validate_recipe's errors: only the vials error for a missing, non-list or empty "vials", else the issues of every vial |
| RecipeCheck.CheckMaterials | Code/steamlit_sampler.py:43-88 | the materials loop reports exactly what MaterialsIssues lists |
| RecipeCheck.CheckVials | Code/steamlit_sampler.py:30-88 | the vials loop reports exactly what VialsIssues lists |
| RecipeCheck.ValidateRecipe | Code/steamlit_sampler.py:24-90 | the errors are RecipeIssues, in order; the flag is true exactly when the error list is empty; an exception in the checks escapes |
| RecipeCheck.ToleranceIssuesKinds | Code/steamlit_sampler.py:61-88 | the tolerance checks report only tolerance issues, and report a missing tolerance exactly when neither form is given |
| RecipeCheck.MaterialReported | Code/steamlit_sampler.py:49-67 | a name that is not a non-empty string, a missing `target_mg`, a non-numeric one, and the absence of both tolerance forms are each reported exactly when they hold |
| RecipeCheck.SlotReported | Code/steamlit_sampler.py:39-41 | a vial with materials is reported for its slot exactly when a slot is given that is not an integer |
| RecipeCheck.BadVialReported | Code/steamlit_sampler.py:30-33 | a vial that is not an object is reported with its position, and the vials after it are still checked |
| RecipeCheck.MissingVialsOnlyError | Code/steamlit_sampler.py:26-28 | a missing, non-list or empty "vials" is the only error reported |
| RecipeCheck.MaterialRow | Code/steamlit_sampler.py:98-111 | a material's row carries the vial's slot, its name and target as given; the percentage form exactly when `_material_has_pct` holds, with `tol_pct`, else the nested `pct`, else null; otherwise the limits and unit from the top-level keys, else the nested ones, else 0.0, 0.0 and "mg" |
| RecipeCheck.MaterialRows | Code/steamlit_sampler.py:97-111 | one row per material, in order, all with the vial's slot |
| RecipeCheck.VialRows | Code/steamlit_sampler.py:95-111 | every row of a vial carries its "slot", by default its 1-based position |
| RecipeCheck.VialsRows | Code/steamlit_sampler.py:95-111 | specification of the summary's vial loop: the rows of each vial in order, numbered from 1 |
| RecipeCheck.Summary | Code/steamlit_sampler.py:93-112 | specification of summarize_recipe: the rows of `data.get("vials", [])`, raising where the source would |
| RecipeCheck.SummarizeVial | Code/steamlit_sampler.py:95-111 | the rows of one vial are exactly VialRows |
| RecipeCheck.SummarizeRecipe | Code/steamlit_sampler.py:93-112 | the rows are exactly Summary, one per material in traversal order |
| RecipeCheck.ValidMaterialRuns | Code/steamlit_sampler.py:43-88 | a material with no issues raises nothing in execute, and its summary row shows the tolerance execute writes |
| RecipeCheck.ValidMaterialsRun | Code/steamlit_sampler.py:43-88 | materials with no issues run through execute without raising and can be summarised |
| RecipeCheck.ValidVialRuns | Code/steamlit_sampler.py:30-88 | a vial with no issues runs through execute without raising and can be summarised |
| RecipeCheck.ValidVialsRun | Code/steamlit_sampler.py:30-88 | vials with no issues run through execute without raising and can be summarised |
| RecipeCheck.ValidatedRecipeRuns | Code/steamlit_sampler.py:24-90 | a recipe the validator accepts has vials, runs through execute without the recipe raising, and can be summarised |
| RecipeCheck.SummaryMayDifferFromExecution | Code/steamlit_sampler.py:101-104 | `{"tol_pct": null}` is summarised as a percentage while execute sets absolute limits |

## Left out

- Cryptography: the session id decryption is a function the session receives. CryptographyHelper.cs is not part of this model.
- Logging and console output (`Logger`, `print`): they have no effect on requests or state. `Logger.Finish` is represented only by the sample's `finished` flag.
- All sleeps (`Thread.Sleep`, `time.sleep`): timing is not modelled.
- The transport: WCF clients and endpoint configuration, DNS lookups, the serial port settings, the dashboard socket and `input()`. Each device is represented by the replies it gives, in order.
- `WM.close`: it only closes the serial port.
- JSON text: `json.loads` is not modelled, so `load_recipe` takes the parsed value.
- Number text: `float()` and `int()` of a string are parameters (`Conversions`). The `:g` formatting of A10 values is not modelled, so an A10 command carries the number itself. NaN and infinities are not represented.
- `str.strip` and `str.lower` are modelled over ASCII only: `IsSpace` is the ASCII part of `str.isspace()`, including `\x1c` to `\x1f`. Non-ASCII whitespace (such as `\x85` and `\xa0`) and Unicode case folding are left out.
- PyJson.FloatOf: floats are exact reals, so rounding to the nearest double is not modelled. Its overflow is modelled: an integer of magnitude 2^1024 - 2^970 or more raises OverflowError.
- The texts of messages, exceptions and tolerance descriptions: errors are datatype values with their positions.
- The weighing-service part of `WeighingService.cs` beyond `Zero`: the other services are used only by other samples.
- The Streamlit page and the `__main__` demo script: they are user interface and demonstration code.
- Sampler.AutomatedSampler.constructor: the `hasattr` checks on the balance are not modelled. The balance is a `WM`, which has every method. Instead the constructor requires that robot and balance share one bench, so that one log orders their calls.
- Sampler.AutomatedSampler.Execute: states the log of device calls, not the raw serial and dashboard traffic. The per-device methods state that traffic.
- DosingAutomation.StartJobList: the per-job validation errors of a failed response are only logged, so they are not modelled.
- Devices.WM.SendCommand: the ASCII encoding of the command and decoding of the reply are not modelled. In the source a non-ASCII command raises before anything is written, and a reply with a non-ASCII byte raises after it is read. In the model every command is written and every reply read.
- Devices.WM.A10Set: a non-ASCII unit from the recipe raises in the source before the write; the model writes the command.
- The device scripts are finite. Past their end a serial read gives "" (the port's read timeout), the robot's `running()` gives false, and console input ends (EOFError). So `wait_ready`, `get_weight`, the polling in `run_program` and `wait_for_continue` always end in the model, where in the source each can loop forever.
- Exceptions from the remote service itself (faults, timeouts) are not modelled: every request gets its scripted answer.
