/** The balance's web service as the C# sample clients see it: the request
    and response types they use, and the remote balance itself, modelled as a
    scripted source of responses plus an append-only trace of the requests it
    has received. Every service client of the sample (session, weighing,
    weighing task, dosing automation, notification) talks to the same balance,
    so one trace records the order of all their requests. */
module WebService {

  /** The closed status set every service response carries. */
  datatype Outcome = Success | Error | Canceled | Timeout

  /** The dosing job action types the balance can ask the client to carry out.
      The C# enum can hold any integer, so a value outside the four named ones
      is represented by its code. */
  datatype ActionType =
    | PlaceDosingHead
    | RemoveDosingHead
    | PlaceVial
    | RemoveVial
    | OtherAction(code: int)

  /** The asynchronous notifications a poll returns. Kinds this client does
      not recognise are represented by OtherNotification. */
  datatype Notification =
    | DosingAction(actionType: ActionType, actionItem: string)
    | JobFinished(outcome: Outcome)
    | AutomationFinished(failureReason: string)
    | OtherNotification

  datatype WeightUnit = Milligram | Gram
  datatype WeightWithUnit = WeightWithUnit(value: real, unit: WeightUnit)

  datatype DosingJob = DosingJob(substanceName: string, vialName: string, targetWeight: WeightWithUnit)

  datatype MethodType = AutomatedDosing | OtherMethodType(code: int)
  datatype MethodDescription = MethodDescription(name: string, methodType: MethodType)

  datatype CancelType = All

  /** Every request a sample client can send. */
  datatype Request =
    | OpenSession
    | Cancel(sessionId: string, cancelType: CancelType)
    | CloseSession(sessionId: string)
    | Zero(sessionId: string)
    | GetListOfMethods(sessionId: string)
    | StartTask(sessionId: string, methodName: string)
    | StartExecuteDosingJobList(sessionId: string, jobs: seq<DosingJob>)
    | GetNotifications(sessionId: string, timeoutMs: int)
    | ConfirmDosingJobAction(sessionId: string, actionType: ActionType, actionItem: string)

  /** The session id carried by a request (OpenSession carries none). */
  function SessionOf(r: Request): Option<string>
  {
    match r
    case OpenSession => None
    case Cancel(s, _) => Some(s)
    case CloseSession(s) => Some(s)
    case Zero(s) => Some(s)
    case GetListOfMethods(s) => Some(s)
    case StartTask(s, _) => Some(s)
    case StartExecuteDosingJobList(s, _) => Some(s)
    case GetNotifications(s, _) => Some(s)
    case ConfirmDosingJobAction(s, _, _) => Some(s)
  }

  datatype Option<T> = None | Some(value: T)

  /** The reply to OpenSession: the encrypted session id and the salt, both
      base64 text. */
  datatype OpenSessionReply = OpenSessionReply(encryptedSessionId: string, salt: string)

  /** What the balance answers, fixed for one run of a sample. Polls are
      answered from `batches` in order; once the script is used up a poll
      returns an empty batch, as a poll whose timeout expires does. */
  datatype Script = Script(
    openSession: OpenSessionReply,
    zero: Outcome,
    methods: seq<MethodDescription>,
    startTask: Outcome,
    startJobList: Outcome,
    batches: seq<seq<Notification>>)

  function BatchAt(batches: seq<seq<Notification>>, k: nat): seq<Notification>
  {
    if k < |batches| then batches[k] else []
  }

  /** The remote balance. */
  class Balance {
    const script: Script
    var trace: seq<Request>   // every request received, oldest first
    var polls: nat            // notification polls answered so far

    constructor (script: Script)
      ensures this.script == script && trace == [] && polls == 0
    {
      this.script := script;
      trace := [];
      polls := 0;
    }

    method OpenSession() returns (reply: OpenSessionReply)
      modifies this
      ensures trace == old(trace) + [Request.OpenSession] && polls == old(polls)
      ensures reply == script.openSession
    {
      trace := trace + [Request.OpenSession];
      reply := script.openSession;
    }

    method Cancel(sessionId: string, cancelType: CancelType)
      modifies this
      ensures trace == old(trace) + [Request.Cancel(sessionId, cancelType)] && polls == old(polls)
    {
      trace := trace + [Request.Cancel(sessionId, cancelType)];
    }

    method CloseSession(sessionId: string)
      modifies this
      ensures trace == old(trace) + [Request.CloseSession(sessionId)] && polls == old(polls)
    {
      trace := trace + [Request.CloseSession(sessionId)];
    }

    method Zero(sessionId: string) returns (outcome: Outcome)
      modifies this
      ensures trace == old(trace) + [Request.Zero(sessionId)] && polls == old(polls)
      ensures outcome == script.zero
    {
      trace := trace + [Request.Zero(sessionId)];
      outcome := script.zero;
    }

    method StartExecuteDosingJobList(sessionId: string, jobs: seq<DosingJob>) returns (outcome: Outcome)
      modifies this
      ensures trace == old(trace) + [Request.StartExecuteDosingJobList(sessionId, jobs)] && polls == old(polls)
      ensures outcome == script.startJobList
    {
      trace := trace + [Request.StartExecuteDosingJobList(sessionId, jobs)];
      outcome := script.startJobList;
    }

    method GetNotifications(sessionId: string, timeoutMs: int) returns (batch: seq<Notification>)
      modifies this
      ensures trace == old(trace) + [Request.GetNotifications(sessionId, timeoutMs)]
      ensures batch == BatchAt(script.batches, old(polls)) && polls == old(polls) + 1
    {
      trace := trace + [Request.GetNotifications(sessionId, timeoutMs)];
      batch := BatchAt(script.batches, polls);
      polls := polls + 1;
    }

    method ConfirmDosingJobAction(sessionId: string, actionType: ActionType, actionItem: string)
      modifies this
      ensures trace == old(trace) + [Request.ConfirmDosingJobAction(sessionId, actionType, actionItem)]
      ensures polls == old(polls)
    {
      trace := trace + [Request.ConfirmDosingJobAction(sessionId, actionType, actionItem)];
    }

    /** Receives requests whose responses a pure client function has already
        taken from the script (GetListOfMethods and StartTask). */
    method Receive(requests: seq<Request>)
      modifies this
      ensures trace == old(trace) + requests && polls == old(polls)
    {
      trace := trace + requests;
    }
  }
}
