/** Starting the balance's automated dosing method: list the methods defined
    on the terminal, take the first one of type AutomatedDosing and start it
    as a task. The client keeps no state, so this is a function of the two
    responses it receives (the method list and the StartTask outcome) giving
    the requests it sends and its verdict. */
module Weighing {
  import opened WebService

  /** Position of the first method of type AutomatedDosing, as LINQ's
      FirstOrDefault finds it; None when there is none. */
  function FirstAutomatedDosing(methods: seq<MethodDescription>): (r: Option<nat>)
    ensures r.Some? ==> r.value < |methods| && methods[r.value].methodType == AutomatedDosing
    ensures r.Some? ==> forall j :: 0 <= j < r.value ==> methods[j].methodType != AutomatedDosing
    ensures r.None? <==> forall j :: 0 <= j < |methods| ==> methods[j].methodType != AutomatedDosing
  {
    if methods == [] then None
    else if methods[0].methodType == AutomatedDosing then Some(0)
    else match FirstAutomatedDosing(methods[1..])
      case None => None
      case Some(k) => Some(k + 1)
  }

  datatype TaskStart = TaskStart(requests: seq<Request>, started: bool)

  /** TryStartAutomatedDosingMethod: the requests it sends, given the method
      list the balance returns and the outcome StartTask would report. One
      GetListOfMethods comes first; a StartTask follows exactly when some
      method has type AutomatedDosing, and names the first such method. */
  function TryStartAutomatedDosingMethod(sessionId: string, methods: seq<MethodDescription>,
                                         startOutcome: Outcome): (r: TaskStart)
    ensures 1 <= |r.requests| <= 2 && r.requests[0] == GetListOfMethods(sessionId)
    ensures (exists j :: 0 <= j < |methods| && methods[j].methodType == AutomatedDosing)
            <==> |r.requests| == 2
    ensures forall k :: 1 <= k < |r.requests| ==>
              exists j :: 0 <= j < |methods| && methods[j].methodType == AutomatedDosing
                && r.requests[k] == StartTask(sessionId, methods[j].name)
                && forall i :: 0 <= i < j ==> methods[i].methodType != AutomatedDosing
    ensures r.started <==> |r.requests| == 2 && startOutcome == Success
  {
    var list := GetListOfMethods(sessionId);
    match FirstAutomatedDosing(methods)
    case None => TaskStart([list], false)
    case Some(j) =>
      TaskStart([list, StartTask(sessionId, methods[j].name)], startOutcome == Success)
  }
}
