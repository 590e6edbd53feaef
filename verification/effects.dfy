/** The side effects one invocation can have, in the order it has them: calls
    to the policy agent running in a GUI domain, and the execution of the
    approved call. */
module Effects {

  const AskMethod: string := "policy.Ask"
  const NotifyMethod: string := "policy.Notify"
  /** Agent calls are always made on behalf of the administrative domain. */
  const AgentCaller: string := "dom0"

  /** The wire payloads of the two agent calls, field for field. */
  datatype Payload =
    | Notification(resolution: string, service: string, source: string, target: string)
    | Question(source: string, service: string, targets: seq<string>, defaultTarget: string,
               icons: map<string, string>)

  datatype Effect =
    | AgentCall(domain: string, rpc: string, caller: string, payload: Payload)
    | Execute(descriptor: string)

  predicate IsQuestion(e: Effect) { e.AgentCall? && e.payload.Question? }

  predicate IsNotification(e: Effect) { e.AgentCall? && e.payload.Notification? }

  /** Position of an effect in the protocol: confirmation, then notification,
      then execution. */
  function Stage(e: Effect): nat
  {
    match e
    case AgentCall(_, _, _, Question(_, _, _, _, _)) => 0
    case AgentCall(_, _, _, Notification(_, _, _, _)) => 1
    case Execute(_) => 2
  }

  /** Each kind of effect happens at most once, and in protocol order. */
  predicate InProtocolOrder(trace: seq<Effect>)
  {
    forall i, j :: 0 <= i < j < |trace| ==> Stage(trace[i]) < Stage(trace[j])
  }

  /** An agent call uses the service name that matches its payload and comes from
      the administrative domain. */
  predicate WellFormedCall(e: Effect)
  {
    e.AgentCall? ==>
      && e.caller == AgentCaller
      && (e.rpc == AskMethod <==> e.payload.Question?)
      && (e.rpc == NotifyMethod <==> e.payload.Notification?)
  }
}
