/** Session events as the evaluation reads them: the envelope's ids and the payloads that matter. */
module SessionEvents {
  import opened Wrappers

  datatype TokenUsage = TokenUsage(
    prompt: int,
    completion: int,
    reasoning: int,
    total: int,
    cacheHit: int,
    cacheMiss: int,
    cacheRead: int,
    cacheCreation: int)

  datatype CallResult = CallResult(
    callTurnId: string,
    status: string,
    agentId: string,
    usage: TokenUsage,
    requests: seq<TokenUsage>)

  datatype Payload =
    | FlowSession(id: string, status: string)
    | TeamSession(id: string, status: string)
    | AgentSession(id: string, status: string, teamSessionId: string, callId: string, agentId: string)
    | FlowTurn(id: string, status: string, turnAttempt: int)
    | TeamTurn(turn: Option<(string, string)>, result: Option<(string, string)>)
    | CallStarted(call: Option<string>)
    | CallCompleted(outcome: Option<CallResult>)
    | CallWaiting(outcome: Option<CallResult>)
    | Other

  datatype Event = Event(
    seqNo: int,
    flowSessionId: string,
    flowTurnId: string,
    teamSessionId: string,
    teamTurnId: string,
    callTurnId: string,
    teamId: string,
    callId: string,
    attempt: int,
    payload: Payload)
}
