/** The two message envelopes exchanged over the WebSocket and their closed
    vocabularies of identifiers. */
module Messages {
  import opened Options
  import opened Domain

  /** Request identifiers: select program, read/write/save configuration,
      read/write/save programs, start and stop. */
  datatype RequestId = setPG | cfgRD | cfgWR | cfgSV | pgmRD | pgmWR | pgmSV | start | stop

  /** The `msg` field of a request: a configuration, a program list or a string. */
  datatype Payload =
    | ConfigPayload(config: Configuration)
    | ProgramsPayload(programs: seq<Program>)
    | TextPayload(text: string)

  datatype Request = Request(id: RequestId, msg: Option<Payload>)

  /** Which payload each request identifier carries: a configuration for
      cfgWR, a program list for pgmWR, a program name for setPG and nothing
      for the other six. */
  predicate WellFormed(req: Request) {
    match req.id
    case cfgWR => req.msg.Some? && req.msg.value.ConfigPayload?
    case pgmWR => req.msg.Some? && req.msg.value.ProgramsPayload?
    case setPG => req.msg.Some? && req.msg.value.TextPayload?
    case _ => req.msg.None?
  }

  /** Response identifiers. A decoded message may carry an identifier outside
      the vocabulary; it is kept as `Unknown`. */
  datatype ResponseId = OK | ERR | STS | Unknown(text: string)

  /** A decoded response; every field may be absent. */
  datatype Response = Response(
    id: Option<ResponseId>,
    details: Option<string>,
    config: Option<Configuration>,
    status: Option<Status>,
    programs: Option<seq<Program>>)
}
