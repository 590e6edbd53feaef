/** The request built from the five positional arguments, and the two
    strings derived from it that leave the process: the bare service name
    shown to the user and the caller identification handed to execution. */
module Requests {
  import opened Text

  /** One service call request, in positional-argument order. */
  datatype Request = Request(
    sourceId: string,
    sourceDomain: string,
    targetDomain: string,
    service: string,
    processIdent: string)

  /** The service name without its `+argument` suffix. */
  function ServiceName(service: string): (name: string)
    ensures name <= service
    ensures '+' !in name
    ensures name == service || service[|name|] == '+'
  {
    Split(service, '+')[0]
  }

  /** `name+argument` is cut back to `name`, and a service without an
      argument is left alone. */
  lemma ServiceNameOfArgument(name: string, argument: string)
    requires '+' !in name
    ensures ServiceName(name + "+" + argument) == name
    ensures ServiceName(name) == name
  {
    TakeUntilStops(name, '+', argument);
  }

  /** The comma-joined `process_ident,source_domain,source_id` descriptor
      handed to execution. */
  function CallerIdent(r: Request): (ident: string)
    ensures ident == r.processIdent + "," + r.sourceDomain + "," + r.sourceId
  {
    JoinThree(r.processIdent, r.sourceDomain, r.sourceId, ',');
    Join([r.processIdent, r.sourceDomain, r.sourceId], ',')
  }

  /** When none of the three fields holds a comma, the descriptor can be
      cut back into exactly those three fields, in that order. */
  lemma CallerIdentFields(r: Request)
    requires ',' !in r.processIdent && ',' !in r.sourceDomain && ',' !in r.sourceId
    ensures Split(CallerIdent(r), ',') == [r.processIdent, r.sourceDomain, r.sourceId]
  {
    SplitJoin([r.processIdent, r.sourceDomain, r.sourceId], ',');
  }
}
