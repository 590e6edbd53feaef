/** The resolution engine: from a request, its policy classification, the
    domain table, the two command-line flags and the agent's behaviour, the
    final decision, the exit status and the ordered trace of side effects. */
module Engine {
  import opened Wrappers
  import opened Policy
  import opened Requests
  import opened SystemInfo
  import opened Effects

  /** `--just-evaluate` and `--assume-yes-for-ask`. */
  datatype Mode = Mode(justEvaluate: bool, assumeYesForAsk: bool)

  /** What the agent does when called: answers with a string, or the call
      fails. The same behaviour applies to every call of one invocation. */
  datatype AgentBehaviour = Replies(reply: string) | Fails

  datatype DenyReason =
    | ByPolicy       // the policy said deny
    | NoGuiVm        // an ask, but nobody can show the dialog
    | NotConfirmed   // an ask under --just-evaluate without --assume-yes-for-ask
    | NoCandidate    // --assume-yes-for-ask, but the ask names no target at all
    | ByUser         // the agent's answer, or its failure, selects no offered target

  /** The final, single outcome of one request. */
  datatype Resolution = Allowed(target: string) | Denied(reason: DenyReason)

  datatype Outcome = Outcome(exitCode: int, trace: seq<Effect>)

  function ExitStatus(r: Resolution): int
  {
    if r.Allowed? then 0 else 1
  }

  /** The target an ask is resolved to under `--assume-yes-for-ask`: the
      default target, else the first offered one. */
  function AssumedTarget(targets: seq<string>, default: Option<string>): Option<string>
  {
    if default.Some? then default
    else if |targets| > 0 then Some(targets[0])
    else None
  }

  /** The authorization decision. An allow and a deny are final as
      classified; an ask needs a GUI domain, and then either the dry-run
      flags or the agent's answer settle it. */
  function Decide(c: Classification, guivm: Option<string>, mode: Mode, agent: AgentBehaviour): (r: Resolution)
    ensures c.Allow? ==> r == Allowed(c.target)
    ensures c.Deny? ==> r == Denied(ByPolicy)
    // Without a GUI domain an ask is refused; chosen: also under
    // --just-evaluate.
    ensures c.Ask? && guivm.None? ==> r == Denied(NoGuiVm)
    // A live ask answered with an offered target goes to that target; one
    // answered with the empty string is refused. Chosen: these hold whatever
    // --assume-yes-for-ask says, since a live run always asks.
    ensures (c.Ask? && guivm.Some? && !mode.justEvaluate && agent.Replies? && agent.reply != ""
             && agent.reply in c.targetsForAsk) ==> r == Allowed(agent.reply)
    ensures c.Ask? && guivm.Some? && !mode.justEvaluate && agent == Replies("") ==> r == Denied(ByUser)
    // Chosen: any other answer, and a failed call, is a refusal too.
    ensures (c.Ask? && !mode.justEvaluate && !(agent.Replies? && agent.reply != "" && agent.reply in c.targetsForAsk))
            ==> r.Denied?
    // Under --just-evaluate an ask is refused unless it may assume yes; with
    // --assume-yes-for-ask and offered targets it is allowed.
    ensures c.Ask? && mode.justEvaluate && !mode.assumeYesForAsk ==> r.Denied?
    ensures c.Ask? && guivm.Some? && mode.justEvaluate && mode.assumeYesForAsk && |c.targetsForAsk| > 0 ==> r.Allowed?
    // Chosen: it is allowed to the default target if there is one, else to
    // the first offered target, and with neither it is refused.
    ensures c.Ask? && guivm.Some? && mode.justEvaluate && mode.assumeYesForAsk ==>
      r == (if c.defaultTarget.Some? then Allowed(c.defaultTarget.value)
            else if |c.targetsForAsk| > 0 then Allowed(c.targetsForAsk[0])
            else Denied(NoCandidate))
  {
    match c
    case Allow(target, _) => Allowed(target)
    case Deny(_) => Denied(ByPolicy)
    case Ask(targets, default, _) =>
      if guivm.None? then Denied(NoGuiVm)
      else if mode.justEvaluate then
        if !mode.assumeYesForAsk then Denied(NotConfirmed)
        else match AssumedTarget(targets, default)
          case Some(t) => Allowed(t)
          case None => Denied(NoCandidate)
      else match agent
        case Replies(reply) =>
          if reply != "" && reply in targets then Allowed(reply) else Denied(ByUser)
        case Fails => Denied(ByUser)
  }

  /** The confirmation request sent to the source's GUI domain. */
  function QuestionCall(guivm: string, req: Request, targets: seq<string>, default: Option<string>,
                        domains: DomainTable): (e: Effect)
    ensures IsQuestion(e) && WellFormedCall(e) && e.domain == guivm
    ensures e.payload.source == req.sourceDomain && e.payload.service == ServiceName(req.service)
    ensures e.payload.targets == targets
    ensures default.Some? ==> e.payload.defaultTarget == default.value
    ensures default.None? ==> e.payload.defaultTarget == ""
    ensures e.payload.icons == Icons(domains)
  {
    AgentCall(guivm, AskMethod, AgentCaller,
              Question(req.sourceDomain, ServiceName(req.service), targets, ValueOr(default, ""), Icons(domains)))
  }

  /** The notification of the final decision: an allow names the target the
      call goes to, a deny the target the caller asked for. */
  function NotificationCall(guivm: string, req: Request, r: Resolution): (e: Effect)
    ensures IsNotification(e) && WellFormedCall(e) && e.domain == guivm
    ensures e.payload.resolution == "allow" <==> r.Allowed?
    ensures e.payload.resolution == "deny" <==> r.Denied?
    ensures e.payload.source == req.sourceDomain && e.payload.service == ServiceName(req.service)
    ensures r.Allowed? ==> e.payload.target == r.target
    ensures r.Denied? ==> e.payload.target == req.targetDomain
  {
    AgentCall(guivm, NotifyMethod, AgentCaller,
              Notification(if r.Allowed? then "allow" else "deny", ServiceName(req.service), req.sourceDomain,
                           if r.Allowed? then r.target else req.targetDomain))
  }

  /** The side effects of a live (not just-evaluating) invocation. */
  function LiveTrace(req: Request, c: Classification, domains: DomainTable, r: Resolution): seq<Effect>
  {
    var guivm := GuiVmOf(domains, req.sourceDomain);
    var asked := if c.Ask? && guivm.Some? then [QuestionCall(guivm.value, req, c.targetsForAsk, c.defaultTarget, domains)] else [];
    var notified := if c.notify && guivm.Some? then [NotificationCall(guivm.value, req, r)] else [];
    var executed := if r.Allowed? then [Execute(CallerIdent(req))] else [];
    asked + notified + executed
  }

  /** What a live trace is made of. */
  lemma LiveTraceMembers(req: Request, c: Classification, domains: DomainTable, r: Resolution)
    ensures var guivm := GuiVmOf(domains, req.sourceDomain);
      forall e :: e in LiveTrace(req, c, domains, r) <==>
        || (c.Ask? && guivm.Some? && e == QuestionCall(guivm.value, req, c.targetsForAsk, c.defaultTarget, domains))
        || (c.notify && guivm.Some? && e == NotificationCall(guivm.value, req, r))
        || (r.Allowed? && e == Execute(CallerIdent(req)))
  {
  }

  /** One invocation: decide, then (unless only evaluating) ask, notify and
      execute as the decision requires. */
  function Evaluate(req: Request, c: Classification, domains: DomainTable, mode: Mode, agent: AgentBehaviour): (o: Outcome)
    ensures o.exitCode == 0 || o.exitCode == 1
    ensures o.exitCode == 0 <==> Decide(c, GuiVmOf(domains, req.sourceDomain), mode, agent).Allowed?
    ensures mode.justEvaluate ==> o.trace == []
  {
    var r := Decide(c, GuiVmOf(domains, req.sourceDomain), mode, agent);
    if mode.justEvaluate then Outcome(ExitStatus(r), [])
    else Outcome(ExitStatus(r), LiveTrace(req, c, domains, r))
  }

  /** Asking, notifying and executing each happen at most once, in that
      order. */
  lemma EvaluateInProtocolOrder(req: Request, c: Classification, domains: DomainTable, mode: Mode, agent: AgentBehaviour)
    ensures InProtocolOrder(Evaluate(req, c, domains, mode, agent).trace)
  {
    var r := Decide(c, GuiVmOf(domains, req.sourceDomain), mode, agent);
    if !mode.justEvaluate {
      LiveTraceMembers(req, c, domains, r);
    }
  }

  /** The call is executed exactly when it is allowed in live mode, always
      with the caller identification; a policy deny never executes. */
  lemma ExecutesIffAllowed(req: Request, c: Classification, domains: DomainTable, mode: Mode, agent: AgentBehaviour)
    ensures var o := Evaluate(req, c, domains, mode, agent);
      && (Execute(CallerIdent(req)) in o.trace <==> !mode.justEvaluate && o.exitCode == 0)
      && (forall e :: e in o.trace && e.Execute? ==> e == Execute(CallerIdent(req)))
      && (c.Deny? ==> o.exitCode == 1 && forall e :: e in o.trace ==> !e.Execute?)
  {
    var r := Decide(c, GuiVmOf(domains, req.sourceDomain), mode, agent);
    if !mode.justEvaluate {
      LiveTraceMembers(req, c, domains, r);
    }
  }

  /** Every agent call goes to the source's GUI domain, from dom0, under the
      service name that matches its payload. */
  lemma AgentCallsAddressed(req: Request, c: Classification, domains: DomainTable, mode: Mode, agent: AgentBehaviour)
    ensures forall e :: e in Evaluate(req, c, domains, mode, agent).trace && e.AgentCall? ==>
      GuiVmOf(domains, req.sourceDomain) == Some(e.domain) && WellFormedCall(e)
  {
    var r := Decide(c, GuiVmOf(domains, req.sourceDomain), mode, agent);
    if !mode.justEvaluate {
      LiveTraceMembers(req, c, domains, r);
    }
  }

  /** The user is asked exactly for a live ask whose source has a GUI
      domain. */
  lemma AsksIffLiveAskWithGui(req: Request, c: Classification, domains: DomainTable, mode: Mode, agent: AgentBehaviour)
    ensures (exists e :: e in Evaluate(req, c, domains, mode, agent).trace && IsQuestion(e)) <==>
      c.Ask? && !mode.justEvaluate && GuiVmOf(domains, req.sourceDomain).Some?
  {
    var guivm := GuiVmOf(domains, req.sourceDomain);
    var r := Decide(c, guivm, mode, agent);
    if !mode.justEvaluate {
      LiveTraceMembers(req, c, domains, r);
      if c.Ask? && guivm.Some? {
        var q := QuestionCall(guivm.value, req, c.targetsForAsk, c.defaultTarget, domains);
        assert IsQuestion(q);
      }
    }
  }

  /** The user is notified exactly when the rule asks for it, the invocation
      is live and there is a GUI domain; the notification reports the final
      decision. */
  lemma NotifiesIffRequested(req: Request, c: Classification, domains: DomainTable, mode: Mode, agent: AgentBehaviour)
    ensures var o := Evaluate(req, c, domains, mode, agent);
      && ((exists e :: e in o.trace && IsNotification(e)) <==>
          c.notify && !mode.justEvaluate && GuiVmOf(domains, req.sourceDomain).Some?)
      && (forall e :: e in o.trace && IsNotification(e) ==>
            (e.payload.resolution == "allow" <==> o.exitCode == 0) &&
            (e.payload.resolution == "allow" || e.payload.resolution == "deny"))
  {
    var guivm := GuiVmOf(domains, req.sourceDomain);
    var r := Decide(c, guivm, mode, agent);
    if !mode.justEvaluate {
      LiveTraceMembers(req, c, domains, r);
      if c.notify && guivm.Some? {
        var n := NotificationCall(guivm.value, req, r);
        assert IsNotification(n);
      }
    }
  }

  /** A failing agent changes nothing for an allow or a deny: the agent is
      only notified then, and a failed notification is ignored. */
  lemma AgentIrrelevantWithoutAsk(req: Request, c: Classification, domains: DomainTable, mode: Mode,
                                  a1: AgentBehaviour, a2: AgentBehaviour)
    requires c.Allow? || c.Deny?
    ensures Evaluate(req, c, domains, mode, a1) == Evaluate(req, c, domains, mode, a2)
  {
  }

  /** For an allow or a deny, `--just-evaluate` reports the exit status the
      live invocation would have. */
  lemma DryRunPredictsLive(req: Request, c: Classification, domains: DomainTable, assumeYes: bool, agent: AgentBehaviour)
    requires c.Allow? || c.Deny?
    ensures Evaluate(req, c, domains, Mode(true, assumeYes), agent).exitCode
         == Evaluate(req, c, domains, Mode(false, assumeYes), agent).exitCode
    ensures Evaluate(req, c, domains, Mode(true, assumeYes), agent).exitCode == (if c.Allow? then 0 else 1)
  {
  }

  /** A live ask whose source has a GUI domain starts with the confirmation
      request, and it is allowed exactly when the agent names one of the
      offered targets. */
  lemma LiveAskStartsWithQuestion(req: Request, c: Classification, domains: DomainTable, assumeYes: bool,
                                  agent: AgentBehaviour)
    requires c.Ask? && GuiVmOf(domains, req.sourceDomain).Some?
    ensures var o := Evaluate(req, c, domains, Mode(false, assumeYes), agent);
      && |o.trace| > 0
      && o.trace[0] == QuestionCall(GuiVmOf(domains, req.sourceDomain).value, req, c.targetsForAsk, c.defaultTarget, domains)
      && (o.exitCode == 0 <==> agent.Replies? && agent.reply != "" && agent.reply in c.targetsForAsk)
  {
  }

  /** The trace of a live allow: the optional notification, then the
      execution. */
  lemma LiveAllowTrace(req: Request, target: string, notify: bool, domains: DomainTable, g: string,
                       assumeYes: bool, agent: AgentBehaviour)
    requires GuiVmOf(domains, req.sourceDomain) == Some(g)
    ensures Evaluate(req, Allow(target, notify), domains, Mode(false, assumeYes), agent)
         == Outcome(0, if notify then [NotificationCall(g, req, Allowed(target)), Execute(CallerIdent(req))]
                       else [Execute(CallerIdent(req))])
  {
  }

  /** The trace of a live deny: at most the deny notification. */
  lemma LiveDenyTrace(req: Request, notify: bool, domains: DomainTable, g: string,
                      assumeYes: bool, agent: AgentBehaviour)
    requires GuiVmOf(domains, req.sourceDomain) == Some(g)
    ensures Evaluate(req, Deny(notify), domains, Mode(false, assumeYes), agent)
         == Outcome(1, if notify then [NotificationCall(g, req, Denied(ByPolicy))] else [])
  {
  }

  /** The trace of a live ask with a GUI domain: the question, then the
      optional notification of the answer's outcome, then the execution if
      the answer names an offered target. */
  lemma LiveAskTrace(req: Request, targets: seq<string>, default: Option<string>, notify: bool,
                     domains: DomainTable, g: string, assumeYes: bool, reply: string)
    requires GuiVmOf(domains, req.sourceDomain) == Some(g)
    ensures var ok := reply != "" && reply in targets;
      var r := if ok then Allowed(reply) else Denied(ByUser);
      var q := QuestionCall(g, req, targets, default, domains);
      var n := NotificationCall(g, req, r);
      var e := Execute(CallerIdent(req));
      Evaluate(req, Ask(targets, default, notify), domains, Mode(false, assumeYes), Replies(reply))
        == Outcome(if ok then 0 else 1,
                   if notify && ok then [q, n, e] else if notify then [q, n] else if ok then [q, e] else [q])
  {
    var c := Ask(targets, default, notify);
    var ok := reply != "" && reply in targets;
    var r := if ok then Allowed(reply) else Denied(ByUser);
    assert Decide(c, Some(g), Mode(false, assumeYes), Replies(reply)) == r;
    var q := QuestionCall(g, req, targets, default, domains);
    var n := NotificationCall(g, req, r);
    var e := Execute(CallerIdent(req));
    var notified: seq<Effect> := if notify then [n] else [];
    var executed: seq<Effect> := if ok then [e] else [];
    assert LiveTrace(req, c, domains, r) == [q] + notified + executed;
    AskTraceShape(q, n, e, notify, ok);
  }

  /** The three optional parts of an ask's trace, laid out. */
  lemma AskTraceShape(q: Effect, n: Effect, e: Effect, notify: bool, ok: bool)
    ensures [q] + (if notify then [n] else []) + (if ok then [e] else [])
         == if notify && ok then [q, n, e] else if notify then [q, n] else if ok then [q, e] else [q]
  {
  }

  /** An ask from a source without a GUI domain is denied with no side
      effect, whatever the mode. */
  lemma NoGuiAskTrace(req: Request, c: Classification, domains: DomainTable, mode: Mode, agent: AgentBehaviour)
    requires c.Ask? && GuiVmOf(domains, req.sourceDomain).None?
    ensures Evaluate(req, c, domains, mode, agent) == Outcome(1, [])
  {
  }
}
