# qrexec policy execution, modelled in Dafny

This project models the decision protocol of `qrexec-policy-exec`, the
program that authorises one qrexec service call between two Qubes domains.
The program receives five positional arguments
(`source-id source target service[+argument] process_ident`) and two flags
(`--just-evaluate`, `--assume-yes-for-ask`). It asks the policy for a
classification of the request: allow, ask or deny, each carrying the rule's
`notify` flag. It then drives that classification to a final decision. On
the way it may ask the user through the policy agent in the source's GUI
domain (`policy.Ask`), notify the user (`policy.Notify`), and execute the
call with the descriptor `process_ident,source,source-id`.

The model is a pure function, `Cli.Main(argv, classification, domains,
agent)`. It returns an `Outcome`: the exit status and the ordered trace of
side effects (`AgentCall(domain, rpc, caller, payload)` and
`Execute(descriptor)`). Collaborators the program cannot see are inputs:

- the policy classification;
- the domain table (icon, disposable-VM template flag and GUI domain of each
  domain);
- the agent's behaviour. The agent either replies with a string or fails,
  and the same behaviour applies to every agent call of one invocation.

Modules:

- `Wrappers`: `Option`.
- `Text`: `TakeUntil`, `Split` and `Join`, which follow Python's
  `str.split(sep)` and `sep.join(parts)`, with their round-trip lemmas.
- `Policy`: the `Classification` datatype and its per-kind notify defaults.
- `Requests`: the request, the service name without `+argument`, and the
  caller descriptor.
- `SystemInfo`: the domain table, disposable-VM names, and the icon map.
- `Effects`: agent-call payloads, effects, and protocol order.
- `Engine`: the decision (`Decide`), the trace (`Evaluate`) and the
  protocol properties.
- `Cli`: command-line parsing and `Main`.
- `Scenarios`: every invocation of the test suite, stated as an exact
  `Main` outcome on the suite's domain table.

The test suite leaves some outcomes open. For these the model makes the
choices below. They are choices of this model, not promises of the program,
and the contracts that state them are marked as chosen:

- An ask answered with a string that is not one of the offered targets, or
  whose `policy.Ask` call fails, is denied. If notify is set, the denial is
  notified. A refusal is the safe default when the user's answer cannot be
  matched to a target.
- A notification needs a GUI domain to go to. When the source has none, no
  notification is sent for an allow or a deny.
- An ask whose source has no GUI domain is denied even under
  `--just-evaluate`. Nobody could confirm it, so a dry run reports what a
  live run would do.
- Under `--just-evaluate --assume-yes-for-ask`, an ask resolves to its
  default target, else to its first target. An ask with neither is denied,
  because there is no target to allow.
- Without `--just-evaluate`, `--assume-yes-for-ask` is ignored and the
  agent is asked. The tests pass the flag only together with
  `--just-evaluate`.
- An allow notification is sent before the execution. The tests record
  agent calls and executions separately, so they fix the order of the
  question and the notification but not where the execution falls.
- A source domain missing from the table has no GUI domain.
- An allow notification names the target the call goes to. A deny
  notification names the target the caller asked for. In the tests both
  are `test-vm1`.
- A command line that does not parse gives exit status 2 and no side
  effect. That is the usual status of Python's argument parser.

## Model

| member | source | states |
|---|---|---|
| Policy.NotifyDefaults | qrexec/tests/cli.py:45-58 | An allow and an ask default to no notification. A deny defaults to notifying. An ask without a default target has none. |
| Requests.ServiceName | qrexec/tests/cli.py:165-177 | The name sent to the agent is the longest `+`-free prefix of the service argument. It is the whole argument when there is no `+`, and otherwise it ends right before the first `+`. |
| Requests.ServiceNameOfArgument | qrexec/tests/cli.py:165-177 | `name+argument` becomes `name`, and a service without an argument is left unchanged. |
| Requests.CallerIdent | qrexec/tests/cli.py:154-162 | For every request, the execution descriptor is `process_ident`, a comma, the source domain, a comma and the source id, even when a field itself holds a comma. |
| Requests.CallerIdentFields | qrexec/tests/cli.py:154-162 | If no field holds a comma, splitting the descriptor at commas gives back exactly `process_ident`, the source domain and the source id, in that order. |
| SystemInfo.Icons | qrexec/tests/cli.py:96-129 | Every domain has its own icon. Every disposable-VM template also appears under `@dispvm:<name>` with the same icon. There are no other keys. |
| SystemInfo.IconsCoverTargets | qrexec/tests/cli.py:96-129 | Every ask target that is a domain of the table, or the disposable-VM name of a template in it, has an icon in the map. |
| Scenarios.IconsOfTestDomains | qrexec/tests/cli.py:96-129 | The icon map built from the test domain table equals the `icons` fixture. |
| Engine.Decide | qrexec/tests/cli.py:154-383 | An allow is allowed to its target and a deny is denied. A live ask answered with an offered target is allowed to that target, and one answered `''` is denied. Under just-evaluate an ask is denied without assume-yes and allowed with it when targets are offered. The rest is chosen as listed above: other answers and a failed call are denied, a dry run without a GUI domain is denied, a live run ignores assume-yes, and a dry run with assume-yes takes the default target, else the first target, else denies. |
| Engine.Evaluate | qrexec/tests/cli.py:154-383 | The exit status is 0 or 1. It is 0 exactly when the decision is an allow. Under just-evaluate the trace is empty. |
| Engine.QuestionCall | qrexec/tests/cli.py:203-220 | The question is a `policy.Ask` call from `dom0` to the GUI domain. It carries the source, the service name without its argument, the targets in order, the default target or `''`, and the icon map built from the domain table. |
| Engine.NotificationCall | qrexec/tests/cli.py:165-177 | The notification is a `policy.Notify` call from `dom0` to the GUI domain. It says `allow` for an allow and `deny` for a deny, and carries the source and the service name without its argument. Its target is the resolved target for an allow and the requested target for a deny. |
| Engine.EvaluateInProtocolOrder | qrexec/tests/cli.py:223-288 | The question, the notification and the execution each occur at most once, in that order. The tests fix the question before the notification; the execution last is chosen as listed above. |
| Engine.ExecutesIffAllowed | qrexec/tests/cli.py:154-343 | The call is executed exactly when it is allowed in live mode, and always with the caller descriptor. A policy deny exits 1 and never executes. |
| Engine.AgentCallsAddressed | qrexec/tests/cli.py:165-177 | Every agent call goes to the source's GUI domain, comes from `dom0`, and uses `policy.Ask` for a question and `policy.Notify` for a notification. |
| Engine.AsksIffLiveAskWithGui | qrexec/tests/cli.py:203-318 | The user is asked exactly when the invocation is a live ask and the source has a GUI domain. |
| Engine.NotifiesIffRequested | qrexec/tests/cli.py:165-343 | A notification is sent exactly when the rule's notify flag is set, the invocation is live, and the source has a GUI domain. It says `allow` exactly when the exit status is 0, and `deny` otherwise. |
| Engine.AgentIrrelevantWithoutAsk | qrexec/tests/cli.py:183-200 | For an allow or a deny, a failing agent gives the same outcome as a replying one. |
| Engine.DryRunPredictsLive | qrexec/tests/cli.py:346-363 | Under just-evaluate, an allow exits 0 and a deny exits 1, the same as in live mode. |
| Engine.LiveAskStartsWithQuestion | qrexec/tests/cli.py:203-264 | A live ask with a GUI domain starts with the question. It exits 0 when the agent answers with an offered target, and 1 when it answers `''`. Exiting 1 for other answers and for a failed call is chosen as listed above. |
| Engine.LiveAllowTrace | qrexec/tests/cli.py:154-200 | When the source has a GUI domain, a live allow's trace is the allow notification, if notify is set, followed by one execution. |
| Engine.LiveDenyTrace | qrexec/tests/cli.py:321-343 | When the source has a GUI domain, a live deny exits 1, and its trace is the deny notification if notify is set and empty otherwise. |
| Engine.LiveAskTrace | qrexec/tests/cli.py:203-308 | When the source has a GUI domain and the agent replies with a string, a live ask's trace is the question, then the notification of the outcome if notify is set, then the execution if the answer is an offered target. A non-empty answer outside the targets counts as a refusal, which is chosen as listed above. |
| Engine.NoGuiAskTrace | qrexec/tests/cli.py:311-318 | An ask from a source without a GUI domain exits 1 with an empty trace. The tests show this for a live run; under `--just-evaluate` it is the choice listed above. |
| Cli.Scan | qrexec/tests/cli.py:346-383 | Parsing succeeds exactly when every option-like argument is one of the two flags. Each flag is set exactly when it is present. No positional argument looks like an option. |
| Cli.ScanKeepsOrder | qrexec/tests/cli.py:346-383 | The positionals are the arguments other than the two flags, in their command-line order. |
| Cli.DashAndNumbersArePositional | qrexec/tests/cli.py:346-383 | A lone `-` and a negative number such as `-5` or `-1.5` are positionals, not options. |
| Cli.ParseArgs | qrexec/tests/cli.py:346-383 | A command line parses exactly when every option-like argument is a flag and exactly five arguments are not flags. Each flag is set exactly when it is present. The request fields are the non-flag arguments in order: source id, source, target, service, process identifier. |
| Cli.ParseRender | qrexec/tests/cli.py:346-383 | Parsing a command line made of the flags followed by the five positionals gives back the same flags and request. |
| Cli.Main | qrexec/tests/cli.py:154-383 | A command line that does not parse exits 2 with no side effect. Otherwise the outcome is exactly the engine's outcome for the parsed request and flags, so every property proved of `Engine.Evaluate` holds for it. In particular, the exit status is 0 exactly when the decision is an allow, the call is executed exactly when the run is live and exits 0, and under just-evaluate the trace is empty. |
| Scenarios.Test000Allow | qrexec/tests/cli.py:154-162 | A plain allow exits 0 and executes once with `process_ident,source,source-id`. No agent is called. |
| Scenarios.Test001AllowNotify | qrexec/tests/cli.py:165-200 | An allow with notify sends one `policy.Notify` allow to `gui`, then executes. This holds for every agent behaviour, including a failing one. |
| Scenarios.Test010AskAllow | qrexec/tests/cli.py:203-220 | An ask answered `test-vm1` sends one `policy.Ask` with the targets in order, `default_target` `''` and the icon map. It exits 0 and executes once. |
| Scenarios.Test011AskAllowNotify | qrexec/tests/cli.py:223-246 | With notify set, the trace is the question, then the allow notification, then the execution. |
| Scenarios.Test015AskDeny | qrexec/tests/cli.py:249-264 | An empty reply exits 1. The trace is the question only. |
| Scenarios.Test016AskDenyNotify | qrexec/tests/cli.py:267-288 | With notify set, an empty reply gives the question, then a deny notification naming `test-vm1`, and exits 1. |
| Scenarios.Test017AskDefaultTarget | qrexec/tests/cli.py:291-308 | The given default target is sent as `default_target`. |
| Scenarios.Test013AskNoGuiVm | qrexec/tests/cli.py:311-318 | Without a GUI domain, an ask exits 1 with no agent call and no execution. |
| Scenarios.Test020Deny | qrexec/tests/cli.py:321-334 | A deny with the default notify flag exits 1 and sends one `policy.Notify` deny. |
| Scenarios.Test021DenyNoNotify | qrexec/tests/cli.py:337-343 | A deny without notify exits 1 with an empty trace. |
| Scenarios.Test030To033JustEvaluate | qrexec/tests/cli.py:346-383 | Under `--just-evaluate` the trace is always empty. Allow exits 0, deny exits 1, and ask exits 1. Ask with `--assume-yes-for-ask` exits 0. |

## Left out

- The agent transport (`call_socket_service`, an asynchronous socket call) is not modelled. It is replaced by the `AgentBehaviour` input, which either replies with a string or fails.
- Process spawning in `AllowResolution.execute` is not modelled. It appears only as the `Execute` trace event, and its own failure and the exit status that would follow are not modelled.
- The policy file parser and its loading from `/etc/qubes/policy.d` are not modelled. The classification is an input. The rule's file name and line number, and the `user` argument passed to resolutions, are not modelled either.
- Retrieval of the system information is not modelled. The domain table is an input.
- Cli.Scan: follows Python's argument parser only for the two flags, a lone `-`, negative numbers written with ASCII digits, and other arguments starting with `-`. It does not model option abbreviations such as `--just`, the `--` separator, `-h`/`--help`, `--flag=value`, option-like arguments that contain a space, or usage messages. The code that builds the parser is not part of this model.
- The requirement that positional arguments are non-empty is not modelled. No code or test that enforces it is visible.
- Logging and asynchronous scheduling have no observable effect on the modelled outcome, so they are not modelled.
