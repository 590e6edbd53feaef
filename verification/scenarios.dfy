/** The concrete invocations of the executable's test suite, each stated as
    the exact outcome of `Main` on the suite's domain table. */
module Scenarios {
  import opened Wrappers
  import opened Policy
  import opened Requests
  import opened SystemInfo
  import opened Effects
  import opened Engine
  import opened Cli

  /** The domain table every test runs against. */
  const Domains: DomainTable := map[
    "dom0" := DomainInfo("black", false, None),
    "source" := DomainInfo("red", false, Some("gui")),
    "test-vm1" := DomainInfo("red", false, None),
    "test-vm2" := DomainInfo("red", false, None),
    "test-vm3" := DomainInfo("green", true, None),
    "gui" := DomainInfo("orange", false, None)
  ]

  /** The icon map the tests expect to be sent with every confirmation. */
  const ExpectedIcons: map<string, string> := map[
    "dom0" := "black",
    "source" := "red",
    "test-vm1" := "red",
    "test-vm2" := "red",
    "test-vm3" := "green",
    "@dispvm:test-vm3" := "green",
    "gui" := "orange"
  ]

  const Targets: seq<string> := ["test-vm1", "test-vm2"]
  const Ident: string := "process_ident,source,source-id"

  function Argv(service: string): seq<string>
  {
    ["source-id", "source", "test-vm1", service, "process_ident"]
  }

  function NotifyCall(resolution: string): Effect
  {
    AgentCall("gui", "policy.Notify", "dom0", Notification(resolution, "service", "source", "test-vm1"))
  }

  function AskCall(default: string): Effect
  {
    AgentCall("gui", "policy.Ask", "dom0", Question("source", "service", Targets, default, ExpectedIcons))
  }

  const Alias: string := "@dispvm:test-vm3"

  /** `test-vm3` is the only disposable-VM template of the test table. */
  lemma TestDispvmKeys()
    ensures DispvmKeys(Domains) == {Alias}
  {
    assert DispvmKey("test-vm3") == Alias;
    forall n | n in Domains && Domains[n].templateForDispvms
      ensures n == "test-vm3"
    {
    }
  }

  /** No test domain is named like a disposable VM. */
  lemma AliasIsNoDomain()
    ensures Alias !in Domains
  {
    forall n | n in Domains
      ensures n[0] != '@'
    {
    }
  }

  /** The expected map gives each test domain its own icon. */
  lemma ExpectedIconsOfDomains()
    ensures forall n :: n in Domains ==> n in ExpectedIcons && ExpectedIcons[n] == Domains[n].icon
  {
    forall n | n in Domains
      ensures n in ExpectedIcons && ExpectedIcons[n] == Domains[n].icon
    {
      if n == "dom0" {
      } else if n == "source" {
      } else if n == "test-vm1" {
      } else if n == "test-vm2" {
      } else if n == "test-vm3" {
      } else {
        assert n == "gui";
      }
    }
  }

  /** The icon map built from the test table has the expected keys. */
  lemma TestIconKeys()
    ensures Icons(Domains).Keys == ExpectedIcons.Keys
  {
    TestDispvmKeys();
  }

  /** The disposable-VM name of `test-vm3` carries its icon. */
  lemma TestAliasIcon()
    ensures Alias in Icons(Domains) && Icons(Domains)[Alias] == ExpectedIcons[Alias]
  {
    assert DispvmKey("test-vm3") == Alias;
    assert "test-vm3" in Domains && Domains["test-vm3"] == DomainInfo("green", true, None);
    assert ExpectedIcons[Alias] == "green" by {
      assert Alias[0] != "gui"[0];
    }
  }

  /** Every test domain carries its own icon. */
  lemma TestDomainIcons()
    ensures forall n :: n in Domains ==> Icons(Domains)[n] == ExpectedIcons[n]
  {
    TestDispvmKeys();
    AliasIsNoDomain();
    ExpectedIconsOfDomains();
  }

  /** Two maps with the same keys and the same value under each key are
      equal. */
  lemma SameEntries(a: map<string, string>, b: map<string, string>)
    requires a.Keys == b.Keys
    requires forall k :: k in a ==> a[k] == b[k]
    ensures a == b
  {
  }

  /** The icon map built from the test domain table is the expected one. */
  lemma IconsOfTestDomains()
    ensures Icons(Domains) == ExpectedIcons
  {
    var icons := Icons(Domains);
    assert icons.Keys == ExpectedIcons.Keys by {
      TestIconKeys();
    }
    assert forall k :: k in icons ==> icons[k] == ExpectedIcons[k] by {
      TestIconKeys();
      TestAliasIcon();
      TestDomainIcons();
      forall k | k in icons
        ensures icons[k] == ExpectedIcons[k]
      {
        if k != Alias {
          assert k in Domains by {
            TestDispvmKeys();
          }
        }
      }
    }
    SameEntries(icons, ExpectedIcons);
  }

  function TestRequest(service: string): Request
  {
    Request("source-id", "source", "test-vm1", service, "process_ident")
  }

  /** The live test command line parses to the test request. */
  lemma TestLiveCommandLine(service: string)
    requires service == "service" || service == "service+arg"
    ensures ParseArgs(Argv(service)) == Some(Invocation(Mode(false, false), TestRequest(service)))
  {
    var inv := Invocation(Mode(false, false), TestRequest(service));
    assert service[0] == 's';
    ParseRender(inv);
    assert Render(inv) == Argv(service);
  }

  /** `--just-evaluate` alone, and with `--assume-yes-for-ask`. */
  lemma TestDryCommandLines()
    ensures ParseArgs([JustEvaluateFlag] + Argv("service")) == Some(Invocation(Mode(true, false), TestRequest("service")))
    ensures ParseArgs([JustEvaluateFlag, AssumeYesFlag] + Argv("service"))
         == Some(Invocation(Mode(true, true), TestRequest("service")))
  {
    var inv := Invocation(Mode(true, false), TestRequest("service"));
    ParseRender(inv);
    assert Render(inv) == [JustEvaluateFlag] + Argv("service");
    ParseRender(inv.(mode := Mode(true, true)));
    assert Render(inv.(mode := Mode(true, true))) == [JustEvaluateFlag, AssumeYesFlag] + Argv("service");
  }

  /** The service shown to the user is `service`, with or without `+arg`. */
  lemma TestServiceName(service: string)
    requires service == "service" || service == "service+arg"
    ensures ServiceName(service) == "service"
  {
    assert "service+arg" == "service" + "+" + "arg";
    ServiceNameOfArgument("service", "arg");
  }

  /** The caller identification is the one the tests expect. */
  lemma TestIdent(service: string)
    ensures CallerIdent(TestRequest(service)) == Ident
  {
  }

  /** The test table with the source's GUI domain removed. */
  const NoGuiDomains: DomainTable := Domains["source" := DomainInfo("red", false, None)]

  lemma TestGuiVms()
    ensures GuiVmOf(Domains, "source") == Some("gui")
    ensures GuiVmOf(NoGuiDomains, "source") == None
  {
  }

  /** The live test command lines run the engine on the test request. */
  lemma TestMain(service: string, c: Classification, domains: DomainTable, agent: AgentBehaviour)
    requires service == "service" || service == "service+arg"
    ensures Main(Argv(service), c, domains, agent) == Evaluate(TestRequest(service), c, domains, Mode(false, false), agent)
  {
    TestLiveCommandLine(service);
  }

  /** The notification the tests expect, for either outcome. */
  lemma TestNotification(service: string, r: Resolution)
    requires service == "service" || service == "service+arg"
    requires r == Allowed("test-vm1") || r.Denied?
    ensures NotificationCall("gui", TestRequest(service), r) == NotifyCall(if r.Allowed? then "allow" else "deny")
  {
    TestServiceName(service);
  }

  /** The question the tests expect. */
  lemma TestQuestion(service: string, default: Option<string>)
    requires service == "service" || service == "service+arg"
    ensures QuestionCall("gui", TestRequest(service), Targets, default, Domains) == AskCall(ValueOr(default, ""))
  {
    TestServiceName(service);
    IconsOfTestDomains();
  }

  /** test_000: a plain allow executes once and contacts no agent. */
  lemma Test000Allow(agent: AgentBehaviour)
    ensures Main(Argv("service+arg"), Allow("test-vm1"), Domains, agent) == Outcome(0, [Execute(Ident)])
  {
    var req := TestRequest("service+arg");
    TestMain("service+arg", Allow("test-vm1"), Domains, agent);
    assert Evaluate(req, Allow("test-vm1"), Domains, Mode(false, false), agent)
        == Outcome(0, [Execute(CallerIdent(req))]) by {
      TestGuiVms();
      LiveAllowTrace(req, "test-vm1", false, Domains, "gui", false, agent);
    }
    TestIdent("service+arg");
  }

  /** test_001 and test_002: an allow with notify tells the GUI domain, then
      executes; a failing notification changes neither status nor
      execution. */
  lemma Test001AllowNotify(agent: AgentBehaviour)
    ensures Main(Argv("service+arg"), Allow("test-vm1", true), Domains, agent)
         == Outcome(0, [NotifyCall("allow"), Execute(Ident)])
  {
    var req := TestRequest("service+arg");
    TestMain("service+arg", Allow("test-vm1", true), Domains, agent);
    assert Evaluate(req, Allow("test-vm1", true), Domains, Mode(false, false), agent)
        == Outcome(0, [NotificationCall("gui", req, Allowed("test-vm1")), Execute(CallerIdent(req))]) by {
      TestGuiVms();
      LiveAllowTrace(req, "test-vm1", true, Domains, "gui", false, agent);
    }
    TestNotification("service+arg", Allowed("test-vm1"));
    TestIdent("service+arg");
  }

  /** test_010: an ask answered with an offered target executes. */
  lemma Test010AskAllow()
    ensures Main(Argv("service+arg"), Ask(Targets), Domains, Replies("test-vm1"))
         == Outcome(0, [AskCall(""), Execute(Ident)])
  {
    var req := TestRequest("service+arg");
    TestMain("service+arg", Ask(Targets), Domains, Replies("test-vm1"));
    assert Evaluate(req, Ask(Targets), Domains, Mode(false, false), Replies("test-vm1"))
        == Outcome(0, [QuestionCall("gui", req, Targets, None, Domains), Execute(CallerIdent(req))]) by {
      TestGuiVms();
      LiveAskTrace(req, Targets, None, false, Domains, "gui", false, "test-vm1");
    }
    TestQuestion("service+arg", None);
    TestIdent("service+arg");
  }

  /** test_011: with notify, the allow notification sits between the
      question and the execution. */
  lemma Test011AskAllowNotify()
    ensures Main(Argv("service+arg"), Ask(Targets, notify := true), Domains, Replies("test-vm1"))
         == Outcome(0, [AskCall(""), NotifyCall("allow"), Execute(Ident)])
  {
    var req := TestRequest("service+arg");
    var c := Ask(Targets, notify := true);
    var q := QuestionCall("gui", req, Targets, None, Domains);
    var n := NotificationCall("gui", req, Allowed("test-vm1"));
    var e := Execute(CallerIdent(req));
    assert Main(Argv("service+arg"), c, Domains, Replies("test-vm1"))
        == Evaluate(req, c, Domains, Mode(false, false), Replies("test-vm1")) by {
      TestMain("service+arg", c, Domains, Replies("test-vm1"));
    }
    assert Evaluate(req, c, Domains, Mode(false, false), Replies("test-vm1")) == Outcome(0, [q, n, e]) by {
      TestGuiVms();
      LiveAskTrace(req, Targets, None, true, Domains, "gui", false, "test-vm1");
    }
    assert q == AskCall("") by {
      TestQuestion("service+arg", None);
    }
    assert n == NotifyCall("allow") by {
      TestNotification("service+arg", Allowed("test-vm1"));
    }
    assert e == Execute(Ident) by {
      TestIdent("service+arg");
    }
  }

  /** test_015: an empty answer denies without executing. */
  lemma Test015AskDeny()
    ensures Main(Argv("service"), Ask(Targets), Domains, Replies("")) == Outcome(1, [AskCall("")])
  {
    var req := TestRequest("service");
    TestMain("service", Ask(Targets), Domains, Replies(""));
    assert Evaluate(req, Ask(Targets), Domains, Mode(false, false), Replies(""))
        == Outcome(1, [QuestionCall("gui", req, Targets, None, Domains)]) by {
      TestGuiVms();
      LiveAskTrace(req, Targets, None, false, Domains, "gui", false, "");
    }
    TestQuestion("service", None);
  }

  /** test_016: with notify, the empty answer is followed by a deny
      notification naming the requested target. */
  lemma Test016AskDenyNotify()
    ensures Main(Argv("service"), Ask(Targets, notify := true), Domains, Replies(""))
         == Outcome(1, [AskCall(""), NotifyCall("deny")])
  {
    var req := TestRequest("service");
    var c := Ask(Targets, notify := true);
    TestMain("service", c, Domains, Replies(""));
    assert Evaluate(req, c, Domains, Mode(false, false), Replies(""))
        == Outcome(1, [QuestionCall("gui", req, Targets, None, Domains), NotificationCall("gui", req, Denied(ByUser))]) by {
      TestGuiVms();
      LiveAskTrace(req, Targets, None, true, Domains, "gui", false, "");
    }
    TestQuestion("service", None);
    TestNotification("service", Denied(ByUser));
  }

  /** test_017: the default target is passed on to the dialog. */
  lemma Test017AskDefaultTarget()
    ensures Main(Argv("service"), Ask(Targets, Some("test-vm1")), Domains, Replies("test-vm1"))
         == Outcome(0, [AskCall("test-vm1"), Execute(Ident)])
  {
    var req := TestRequest("service");
    var c := Ask(Targets, Some("test-vm1"));
    TestMain("service", c, Domains, Replies("test-vm1"));
    assert Evaluate(req, c, Domains, Mode(false, false), Replies("test-vm1"))
        == Outcome(0, [QuestionCall("gui", req, Targets, Some("test-vm1"), Domains), Execute(CallerIdent(req))]) by {
      TestGuiVms();
      LiveAskTrace(req, Targets, Some("test-vm1"), false, Domains, "gui", false, "test-vm1");
    }
    TestQuestion("service", Some("test-vm1"));
    TestIdent("service");
  }

  /** test_013: without a GUI domain an ask is denied and nobody is called. */
  lemma Test013AskNoGuiVm(agent: AgentBehaviour)
    ensures Main(Argv("service"), Ask(Targets), NoGuiDomains, agent) == Outcome(1, [])
  {
    TestMain("service", Ask(Targets), NoGuiDomains, agent);
    TestGuiVms();
    NoGuiAskTrace(TestRequest("service"), Ask(Targets), NoGuiDomains, Mode(false, false), agent);
  }

  /** test_020: a deny notifies by default. */
  lemma Test020Deny(agent: AgentBehaviour)
    ensures Main(Argv("service"), Deny(), Domains, agent) == Outcome(1, [NotifyCall("deny")])
  {
    var req := TestRequest("service");
    TestMain("service", Deny(), Domains, agent);
    assert Evaluate(req, Deny(), Domains, Mode(false, false), agent)
        == Outcome(1, [NotificationCall("gui", req, Denied(ByPolicy))]) by {
      TestGuiVms();
      LiveDenyTrace(req, true, Domains, "gui", false, agent);
    }
    TestNotification("service", Denied(ByPolicy));
  }

  /** test_021: a deny without notify has no side effect. */
  lemma Test021DenyNoNotify(agent: AgentBehaviour)
    ensures Main(Argv("service"), Deny(false), Domains, agent) == Outcome(1, [])
  {
    TestMain("service", Deny(false), Domains, agent);
    TestGuiVms();
    LiveDenyTrace(TestRequest("service"), false, Domains, "gui", false, agent);
  }

  /** test_030 to test_033: evaluating only reports the status. */
  lemma Test030To033JustEvaluate(agent: AgentBehaviour)
    ensures Main([JustEvaluateFlag] + Argv("service"), Allow("test-vm1"), Domains, agent) == Outcome(0, [])
    ensures Main([JustEvaluateFlag] + Argv("service"), Deny(), Domains, agent) == Outcome(1, [])
    ensures Main([JustEvaluateFlag] + Argv("service"), Ask(Targets), Domains, agent) == Outcome(1, [])
    ensures Main([JustEvaluateFlag, AssumeYesFlag] + Argv("service"), Ask(Targets), Domains, agent) == Outcome(0, [])
  {
    TestDryCommandLines();
    TestGuiVms();
  }
}
