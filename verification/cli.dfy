/** The command line of the policy executable: the two flags and the five
    positional arguments, and the process-level entry point that maps the
    engine's outcome to an exit status. */
module Cli {
  import opened Wrappers
  import opened Text
  import opened Policy
  import opened Requests
  import opened SystemInfo
  import opened Effects
  import opened Engine

  const JustEvaluateFlag: string := "--just-evaluate"
  const AssumeYesFlag: string := "--assume-yes-for-ask"

  /** The exit status for a command line that cannot be parsed. */
  const UsageError: int := 2

  datatype Invocation = Invocation(mode: Mode, request: Request)

  predicate IsDigits(s: string)
  {
    forall i :: 0 <= i < |s| ==> '0' <= s[i] <= '9'
  }

  /** A negative number in the parser's sense, `-` followed by `d+` or
      `d*.d+` for digits `d`. With no option of its own that looks like one,
      the parser takes such an argument as a positional. */
  predicate LooksLikeNegativeNumber(a: string)
  {
    && |a| >= 2 && a[0] == '-' && ('0' <= a[1] <= '9' || a[1] == '.')
    && var digits := a[1..];
       var whole := TakeUntil(digits, '.');
       && IsDigits(whole)
       && (|whole| == |digits| || (|whole| + 1 < |digits| && IsDigits(digits[|whole| + 1..])))
  }

  /** An argument the parser takes for an option rather than a positional:
      it starts with `-`, is longer than a lone `-` and is not a negative
      number. */
  predicate LooksLikeOption(a: string)
  {
    |a| >= 2 && a[0] == '-' && !LooksLikeNegativeNumber(a)
  }

  predicate IsFlag(a: string)
  {
    a == JustEvaluateFlag || a == AssumeYesFlag
  }

  /** A lone `-` and a negative number such as `-5` or `-0.5` are
      positionals. */
  lemma DashAndNumbersArePositional(whole: string, fraction: string)
    requires IsDigits(whole) && IsDigits(fraction) && |fraction| > 0
    ensures !LooksLikeOption("-")
    ensures !LooksLikeOption("-" + fraction)
    ensures !LooksLikeOption("-" + whole + "." + fraction)
  {
    assert ("-" + fraction)[1..] == fraction;
    TakeUntilDigits(fraction);
    var d := whole + "." + fraction;
    assert ("-" + d)[1..] == d;
    assert whole + "." + fraction == whole + ['.'] + fraction;
    TakeUntilStops(whole, '.', fraction);
    assert d[|whole| + 1..] == fraction;
  }

  /** Digits hold no `.`, so cutting them at `.` keeps them whole. */
  lemma TakeUntilDigits(s: string)
    requires IsDigits(s)
    ensures TakeUntil(s, '.') == s
  {
  }

  /** Both flags, and anything else starting with `--`, look like options. */
  lemma DoubleDashIsOption(a: string)
    requires |a| >= 2 && a[0] == '-' && a[1] == '-'
    ensures LooksLikeOption(a)
  {
    var digits := a[1..];
    var whole := TakeUntil(digits, '.');
    assert |whole| > 0 && whole[0] == '-';
  }

  /** The arguments that are not one of the two flags, in their order. */
  function NonFlags(argv: seq<string>): seq<string>
    decreases |argv|
  {
    if |argv| == 0 then [] else (if IsFlag(argv[0]) then [] else [argv[0]]) + NonFlags(argv[1..])
  }

  /** Separates flags from positional arguments. Flags may appear anywhere;
      any other option-like argument is refused. */
  function Scan(argv: seq<string>): (r: Option<(Mode, seq<string>)>)
    ensures r.Some? <==> forall i :: 0 <= i < |argv| && LooksLikeOption(argv[i]) ==> IsFlag(argv[i])
    ensures r.Some? ==> (r.value.0.justEvaluate <==> JustEvaluateFlag in argv)
    ensures r.Some? ==> (r.value.0.assumeYesForAsk <==> AssumeYesFlag in argv)
    ensures r.Some? ==> forall i :: 0 <= i < |r.value.1| ==> !LooksLikeOption(r.value.1[i])
    decreases |argv|
  {
    if |argv| == 0 then Some((Mode(false, false), []))
    else
      match Scan(argv[1..])
      case None => None
      case Some((mode, positionals)) =>
        if argv[0] == JustEvaluateFlag then Some((mode.(justEvaluate := true), positionals))
        else if argv[0] == AssumeYesFlag then Some((mode.(assumeYesForAsk := true), positionals))
        else if LooksLikeOption(argv[0]) then None
        else Some((mode, [argv[0]] + positionals))
  }

  /** The positionals Scan returns are the arguments other than the two
      flags, in their command-line order. */
  lemma {:induction false} ScanKeepsOrder(argv: seq<string>)
    requires Scan(argv).Some?
    ensures Scan(argv).value.1 == NonFlags(argv)
    decreases |argv|
  {
    if |argv| > 0 {
      ScanKeepsOrder(argv[1..]);
    }
  }

  /** Exactly five positionals: source id, source domain, target domain,
      service (with optional `+argument`) and process identifier. */
  function ParseArgs(argv: seq<string>): (r: Option<Invocation>)
    ensures r.Some? <==>
      (forall i :: 0 <= i < |argv| && LooksLikeOption(argv[i]) ==> IsFlag(argv[i])) && |NonFlags(argv)| == 5
    ensures r.Some? ==> (r.value.mode.justEvaluate <==> JustEvaluateFlag in argv)
    ensures r.Some? ==> (r.value.mode.assumeYesForAsk <==> AssumeYesFlag in argv)
    ensures r.Some? ==> [r.value.request.sourceId, r.value.request.sourceDomain, r.value.request.targetDomain,
                         r.value.request.service, r.value.request.processIdent] == NonFlags(argv)
  {
    match Scan(argv)
    case None => None
    case Some((mode, p)) =>
      ScanKeepsOrder(argv);
      if |p| != 5 then None
      else Some(Invocation(mode, Request(p[0], p[1], p[2], p[3], p[4])))
  }

  /** The flag arguments that select `mode`. */
  function FlagArgs(mode: Mode): seq<string>
  {
    (if mode.justEvaluate then [JustEvaluateFlag] else []) + (if mode.assumeYesForAsk then [AssumeYesFlag] else [])
  }

  /** The five positionals of a request, in command-line order. */
  function Positionals(r: Request): seq<string>
  {
    [r.sourceId, r.sourceDomain, r.targetDomain, r.service, r.processIdent]
  }

  /** A command line for `inv`: the set flags, then the positionals. */
  function Render(inv: Invocation): seq<string>
  {
    FlagArgs(inv.mode) + Positionals(inv.request)
  }

  /** Positionals alone parse to themselves with no flag set. */
  lemma {:induction false} ScanPositionals(ps: seq<string>)
    requires forall i :: 0 <= i < |ps| ==> !LooksLikeOption(ps[i])
    ensures Scan(ps) == Some((Mode(false, false), ps))
    decreases |ps|
  {
    if |ps| > 0 {
      assert !IsFlag(ps[0]) by {
        if IsFlag(ps[0]) {
          DoubleDashIsOption(ps[0]);
        }
      }
      ScanPositionals(ps[1..]);
      assert [ps[0]] + ps[1..] == ps;
    }
  }

  /** A leading flag sets its field and leaves the positionals alone. */
  lemma ScanLeadingFlag(flag: string, rest: seq<string>)
    requires IsFlag(flag) && Scan(rest).Some?
    ensures var (mode, ps) := Scan(rest).value;
      Scan([flag] + rest) == Some((if flag == JustEvaluateFlag then mode.(justEvaluate := true)
                                   else mode.(assumeYesForAsk := true), ps))
  {
    assert ([flag] + rest)[1..] == rest;
  }

  /** `--assume-yes-for-ask` in front of bare positionals sets only its
      own field. */
  lemma ScanAfterAssumeYes(ps: seq<string>)
    requires Scan(ps) == Some((Mode(false, false), ps))
    ensures Scan([AssumeYesFlag] + ps) == Some((Mode(false, true), ps))
  {
    assert AssumeYesFlag != JustEvaluateFlag by {
      assert AssumeYesFlag[2] != JustEvaluateFlag[2];
    }
    ScanLeadingFlag(AssumeYesFlag, ps);
  }

  /** Flags in front of bare positionals select their mode. */
  lemma ScanAfterFlags(mode: Mode, ps: seq<string>)
    requires Scan(ps) == Some((Mode(false, false), ps))
    ensures Scan(FlagArgs(mode) + ps) == Some((mode, ps))
  {
    var ay := if mode.assumeYesForAsk then [AssumeYesFlag] + ps else ps;
    assert Scan(ay) == Some((Mode(false, mode.assumeYesForAsk), ps)) by {
      if mode.assumeYesForAsk {
        ScanAfterAssumeYes(ps);
      }
    }
    if mode.justEvaluate {
      ScanLeadingFlag(JustEvaluateFlag, ay);
      assert FlagArgs(mode) + ps == [JustEvaluateFlag] + ay;
    } else {
      assert FlagArgs(mode) + ps == ay;
    }
  }

  /** Parsing a rendered command line gives back the invocation, provided
      no positional argument looks like an option. */
  lemma ParseRender(inv: Invocation)
    requires forall a :: a in Positionals(inv.request) ==> !LooksLikeOption(a)
    ensures ParseArgs(Render(inv)) == Some(inv)
  {
    var ps := Positionals(inv.request);
    ScanPositionals(ps);
    ScanAfterFlags(inv.mode, ps);
  }

  /** The whole executable: parse the command line, then run the engine on
      the classification the policy gives for the request. */
  function Main(argv: seq<string>, c: Classification, domains: DomainTable, agent: AgentBehaviour): (o: Outcome)
    ensures ParseArgs(argv).None? ==> o == Outcome(UsageError, [])
    ensures ParseArgs(argv).Some? ==> o.exitCode == 0 || o.exitCode == 1
    ensures ParseArgs(argv).Some? && ParseArgs(argv).value.mode.justEvaluate ==> o.trace == []
    ensures ParseArgs(argv).Some? ==>
      var inv := ParseArgs(argv).value;
      o == Evaluate(inv.request, c, domains, inv.mode, agent)
    ensures ParseArgs(argv).Some? ==>
      var inv := ParseArgs(argv).value;
      && (o.exitCode == 0 <==> Decide(c, GuiVmOf(domains, inv.request.sourceDomain), inv.mode, agent).Allowed?)
      && (Execute(CallerIdent(inv.request)) in o.trace <==> !inv.mode.justEvaluate && o.exitCode == 0)
  {
    match ParseArgs(argv)
    case None => Outcome(UsageError, [])
    case Some(inv) =>
      ExecutesIffAllowed(inv.request, c, domains, inv.mode, agent);
      Evaluate(inv.request, c, domains, inv.mode, agent)
  }
}
