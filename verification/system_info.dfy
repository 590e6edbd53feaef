/** The domain table the executable reads from the system: per domain its
    icon, whether it is a template for disposable VMs, and which domain
    renders its GUI. The confirmation dialog receives an icon map built from
    it. */
module SystemInfo {
  import opened Wrappers

  datatype DomainInfo = DomainInfo(icon: string, templateForDispvms: bool, guivm: Option<string>)

  type DomainTable = map<string, DomainInfo>

  /** The GUI domain of `name`; a domain missing from the table has none. */
  function GuiVmOf(domains: DomainTable, name: string): Option<string>
  {
    if name in domains then domains[name].guivm else None
  }

  const DispvmPrefix: string := "@dispvm:"

  /** The synthetic target name standing for "a new disposable VM based on
      `base`". */
  function DispvmKey(base: string): string
  {
    DispvmPrefix + base
  }

  /** Different bases give different disposable-VM names. */
  lemma DispvmKeyInjective()
    ensures forall a, b :: DispvmKey(a) == DispvmKey(b) ==> a == b
  {
    forall a, b | DispvmKey(a) == DispvmKey(b)
      ensures a == b
    {
      assert a == DispvmKey(a)[|DispvmPrefix|..];
      assert b == DispvmKey(b)[|DispvmPrefix|..];
    }
  }

  /** The disposable-VM names of every template domain in the table. */
  function DispvmKeys(domains: DomainTable): set<string>
  {
    set n | n in domains && domains[n].templateForDispvms :: DispvmKey(n)
  }

  /** The icon map sent with a confirmation request: every domain under its
      own name and, for each disposable-VM template, its disposable-VM name,
      both carrying the domain's icon; nothing else. */
  function Icons(domains: DomainTable): (icons: map<string, string>)
    ensures icons.Keys == domains.Keys + DispvmKeys(domains)
    ensures forall n :: n in domains && domains[n].templateForDispvms ==>
      DispvmKey(n) in icons && icons[DispvmKey(n)] == domains[n].icon
    ensures forall n :: n in domains && n !in DispvmKeys(domains) ==> icons[n] == domains[n].icon
  {
    DispvmKeyInjective();
    var own := map n | n in domains :: domains[n].icon;
    var aliases := map n | n in domains && domains[n].templateForDispvms :: DispvmKey(n) := domains[n].icon;
    assert aliases.Keys == DispvmKeys(domains);
    own + aliases
  }

  /** Every ask target that names a domain of the table, or the
      disposable-VM name of a template in it, has an icon. */
  lemma IconsCoverTargets(domains: DomainTable, targets: seq<string>)
    requires forall i :: 0 <= i < |targets| ==>
      targets[i] in domains || targets[i] in DispvmKeys(domains)
    ensures forall i :: 0 <= i < |targets| ==> targets[i] in Icons(domains)
  {
  }
}
