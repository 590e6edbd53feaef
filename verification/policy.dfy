/** What the policy source hands to the executable: a classification of the
    request together with the matched rule's notify flag. Only the three
    shapes matter here; the rule text and its file location are not
    modelled. */
module Policy {
  import opened Wrappers

  /** The classification a policy lookup produces. The notify flag defaults
      differ per kind: a deny notifies unless the rule says otherwise, an
      allow or an ask does not. */
  datatype Classification =
    | Allow(target: string, notify: bool := false)
    | Ask(targetsForAsk: seq<string>, defaultTarget: Option<string> := None, notify: bool := false)
    | Deny(notify: bool := true)

  /** Omitting the notify flag gives the per-kind default. */
  lemma NotifyDefaults(target: string, targets: seq<string>, default: Option<string>)
    ensures !Allow(target).notify
    ensures !Ask(targets).notify && !Ask(targets, default).notify
    ensures Deny().notify
    ensures Ask(targets).defaultTarget == None
  {
  }
}
