/** Profiles and the decisions the policy engine takes from them. */
module Policy {
  import opened Basics
  import opened Schema

  datatype RiskClass = Low | Medium | High | Critical
  datatype NetworkMode = Deny | Restricted | Allowlist
  datatype ExportMode = ByRequest | ByApproval
  datatype Requester = Human | Agent | Scheduler

  datatype Profile = Profile(
    name: string,
    runtime: RuntimeClass,
    risk: RiskClass,
    network: NetworkMode,
    exportMode: ExportMode,
    approvalOnStart: bool,
    approvalOnExport: bool,
    allowHostMounts: bool,
    allowedSecrets: seq<string>)

  type Profiles = map<string, Profile>

  predicate HighRisk(p: Profile) { p.risk.High? || p.risk.Critical? }

  /** The combinations a profile may be built with. */
  predicate ValidCombinations(p: Profile) {
    && (p.runtime.MicroVm? ==>
          && p.network.Deny?
          && p.exportMode.ByApproval?
          && p.approvalOnStart
          && !p.allowHostMounts)
    && (HighRisk(p) ==> p.approvalOnExport)
    && !(p.risk.Low? && p.runtime.MicroVm?)
  }

  /** Every registered profile was validated and is registered under its own name. */
  predicate ValidRegistry(profiles: Profiles) {
    forall n :: n in profiles ==> profiles[n].name == n && ValidCombinations(profiles[n])
  }

  /** `validate_request` with no overrides: does this lab need a start approval? */
  function StartNeedsApproval(p: Profile, requester: Requester): bool {
    p.approvalOnStart || (requester != Human && HighRisk(p))
  }

  datatype ExportDecision = ExportDecision(allowed: bool, approvalRequired: bool, quarantineRequired: bool)

  predicate StartsWith(s: string, prefix: string) { IsPrefix(prefix, s) }

  function ValidateExport(p: Profile, source: string): ExportDecision {
    if !StartsWith(source, "/lab/exports/") && !StartsWith(source, "/artifacts/approved/") then
      ExportDecision(false, true, true)
    else
      ExportDecision(true, p.approvalOnExport, HighRisk(p))
  }

  /** No export of a valid high-risk profile goes through without approval and quarantine. */
  lemma HighRiskExportsAreGated(p: Profile, source: string)
    requires ValidCombinations(p) && HighRisk(p)
    ensures var d := ValidateExport(p, source); d.approvalRequired && d.quarantineRequired
  {
  }

  /** A micro-VM lab never starts unapproved, and a high-risk one never does for an agent or the scheduler. */
  lemma RiskyStartsAreGated(p: Profile, requester: Requester)
    requires ValidCombinations(p)
    requires p.runtime.MicroVm? || (HighRisk(p) && requester != Human)
    ensures StartNeedsApproval(p, requester)
  {
  }

  const DEFAULT_PROFILES: Profiles := map[
    "safe-dev" := Profile("safe-dev", Container, Low, Restricted, ByRequest, false, false, false, []),
    "model-local" := Profile("model-local", Container, Medium, Restricted, ByRequest, false, true, false, []),
    "research-persistent" :=
      Profile("research-persistent", Container, High, Restricted, ByApproval, false, true, false, []),
    "red-zone" := Profile("red-zone", MicroVm, Critical, Deny, ByApproval, true, true, false, [])
  ]

  lemma DefaultsAreValid()
    ensures ValidRegistry(DEFAULT_PROFILES)
  {
  }

  /**
   * Of the built-in profiles only red-zone waits for approval on start, runs in a micro-VM and is cut off the network;
   * only safe-dev exports without approval; none allows a secret or a host mount.
   */
  lemma DefaultsGate(n: string)
    requires n in DEFAULT_PROFILES
    ensures n in {"safe-dev", "model-local", "research-persistent", "red-zone"}
    ensures var p := DEFAULT_PROFILES[n];
      && (p.approvalOnStart <==> n == "red-zone")
      && (p.approvalOnExport <==> n != "safe-dev")
      && p.runtime == (if n == "red-zone" then MicroVm else Container)
      && p.network == (if n == "red-zone" then NetworkMode.Deny else Restricted)
      && p.exportMode == (if n == "red-zone" || n == "research-persistent" then ByApproval else ByRequest)
      && p.risk == (if n == "safe-dev" then Low else if n == "model-local" then Medium
                    else if n == "research-persistent" then High else Critical)
      && p.allowedSecrets == [] && !p.allowHostMounts
  {
  }
}
