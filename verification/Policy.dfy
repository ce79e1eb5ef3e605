/** The ordered trust rules. */
module Policy {
  import opened Prelude
  import opened Entities

  const HEARTBEAT_STALE_MS: nat := 5 * 60 * 1000

  datatype PolicyInput = PolicyInput(
    status: DeviceStatus,
    lastHeartbeat: Option<nat>,
    hardwareBound: bool,
    signatureValid: bool,
    challengeExpired: bool,
    hasMeetingBinding: bool)

  function Evaluate(input: PolicyInput, now: nat): TrustStatus {
    if input.status != Active then Failed
    else if input.challengeExpired then Failed
    else if !input.signatureValid then Failed
    else if !input.hasMeetingBinding then Unknown
    else if input.lastHeartbeat.Some? && now - input.lastHeartbeat.value > HEARTBEAT_STALE_MS then Stale
    else Verified
  }

  /** The rules as a table: each status exactly, with the limit in milliseconds. */
  lemma RuleTable(input: PolicyInput, now: nat)
    ensures var sound := input.status == Active && !input.challengeExpired && input.signatureValid;
      var late := input.lastHeartbeat.Some? && now - input.lastHeartbeat.value > 300_000;
      && (Evaluate(input, now) == Failed <==> !sound)
      && (Evaluate(input, now) == Unknown <==> sound && !input.hasMeetingBinding)
      && (Evaluate(input, now) == Stale <==> sound && input.hasMeetingBinding && late)
      && (Evaluate(input, now) == Verified <==> sound && input.hasMeetingBinding && !late)
  {
  }

  /** What the hub hands to the policy engine; the binding flag is the constant the source passes. */
  function InputFor(device: Device, signatureValid: bool, expired: bool, hasMeetingBinding: bool): PolicyInput {
    PolicyInput(device.status, device.lastHeartbeat, device.hardwareBound, signatureValid, expired, hasMeetingBinding)
  }
}
