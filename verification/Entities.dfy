/** The rows, the stored records and the whole state of the hub, as values. */
module Entities {
  import opened Prelude
  import opened Crypto

  datatype DeviceStatus = Active | Revoked

  datatype TrustStatus = Verified | Unverified | Stale | Unknown | External | Failed

  datatype Device = Device(
    tenantId: string,
    userId: string,
    displayName: string,
    publicKey: PublicKey,
    keyAlgorithm: string,
    hardwareBound: bool,
    status: DeviceStatus,
    lastHeartbeat: Option<nat>)

  datatype Meeting = Meeting(tenantId: string, name: string)

  datatype Participant = Participant(
    meetingId: string,
    userId: string,
    displayName: string,
    deviceId: Option<string>,
    trust: TrustStatus,
    boundAt: Option<nat>,
    lastChallengeAt: Option<nat>)

  /** The JSON stored under `challenge:<id>`; the last three fields never leave the hub. */
  datatype Challenge = Challenge(
    id: string,
    nonce: string,
    meetingId: string,
    participantId: string,
    issuedAt: nat,
    expiresAt: nat,
    tenantId: string,
    deviceId: string,
    userId: string)

  /** The JSON stored under `join_token:<token>`. */
  datatype JoinToken = JoinToken(meetingId: string, participantId: string, expiresAt: nat)

  datatype Expiring<V> = Expiring(value: V, deadline: Option<nat>)

  /** What the agent receives in `challenge:issue`; instants travel as text. */
  datatype Payload = Payload(
    challengeId: string,
    nonce: string,
    meetingId: string,
    participantId: string,
    issuedAt: string,
    expiresAt: string)

  datatype Detail =
    | MeetingCreated(name: string)
    | DeviceEnrolled(deviceId: string, displayName: string, claim: Option<bool>, algorithm: Option<string>)
    | DeviceReEnrolled(deviceId: string, claim: Option<bool>, algorithm: Option<string>)
    | ParticipantJoined(displayName: string, participantId: string)
    | DeviceBound(participantId: string, deviceId: string, hardwareBound: bool)
    | ChallengeNoDevice(participantId: string, displayName: string)
    | ChallengeIssued(challengeId: string, participantId: string, displayName: string, deviceId: string)
    | ChallengeJudged(passed: bool, challengeId: string, participantId: string, deviceId: string,
                      status: TrustStatus, hardwareBound: bool, signatureValid: bool)

  datatype AuditEvent = AuditEvent(tenantId: string, meetingId: Option<string>, actor: string, detail: Detail)

  /** A call the hub makes on its WebSocket gateway. */
  datatype Notice =
    | ChallengeToDevice(deviceId: string, payload: Payload)
    | MeetingUpdate(meetingId: string, participantId: string, status: TrustStatus)

  datatype Hub = Hub(
    tenants: set<string>,
    devices: map<string, Device>,
    meetings: map<string, Meeting>,
    participants: map<string, Participant>,
    challenges: map<string, Expiring<Challenge>>,
    tokens: map<string, Expiring<JoinToken>>,
    audit: seq<AuditEvent>,
    notices: seq<Notice>)
}
