/** The agent's half of both signing strings. */
module AgentSigning {
  import opened Prelude
  import opened Framing
  import opened Crypto
  import opened Entities

  /** What a running agent signs with: its key and the enrolment fields, which may be null. */
  datatype Identity = Identity(key: Key, tenantId: Option<string>, deviceId: Option<string>, userId: Option<string>)

  function AgentLines(a: Identity, p: Payload): seq<string> {
    ["troofai-v1", p.challengeId, a.tenantId.GetOr(""), a.deviceId.GetOr(""), a.userId.GetOr(""),
     p.meetingId, p.participantId, p.nonce, p.issuedAt, p.expiresAt]
  }

  /** The console lines cut the three ids at eight characters, so a shorter one throws and nothing is returned. */
  predicate Printable(p: Payload) {
    |p.challengeId| >= 8 && |p.meetingId| >= 8 && |p.participantId| >= 8
  }

  function SignChallenge(a: Identity, p: Payload): Option<Signature> {
    if Printable(p) then Some(Sig(a.key, Join(AgentLines(a, p)))) else None
  }

  datatype BindingTuple = BindingTuple(token: string, meetingId: string, participantId: string, expiresAt: string)

  function BindingLines(a: Identity, b: BindingTuple): seq<string> {
    [b.token, b.meetingId, b.participantId, a.deviceId.GetOr(""), b.expiresAt]
  }

  function SignBinding(a: Identity, b: BindingTuple): Signature {
    Sig(a.key, Join(BindingLines(a, b)))
  }
}
