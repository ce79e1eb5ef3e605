/** The agent's enrolment with the hub, and the file it remembers its device id in. */
module EnrollmentService {
  import opened Prelude
  import opened Crypto
  import opened Entities
  import opened DeviceService
  import opened KeyService

  datatype DeviceConfig = DeviceConfig(deviceId: string, tenantId: string, userId: string)

  /** What outlives the agent's process. */
  datatype Disk = Disk(keys: KeyStore, config: Option<DeviceConfig>)

  /** What becomes of the enrolment request: the hub answers, the answer is lost, or it never gets there. */
  datatype Fate = Answered | AnswerLost | NeverSent

  datatype Attempt = Attempt(
    tenantId: string,
    userId: string,
    displayName: string,
    guid: string,
    platform: Platform,
    drawn: Key)

  function DeviceIdFor(d: Disk, t: Attempt): string {
    if d.config.Some? then d.config.value.deviceId else t.guid
  }

  function RequestOf(d: Disk, t: Attempt): EnrollDto {
    var loaded := InitializeKey(d.keys, t.platform, t.drawn).1;
    EnrollDto(t.tenantId, DeviceIdFor(d, t), t.userId, t.displayName, Pub(loaded.key), Some("RSA-2048"),
      Some(loaded.hardwareBound))
  }

  function HubHears(h: Hub, d: Disk, t: Attempt, fate: Fate, now: nat): Hub {
    if fate.NeverSent? then h else Enroll(h, RequestOf(d, t), now).0
  }

  predicate Succeeds(h: Hub, d: Disk, t: Attempt, fate: Fate, now: nat) {
    fate.Answered? && Enroll(h, RequestOf(d, t), now).1.Ok?
  }

  /** The file is written only after the hub has answered with success. */
  function DiskAfter(h: Hub, d: Disk, t: Attempt, fate: Fate, now: nat): Disk {
    Disk(InitializeKey(d.keys, t.platform, t.drawn).0,
         if Succeeds(h, d, t, fate, now) then Some(DeviceConfig(DeviceIdFor(d, t), t.tenantId, t.userId)) else d.config)
  }

  class ConfigFile {
    var saved: Option<DeviceConfig>
  }

  class EnrollmentService {
    const keys: KeyService
    const file: ConfigFile
    var deviceId: Option<string>
    var tenantId: Option<string>
    var userId: Option<string>

    constructor (keys: KeyService, file: ConfigFile)
      ensures this.keys == keys && this.file == file
      ensures deviceId == tenantId == userId == None
    {
      this.keys := keys;
      this.file := file;
      deviceId, tenantId, userId := None, None, None;
    }

    ghost function OnDisk(): Disk
      reads keys.store, file
    {
      Disk(keys.store.Keys(), file.saved)
    }

    method EnrollAsync(hub: DeviceService, t: Attempt, fate: Fate, now: nat) returns (ok: bool)
      requires hub.audit.prisma == hub.prisma
      modifies this, keys, keys.store, file, hub.prisma
      ensures ok <==> Succeeds(old(Tables(hub.prisma)), old(OnDisk()), t, fate, now)
      ensures Tables(hub.prisma) == HubHears(old(Tables(hub.prisma)), old(OnDisk()), t, fate, now)
      ensures OnDisk() == DiskAfter(old(Tables(hub.prisma)), old(OnDisk()), t, fate, now)
      ensures deviceId == Some(DeviceIdFor(old(OnDisk()), t)) && tenantId == Some(t.tenantId)
        && userId == Some(t.userId)
      ensures keys.rsa.Some?
      ensures Loaded(keys.rsa.value, keys.hardwareBound) == InitializeKey(old(OnDisk()).keys, t.platform, t.drawn).1
      ensures file.saved == if ok then Some(DeviceConfig(deviceId.value, t.tenantId, t.userId)) else old(file.saved)
      ensures ok ==> deviceId.value in hub.prisma.devices
      ensures ok ==> var row := hub.prisma.devices[deviceId.value];
        && row.publicKey == Pub(keys.rsa.value) && row.hardwareBound == keys.hardwareBound
        && row.status == Active && row.lastHeartbeat == Some(now)
        && (deviceId.value !in old(hub.prisma.devices) ==>
              row.tenantId == t.tenantId && row.userId == t.userId && row.displayName == t.displayName)
      ensures ok ==> var (claim, algorithm) := (Some(keys.hardwareBound), Some("RSA-2048"));
        hub.prisma.auditEvents == old(hub.prisma.auditEvents) + [AuditEvent(t.tenantId, None, t.userId,
          if deviceId.value in old(hub.prisma.devices) then DeviceReEnrolled(deviceId.value, claim, algorithm)
          else DeviceEnrolled(deviceId.value, t.displayName, claim, algorithm))]
    {
      tenantId, userId := Some(t.tenantId), Some(t.userId);
      var config := file.saved;
      var id := if config.Some? then config.value.deviceId else t.guid;
      deviceId := Some(id);
      keys.Initialize(t.platform, t.drawn);
      var pem := keys.GetPublicKeyPem();
      var dto := EnrollDto(t.tenantId, id, t.userId, t.displayName, pem.value, Some("RSA-2048"),
        Some(keys.hardwareBound));
      if fate.NeverSent? {
        return false;
      }
      var answer := hub.EnrollDevice(dto, now);
      if fate.AnswerLost? || answer.Err? {
        return false;
      }
      file.saved := Some(DeviceConfig(id, t.tenantId, t.userId));
      ok := true;
    }
  }
}
