/** Enrolment, re-enrolment and heartbeats. */
module DeviceService {
  import opened Prelude
  import opened Crypto
  import opened Entities
  import opened Storage

  datatype EnrollDto = EnrollDto(
    tenantId: string,
    deviceId: string,
    userId: string,
    displayName: string,
    publicKey: PublicKey,
    keyAlgorithm: Option<string>,
    hardwareBound: Option<bool>)

  datatype EnrollError = UnknownTenant

  /** `key_algorithm || 'RSA-2048'`: the empty text counts as missing. */
  function AlgorithmOf(dto: EnrollDto): string {
    if dto.keyAlgorithm.Some? && dto.keyAlgorithm.value != "" then dto.keyAlgorithm.value else "RSA-2048"
  }

  function NewRow(dto: EnrollDto, now: nat): Device {
    Device(dto.tenantId, dto.userId, dto.displayName, dto.publicKey, AlgorithmOf(dto),
           dto.hardwareBound.GetOr(false), Active, Some(now))
  }

  /** Re-enrolment keeps the row's tenant, user and name. */
  function RefreshedRow(row: Device, dto: EnrollDto, now: nat): Device {
    row.(publicKey := dto.publicKey, keyAlgorithm := AlgorithmOf(dto),
         hardwareBound := dto.hardwareBound.GetOr(false), status := Active, lastHeartbeat := Some(now))
  }

  function EnrollEvent(dto: EnrollDto, known: bool): AuditEvent {
    AuditEvent(dto.tenantId, None, dto.userId,
               if known then DeviceReEnrolled(dto.deviceId, dto.hardwareBound, dto.keyAlgorithm)
               else DeviceEnrolled(dto.deviceId, dto.displayName, dto.hardwareBound, dto.keyAlgorithm))
  }

  /** An enrolment writes the row unless the device is new and its tenant unknown. */
  predicate Rewrites(h: Hub, dto: EnrollDto) {
    dto.deviceId in h.devices || dto.tenantId in h.tenants
  }

  /**
   An unknown tenant breaks the foreign key of the new device row, or, for a
   known device, that of the audit row after the device row is already updated.
   */
  function Enroll(h: Hub, dto: EnrollDto, now: nat): (Hub, Result<Device, EnrollError>) {
    if dto.deviceId in h.devices then
      var row := RefreshedRow(h.devices[dto.deviceId], dto, now);
      var h1 := h.(devices := h.devices[dto.deviceId := row]);
      if dto.tenantId !in h.tenants then (h1, Err(UnknownTenant))
      else (h1.(audit := h1.audit + [EnrollEvent(dto, true)]), Ok(row))
    else if dto.tenantId !in h.tenants then (h, Err(UnknownTenant))
    else
      var row := NewRow(dto, now);
      (h.(devices := h.devices[dto.deviceId := row], audit := h.audit + [EnrollEvent(dto, false)]), Ok(row))
  }

  /** An update of a row that is not there throws; the gateway swallows the error. */
  function Heartbeat(h: Hub, deviceId: string, now: nat): Hub {
    if deviceId in h.devices then
      h.(devices := h.devices[deviceId := h.devices[deviceId].(lastHeartbeat := Some(now))])
    else h
  }

  /** The part of the hub these handlers can reach. */
  ghost function Tables(prisma: PrismaService): Hub
    reads prisma
  {
    HubOf(prisma, map[], map[], [])
  }

  class DeviceService {
    const prisma: PrismaService
    const audit: AuditService

    constructor (prisma: PrismaService, audit: AuditService)
      requires audit.prisma == prisma
      ensures this.prisma == prisma && this.audit == audit
    {
      this.prisma := prisma;
      this.audit := audit;
    }

    method EnrollDevice(dto: EnrollDto, now: nat) returns (r: Result<Device, EnrollError>)
      requires audit.prisma == prisma
      modifies prisma
      ensures (Tables(prisma), r) == Enroll(old(Tables(prisma)), dto, now)
    {
      if dto.deviceId in prisma.devices {
        var device := prisma.devices[dto.deviceId].(
          publicKey := dto.publicKey,
          keyAlgorithm := AlgorithmOf(dto),
          hardwareBound := dto.hardwareBound.GetOr(false),
          status := Active,
          lastHeartbeat := Some(now));
        prisma.devices := prisma.devices[dto.deviceId := device];
        if dto.tenantId !in prisma.tenants {
          return Err(UnknownTenant);
        }
        audit.Log(EnrollEvent(dto, true));
        return Ok(device);
      }
      if dto.tenantId !in prisma.tenants {
        return Err(UnknownTenant);
      }
      var device := NewRow(dto, now);
      prisma.devices := prisma.devices[dto.deviceId := device];
      audit.Log(EnrollEvent(dto, false));
      r := Ok(device);
    }

    method RecordHeartbeat(deviceId: string, now: nat) returns (found: bool)
      modifies prisma
      ensures Tables(prisma) == Heartbeat(old(Tables(prisma)), deviceId, now)
      ensures found <==> deviceId in old(prisma.devices)
    {
      if deviceId !in prisma.devices {
        return false;
      }
      prisma.devices := prisma.devices[deviceId := prisma.devices[deviceId].(lastHeartbeat := Some(now))];
      found := true;
    }

    method FindById(deviceId: string) returns (r: Option<Device>)
      ensures r == if deviceId in prisma.devices then Some(prisma.devices[deviceId]) else None
    {
      r := if deviceId in prisma.devices then Some(prisma.devices[deviceId]) else None;
    }
  }
}
