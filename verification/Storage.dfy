/** The two stores behind the hub: Redis keys with a time to live, and the database tables. */
module Storage {
  import opened Prelude
  import opened Entities

  // ---- Expiring keys as values ----

  /** `SET key value EX ttl`; a time to live of zero is falsy in the source and sets no deadline. */
  function Put<V>(m: map<string, Expiring<V>>, key: string, value: V, ttlSeconds: nat, now: nat)
    : map<string, Expiring<V>>
  {
    m[key := Expiring(value, if ttlSeconds == 0 then None else Some(now + 1000 * ttlSeconds))]
  }

  predicate Live<V>(m: map<string, Expiring<V>>, key: string, now: nat) {
    key in m && (m[key].deadline.Some? ==> now <= m[key].deadline.value)
  }

  function Lookup<V>(m: map<string, Expiring<V>>, key: string, now: nat): Option<V> {
    if Live(m, key, now) then Some(m[key].value) else None
  }

  function Drop<V>(m: map<string, Expiring<V>>, key: string): map<string, Expiring<V>> {
    m - {key}
  }

  /**
   One key prefix of the Redis client. The two prefixes in use start with
   different letters, so their keys never meet and each gets its own store.
   */
  class RedisService<V> {
    var entries: map<string, Expiring<V>>

    constructor ()
      ensures entries == map[]
    {
      entries := map[];
    }

    method Set(key: string, value: V, ttlSeconds: nat, now: nat)
      modifies this
      ensures entries == Put(old(entries), key, value, ttlSeconds, now)
    {
      if ttlSeconds != 0 {
        entries := entries[key := Expiring(value, Some(now + 1000 * ttlSeconds))];
      } else {
        entries := entries[key := Expiring(value, None)];
      }
    }

    method Get(key: string, now: nat) returns (r: Option<V>)
      ensures r == Lookup(entries, key, now)
    {
      if key !in entries {
        return None;
      }
      var entry := entries[key];
      match entry.deadline
      case None => r := Some(entry.value);
      case Some(d) => r := if now <= d then Some(entry.value) else None;
    }

    method Del(key: string)
      modifies this
      ensures entries == Drop(old(entries), key)
      ensures forall now :: Lookup(entries, key, now) == None
      ensures forall k, now :: k != key ==> Lookup(entries, k, now) == Lookup(old(entries), k, now)
    {
      entries := entries - {key};
    }
  }

  /** The database client: one table a field. */
  class PrismaService {
    const tenants: set<string>
    var devices: map<string, Device>
    var meetings: map<string, Meeting>
    var participants: map<string, Participant>
    var auditEvents: seq<AuditEvent>

    constructor (tenants: set<string>)
      ensures this.tenants == tenants
      ensures devices == map[] && meetings == map[] && participants == map[] && auditEvents == []
    {
      this.tenants := tenants;
      devices, meetings, participants, auditEvents := map[], map[], map[], [];
    }
  }

  /** The hub's whole state, from its tables and from what its other parts hold. */
  ghost function HubOf(prisma: PrismaService, challenges: map<string, Expiring<Challenge>>,
                       tokens: map<string, Expiring<JoinToken>>, notices: seq<Notice>): Hub
    reads prisma
  {
    Hub(prisma.tenants, prisma.devices, prisma.meetings, prisma.participants,
        challenges, tokens, prisma.auditEvents, notices)
  }

  class AuditService {
    const prisma: PrismaService

    constructor (prisma: PrismaService)
      ensures this.prisma == prisma
    {
      this.prisma := prisma;
    }

    method Log(event: AuditEvent)
      modifies prisma`auditEvents
      ensures prisma.auditEvents == old(prisma.auditEvents) + [event]
    {
      prisma.auditEvents := prisma.auditEvents + [event];
    }
  }
}
