/**
 The idempotency markers that review consumers keep in Redis, one key per event, and the
 store object that reads and writes them.

 The pure functions are the single Redis commands. `RedisEventIdempotencyStore` runs them
 back to back, as one consumer does when no other client interferes; module ReviewProtocol
 interleaves the same functions command by command.
 */
module ReviewMarkers {
  import opened Wrappers

  // Identifiers are only ever compared for equality.
  type EventId = nat
  type ConsumerId = nat

  datatype Status = Completed | EvidenceRequired | ManualRequired | Failed

  /** A parsed Redis value. `owner` is absent in markers written by older releases. */
  datatype Marker =
    | Processing(owner: Option<ConsumerId>, attempt: nat, updatedAt: int)
    | Terminal(status: Status)
    | Unreadable

  /** `version` is unique to each write; Redis itself keeps it only as the WATCH state. */
  datatype Cell = Cell(marker: Marker, expiresAt: int, version: nat)

  type Cells = map<EventId, Cell>

  datatype Settings = Settings(ttlSeconds: int, staleSeconds: int, heartbeatSeconds: int)

  function Ttl(cfg: Settings): int {
    if cfg.ttlSeconds < 60 then 60 else cfg.ttlSeconds
  }

  function StaleAfter(cfg: Settings): int {
    if cfg.staleSeconds < 30 then 30 else cfg.staleSeconds
  }

  /** GET followed by parsing: an absent key parses to a marker with no usable status. */
  function Read(cells: Cells, e: EventId): Marker {
    if e in cells then cells[e].marker else Unreadable
  }

  /** A marker whose timestamp is missing counts as stale. */
  predicate Fresh(cfg: Settings, m: Marker, now: int) {
    m.Processing? && m.updatedAt > 0 && now - m.updatedAt < StaleAfter(cfg)
  }

  predicate OwnedBy(m: Marker, c: ConsumerId) {
    m.Processing? && (m.owner == None || m.owner == Some(c))
  }

  /** SET key PROCESSING EX ttl. */
  function WriteProcessing(cfg: Settings, cells: Cells, e: EventId, c: ConsumerId, attempt: nat, now: int,
                           version: nat): Cells
  {
    cells[e := Cell(Processing(Some(c), attempt, now), now + Ttl(cfg), version)]
  }

  /** SET key <terminal status> EX ttl. */
  function WriteTerminal(cfg: Settings, cells: Cells, e: EventId, st: Status, now: int, version: nat): Cells {
    cells[e := Cell(Terminal(st), now + Ttl(cfg), version)]
  }

  datatype Claim =
    | Granted(attempt: nat)
    | Settled(status: Status)  // acknowledge without processing
    | Busy                     // another consumer holds a PROCESSING marker
    | Unknown                  // no status could be read

  /** What one uninterrupted claim does to the store, and what it answers. */
  function ClaimEffect(cfg: Settings, cells: Cells, e: EventId, c: ConsumerId, now: int, version: nat)
    : (r: (Cells, Claim))
  {
    if e !in cells then
      (WriteProcessing(cfg, cells, e, c, 1, now, version), Granted(1))
    else match cells[e].marker
      case Terminal(st) => (cells, Settled(st))
      case Unreadable => (cells, Unknown)
      case Processing(_, attempt, _) =>
        if Fresh(cfg, cells[e].marker, now) then (cells, Busy)
        else (WriteProcessing(cfg, cells, e, c, attempt + 1, now, version), Granted(attempt + 1))
  }

  /** The Redis-backed store of one consumer process, used without interference. */
  class RedisEventIdempotencyStore {
    const cfg: Settings
    const consumer: ConsumerId
    var cells: Cells
    var writes: nat

    constructor (cfg: Settings, consumer: ConsumerId, cells: Cells)
      ensures this.cfg == cfg && this.consumer == consumer && this.cells == cells && writes == 0
    {
      this.cfg, this.consumer, this.cells, this.writes := cfg, consumer, cells, 0;
    }

    method Claim(e: EventId, now: int) returns (r: Claim)
      modifies this
      ensures (cells, r) == ClaimEffect(cfg, old(cells), e, consumer, now, old(writes))
      ensures writes == old(writes) + if r.Granted? then 1 else 0
    {
      if e !in cells {
        cells := WriteProcessing(cfg, cells, e, consumer, 1, now, writes);
        writes := writes + 1;
        return Granted(1);
      }
      var raw := Read(cells, e);
      if raw.Terminal? {
        return Settled(raw.status);
      }
      if !raw.Processing? {
        return Unknown;
      }
      if Fresh(cfg, raw, now) {
        return Busy;
      }
      var watched := Read(cells, e);
      if watched != raw {
        return Busy;
      }
      cells := WriteProcessing(cfg, cells, e, consumer, raw.attempt + 1, now, writes);
      writes := writes + 1;
      return Granted(raw.attempt + 1);
    }

    method RefreshProcessing(e: EventId, now: int)
      modifies this
      ensures OwnedBy(Read(old(cells), e), consumer) ==>
                cells == WriteProcessing(cfg, old(cells), e, consumer, old(cells)[e].marker.attempt, now, old(writes))
      ensures !OwnedBy(Read(old(cells), e), consumer) ==> cells == old(cells)
    {
      var current := Read(cells, e);
      if OwnedBy(current, consumer) {
        cells := WriteProcessing(cfg, cells, e, consumer, current.attempt, now, writes);
        writes := writes + 1;
      }
    }

    method Mark(e: EventId, st: Status, now: int)
      modifies this
      ensures cells == WriteTerminal(cfg, old(cells), e, st, now, old(writes))
    {
      cells := WriteTerminal(cfg, cells, e, st, now, writes);
      writes := writes + 1;
    }

    method Release(e: EventId)
      modifies this
      ensures cells == if OwnedBy(Read(old(cells), e), consumer) then old(cells) - {e} else old(cells)
    {
      if OwnedBy(Read(cells, e), consumer) {
        cells := cells - {e};
      }
    }
  }
}
