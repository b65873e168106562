/** Domain events, scores and the outside world the scoring rules read. */
module Events {
  import opened Wrappers
  import opened U256

  /** The text `txHash_index`, kept as the pair it is printed from. */
  datatype EventId = EventId(txHash: string, index: nat)

  /** Nanoseconds since the epoch. */
  type Time = int

  const NANOS_PER_SECOND := 1_000_000_000

  /** Whole seconds, rounded down also before the epoch. */
  function Unix(t: Time): int {
    t / NANOS_PER_SECOND
  }

  type Attributes = map<string, string>

  /** Reading a missing key of a Go map yields the empty string. */
  function Lookup(m: Attributes, key: string): string {
    if key in m then m[key] else ""
  }

  datatype DomainEvent = DomainEvent(
    recordedAt: Time,
    data: Attributes,
    metadata: Attributes,
    eventId: EventId,
    eventNameFelt: string,
    eventName: string,
    fromAddress: string,
    walletAddress: string,
    keys: seq<string>)
  {
    function ProjectName(): Option<string> {
      if "project_name" in metadata then Some(metadata["project_name"]) else None
    }

    /** The events that carry funded money. */
    predicate IsFunding() {
      eventName == "minter:buy" || eventName == "minter:airdrop" || eventName == "migrator:migration"
    }

    /** The events whose funding may be boosted: migrations are not. */
    predicate IsMint() {
      eventName == "minter:buy" || eventName == "minter:airdrop"
    }
  }

  datatype RuleName = AmountFunded | NumberOfProjects | EarlyAdopter | Offseter | Resaler

  datatype Boost = Boost(name: string, displayName: string, value: nat)

  datatype Score = Score(points: u256, rule: RuleName, boosts: seq<Boost>, event: DomainEvent)

  /**
   * What the scoring rules read from outside: the hexadecimal parser (None is a parse error) and
   * the value collected by a minter up to a point in time (None is a database error).
   */
  datatype Env = Env(parse: string -> Option<u256>, minterValue: (string, Time) -> Option<u256>)
}
