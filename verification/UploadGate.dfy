/** The gate every upload request passes (`createRequestGate` in upload-chart-patterns.ts): it hands out
    slots an interval apart and holds all workers back while the server asks them to wait. Times are in
    milliseconds. */
module UploadGate {
  import opened Common

  const LIMIT := 1200
  const WINDOW := 60000

  /** The least time between two slots: the window over nine tenths of the limit, rounded up. */
  const INTERVAL: nat := (10 * WINDOW + 9 * LIMIT - 1) / (9 * LIMIT)

  const FALLBACK_PAUSE := WINDOW
  const MAX_PAUSE := 300000
  const MIN_PAUSE := 1000
  const MAX_CONSECUTIVE: nat := 5

  /** How long a pause lasts for what `Retry-After` asks, in seconds. */
  function PauseFor(retryAfter: Option<nat>): (ms: int)
    ensures MIN_PAUSE <= ms <= MAX_PAUSE
  {
    var asked := match retryAfter
                 case None => FALLBACK_PAUSE
                 case Some(seconds) => seconds * 1000;
    var atLeast := if asked < MIN_PAUSE then MIN_PAUSE else asked;
    if atLeast > MAX_PAUSE then MAX_PAUSE else atLeast
  }

  datatype Gate = Gate(nextSlotAt: int, pausedUntil: int, consecutive: nat, total: nat) {

    function NextSlot(now: int): int {
      if now > nextSlotAt then now else nextSlotAt
    }

    function Reserved(now: int): Gate {
      this.(nextSlotAt := NextSlot(now) + INTERVAL)
    }

    predicate LetsPass(now: int) {
      pausedUntil <= now
    }

    function GotThrough(): Gate {
      this.(consecutive := 0)
    }

    /** A request sent then finds a pause it is part of. */
    predicate Joins(sentAt: int) {
      pausedUntil > sentAt
    }

    predicate GivesUp(sentAt: int) {
      !Joins(sentAt) && consecutive >= MAX_CONSECUTIVE
    }

    function RateLimited(now: int, sentAt: int, retryAfter: Option<nat>): Gate {
      if Joins(sentAt) || GivesUp(sentAt) then this
      else Gate(nextSlotAt, now + PauseFor(retryAfter), consecutive + 1, total + 1)
    }
  }

  const FRESH := Gate(0, 0, 0, 0)

  /** The gate as the program keeps it; each method is one stretch between two awaits. */
  class RequestGate {
    var nextSlotAt: int
    var pausedUntil: int
    var consecutivePauses: nat
    var totalPauses: nat

    ghost function State(): Gate
      reads this
    {
      Gate(nextSlotAt, pausedUntil, consecutivePauses, totalPauses)
    }

    constructor ()
      ensures State() == FRESH
    {
      nextSlotAt, pausedUntil, consecutivePauses, totalPauses := 0, 0, 0, 0;
    }

    method Reserve(now: int) returns (slot: int)
      modifies this`nextSlotAt
      ensures State() == old(State()).Reserved(now)
      ensures now <= slot && old(nextSlotAt) <= slot && slot + INTERVAL <= nextSlotAt
    {
      slot := if now > nextSlotAt then now else nextSlotAt;
      nextSlotAt := slot + INTERVAL;
    }

    method GotThrough()
      modifies this`consecutivePauses
      ensures State() == old(State()).GotThrough()
    {
      consecutivePauses := 0;
    }

    /** Whether the request is to be sent again. */
    method RateLimited(now: int, sentAt: int, retryAfter: Option<nat>) returns (again: bool)
      modifies this
      ensures State() == old(State()).RateLimited(now, sentAt, retryAfter)
      ensures again == !old(State()).GivesUp(sentAt)
      ensures sentAt <= now ==> old(pausedUntil) <= pausedUntil
    {
      if pausedUntil > sentAt {
        return true;
      }
      if consecutivePauses >= MAX_CONSECUTIVE {
        return false;
      }
      consecutivePauses := consecutivePauses + 1;
      totalPauses := totalPauses + 1;
      var asked := FALLBACK_PAUSE;
      if retryAfter.Some? {
        asked := retryAfter.value * 1000;
      }
      if asked < MIN_PAUSE {
        asked := MIN_PAUSE;
      }
      if asked > MAX_PAUSE {
        asked := MAX_PAUSE;
      }
      pausedUntil := now + asked;
      return true;
    }
  }
}
