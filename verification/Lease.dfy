/** Lease timing (crates/protocol/src/lease.rs). Timestamps are Unix seconds. */
module Leases {
  import opened Wrappers

  const LEASE_SECONDS: u64 := 60
  const ADMISSION_MIN_REMAINING_SECONDS: u64 := 20
  const ABSOLUTE_TTL_SECONDS: u64 := 28_800

  datatype Health = Healthy | RenewalGrace | Expired

  datatype Admission = Allowed | RenewalRequired | AdmissionExpired | BindingRevoked

  datatype RenewalOutcome = Renewed(until: u64) | Rejected | RenewalExpired

  datatype Lease = Lease(
    generation: u64,
    activatedAt: u64,
    leaseUntil: u64,
    absoluteTtlUntil: u64,
    health: Health,
    graceUntil: Option<u64>,
    revoked: bool)
  {
    function Admit(now: u64): Admission {
      if revoked then BindingRevoked
      else if now >= absoluteTtlUntil || now >= leaseUntil then AdmissionExpired
      else if !health.Healthy? then RenewalRequired
      else if leaseUntil - now < ADMISSION_MIN_REMAINING_SECONDS then RenewalRequired
      else Allowed
    }

    function Revoke(): Lease {
      this.(revoked := true, health := Expired, graceUntil := None)
    }

    function Renew(expectedGeneration: u64, now: u64): (Lease, RenewalOutcome) {
      if revoked || expectedGeneration != generation then (this, Rejected)
      else if now >= absoluteTtlUntil then (this.(health := Expired), RenewalExpired)
      else
        var candidate := if SatAdd(now, LEASE_SECONDS) <= absoluteTtlUntil then SatAdd(now, LEASE_SECONDS)
                         else absoluteTtlUntil;
        if candidate <= now then (this.(health := Expired), RenewalExpired)
        else (this.(leaseUntil := candidate, health := Healthy, graceUntil := None), Renewed(candidate))
    }

    /** The lease never outlives the binding's absolute lifetime. */
    predicate Bounded() {
      leaseUntil <= absoluteTtlUntil
    }

    /** A grace interval always has its deadline. */
    predicate GraceHasDeadline() {
      health.RenewalGrace? ==> graceUntil.Some?
    }
  }

  function NewLease(generation: u64, now: u64): Lease {
    Lease(generation, now, SatAdd(now, LEASE_SECONDS), SatAdd(now, ABSOLUTE_TTL_SECONDS), Healthy, None, false)
  }

  /** A renewal that is granted leaves a bounded lease that reaches past `now`, for every clock value. */
  lemma RenewalStaysBounded(lease: Lease, expectedGeneration: u64, now: u64)
    requires lease.Bounded()
    ensures var r := lease.Renew(expectedGeneration, now);
      && r.0.Bounded() && r.0.generation == lease.generation && r.0.revoked == lease.revoked
      && (r.1.Renewed? <==>
            !lease.revoked && expectedGeneration == lease.generation && now < lease.absoluteTtlUntil && now < U64_MAX)
      && (r.1.Renewed? ==> r.0.health.Healthy? && now < r.0.leaseUntil <= SatAdd(now, LEASE_SECONDS))
      && (!r.1.Renewed? ==> r.0.leaseUntil == lease.leaseUntil)
  {}
}
