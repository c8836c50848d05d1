/**
 * The billing rule applied when a vehicle leaves: whole hours, rounded up,
 * at least one; the price is those hours at the vehicle's hourly rate.
 */
module Billing {

  const MsPerHour: int := 3_600_000

  /** `Math.ceil(a / d)` for a positive divisor (Dafny's `/` floors when d > 0). */
  function CeilDiv(a: int, d: int): (c: int)
    requires d > 0
    ensures (c - 1) * d < a <= c * d
  {
    -((-a) / d)
  }

  /** `Math.max(1, Math.ceil(ms / 3_600_000))`: the hours billed for `ms` milliseconds parked. */
  function Horas(ms: int): (h: nat)
    ensures h >= 1
    ensures ms <= 0 ==> h == 1
    ensures ms > 0 ==> (h - 1) * MsPerHour < ms <= h * MsPerHour
  {
    var c := CeilDiv(ms, MsPerHour);
    if c < 1 then 1 else c
  }

  /** The price in cents: billed hours times the hourly rate in cents. */
  function Preco(horas: nat, valorHora: nat): (p: nat)
    ensures horas >= 1 ==> p >= valorHora
  {
    horas * valorHora
  }

  /** Two hours and fifteen minutes are billed as three hours: 30.00 at 10.00 an hour. */
  lemma BillingExample()
    ensures Horas(2 * MsPerHour + 15 * 60_000) == 3
    ensures Preco(Horas(2 * MsPerHour + 15 * 60_000), 1000) == 3000
  {
  }

  /** The bounds on Horas pin it down: no other whole number of hours fits them. */
  lemma HorasUnique(ms: int, h: int)
    requires ms > 0 && (h - 1) * MsPerHour < ms <= h * MsPerHour
    ensures h == Horas(ms)
  {
  }

  /** Billing never decreases as the stay grows longer. */
  lemma HorasMonotonic(a: int, b: int)
    requires a <= b
    ensures Horas(a) <= Horas(b)
  {
  }
}
