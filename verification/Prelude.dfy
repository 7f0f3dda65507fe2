/** Types shared by every component of the billing backend's model. */
module Prelude {

  datatype Option<+T> = None | Some(value: T)

  /** Microseconds since the Unix epoch, UTC. */
  type Time = int

  const SECOND: Time := 1_000_000
  const MINUTE: Time := 60 * SECOND

  /** An amount in minor units of a currency. */
  datatype Price = Price(minor: int, currency: string)

  type OrderId = nat
  type NodeId = nat

  /**
   * Operation identifiers.  Most are random UUIDs; a provision operation's UUID is derived from
   * its purchase order and the item's index, which the model keeps as the pair itself.
   */
  datatype OpId = Random(n: nat) | Provision(order: OrderId, index: int)

  /** Idempotency keys of operations: free text from callers, or "provision:order:index". */
  datatype Key = Text(text: string) | ProvisionKey(order: OrderId, index: int)

  /** 2 to the power min(n, 8): the capped exponential used by both retry schedules. */
  function CappedPower(n: nat): nat
    decreases n
  {
    if n == 0 then 1 else if n > 8 then CappedPower(8) else 2 * CappedPower(n - 1)
  }

  /** The schedule strictly doubles up to the ninth attempt and stays at 256 from there on. */
  lemma {:induction false} CappedPowerGrows(m: nat, n: nat)
    requires m <= n
    ensures 1 <= CappedPower(m) <= CappedPower(n) <= 256
    ensures m < n <= 8 ==> CappedPower(m) < CappedPower(n)
    ensures CappedPower(0) == 1 && (n < 8 ==> CappedPower(n + 1) == 2 * CappedPower(n))
    ensures n >= 8 ==> CappedPower(n) == 256
  {
    CappedPowerTable();
    if m < n <= 8 && m < n - 1 { CappedPowerGrows(m, n - 1); }
  }

  lemma CappedPowerTable()
    ensures CappedPower(0) == 1 && CappedPower(1) == 2 && CappedPower(2) == 4
    ensures CappedPower(3) == 8 && CappedPower(4) == 16 && CappedPower(5) == 32
    ensures CappedPower(6) == 64 && CappedPower(7) == 128 && CappedPower(8) == 256
  {
    assert CappedPower(2) == 4;
    assert CappedPower(4) == 16;
    assert CappedPower(6) == 64;
  }
}
