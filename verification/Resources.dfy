/** The six counted resources of a node. */
module Resources {

  /** CPU is counted in hundredths of a core, as the numeric(10,2) columns are. */
  datatype Res = Res(cpu: int, memory: int, disk: int, ipv4: int, ipv6: int, nats: int)

  datatype Kind = Cpu | Memory | Disk | Ipv4 | Ipv6 | Nats

  const ZERO := Res(0, 0, 0, 0, 0, 0)

  function At(a: Res, k: Kind): int {
    match k
    case Cpu => a.cpu
    case Memory => a.memory
    case Disk => a.disk
    case Ipv4 => a.ipv4
    case Ipv6 => a.ipv6
    case Nats => a.nats
  }

  function Plus(a: Res, b: Res): (r: Res)
    ensures forall k :: At(r, k) == At(a, k) + At(b, k)
  {
    Res(a.cpu + b.cpu, a.memory + b.memory, a.disk + b.disk, a.ipv4 + b.ipv4, a.ipv6 + b.ipv6, a.nats + b.nats)
  }

  function Minus(a: Res, b: Res): (r: Res)
    ensures forall k :: At(r, k) == At(a, k) - At(b, k)
  {
    Res(a.cpu - b.cpu, a.memory - b.memory, a.disk - b.disk, a.ipv4 - b.ipv4, a.ipv6 - b.ipv6, a.nats - b.nats)
  }

  predicate Leq(a: Res, b: Res) {
    forall k :: At(a, k) <= At(b, k)
  }
}
