/** Packet types, the next-step decision table and the recirculation ports it uses. */
module SwitchTables {
  import opened Jobs

  /** The 4-bit packet type codes. */
  type PacketType = t: nat | t < 16
  const CONSUME0: PacketType := 4
  const CONSUME1: PacketType := 5
  const CONSUME2: PacketType := 6
  const CONSUME3: PacketType := 7
  const HARVEST0: PacketType := 8
  const HARVEST1: PacketType := 9
  const HARVEST2: PacketType := 10
  const HARVEST3: PacketType := 11
  const HARVEST4: PacketType := 12
  const HARVEST5: PacketType := 13
  const HARVEST6: PacketType := 14
  const HARVEST7: PacketType := 15

  predicate IsConsume(t: PacketType) {
    CONSUME0 <= t <= CONSUME3
  }

  predicate IsHarvest(t: PacketType) {
    HARVEST0 <= t
  }

  /** The two data headers; an action keeps at most one of them valid. */
  datatype Half = D0 | D1

  datatype Action =
    | Drop
    | FinishConsume
    | ForConsume(next: PacketType, port: nat)
    | ForHarvest(next: PacketType, port: nat, keep: Half)
    | Broadcast
    | Retransmit

  /** The top two bits of a 9-bit device port name the pipe. */
  function PipeOfPort(port: nat): nat {
    port / 128
  }

  /** Ports whose packets the ingress parser treats as recirculated rather than as Ethernet frames. */
  predicate ParsedAsRecirculated(port: nat) {
    port == 64 || port == 68 || (port != 320 && 1 <= PipeOfPort(port) <= 3)
  }

  /**
   * The next_step table: the first row that matches decides. `flag` is first_last_flag, `dup` says whether
   * map_result is nonzero. The alternate recirculation port is off, as in the table's default action.
   */
  function NextStep(size: PacketSize, worker: nat, t: PacketType, flag: nat, dup: bool,
                    workerType: WorkerType, ingressPort: nat): Action
  {
    if size == Mtu128 then Drop

    else if size == Mtu256 && t == CONSUME0 && flag == 1 then ForHarvest(HARVEST7, 68, D1)
    else if size == Mtu256 && t == CONSUME0 && !dup then FinishConsume
    else if size == Mtu256 && t == CONSUME0 && flag == 0 then ForHarvest(HARVEST7, 68, D1)
    else if size == Mtu256 && t == CONSUME0 then Drop

    else if size == Mtu512 then Drop

    else if size == Mtu1024 && t == CONSUME0 && !dup then ForConsume(CONSUME1, 128 + 4 * (worker % 16))
    else if size == Mtu1024 && t == CONSUME0 && flag == 0 then ForConsume(CONSUME1, 128 + 4 * (worker % 16))
    else if size == Mtu1024 && t == CONSUME0 then Drop
    else if size == Mtu1024 && t == CONSUME1 then ForConsume(CONSUME2, 256 + ingressPort % 128)
    else if size == Mtu1024 && t == CONSUME2 then ForConsume(CONSUME3, 384 + ingressPort % 128)
    else if size == Mtu1024 && t == CONSUME3 && flag == 1 then ForHarvest(HARVEST1, 452, D1)
    else if size == Mtu1024 && t == CONSUME3 && !dup then FinishConsume
    else if size == Mtu1024 && t == CONSUME3 && flag == 0 then ForHarvest(HARVEST1, 452, D1)
    else if size == Mtu1024 && t == CONSUME3 then Drop
    else if size == Mtu1024 && t == HARVEST0 then ForHarvest(HARVEST1, 452, D1)
    else if size == Mtu1024 && t == HARVEST1 then ForHarvest(HARVEST2, 324, D0)
    else if size == Mtu1024 && t == HARVEST2 then ForHarvest(HARVEST3, ingressPort, D1)
    else if size == Mtu1024 && t == HARVEST3 then ForHarvest(HARVEST4, 196, D0)
    else if size == Mtu1024 && t == HARVEST4 then ForHarvest(HARVEST5, 196, D1)
    else if size == Mtu1024 && t == HARVEST5 then ForHarvest(HARVEST6, 64, D0)
    else if size == Mtu1024 && t == HARVEST6 then ForHarvest(HARVEST7, 68, D1)

    else if t == HARVEST7 && flag == 1 && !dup && workerType == SwitchmlUdp then Broadcast
    else if t == HARVEST7 && flag == 1 && !dup && workerType == Rocev2 then Broadcast
    else if t == HARVEST7 && flag == 1 && !dup then Drop
    else if t == HARVEST7 && flag == 0 && !dup then Drop
    else if t == HARVEST7 && flag == 0 && workerType == SwitchmlUdp then Retransmit
    else if t == HARVEST7 && flag == 0 && workerType == Rocev2 then Retransmit
    else Drop
  }

  /** The half of its pipe's registers that a harvest pass of type t reads: odd types read d0, even types d1. */
  function HarvestHalf(t: PacketType): Half {
    if t % 2 == 1 then D0 else D1
  }

  /** Harvest type t collects slice 15 - t of the packet, which pipe (15 - t) / 2 stores. */
  function HarvestPipe(t: PacketType): nat {
    (15 - t) / 2
  }
}
