/**
 * The part of the TON network the deploy script can observe: the deployer
 * wallet's seqno and the set of addresses that hold an initialized contract.
 * How the network moves on while the script waits is not known to the script;
 * it is given as a script of ticks, one consumed per two-second delay.
 */
module Network {
  import opened Ton

  /** What changes during one delay: the wallet seqno grows by `advance`, and the addresses in `landed` become deployed. */
  datatype Tick = Tick(advance: nat, landed: set<Address>)

  /** The observable chain state, and the ticks still to come. */
  datatype Chain = Chain(seqno: nat, deployed: set<Address>, ticks: seq<Tick>)

  /**
   * One delay (`sleep(2000)`): the next tick, if any, happens. The wallet seqno
   * never goes back and no deployed contract disappears.
   */
  function Advance(c: Chain): (r: Chain)
    ensures c.seqno <= r.seqno && c.deployed <= r.deployed
    ensures c.ticks == [] ==> r == c
  {
    if c.ticks == [] then c
    else Chain(c.seqno + c.ticks[0].advance, c.deployed + c.ticks[0].landed, c.ticks[1..])
  }
}
