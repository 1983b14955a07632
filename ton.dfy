/**
 * The vocabulary the deploy script borrows from the TON library: addresses,
 * cells, the internal message a wallet transfer carries, and the amounts the
 * script uses, written as integer nanotons.
 */
module Ton {
  import opened Wrappers

  /** A contract address; how the library hashes it is not modelled. */
  datatype Address = Address(id: nat)

  /** A cell: serialized data or code, opaque to the deploy script. */
  datatype Cell = Cell(id: nat)

  /** The state-init attached to a deploying message: initial data and code. */
  datatype StateInit = StateInit(data: Cell, code: Cell)

  /**
   * A signed wallet transfer carrying one internal message: the wallet seqno
   * it consumes, its send mode, the destination, the value in nanotons, the
   * bounce flag, the state-init and the optional message body.
   */
  datatype Transfer = Transfer(
    seqno: nat,
    sendMode: nat,
    to: Address,
    value: nat,
    bounce: bool,
    stateInit: StateInit,
    body: Option<Cell>)

  /** `SendMode.PAY_GAS_SEPARATLY` and `SendMode.IGNORE_ERRORS` of the TON library. */
  const PayGasSeparately: nat := 1
  const IgnoreErrors: nat := 2

  /** `toNano(0.2)`: the smallest wallet balance the script accepts at startup. */
  const MinWalletBalance: nat := 200_000_000

  /** `toNano(0.02)`: the value sent to every new contract. */
  const Funding: nat := 20_000_000

  /** The masterchain, where both the wallet and the new contracts live. */
  const Workchain: int := -1

  /**
   * `contractAddress({workchain, initialData, initialCode})`: derives the
   * address from the workchain, the data cell and the code cell, or throws
   * (`None`). Being a function, it gives the same answer for the same triple.
   */
  type Deriver = (int, Cell, Cell) -> Option<Address>
}
