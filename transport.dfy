/** The transport the contract wrapper talks through: ton-core's `ContractProvider`
    (`internal` to send a message, `get` to run a get-method) and the `Sender` wallet.
    Submission and the chain itself are outside the model: the provider only records
    what it is handed, and the stack a get-method returns is a given function of the
    call. */
module Transport {
  import opened Results
  import opened Cells
  import opened Tuple

  /** `SendMode.PAY_GAS_SEPARATELY`: forwarding fees are paid on top of the value. */
  const PayGasSeparately: nat := 1

  /** The wallet that signs an outgoing message; only its optional address is visible. */
  datatype Sender = Sender(address: Option<Address>)

  /** What `provider.internal(via, { value, sendMode, body })` is handed. */
  datatype InternalMessage = InternalMessage(via: Sender, value: int, sendMode: nat, body: Cell)

  /** A get-method invocation: its name and its argument stack. */
  datatype GetCall = GetCall(name: string, args: seq<Slot>)

  class Provider {
    /** Every message handed to `internal`, oldest first. */
    var sent: seq<InternalMessage>
    /** Every get-method invoked through `get`, oldest first. */
    var calls: seq<GetCall>
    /** The result stack the chain returns for a get-method call. */
    const answer: GetCall -> seq<Slot>

    constructor (answer: GetCall -> seq<Slot>)
      ensures sent == [] && calls == [] && this.answer == answer
    {
      sent := [];
      calls := [];
      this.answer := answer;
    }

    /** `provider.internal(via, args)`: hands one internal message to the wallet. */
    method Internal(via: Sender, value: int, sendMode: nat, body: Cell)
      modifies this
      ensures sent == old(sent) + [InternalMessage(via, value, sendMode, body)]
      ensures calls == old(calls)
    {
      sent := sent + [InternalMessage(via, value, sendMode, body)];
    }

    /** `provider.get(name, args)`: runs a get-method and returns a reader positioned at
        the first slot of its result stack. */
    method Get(name: string, args: seq<Slot>) returns (stack: TupleReader)
      modifies this
      ensures fresh(stack) && stack.Valid() && stack.Remaining() == answer(GetCall(name, args))
      ensures calls == old(calls) + [GetCall(name, args)]
      ensures sent == old(sent)
    {
      calls := calls + [GetCall(name, args)];
      stack := new TupleReader(answer(GetCall(name, args)));
    }
  }
}
