/** The wrapper of the counter contract: the layout of its persistent storage, the way its
    address is derived, the bodies of the five messages it is sent, and the order in which
    the results of its two get-methods are read. */
module MainContract {
  import opened Bits
  import opened Results
  import opened Cells
  import opened Tuple
  import opened Transport

  /** The configuration the contract is deployed with. */
  datatype MainContractConfig = MainContractConfig(number: int, address: Address, ownerAddress: Address)

  /** Whether a configuration can be written at all: the counter is a u32 and both
      workchains are int8. */
  predicate Encodable(config: MainContractConfig)
  {
    && 0 <= config.number < Pow2(32)
    && FitsInt(config.address.workchain, 8)
    && FitsInt(config.ownerAddress.workchain, 8)
  }

  // Storage

  /** `mainContractConfigToCell`: the counter as a 32-bit unsigned integer, then the
      address, then the owner address, in one cell with no references. A counter outside
      u32 or a workchain outside int8 is refused, never truncated. */
  function ConfigToCell(config: MainContractConfig): (r: Result<Cell>)
    ensures r.Ok? <==> Encodable(config)
    ensures r.Err? ==> r.error == OutOfRange
    ensures r.Ok? ==> r.value.refs == [] && |r.value.bits| == 32 + 267 + 267 <= MaxBits
    ensures r.Ok? ==>
      r.value.bits == UintBits(config.number, 32) + AddressBits(config.address) + AddressBits(config.ownerAddress)
  {
    var b1 :- BeginCell().StoreUint(config.number, 32);
    var b2 :- b1.StoreAddress(config.address);
    var b3 :- b2.StoreAddress(config.ownerAddress);
    Ok(b3.EndCell())
  }

  /** The reading side of the storage layout. */
  function ParseConfig(c: Cell): Option<MainContractConfig>
  {
    if c.refs != [] then None
    else
      var number :- LoadUint(c.bits, 32);
      var address :- LoadAddress(number.1);
      var owner :- LoadAddress(address.1);
      if owner.1 != [] then None
      else Some(MainContractConfig(number.0, address.0, owner.0))
  }

  /** The storage cell holds exactly the configuration: reading its three fields back, in
      order, gives the counter, the address and the owner address, with nothing left. */
  lemma ConfigRoundTrip(config: MainContractConfig)
    requires Encodable(config)
    ensures ParseConfig(ConfigToCell(config).value) == Some(config)
  {
    var c := ConfigToCell(config).value;
    var ownerBits := AddressBits(config.ownerAddress);
    var rest := AddressBits(config.address) + ownerBits;
    AppendAssoc(UintBits(config.number, 32), AddressBits(config.address), ownerBits);
    LoadUintRoundTrip(config.number, 32, rest);
    LoadAddressRoundTrip(config.address, ownerBits);
    assert ownerBits == ownerBits + [];
    LoadAddressRoundTrip(config.ownerAddress, []);
  }

  /** Different configurations never share a storage cell. */
  lemma ConfigToCellInjective(c1: MainContractConfig, c2: MainContractConfig)
    requires ConfigToCell(c1).Ok? && ConfigToCell(c2).Ok?
    requires ConfigToCell(c1) == ConfigToCell(c2)
    ensures c1 == c2
  {
    ConfigRoundTrip(c1);
    ConfigRoundTrip(c2);
  }

  // Identity

  /** ton-core's `StateInit`: the code and the initial data of a contract. */
  datatype StateInit = StateInit(code: Cell, data: Cell)

  /** ton-core's `contractAddress(workchain, init)`: the address is the workchain with
      the representation hash of the state init. The hash is outside the model; any
      function of the two will do. */
  type AddressOf = (int, StateInit) -> Address

  /** The state init `createFromConfig` builds: the given code and the storage cell. */
  function InitOf(config: MainContractConfig, code: Cell): (r: Result<StateInit>)
    ensures r.Ok? <==> Encodable(config)
    ensures r.Err? ==> r.error == OutOfRange
    ensures r.Ok? ==> r.value.code == code && ConfigToCell(config) == Ok(r.value.data)
  {
    var data :- ConfigToCell(config);
    Ok(StateInit(code, data))
  }

  /** Two configurations give the same state init only if they are equal, so they give
      different addresses whenever `contractAddress` does not map their two inits to the
      same address. */
  lemma DistinctConfigsDistinctAddresses(
    contractAddress: AddressOf, c1: MainContractConfig, c2: MainContractConfig, code: Cell, workchain: int)
    requires Encodable(c1) && Encodable(c2) && c1 != c2
    requires contractAddress(workchain, InitOf(c1, code).value) == contractAddress(workchain, InitOf(c2, code).value)
      ==> InitOf(c1, code).value == InitOf(c2, code).value
    ensures InitOf(c1, code).value != InitOf(c2, code).value
    ensures contractAddress(workchain, InitOf(c1, code).value) != contractAddress(workchain, InitOf(c2, code).value)
  {
    if InitOf(c1, code).value == InitOf(c2, code).value {
      ConfigToCellInjective(c1, c2);
    }
  }

  // Message bodies

  /** The op codes written in front of a message body, each as a 32-bit unsigned field.
      Deploy and deposit share op 2; the empty no-code-deposit body has no op at all. */
  const OpIncrement: nat := 1
  const OpDeploy: nat := 2
  const OpDeposit: nat := 2
  const OpWithdraw: nat := 3

  /** The body of `sendDeploy`: op 2 as a 32-bit field, nothing else. */
  function DeployBody(): (c: Cell)
    ensures c == Cell(UintBits(OpDeploy, 32), [])
  {
    BeginCell().StoreUint(OpDeploy, 32).value.EndCell()
  }

  /** The body of `sendIncrement`: op 1, then the increment as a 32-bit unsigned field.
      An increment outside u32 is refused, never truncated. */
  function IncrementBody(incrementBy: int): (r: Result<Cell>)
    ensures r.Ok? <==> 0 <= incrementBy < Pow2(32)
    ensures r.Err? ==> r.error == OutOfRange
    ensures r.Ok? ==> r.value == Cell(UintBits(OpIncrement, 32) + UintBits(incrementBy, 32), [])
  {
    var b1 := BeginCell().StoreUint(OpIncrement, 32).value;
    var b2 :- b1.StoreUint(incrementBy, 32);
    Ok(b2.EndCell())
  }

  /** The body of `sendDeposit`: op 2 as a 32-bit field, nothing else. */
  function DepositBody(): (c: Cell)
    ensures c == Cell(UintBits(OpDeposit, 32), [])
  {
    BeginCell().StoreUint(OpDeposit, 32).value.EndCell()
  }

  /** The body of `sendNoCodeDeposit`: the empty cell. */
  function NoCodeDepositBody(): (c: Cell)
    ensures |c.bits| == 0 && |c.refs| == 0
  {
    BeginCell().EndCell()
  }

  /** The body of `sendWithdrawalRequest`: op 3, then the amount as coins. A negative
      amount, or one of 2^120 or more, is refused. */
  function WithdrawalBody(amount: int): (r: Result<Cell>)
    ensures amount < 0 ==> r == Err(NegativeAmount)
    ensures amount >= Pow2(120) ==> r == Err(OutOfRange)
    ensures r.Ok? <==> 0 <= amount < Pow2(120)
    ensures r.Ok? ==> r.value == Cell(UintBits(OpWithdraw, 32) + CoinsBits(amount), [])
    ensures r.Ok? ==> |r.value.bits| == 32 + 4 + 8 * ByteLen(amount)
  {
    var b1 := BeginCell().StoreUint(OpWithdraw, 32).value;
    ByteLenBound(if amount < 0 then 0 else amount);
    var b2 :- b1.StoreCoins(amount);
    Ok(b2.EndCell())
  }

  /** Deploy and deposit send the same bits: the contract cannot tell them apart by
      their body. */
  lemma DeployDepositCollide()
    ensures DeployBody() == DepositBody()
    ensures LoadUint(DeployBody().bits, 32) == Some((2, []))
  {
    LoadUintRoundTrip(OpDeploy, 32, []);
    assert UintBits(OpDeploy, 32) + [] == UintBits(OpDeploy, 32);
  }

  /** The increment body reads back as op 1 and the increment, 64 bits in all. */
  lemma IncrementBodyFields(incrementBy: int)
    requires 0 <= incrementBy < Pow2(32)
    ensures |IncrementBody(incrementBy).value.bits| == 64
    ensures var bits := IncrementBody(incrementBy).value.bits;
      LoadUint(bits, 32) == Some((1, bits[32..])) && LoadUint(bits[32..], 32) == Some((incrementBy, []))
  {
    var bits := IncrementBody(incrementBy).value.bits;
    var tail := UintBits(incrementBy, 32);
    LoadUintRoundTrip(OpIncrement, 32, tail);
    assert bits[32..] == tail;
    assert tail == tail + [];
    LoadUintRoundTrip(incrementBy, 32, []);
  }

  /** The withdrawal body reads back as op 3 and the amount, with nothing left. */
  lemma WithdrawalBodyFields(amount: int)
    requires 0 <= amount < Pow2(120)
    ensures var bits := WithdrawalBody(amount).value.bits;
      LoadUint(bits, 32) == Some((3, bits[32..])) && LoadCoins(bits[32..]) == Some((amount, []))
  {
    var bits := WithdrawalBody(amount).value.bits;
    var tail := CoinsBits(amount);
    LoadUintRoundTrip(OpWithdraw, 32, tail);
    assert bits[32..] == tail;
    assert tail == tail + [];
    LoadCoinsRoundTrip(amount, []);
  }

  // Get-method results

  const StorageDataMethod: string := "get_contract_storage_data"
  const BalanceMethod: string := "balance"

  /** What `getData` returns. */
  datatype StorageData = StorageData(number: int, recentSender: Address, ownerAddress: Address)

  /** What `getBalance` returns. */
  datatype Balance = Balance(balance: int)

  /** The value `getData` makes of a result stack: a number, then an address, then an
      address, stopping at the first slot that is missing or of the wrong kind. */
  function DecodeStorageData(stack: seq<Slot>): (r: Result<StorageData>)
    ensures r.Ok? <==> |stack| >= 3 && stack[0].Num? && stack[1].Addr? && stack[2].Addr?
    ensures r.Ok? ==> r.value == StorageData(stack[0].n, stack[1].address, stack[2].address)
    ensures r.Err? ==> (r.error == StackUnderflow <==>
      (|stack| < 3 && forall i :: 0 <= i < |stack| ==> stack[i].Num? == (i == 0)))
    ensures r.Err? && r.error != StackUnderflow ==> r.error == TypeMismatch
  {
    if |stack| == 0 then Err(StackUnderflow)
    else if !stack[0].Num? then Err(TypeMismatch)
    else if |stack| == 1 then Err(StackUnderflow)
    else if !stack[1].Addr? then Err(TypeMismatch)
    else if |stack| == 2 then Err(StackUnderflow)
    else if !stack[2].Addr? then Err(TypeMismatch)
    else Ok(StorageData(stack[0].n, stack[1].address, stack[2].address))
  }

  /** The value `getBalance` makes of a result stack: one number. */
  function DecodeBalance(stack: seq<Slot>): (r: Result<Balance>)
    ensures r.Ok? <==> |stack| >= 1 && stack[0].Num?
    ensures r.Ok? ==> r.value == Balance(stack[0].n)
    ensures r.Err? ==> r.error == (if |stack| == 0 then StackUnderflow else TypeMismatch)
  {
    if |stack| == 0 then Err(StackUnderflow)
    else if !stack[0].Num? then Err(TypeMismatch)
    else Ok(Balance(stack[0].n))
  }

  /** Only the first three slots of the storage stack are read. */
  lemma DecodeStorageDataReadsThree(stack: seq<Slot>)
    requires |stack| >= 3
    ensures DecodeStorageData(stack) == DecodeStorageData(stack[..3])
  {
  }

  /** Only the first slot of the balance stack is read. */
  lemma DecodeBalanceReadsOne(stack: seq<Slot>)
    requires |stack| >= 1
    ensures DecodeBalance(stack) == DecodeBalance(stack[..1])
  {
  }

  // The contract wrapper

  class MainContract {
    const address: Address
    const init: Option<StateInit>

    constructor (address: Address, init: Option<StateInit>)
      ensures this.address == address && this.init == init
    {
      this.address := address;
      this.init := init;
    }

    /** `createFromConfig`: the data is the storage cell of `config`, the code is the
        given code, and the address is derived from both with the workchain, 0 unless
        given. It fails exactly when the storage cell cannot be written. */
    static method CreateFromConfig(contractAddress: AddressOf, config: MainContractConfig, code: Cell, workchain: int := 0)
      returns (r: Result<MainContract>)
      ensures r.Ok? <==> Encodable(config)
      ensures r.Err? ==> r.error == OutOfRange
      ensures r.Ok? ==> fresh(r.value)
      ensures r.Ok? ==> r.value.init == Some(InitOf(config, code).value)
      ensures r.Ok? ==> r.value.address == contractAddress(workchain, InitOf(config, code).value)
    {
      var data :- ConfigToCell(config);
      var init := StateInit(code, data);
      var address := contractAddress(workchain, init);
      var c := new MainContract(address, Some(init));
      return Ok(c);
    }

    /** `sendDeploy`: the value as given, fees paid separately, the deploy body. */
    method SendDeploy(provider: Provider, via: Sender, value: int)
      modifies provider
      ensures provider.sent == old(provider.sent) + [InternalMessage(via, value, PayGasSeparately, DeployBody())]
      ensures provider.calls == old(provider.calls)
    {
      provider.Internal(via, value, PayGasSeparately, DeployBody());
    }

    /** `sendIncrement`: as `sendDeploy` with the increment body; when the body cannot be
        built nothing is sent and the error is returned. */
    method SendIncrement(provider: Provider, sender: Sender, value: int, incrementBy: int) returns (o: Outcome)
      modifies provider
      ensures 0 <= incrementBy < Pow2(32) ==> o == Pass
      ensures 0 <= incrementBy < Pow2(32) ==>
        provider.sent == old(provider.sent) + [InternalMessage(sender, value, PayGasSeparately, IncrementBody(incrementBy).value)]
      ensures !(0 <= incrementBy < Pow2(32)) ==> o == Fail(OutOfRange) && provider.sent == old(provider.sent)
      ensures provider.calls == old(provider.calls)
    {
      var body := IncrementBody(incrementBy);
      if body.Err? {
        return Fail(body.error);
      }
      provider.Internal(sender, value, PayGasSeparately, body.value);
      o := Pass;
    }

    /** `sendDeposit`: as `sendDeploy` with the deposit body. */
    method SendDeposit(provider: Provider, sender: Sender, value: int)
      modifies provider
      ensures provider.sent == old(provider.sent) + [InternalMessage(sender, value, PayGasSeparately, DepositBody())]
      ensures provider.calls == old(provider.calls)
    {
      provider.Internal(sender, value, PayGasSeparately, DepositBody());
    }

    /** `sendNoCodeDeposit`: as `sendDeploy` with the empty body. */
    method SendNoCodeDeposit(provider: Provider, sender: Sender, value: int)
      modifies provider
      ensures provider.sent == old(provider.sent) + [InternalMessage(sender, value, PayGasSeparately, NoCodeDepositBody())]
      ensures provider.calls == old(provider.calls)
    {
      provider.Internal(sender, value, PayGasSeparately, NoCodeDepositBody());
    }

    /** `sendWithdrawalRequest`: as `sendDeploy` with the withdrawal body; when the amount
        cannot be written nothing is sent and the error is returned. */
    method SendWithdrawalRequest(provider: Provider, sender: Sender, value: int, amount: int) returns (o: Outcome)
      modifies provider
      ensures 0 <= amount < Pow2(120) ==> o == Pass
      ensures 0 <= amount < Pow2(120) ==>
        provider.sent == old(provider.sent) + [InternalMessage(sender, value, PayGasSeparately, WithdrawalBody(amount).value)]
      ensures amount < 0 ==> o == Fail(NegativeAmount) && provider.sent == old(provider.sent)
      ensures amount >= Pow2(120) ==> o == Fail(OutOfRange) && provider.sent == old(provider.sent)
      ensures provider.calls == old(provider.calls)
    {
      var body := WithdrawalBody(amount);
      if body.Err? {
        return Fail(body.error);
      }
      provider.Internal(sender, value, PayGasSeparately, body.value);
      o := Pass;
    }

    /** `getData`: runs `get_contract_storage_data` with no arguments and reads a number,
        an address and an address off the stack, in that order. */
    method GetData(provider: Provider) returns (r: Result<StorageData>)
      modifies provider
      ensures provider.calls == old(provider.calls) + [GetCall(StorageDataMethod, [])]
      ensures provider.sent == old(provider.sent)
      ensures r == DecodeStorageData(provider.answer(GetCall(StorageDataMethod, [])))
    {
      var stack := provider.Get(StorageDataMethod, []);
      var number :- stack.ReadNumber();
      var recentSender :- stack.ReadAddress();
      var ownerAddress :- stack.ReadAddress();
      r := Ok(StorageData(number, recentSender, ownerAddress));
    }

    /** `getBalance`: runs `balance` with no arguments and reads one number. */
    method GetBalance(provider: Provider) returns (r: Result<Balance>)
      modifies provider
      ensures provider.calls == old(provider.calls) + [GetCall(BalanceMethod, [])]
      ensures provider.sent == old(provider.sent)
      ensures r == DecodeBalance(provider.answer(GetCall(BalanceMethod, [])))
    {
      var stack := provider.Get(BalanceMethod, []);
      var balance :- stack.ReadNumber();
      r := Ok(Balance(balance));
    }
  }

  /** Creating the contract twice from the same arguments gives the same address and the
      same state init. */
  method CreateFromConfigIsDeterministic(contractAddress: AddressOf, config: MainContractConfig, code: Cell, workchain: int)
    returns (first: Result<MainContract>, second: Result<MainContract>)
    ensures first.Ok? == second.Ok?
    ensures first.Ok? ==> first.value.address == second.value.address && first.value.init == second.value.init
  {
    first := MainContract.CreateFromConfig(contractAddress, config, code, workchain);
    second := MainContract.CreateFromConfig(contractAddress, config, code, workchain);
  }

  /** The storage stack (42, a, b) reads as counter 42, recent sender a and owner b, and a
      fourth read runs off the end of the stack. */
  method StorageStackReadOrder(a: Address, b: Address) returns (data: Result<StorageData>, fourth: Result<Address>)
    ensures data == Ok(StorageData(42, a, b))
    ensures fourth == Err(StackUnderflow)
  {
    var stack := new TupleReader([Num(42), Addr(a), Addr(b)]);
    var number := stack.ReadNumber();
    var recentSender := stack.ReadAddress();
    var ownerAddress := stack.ReadAddress();
    data := Ok(StorageData(number.value, recentSender.value, ownerAddress.value));
    fourth := stack.ReadAddress();
  }
}
