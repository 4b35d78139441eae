# MainContract wire format in Dafny

A model of `src/contracts/MainContract.ts`, the TypeScript wrapper of a TON counter
contract. The wrapper fixes a small serialisation format, and that format is what is
modelled and proved here:

- the storage cell written by `mainContractConfigToCell`: a 32-bit counter, then the
  contract's address, then the owner's address;
- how `createFromConfig` derives the contract's state init and address;
- the bodies of the five messages the wrapper sends (deploy, increment, deposit,
  no-code deposit, withdrawal request), each sent with the caller's value and
  `PAY_GAS_SEPARATELY`;
- the order in which `getData` and `getBalance` read the result stacks of their
  get-methods.

The wrapper itself only chains calls on ton-core, so a minimal model of that library
sits underneath it. It is labelled as such in each file:

- `bits.dfy` (module `Bits`): big-endian unsigned fields, sign-bit signed fields, and
  minimal byte lengths, with the round trip of the unsigned field.
- `cells.dfy` (module `Cells`): the `Cell`, the `Builder` returned by `beginCell()`,
  the `Address`, and the layouts `storeUint`, `storeInt`, `storeAddress` and
  `storeCoins` write. Addresses use `addr_std$10` and coins use `VarUInteger 16`, both
  from TON's block.tlb. Each layout has a `Load*` reading side and a decoding
  round-trip lemma, the signed and coins fields included.
- `tuple.dfy` (module `Tuple`): the result-stack reader, a class with a cursor.
- `transport.dfy` (module `Transport`): the provider. It records the internal messages
  it is handed and the get-methods it is asked to run, and answers each get-method
  with a stack that is a given function of the call.
- `results.dfy` (module `Results`): the error kinds and the `Result`, `Option` and
  `Outcome` wrappers. Every error ton-core throws becomes an `Err`.
- `main_contract.dfy` (module `MainContract`): the wrapper itself.

The builder is a value, not an object. The wrapper only ever chains stores on a fresh
builder and drops it after `endCell()` or a throw, so each store is a function from
builder to builder. The stack reader is a class, because `getData` relies on its
cursor moving by one slot per read.

## Model

| member | source | states |
|---|---|---|
| Bits.UintBits | src/contracts/MainContract.ts:17 | the big-endian field written for a value below 2^n has exactly n bits |
| Bits.BitsToNatOfUintBits | src/contracts/MainContract.ts:17 | reading the n bits written for v as an unsigned number gives v |
| Bits.UintBitsOfBitsToNat | src/contracts/MainContract.ts:17 | every n-bit string is the field written for its own value, so the unsigned layout is a bijection onto n-bit strings |
| Bits.UintBitsInjective | src/contracts/MainContract.ts:17 | two values below 2^n with the same n-bit field are equal |
| Bits.IntBits | src/contracts/MainContract.ts:18-19 | the signed field of an address workchain has n bits and starts with the sign bit |
| Bits.BitLength | src/contracts/MainContract.ts:123 | the bit length of v is the least r with v < 2^r |
| Bits.ByteLen | src/contracts/MainContract.ts:123 | the coins byte count is the least r with v < 2^(8r), and it is 0 exactly for 0 |
| Bits.ByteLenBound | src/contracts/MainContract.ts:123 | the byte count fits the 4-bit coins prefix exactly when the amount is below 2^120 |
| Cells.AddressBits | src/contracts/MainContract.ts:18-19 | an internal address takes 2 + 1 + 8 + 256 = 267 bits |
| Cells.CoinsBits | src/contracts/MainContract.ts:123 | a coins field takes 4 bits plus 8 per byte of the amount |
| Cells.Builder.StoreUint | src/contracts/MainContract.ts:17 | succeeds exactly when 0 <= v < 2^n and the cell has room; a value that does not fit is refused (never truncated) and a full cell overflows; on success exactly the n-bit field is appended |
| Cells.Builder.StoreBit | src/contracts/MainContract.ts:18-19 | appends exactly one bit, or overflows a full cell |
| Cells.Builder.StoreInt | src/contracts/MainContract.ts:18-19 | succeeds exactly when v fits n signed bits and the cell has room; a value that does not fit is refused; on success exactly the signed field is appended |
| Cells.Builder.StoreAddress | src/contracts/MainContract.ts:18-19 | succeeds exactly when the workchain fits int8 and 267 bits are free; a workchain outside int8 is refused; on success exactly the 267 address bits are appended |
| Cells.Builder.StoreCoins | src/contracts/MainContract.ts:123 | a negative amount is refused as negative, an amount of 2^120 or more as out of range; otherwise it succeeds exactly when the cell has room, appending the byte count and the minimal bytes |
| Cells.Builder.EndCell | src/contracts/MainContract.ts:20 | the finished cell holds exactly the bits written, no refs, and fits TVM's 1023-bit and 4-ref limits |
| Cells.BeginCell | src/contracts/MainContract.ts:16 | a new builder is empty |
| Cells.LoadUint | src/contracts/MainContract.ts:17 | an n-bit unsigned field can be split off exactly when n bits are left, and the split is the field of the value read followed by the rest |
| Cells.LoadInt | src/contracts/MainContract.ts:18-19 | an n-bit signed field can be split off exactly when n bits are left, and the split is the field of the value read followed by the rest |
| Cells.LoadUintRoundTrip | src/contracts/MainContract.ts:17 | an unsigned field reads back as its value, whatever follows it |
| Cells.LoadIntRoundTrip | src/contracts/MainContract.ts:18-19 | a signed field reads back as its value, whatever follows it |
| Cells.LoadAddressRoundTrip | src/contracts/MainContract.ts:18-19 | an address whose workchain fits int8 reads back from its 267 bits, whatever follows them |
| Cells.LoadCoinsRoundTrip | src/contracts/MainContract.ts:123 | an amount below 2^120 reads back from its coins field, whatever follows it |
| Tuple.TupleReader.constructor | src/contracts/MainContract.ts:137 | the reader starts at the first slot of the stack |
| Tuple.TupleReader.Pop | src/contracts/MainContract.ts:144-146 | on an empty remainder it reports underflow and does not move; otherwise it returns the next slot and moves past exactly that slot |
| Tuple.TupleReader.ReadNumber | src/contracts/MainContract.ts:144 | underflow leaves the cursor in place; otherwise exactly one slot is consumed, and the result is its integer or a type mismatch |
| Tuple.TupleReader.ReadAddress | src/contracts/MainContract.ts:145-146 | underflow leaves the cursor in place; otherwise exactly one slot is consumed, and the result is its address or a type mismatch |
| Transport.Provider.constructor | src/contracts/MainContract.ts:53 | a new provider has sent nothing and run nothing |
| Transport.Provider.Internal | src/contracts/MainContract.ts:54-58 | appends exactly the given message (sender, value, mode, body) to what was sent and runs no get-method |
| Transport.Provider.Get | src/contracts/MainContract.ts:137 | records exactly the call and returns a fresh reader at the start of the answer stack; sends nothing |
| MainContract.ConfigToCell | src/contracts/MainContract.ts:15-21 | succeeds exactly when the counter is a u32 and both workchains are int8, refusing anything else as out of range; the cell is the 32-bit counter, then the address, then the owner address, 566 bits in all (within 1023), with no refs |
| MainContract.ConfigRoundTrip | src/contracts/MainContract.ts:15-21 | reading the storage cell's three fields in order gives back the configuration, with nothing left over |
| MainContract.ConfigToCellInjective | src/contracts/MainContract.ts:15-21 | different configurations never share a storage cell |
| MainContract.InitOf | src/contracts/MainContract.ts:40-43 | the state init has the given code and the storage cell of the configuration as its data, and exists exactly when that cell can be written |
| MainContract.DistinctConfigsDistinctAddresses | src/contracts/MainContract.ts:40-46 | distinct encodable configurations give distinct state inits, hence distinct addresses unless the address function collides on exactly those two inits |
| MainContract.MainContract.constructor | src/contracts/MainContract.ts:26-32 | the contract holds the given address and optional init |
| MainContract.MainContract.CreateFromConfig | src/contracts/MainContract.ts:34-51 | fails (out of range) exactly when the storage cell cannot be written; otherwise the new contract's init is the given code with the storage cell, and its address is the address function applied to the workchain and that init |
| MainContract.CreateFromConfigIsDeterministic | src/contracts/MainContract.ts:34-51 | two creations from equal arguments both succeed or both fail, and when they succeed they have the same address and init |
| MainContract.DeployBody | src/contracts/MainContract.ts:57 | the deploy body is op 2 as a single 32-bit field, with no refs |
| MainContract.IncrementBody | src/contracts/MainContract.ts:72 | the increment body exists exactly when the increment is a u32 (anything else is refused, never truncated), and is op 1 then the increment, each in 32 bits, with no refs |
| MainContract.IncrementBodyFields | src/contracts/MainContract.ts:72 | the increment body has 64 bits; its first field reads as 1 and its second as the increment, with nothing left |
| MainContract.DepositBody | src/contracts/MainContract.ts:90-92 | the deposit body is op 2 as a single 32-bit field, with no refs |
| MainContract.DeployDepositCollide | src/contracts/MainContract.ts:57 | the deploy and deposit bodies are bit-identical, and both read as the single field 2 |
| MainContract.NoCodeDepositBody | src/contracts/MainContract.ts:106 | the no-code-deposit body has no bits and no refs |
| MainContract.WithdrawalBody | src/contracts/MainContract.ts:121-124 | a negative amount is refused as negative and one of 2^120 or more as out of range; otherwise the body is op 3 in 32 bits then the amount as coins, 32 + 4 + 8 times the amount's minimal byte length bits, with no refs |
| MainContract.WithdrawalBodyFields | src/contracts/MainContract.ts:121-124 | the withdrawal body's first field reads as 3 and the rest reads as the amount's coins field, with nothing left |
| MainContract.MainContract.SendDeploy | src/contracts/MainContract.ts:53-59 | sends exactly one message: the caller's sender and value, PAY_GAS_SEPARATELY and the deploy body |
| MainContract.MainContract.SendIncrement | src/contracts/MainContract.ts:61-87 | for a u32 increment, sends exactly one message with the caller's sender and value, PAY_GAS_SEPARATELY and the increment body; otherwise fails out of range and sends nothing |
| MainContract.MainContract.SendDeposit | src/contracts/MainContract.ts:89-99 | sends exactly one message: the caller's sender and value, PAY_GAS_SEPARATELY and the deposit body |
| MainContract.MainContract.SendNoCodeDeposit | src/contracts/MainContract.ts:101-113 | sends exactly one message: the caller's sender and value, PAY_GAS_SEPARATELY and the empty body |
| MainContract.MainContract.SendWithdrawalRequest | src/contracts/MainContract.ts:115-131 | for an amount in [0, 2^120), sends exactly one message with the caller's sender and value, PAY_GAS_SEPARATELY and the withdrawal body; for a negative or too-large amount it fails with the matching error and sends nothing |
| MainContract.DecodeStorageData | src/contracts/MainContract.ts:143-147 | the storage stack decodes exactly when it starts with a number, an address and an address, and then gives them as number, recent sender and owner in that order; underflow is reported exactly when the stack runs out before a slot of the wrong kind is met, and every other failure is a type mismatch |
| MainContract.DecodeBalance | src/contracts/MainContract.ts:154-156 | the balance stack decodes exactly when it starts with a number, which is the balance; an empty stack is an underflow and anything else a type mismatch |
| MainContract.DecodeStorageDataReadsThree | src/contracts/MainContract.ts:143-147 | slots after the third never affect the storage data |
| MainContract.DecodeBalanceReadsOne | src/contracts/MainContract.ts:154-156 | slots after the first never affect the balance |
| MainContract.MainContract.GetData | src/contracts/MainContract.ts:133-150 | runs `get_contract_storage_data` with no arguments, exactly once, sending nothing, and returns the decoding of its answer stack: number, then address, then address |
| MainContract.MainContract.GetBalance | src/contracts/MainContract.ts:152-157 | runs `balance` with no arguments, exactly once, sending nothing, and returns the decoding of its answer stack: one number |
| MainContract.StorageStackReadOrder | src/contracts/MainContract.ts:143-147 | on the stack (42, a, b) the three reads give counter 42, recent sender a and owner b, and a fourth read underflows |

## Left out

- Submission of messages and execution of get-methods (`provider.internal`,
  `provider.get`, the `async`/`await` around them) are not modelled. The provider only
  records what it is handed. A get-method's answer stack is a function of the call,
  fixed when the provider is made. Network failures and the chain's own behaviour are
  outside the model.
- `contractAddress` (the representation hash of the state init) is not modelled. It is
  a function parameter of `CreateFromConfig`, so any deterministic function of the
  workchain and the init is allowed. Distinct configurations are proved to give distinct
  inits. Distinct addresses follow only when the hash does not collide on those two
  inits, which the model assumes and does not prove.
- `sendDeploy` passes no `init` to `provider.internal`. Attaching the state init to the
  first message is the provider's job, so it is not modelled.
- Tuple.TupleReader.ReadNumber: returns the stack's integer unchanged. The library
  converts it with `Number(...)`, which loses precision above 2^53; floating point is
  not modelled.
- The counter and the increment are JavaScript `number`s. A non-integer one makes
  ton-core throw when it converts the value to a big integer. The model takes integers
  only, so that path does not arise.
- Stack slots are only integers and addresses. In the library, `readAddress` reads
  through `readCell`, so a cell, slice or builder slot that holds an address is read as
  that address, and each of them fails `readNumber`. Tuple and null slots fail both
  reads. None of these other slot kinds is modelled, nor a slice that does not hold an
  address.
- Child references (`storeRef`) are not modelled: no cell here has any. `Cell.refs` is
  kept so that "no refs" can be stated.
- Cells.Builder.StoreUint: the 1023-bit limit is checked at every store. The library
  may instead let a builder's buffer briefly exceed it and refuse at `endCell()`. No
  cell written here comes near the limit (566 bits at most), so the results are the
  same.
- Cells.Builder.StoreAddress: writes only internal `addr_std` addresses without
  anycast, the only kind the configuration holds. External and `null` addresses are
  not modelled.
- The French comments at src/contracts/MainContract.ts:84-86 and :138 describe an empty
  increment body and a `get_the_latest_sender` method. The model follows the code: an
  `op 1, u32` body and `get_contract_storage_data`.
- Finalising a builder twice and malformed address strings are not modelled. The
  wrapper never calls `endCell()` twice and only receives already-parsed addresses.
- `src/App.tsx` (the user interface) is not part of this model.
