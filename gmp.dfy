/** The GMP precompile's `wormholeTransferERC20(bytes)` pipeline: it relays a
    Wormhole VAA to the core contract and the token bridge, decodes the user
    action carried in the transfer's payload, resolves the token to an xtokens
    currency, asks Wormhole to complete the transfer, and dispatches one
    `orml_xtokens::transfer` from the precompile's own account.

    Every collaborator is injected: the EVM behind `handle.call` and the
    runtime behind `try_dispatch` are oracles of a `Host`, the ABI and SCALE
    codecs are fields of a `Codec`, and the runtime's address mapping, currency
    lookup and balance range are fields of a `Runtime`. */
module Gmp {
  import opened Evm

  // ---------------------------------------------------------------------
  // Constants (precompiles/gmp/src/lib.rs:49-56, 85-89, 101-102, 159)
  // ---------------------------------------------------------------------

  /** `CALL_DATA_LIMIT = 2u32.pow(16)`: the bound on the VAA argument. */
  const CALL_DATA_LIMIT: nat := 0x1_0000

  const PARSE_VM_SELECTOR: U32 := 0xa9e11893
  const PARSE_AND_VERIFY_VM_SELECTOR: U32 := 0xc0fd8bde
  const PARSE_TRANSFER_WITH_PAYLOAD_SELECTOR: U32 := 0xea63738d
  /** Written in the source with the same value as PARSE_AND_VERIFY_VM_SELECTOR. */
  const COMPLETE_TRANSFER_WITH_PAYLOAD_SELECTOR: U32 := 0xc0fd8bde

  /** The Wormhole core contract and the token bridge, hard-coded. */
  const WORMHOLE: H160 := 0x5cc307268a1393ab9a764a20dace848ab8275c46
  const WORMHOLE_BRIDGE: H160 := 0x7d4567b7257cf869b01a47e8cf0edb3814bdb963

  /** Depth limit handed to the SCALE decoder of the user action. */
  const USER_ACTION_DEPTH_LIMIT: nat := 32

  /** `dest_weight_limit` of the outbound transfer. */
  const XCM_WEIGHT_LIMIT: U64 := 1_000_000_000_000

  /** Upper bound (exclusive) of a value that fits a 20-byte address. */
  const H160_BOUND: nat := 0x1_0000_0000_0000_0000_0000_0000_0000_0000_0000_0000

  /** `BoundedBytes<GetCallDataLimit>`. */
  type BoundedBytes = b: Bytes | |b| <= CALL_DATA_LIMIT

  // ---------------------------------------------------------------------
  // Runtime types the pipeline handles without looking inside
  // ---------------------------------------------------------------------

  type AccountId(==)
  type CurrencyId(==)
  type MultiLocation(==)

  // ---------------------------------------------------------------------
  // Decoded Wormhole structures (only the fields the pipeline consults)
  // ---------------------------------------------------------------------

  /** `WormholeVM`: the parsed VAA. */
  datatype WormholeVm = WormholeVm(payload: BoundedBytes)

  /** `WormholeTransferWithPayloadData`: the parsed token transfer. The token
      address arrives as a 32-byte word. */
  datatype TransferWithPayload = TransferWithPayload(tokenAddress: U256, amount: U256, payload: BoundedBytes)

  datatype UserAction = UserAction(destinationChain: MultiLocation)

  /** `VersionedUserAction`: the only version is V1. */
  datatype VersionedUserAction = V1(action: UserAction)

  // ---------------------------------------------------------------------
  // The outbound xtokens call
  // ---------------------------------------------------------------------

  datatype VersionedMultiLocation = V1(location: MultiLocation)

  datatype WeightLimit = Unlimited | Limited(weight: U64)

  /** `orml_xtokens::Call::transfer`. */
  datatype XtokensCall = Transfer(currencyId: CurrencyId, amount: nat, dest: VersionedMultiLocation, destWeightLimit: WeightLimit)

  /** One call handed to the runtime dispatcher, with its origin. */
  datatype Dispatch = Dispatch(origin: Option<AccountId>, call: XtokensCall)

  // ---------------------------------------------------------------------
  // Sub-calls through the precompile handle
  // ---------------------------------------------------------------------

  /** `evm::Context` of a sub-call. */
  datatype Context = Context(caller: H160, address: H160, apparentValue: U256)

  /** `evm::Transfer`: value moved along with a sub-call. */
  datatype ValueTransfer = ValueTransfer(source: H160, target: H160, value: U256)

  /** The arguments of one `handle.call`. */
  datatype SubCall = SubCall(
    address: H160,
    transfer: Option<ValueTransfer>,
    input: Bytes,
    gasLimit: Option<U64>,
    isStatic: bool,
    context: Context)

  /** What `handle.call` returns. */
  datatype CallOutcome = CallOutcome(reason: ExitReason, output: Bytes)

  /** The environment behind the handle, as oracles over what happened so far:
      what `handle.gas_limit()` reports, how the EVM answers a sub-call, and
      how the runtime answers a dispatch (with the conversion of a dispatch
      error into a failure). */
  datatype Host = Host(
    codeAddress: H160,
    gasLimit: seq<SubCall> -> Option<U64>,
    respond: (seq<SubCall>, SubCall) -> CallOutcome,
    dispatch: (seq<SubCall>, seq<Dispatch>, Dispatch) -> EvmResult<()>)

  /** The codecs the pipeline relies on: the ABI writer of one `bytes`
      argument, the ABI readers of the two parse results, the SCALE decoder
      of the user action (given a depth limit), and the encoding of a revert
      reason into revert output. */
  datatype Codec = Codec(
    writeBytes: Bytes -> Bytes,
    readVm: Bytes -> EvmResult<WormholeVm>,
    readTransferWithPayload: Bytes -> EvmResult<TransferWithPayload>,
    decodeUserAction: (nat, Bytes) -> Option<VersionedUserAction>,
    revertOutput: string -> Bytes)

  /** The runtime configuration: `AddressMapping::into_account_id`,
      `account_to_currency_id`, and the largest value of the xtokens balance
      type (a `U256` narrows into it when it is at most this). */
  datatype Runtime = Runtime(
    intoAccountId: H160 -> AccountId,
    accountToCurrencyId: AccountId -> Option<CurrencyId>,
    balanceMax: nat)

  /** The precompile handle: the host it stands for and the effects made
      through it, in order. */
  class Handle {
    const host: Host
    var calls: seq<SubCall>
    var dispatched: seq<Dispatch>

    constructor (host: Host)
      ensures this.host == host && calls == [] && dispatched == []
    {
      this.host := host;
      calls := [];
      dispatched := [];
    }

    /** `handle.code_address()`. */
    function CodeAddress(): H160 {
      host.codeAddress
    }

    /** `handle.gas_limit()`: what the handle reports as this call's gas
        limit, given the calls so far. */
    function GasLimit(): Option<U64>
      reads this
    {
      host.gasLimit(calls)
    }

    /** `handle.call`: records the sub-call and returns the EVM's answer. */
    method Call(address: H160, transfer: Option<ValueTransfer>, input: Bytes, gasLimit: Option<U64>,
                isStatic: bool, context: Context)
      returns (reason: ExitReason, output: Bytes)
      modifies this
      ensures calls == old(calls) + [SubCall(address, transfer, input, gasLimit, isStatic, context)]
      ensures dispatched == old(dispatched)
      ensures CallOutcome(reason, output) == host.respond(old(calls), SubCall(address, transfer, input, gasLimit, isStatic, context))
    {
      var call := SubCall(address, transfer, input, gasLimit, isStatic, context);
      var outcome := host.respond(calls, call);
      calls := calls + [call];
      reason, output := outcome.reason, outcome.output;
    }
  }

  /** `RuntimeHelper::try_dispatch`: records the dispatch attempt and returns
      the runtime's answer. */
  method TryDispatch(handle: Handle, origin: Option<AccountId>, call: XtokensCall) returns (r: EvmResult<()>)
    modifies handle
    ensures handle.dispatched == old(handle.dispatched) + [Dispatch(origin, call)]
    ensures handle.calls == old(handle.calls)
    ensures r == handle.host.dispatch(old(handle.calls), old(handle.dispatched), Dispatch(origin, call))
  {
    r := handle.host.dispatch(handle.calls, handle.dispatched, Dispatch(origin, call));
    handle.dispatched := handle.dispatched + [Dispatch(origin, call)];
  }

  // ---------------------------------------------------------------------
  // Call input: `EvmDataWriter::new_with_selector(s).write(arg).build()`
  // ---------------------------------------------------------------------

  /** The selector as it leads the call input: four big-endian bytes. */
  function SelectorBytes(selector: U32): (b: Bytes)
    ensures |b| == 4
  {
    [selector / 0x100_0000, selector / 0x1_0000 % 0x100, selector / 0x100 % 0x100, selector % 0x100]
  }

  /** The value of a byte string read most significant byte first. */
  function BigEndian(b: Bytes): nat
  {
    if |b| == 0 then 0 else BigEndian(b[..|b| - 1]) * 0x100 + b[|b| - 1]
  }

  /** The function selector a callee reads from the first four bytes of its
      input, if there are four. */
  function InputSelector(input: Bytes): Option<nat>
  {
    if |input| < 4 then None else Some(BigEndian(input[..4]))
  }

  /** Call input made of a selector followed by one ABI-encoded `bytes`. */
  function WithSelector(codec: Codec, selector: U32, arg: Bytes): Bytes
  {
    SelectorBytes(selector) + codec.writeBytes(arg)
  }

  /** The shape every sub-call of this precompile has: no value transfer,
      the handle's `gas_limit()`, not static, caller = the precompile's code address,
      context address = the callee, zero apparent value. */
  function SubCallTo(host: Host, codec: Codec, calls: seq<SubCall>, address: H160, selector: U32, arg: Bytes): SubCall
  {
    SubCall(address, None, WithSelector(codec, selector, arg), host.gasLimit(calls), false,
            Context(host.codeAddress, address, 0))
  }

  // ---------------------------------------------------------------------
  // ensure_exit_reason_success (precompiles/gmp/src/lib.rs:250-262)
  // ---------------------------------------------------------------------

  /** Success exactly when the sub-call succeeded; otherwise a failure of the
      same kind with the same status, a revert keeping the callee's output. */
  function EnsureExitReasonSuccess(reason: ExitReason, output: Bytes): (r: EvmResult<()>)
    ensures r.Ok? <==> reason.Succeed?
    ensures reason.Fatal? ==> r == Err(PrecompileFailure.Fatal(reason.fatal))
    ensures reason.Revert? ==> r == Err(PrecompileFailure.Revert(reason.revert, output))
    ensures reason.Error? ==> r == Err(PrecompileFailure.Error(reason.error))
  {
    match reason
    case Fatal(s) => Err(PrecompileFailure.Fatal(s))
    case Revert(s) => Err(PrecompileFailure.Revert(s, output))
    case Error(s) => Err(PrecompileFailure.Error(s))
    case Succeed(_) => Ok(())
  }

  /** The exit reason a failure stands for. */
  function ExitReasonOf(f: PrecompileFailure): ExitReason
  {
    match f
    case Error(s) => ExitReason.Error(s)
    case Revert(s, _) => ExitReason.Revert(s)
    case Fatal(s) => ExitReason.Fatal(s)
  }

  /** The output bytes a failure carries (none but a revert's). */
  function OutputOf(f: PrecompileFailure): Bytes
  {
    if f.Revert? then f.output else []
  }

  /** What `parse_vm` and `parse_transfer_with_payload` make of a sub-call's
      outcome: the classification decides first, and the output is decoded
      only after a success. */
  function ThenRead<T>(o: CallOutcome, read: Bytes -> EvmResult<T>): (r: EvmResult<T>)
    ensures !o.reason.Succeed? ==> r == EnsureExitReasonSuccess(o.reason, o.output).PropagateFailure()
    ensures o.reason.Succeed? ==> r == read(o.output)
  {
    var checked := EnsureExitReasonSuccess(o.reason, o.output);
    if checked.Err? then checked.PropagateFailure() else read(o.output)
  }

  // ---------------------------------------------------------------------
  // The pure middle of wormhole_transfer_erc20 (lib.rs:101-122)
  // ---------------------------------------------------------------------

  /** A revert carrying the encoding of a reason message (`revert(...)`,
      `RevertReason::Custom(...)`). */
  function RevertWith(codec: Codec, message: string): PrecompileFailure
  {
    PrecompileFailure.Revert(Reverted, codec.revertOutput(message))
  }

  /** What the transfer resolves to before completion. */
  datatype Resolved = Resolved(action: VersionedUserAction, currencyId: CurrencyId, amount: nat)

  /** Decode the user action, narrow the token address to H160, look up the
      currency of the mapped account, and narrow the amount, failing at the
      first of these that does not go through, with that step's message. */
  function ResolveTransfer(rt: Runtime, codec: Codec, data: TransferWithPayload): (r: EvmResult<Resolved>)
    ensures codec.decodeUserAction(USER_ACTION_DEPTH_LIMIT, data.payload).None? ==>
      r == Err(RevertWith(codec, "Invalid GMP Payload"))
    ensures codec.decodeUserAction(USER_ACTION_DEPTH_LIMIT, data.payload).Some? && data.tokenAddress >= H160_BOUND ==>
      r == Err(RevertWith(codec, "Asset address is not a H160"))
    ensures codec.decodeUserAction(USER_ACTION_DEPTH_LIMIT, data.payload).Some? && data.tokenAddress < H160_BOUND &&
            rt.accountToCurrencyId(rt.intoAccountId(data.tokenAddress)).None? ==>
      r == Err(RevertWith(codec, "Unsupported asset, not a valid currency id"))
    ensures codec.decodeUserAction(USER_ACTION_DEPTH_LIMIT, data.payload).Some? && data.tokenAddress < H160_BOUND &&
            rt.accountToCurrencyId(rt.intoAccountId(data.tokenAddress)).Some? && data.amount > rt.balanceMax ==>
      r == Err(RevertWith(codec, "Amount overflows balance"))
    ensures r.Ok? <==>
      codec.decodeUserAction(USER_ACTION_DEPTH_LIMIT, data.payload).Some? && data.tokenAddress < H160_BOUND &&
      rt.accountToCurrencyId(rt.intoAccountId(data.tokenAddress)).Some? && data.amount <= rt.balanceMax
    ensures r.Ok? ==>
      && Some(r.value.action) == codec.decodeUserAction(USER_ACTION_DEPTH_LIMIT, data.payload)
      && Some(r.value.currencyId) == rt.accountToCurrencyId(rt.intoAccountId(data.tokenAddress))
      && r.value.amount == data.amount
  {
    match codec.decodeUserAction(USER_ACTION_DEPTH_LIMIT, data.payload)
    case None => Err(RevertWith(codec, "Invalid GMP Payload"))
    case Some(userAction) =>
      if data.tokenAddress >= H160_BOUND then Err(RevertWith(codec, "Asset address is not a H160"))
      else
        var assetAddress: H160 := data.tokenAddress;
        match rt.accountToCurrencyId(rt.intoAccountId(assetAddress))
        case None => Err(RevertWith(codec, "Unsupported asset, not a valid currency id"))
        case Some(currencyId) =>
          if data.amount > rt.balanceMax then Err(RevertWith(codec, "Amount overflows balance"))
          else Ok(Resolved(userAction, currencyId, data.amount))
  }

  /** The xtokens transfer built from a resolved user action (lib.rs:159-168). */
  function XtokensTransfer(res: Resolved): (call: XtokensCall)
    ensures call.currencyId == res.currencyId && call.amount == res.amount
    ensures call.dest == VersionedMultiLocation.V1(res.action.action.destinationChain)
    ensures call.destWeightLimit == Limited(1_000_000_000_000)
  {
    match res.action
    case V1(action) =>
      Transfer(res.currencyId, res.amount, VersionedMultiLocation.V1(action.destinationChain), Limited(XCM_WEIGHT_LIMIT))
  }

  // ---------------------------------------------------------------------
  // The whole pipeline as a function of the host's answers
  // ---------------------------------------------------------------------

  /** What one invocation adds to the handle's logs, and what it returns. */
  datatype Run = Run(calls: seq<SubCall>, dispatched: seq<Dispatch>, result: EvmResult<()>)

  /** The `parseVM` sub-call, given the calls made before it. */
  function VmCall(host: Host, codec: Codec, before: seq<SubCall>, vaa: BoundedBytes): SubCall
  {
    SubCallTo(host, codec, before, WORMHOLE, PARSE_VM_SELECTOR, vaa)
  }

  /** The `parseTransferWithPayload` sub-call. */
  function TransferCall(host: Host, codec: Codec, before: seq<SubCall>, payload: BoundedBytes): SubCall
  {
    SubCallTo(host, codec, before, WORMHOLE_BRIDGE, PARSE_TRANSFER_WITH_PAYLOAD_SELECTOR, payload)
  }

  /** The completion sub-call: the original VAA, to the core contract. */
  function CompleteCall(host: Host, codec: Codec, before: seq<SubCall>, vaa: BoundedBytes): SubCall
  {
    SubCallTo(host, codec, before, WORMHOLE, COMPLETE_TRANSFER_WITH_PAYLOAD_SELECTOR, vaa)
  }

  /** The dispatch made on the success path. */
  function OutboundDispatch(host: Host, rt: Runtime, res: Resolved): Dispatch
  {
    Dispatch(Some(rt.intoAccountId(host.codeAddress)), XtokensTransfer(res))
  }

  /** `wormhole_transfer_erc20` on a handle whose logs so far are `calls0` and
      `dispatched0`. */
  function TransferRun(host: Host, rt: Runtime, codec: Codec, calls0: seq<SubCall>, dispatched0: seq<Dispatch>,
                       vaa: BoundedBytes): (run: Run)
    ensures 1 <= |run.calls| <= 3 && |run.dispatched| <= 1
    ensures run.calls[0] == VmCall(host, codec, calls0, vaa)
    ensures run.dispatched != [] ==> |run.calls| == 3 && run.calls[2] == CompleteCall(host, codec, calls0 + run.calls[..2], vaa)
    ensures run.result.Ok? ==> |run.dispatched| == 1
  {
    var c1 := VmCall(host, codec, calls0, vaa);
    var calls1 := calls0 + [c1];
    match ThenRead(host.respond(calls0, c1), codec.readVm)
    case Err(f) => Run([c1], [], Err(f))
    case Ok(vm) =>
      var c2 := TransferCall(host, codec, calls1, vm.payload);
      var calls2 := calls1 + [c2];
      match ThenRead(host.respond(calls1, c2), codec.readTransferWithPayload)
      case Err(f) => Run([c1, c2], [], Err(f))
      case Ok(data) =>
        match ResolveTransfer(rt, codec, data)
        case Err(f) => Run([c1, c2], [], Err(f))
        case Ok(res) =>
          var c3 := CompleteCall(host, codec, calls2, vaa);
          var o3 := host.respond(calls2, c3);
          match EnsureExitReasonSuccess(o3.reason, o3.output)
          case Err(f) => Run([c1, c2, c3], [], Err(f))
          case Ok(_) =>
            var d := OutboundDispatch(host, rt, res);
            assert calls2 == calls0 + [c1, c2, c3][..2];
            Run([c1, c2, c3], [d], host.dispatch(calls2 + [c3], dispatched0, d))
  }

  // ---------------------------------------------------------------------
  // The precompile's methods (lib.rs:74-247)
  // ---------------------------------------------------------------------

  /** `parse_vm`: one sub-call to the core contract, then ABI decoding. */
  method ParseVm(handle: Handle, codec: Codec, wormholeCoreContractAddress: H160, wormholeVaa: BoundedBytes)
    returns (r: EvmResult<WormholeVm>)
    modifies handle
    ensures handle.calls == old(handle.calls)
              + [SubCallTo(handle.host, codec, old(handle.calls), wormholeCoreContractAddress, PARSE_VM_SELECTOR, wormholeVaa)]
    ensures handle.dispatched == old(handle.dispatched)
    ensures r == ThenRead(handle.host.respond(old(handle.calls),
                   SubCallTo(handle.host, codec, old(handle.calls), wormholeCoreContractAddress, PARSE_VM_SELECTOR, wormholeVaa)),
                   codec.readVm)
  {
    var subContext := Context(handle.CodeAddress(), wormholeCoreContractAddress, 0);
    var reason, output := handle.Call(wormholeCoreContractAddress, None,
                                      WithSelector(codec, PARSE_VM_SELECTOR, wormholeVaa),
                                      handle.GasLimit(), false, subContext);
    var _ :- EnsureExitReasonSuccess(reason, output);
    r := codec.readVm(output);
  }

  /** `parse_transfer_with_payload`: one sub-call to the given contract, then
      ABI decoding. */
  method ParseTransferWithPayload(handle: Handle, codec: Codec, wormholeCoreContractAddress: H160, payload: BoundedBytes)
    returns (r: EvmResult<TransferWithPayload>)
    modifies handle
    ensures handle.calls == old(handle.calls)
              + [SubCallTo(handle.host, codec, old(handle.calls), wormholeCoreContractAddress, PARSE_TRANSFER_WITH_PAYLOAD_SELECTOR, payload)]
    ensures handle.dispatched == old(handle.dispatched)
    ensures r == ThenRead(handle.host.respond(old(handle.calls),
                   SubCallTo(handle.host, codec, old(handle.calls), wormholeCoreContractAddress, PARSE_TRANSFER_WITH_PAYLOAD_SELECTOR, payload)),
                   codec.readTransferWithPayload)
  {
    var subContext := Context(handle.CodeAddress(), wormholeCoreContractAddress, 0);
    var reason, output := handle.Call(wormholeCoreContractAddress, None,
                                      WithSelector(codec, PARSE_TRANSFER_WITH_PAYLOAD_SELECTOR, payload),
                                      handle.GasLimit(), false, subContext);
    var _ :- EnsureExitReasonSuccess(reason, output);
    r := codec.readTransferWithPayload(output);
  }

  /** `wormhole_transfer_erc20`: the whole pipeline, each step returning early
      on failure. */
  method WormholeTransferErc20(handle: Handle, rt: Runtime, codec: Codec, wormholeVaa: BoundedBytes)
    returns (r: EvmResult<()>)
    modifies handle
    ensures var run := TransferRun(handle.host, rt, codec, old(handle.calls), old(handle.dispatched), wormholeVaa);
      && handle.calls == old(handle.calls) + run.calls
      && handle.dispatched == old(handle.dispatched) + run.dispatched
      && r == run.result
  {
    var wormhole := WORMHOLE;
    var wormholeBridge := WORMHOLE_BRIDGE;

    var wormholeVm :- ParseVm(handle, codec, wormhole, wormholeVaa);
    var transferWithPayload :- ParseTransferWithPayload(handle, codec, wormholeBridge, wormholeVm.payload);
    var resolved :- ResolveTransfer(rt, codec, transferWithPayload);

    var subContext := Context(handle.CodeAddress(), wormhole, 0);
    var reason, output := handle.Call(wormhole, None,
                                      WithSelector(codec, COMPLETE_TRANSFER_WITH_PAYLOAD_SELECTOR, wormholeVaa),
                                      handle.GasLimit(), false, subContext);
    var _ :- EnsureExitReasonSuccess(reason, output);

    var call := XtokensTransfer(resolved);
    var origin := rt.intoAccountId(handle.CodeAddress());
    var _ :- TryDispatch(handle, Some(origin), call);
    r := Ok(());
  }
}
