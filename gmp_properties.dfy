/** Properties of the GMP precompile's pipeline, stated over `TransferRun`,
    the function the method `WormholeTransferErc20` is proved to follow. */
module GmpProperties {
  import opened Evm
  import opened Gmp

  // ---------------------------------------------------------------------
  // The exit classifier loses nothing
  // ---------------------------------------------------------------------

  /** A failed sub-call is classified as a failure that names the same exit
      reason and, for a revert, keeps the callee's output. */
  lemma ClassifierKeepsReason(reason: ExitReason, output: Bytes)
    requires !reason.Succeed?
    ensures var r := EnsureExitReasonSuccess(reason, output);
      && r.Err?
      && ExitReasonOf(r.failure) == reason
      && (reason.Revert? ==> OutputOf(r.failure) == output)
  {
  }

  /** Every precompile failure is what the classifier makes of the exit
      reason and output it stands for. */
  lemma ClassifierReachesEveryFailure(f: PrecompileFailure)
    ensures EnsureExitReasonSuccess(ExitReasonOf(f), OutputOf(f)) == Err(f)
  {
  }

  /** A failed classification decides the result whatever the ABI reader
      would have made of the output: decoding is attempted only after a
      success. */
  lemma DecodeOnlyAfterSuccess<T>(o: CallOutcome, read1: Bytes -> EvmResult<T>, read2: Bytes -> EvmResult<T>)
    requires !o.reason.Succeed?
    ensures ThenRead(o, read1) == ThenRead(o, read2)
    ensures ThenRead(o, read1).Err?
  {
  }

  // ---------------------------------------------------------------------
  // Call input and layout
  // ---------------------------------------------------------------------

  /** A callee reading the first four bytes of the input finds the selector
      that the writer put there. */
  lemma SelectorReadBack(selector: U32, rest: Bytes)
    ensures InputSelector(SelectorBytes(selector) + rest) == Some(selector)
  {
    var b := SelectorBytes(selector);
    assert (b + rest)[..4] == b;
    var b0, b1, b2, b3: int := b[0], b[1], b[2], b[3];
    assert BigEndian(b[..1]) == b0 by { assert b[..1][..0] == []; }
    assert BigEndian(b[..2]) == b0 * 0x100 + b1 by { assert b[..2][..1] == b[..1]; }
    assert BigEndian(b[..3]) == (b0 * 0x100 + b1) * 0x100 + b2 by { assert b[..3][..2] == b[..2]; }
    assert BigEndian(b) == ((b0 * 0x100 + b1) * 0x100 + b2) * 0x100 + b3 by { assert b[..4][..3] == b[..3]; }
    var q1, q2, q3 := selector / 0x100, selector / 0x1_0000, selector / 0x100_0000;
    assert q2 == q1 / 0x100 && q3 == q2 / 0x100;
    calc {
      ((b0 * 0x100 + b1) * 0x100 + b2) * 0x100 + b3;
      ((q3 * 0x100 + q2 % 0x100) * 0x100 + q1 % 0x100) * 0x100 + selector % 0x100;
      (q2 * 0x100 + q1 % 0x100) * 0x100 + selector % 0x100;
      q1 * 0x100 + selector % 0x100;
      selector;
    }
  }

  /** Every sub-call the precompile makes has the same layout: callee and
      context address equal, caller the code address, no value, the handle's
      `gas_limit()`, not static, input = selector then the encoded argument. */
  lemma SubCallLayout(host: Host, codec: Codec, before: seq<SubCall>, address: H160, selector: U32, arg: Bytes)
    ensures var c := SubCallTo(host, codec, before, address, selector, arg);
      && c.address == address
      && c.transfer == None
      && c.gasLimit == host.gasLimit(before)
      && !c.isStatic
      && c.context == Context(host.codeAddress, address, 0)
      && c.input == SelectorBytes(selector) + codec.writeBytes(arg)
      && InputSelector(c.input) == Some(selector)
  {
    SelectorReadBack(selector, codec.writeBytes(arg));
  }

  // ---------------------------------------------------------------------
  // Each abort point
  // ---------------------------------------------------------------------

  /** If the parse-VM sub-call or its decoding fails, that failure is the
      result and nothing else is called or dispatched. */
  lemma ParseVmFailureStops(host: Host, rt: Runtime, codec: Codec, calls0: seq<SubCall>, dispatched0: seq<Dispatch>,
                            vaa: BoundedBytes)
    requires ThenRead(host.respond(calls0, VmCall(host, codec, calls0, vaa)), codec.readVm).Err?
    ensures TransferRun(host, rt, codec, calls0, dispatched0, vaa)
         == Run([VmCall(host, codec, calls0, vaa)], [],
                Err(ThenRead(host.respond(calls0, VmCall(host, codec, calls0, vaa)), codec.readVm).failure))
  {
  }

  /** If the parse-transfer sub-call (made with the VM's payload, to the
      bridge) or its decoding fails, that failure is the result and neither
      the completion call nor a dispatch happens. */
  lemma ParseTransferFailureStops(host: Host, rt: Runtime, codec: Codec, calls0: seq<SubCall>, dispatched0: seq<Dispatch>,
                                  vaa: BoundedBytes, vm: WormholeVm)
    requires ThenRead(host.respond(calls0, VmCall(host, codec, calls0, vaa)), codec.readVm) == Ok(vm)
    requires var calls1 := calls0 + [VmCall(host, codec, calls0, vaa)];
      ThenRead(host.respond(calls1, TransferCall(host, codec, calls1, vm.payload)), codec.readTransferWithPayload).Err?
    ensures var calls1 := calls0 + [VmCall(host, codec, calls0, vaa)];
      var c2 := TransferCall(host, codec, calls1, vm.payload);
      TransferRun(host, rt, codec, calls0, dispatched0, vaa)
        == Run([VmCall(host, codec, calls0, vaa), c2], [],
               Err(ThenRead(host.respond(calls1, c2), codec.readTransferWithPayload).failure))
  {
  }

  /** If the user action does not decode, the token address is wider than
      20 bytes, the asset has no currency id, or the amount does not fit the
      balance type, the run reverts with that check's message, checked in this
      order, after the two parse calls and before any completion or dispatch. */
  lemma ResolveFailureStops(host: Host, rt: Runtime, codec: Codec, calls0: seq<SubCall>, dispatched0: seq<Dispatch>,
                            vaa: BoundedBytes, vm: WormholeVm, data: TransferWithPayload, f: PrecompileFailure)
    requires ThenRead(host.respond(calls0, VmCall(host, codec, calls0, vaa)), codec.readVm) == Ok(vm)
    requires var calls1 := calls0 + [VmCall(host, codec, calls0, vaa)];
      ThenRead(host.respond(calls1, TransferCall(host, codec, calls1, vm.payload)), codec.readTransferWithPayload) == Ok(data)
    requires ResolveTransfer(rt, codec, data) == Err(f)
    ensures var run := TransferRun(host, rt, codec, calls0, dispatched0, vaa);
      var calls1 := calls0 + [VmCall(host, codec, calls0, vaa)];
      && run.calls == [VmCall(host, codec, calls0, vaa), TransferCall(host, codec, calls1, vm.payload)]
      && run.dispatched == []
      && run.result == Err(f)
    ensures var run := TransferRun(host, rt, codec, calls0, dispatched0, vaa);
      var action := codec.decodeUserAction(USER_ACTION_DEPTH_LIMIT, data.payload);
      && (action.None? ==> run.result == Err(RevertWith(codec, "Invalid GMP Payload")))
      && (action.Some? && data.tokenAddress >= H160_BOUND ==>
            run.result == Err(RevertWith(codec, "Asset address is not a H160")))
      && (action.Some? && data.tokenAddress < H160_BOUND && rt.accountToCurrencyId(rt.intoAccountId(data.tokenAddress)).None? ==>
            run.result == Err(RevertWith(codec, "Unsupported asset, not a valid currency id")))
      && (action.Some? && data.tokenAddress < H160_BOUND && rt.accountToCurrencyId(rt.intoAccountId(data.tokenAddress)).Some?
          && data.amount > rt.balanceMax ==>
            run.result == Err(RevertWith(codec, "Amount overflows balance")))
  {
  }

  /** If the completion sub-call fails, its classification is the result (for
      a revert, with the callee's output unchanged) and nothing is
      dispatched. */
  lemma CompletionFailureStops(host: Host, rt: Runtime, codec: Codec, calls0: seq<SubCall>, dispatched0: seq<Dispatch>,
                               vaa: BoundedBytes, vm: WormholeVm, data: TransferWithPayload, res: Resolved)
    requires ThenRead(host.respond(calls0, VmCall(host, codec, calls0, vaa)), codec.readVm) == Ok(vm)
    requires var calls1 := calls0 + [VmCall(host, codec, calls0, vaa)];
      ThenRead(host.respond(calls1, TransferCall(host, codec, calls1, vm.payload)), codec.readTransferWithPayload) == Ok(data)
    requires ResolveTransfer(rt, codec, data) == Ok(res)
    requires var calls1 := calls0 + [VmCall(host, codec, calls0, vaa)];
      var calls2 := calls1 + [TransferCall(host, codec, calls1, vm.payload)];
      !host.respond(calls2, CompleteCall(host, codec, calls2, vaa)).reason.Succeed?
    ensures var run := TransferRun(host, rt, codec, calls0, dispatched0, vaa);
      var calls1 := calls0 + [VmCall(host, codec, calls0, vaa)];
      var calls2 := calls1 + [TransferCall(host, codec, calls1, vm.payload)];
      var o3 := host.respond(calls2, CompleteCall(host, codec, calls2, vaa));
      && run.calls == [VmCall(host, codec, calls0, vaa), TransferCall(host, codec, calls1, vm.payload),
                       CompleteCall(host, codec, calls2, vaa)]
      && run.dispatched == []
      && run.result == EnsureExitReasonSuccess(o3.reason, o3.output)
      && (o3.reason.Revert? ==> run.result == Err(PrecompileFailure.Revert(o3.reason.revert, o3.output)))
  {
  }

  /** On the success path the run makes exactly the three sub-calls, in
      order, then exactly one dispatch: the xtokens transfer of the resolved
      currency and amount to the user's destination with the fixed weight
      limit, from the account of the code address; the result is the
      dispatch's. */
  lemma SuccessPath(host: Host, rt: Runtime, codec: Codec, calls0: seq<SubCall>, dispatched0: seq<Dispatch>,
                    vaa: BoundedBytes, vm: WormholeVm, data: TransferWithPayload, res: Resolved)
    requires ThenRead(host.respond(calls0, VmCall(host, codec, calls0, vaa)), codec.readVm) == Ok(vm)
    requires var calls1 := calls0 + [VmCall(host, codec, calls0, vaa)];
      ThenRead(host.respond(calls1, TransferCall(host, codec, calls1, vm.payload)), codec.readTransferWithPayload) == Ok(data)
    requires ResolveTransfer(rt, codec, data) == Ok(res)
    requires var calls1 := calls0 + [VmCall(host, codec, calls0, vaa)];
      var calls2 := calls1 + [TransferCall(host, codec, calls1, vm.payload)];
      host.respond(calls2, CompleteCall(host, codec, calls2, vaa)).reason.Succeed?
    ensures var run := TransferRun(host, rt, codec, calls0, dispatched0, vaa);
      var calls1 := calls0 + [VmCall(host, codec, calls0, vaa)];
      var calls2 := calls1 + [TransferCall(host, codec, calls1, vm.payload)];
      var d := Dispatch(Some(rt.intoAccountId(host.codeAddress)),
                        Transfer(res.currencyId, data.amount, VersionedMultiLocation.V1(res.action.action.destinationChain),
                                 Limited(1_000_000_000_000)));
      && run.calls == [VmCall(host, codec, calls0, vaa), TransferCall(host, codec, calls1, vm.payload),
                       CompleteCall(host, codec, calls2, vaa)]
      && run.dispatched == [d]
      && run.result == host.dispatch(calls2 + [CompleteCall(host, codec, calls2, vaa)], dispatched0, d)
  {
  }

  // ---------------------------------------------------------------------
  // Properties of every run
  // ---------------------------------------------------------------------

  /** A run step by step, in terms of its own calls: each sub-call after the
      first is made only when the step before it went through, and the step
      at which the run ends decides what is dispatched and returned. */
  lemma RunSteps(host: Host, rt: Runtime, codec: Codec, calls0: seq<SubCall>, dispatched0: seq<Dispatch>, vaa: BoundedBytes)
    ensures var run := TransferRun(host, rt, codec, calls0, dispatched0, vaa);
      var r1 := ThenRead(host.respond(calls0, run.calls[0]), codec.readVm);
      && (|run.calls| == 1 ==> r1.Err? && run.dispatched == [] && run.result == Err(r1.failure))
      && (|run.calls| >= 2 ==>
            r1.Ok? && run.calls[1] == TransferCall(host, codec, calls0 + run.calls[..1], r1.value.payload))
    ensures var run := TransferRun(host, rt, codec, calls0, dispatched0, vaa);
      |run.calls| == 2 ==>
        var r2 := ThenRead(host.respond(calls0 + run.calls[..1], run.calls[1]), codec.readTransferWithPayload);
        && run.dispatched == []
        && (r2.Err? ==> run.result == Err(r2.failure))
        && (r2.Ok? ==> ResolveTransfer(rt, codec, r2.value).Err? && run.result == Err(ResolveTransfer(rt, codec, r2.value).failure))
    ensures var run := TransferRun(host, rt, codec, calls0, dispatched0, vaa);
      |run.calls| == 3 ==>
        var r2 := ThenRead(host.respond(calls0 + run.calls[..1], run.calls[1]), codec.readTransferWithPayload);
        var o3 := host.respond(calls0 + run.calls[..2], run.calls[2]);
        && r2.Ok?
        && ResolveTransfer(rt, codec, r2.value).Ok?
        && run.calls[2] == CompleteCall(host, codec, calls0 + run.calls[..2], vaa)
        && (!o3.reason.Succeed? ==> run.dispatched == [] && run.result == EnsureExitReasonSuccess(o3.reason, o3.output))
        && (o3.reason.Succeed? ==>
              && run.dispatched == [OutboundDispatch(host, rt, ResolveTransfer(rt, codec, r2.value).value)]
              && run.result == host.dispatch(calls0 + run.calls, dispatched0, run.dispatched[0]))
  {
    var run := TransferRun(host, rt, codec, calls0, dispatched0, vaa);
    var c1 := VmCall(host, codec, calls0, vaa);
    var calls1 := calls0 + [c1];
    match ThenRead(host.respond(calls0, c1), codec.readVm)
    case Err(f) =>
      assert run == Run([c1], [], Err(f));
    case Ok(vm) =>
      var c2 := TransferCall(host, codec, calls1, vm.payload);
      var calls2 := calls1 + [c2];
      match ThenRead(host.respond(calls1, c2), codec.readTransferWithPayload)
      case Err(f) =>
        assert run == Run([c1, c2], [], Err(f));
        assert run.calls[..1] == [c1];
      case Ok(data) =>
        match ResolveTransfer(rt, codec, data)
        case Err(f) =>
          assert run == Run([c1, c2], [], Err(f));
          assert run.calls[..1] == [c1];
        case Ok(res) =>
          var c3 := CompleteCall(host, codec, calls2, vaa);
          var o3 := host.respond(calls2, c3);
          assert run.calls == [c1, c2, c3];
          assert run.calls[..1] == [c1] && run.calls[..2] == [c1, c2];
          assert calls0 + run.calls[..2] == calls2 && calls0 + run.calls == calls2 + [c3];
          match EnsureExitReasonSuccess(o3.reason, o3.output)
          case Err(f) =>
            assert run == Run([c1, c2, c3], [], Err(f));
          case Ok(_) =>
            var d := OutboundDispatch(host, rt, res);
            assert run == Run([c1, c2, c3], [d], host.dispatch(calls2 + [c3], dispatched0, d));
  }

  /** The sub-calls go, in this order, to the core contract with parseVM, to
      the bridge with parseTransferWithPayload, and to the core contract with
      the completion selector, each with the common layout and the gas limit
      the handle reports at that point. */
  lemma CallsInOrder(host: Host, rt: Runtime, codec: Codec, calls0: seq<SubCall>, dispatched0: seq<Dispatch>, vaa: BoundedBytes)
    ensures var run := TransferRun(host, rt, codec, calls0, dispatched0, vaa);
      forall i :: 0 <= i < |run.calls| ==>
        && run.calls[i].address == [WORMHOLE, WORMHOLE_BRIDGE, WORMHOLE][i]
        && InputSelector(run.calls[i].input)
             == Some([PARSE_VM_SELECTOR, PARSE_TRANSFER_WITH_PAYLOAD_SELECTOR, COMPLETE_TRANSFER_WITH_PAYLOAD_SELECTOR][i])
        && run.calls[i].context == Context(host.codeAddress, run.calls[i].address, 0)
        && run.calls[i].transfer == None
        && !run.calls[i].isStatic
        && run.calls[i].gasLimit == host.gasLimit(calls0 + run.calls[..i])
  {
    var run := TransferRun(host, rt, codec, calls0, dispatched0, vaa);
    RunSteps(host, rt, codec, calls0, dispatched0, vaa);
    assert calls0 + run.calls[..0] == calls0;
    SubCallLayout(host, codec, calls0, WORMHOLE, PARSE_VM_SELECTOR, vaa);
    if |run.calls| >= 2 {
      var vm := ThenRead(host.respond(calls0, run.calls[0]), codec.readVm).value;
      SubCallLayout(host, codec, calls0 + run.calls[..1], WORMHOLE_BRIDGE, PARSE_TRANSFER_WITH_PAYLOAD_SELECTOR, vm.payload);
    }
    if |run.calls| == 3 {
      SubCallLayout(host, codec, calls0 + run.calls[..2], WORMHOLE, COMPLETE_TRANSFER_WITH_PAYLOAD_SELECTOR, vaa);
    }
  }

  /** The run stops at the first sub-call that fails: every earlier call
      succeeded, and a failing last call decides the result (a revert with
      its output bytes unchanged) with nothing dispatched. */
  lemma StopsAtFirstFailingCall(host: Host, rt: Runtime, codec: Codec, calls0: seq<SubCall>, dispatched0: seq<Dispatch>,
                                vaa: BoundedBytes)
    ensures var run := TransferRun(host, rt, codec, calls0, dispatched0, vaa);
      forall i :: 0 <= i < |run.calls| - 1 ==> host.respond(calls0 + run.calls[..i], run.calls[i]).reason.Succeed?
    ensures var run := TransferRun(host, rt, codec, calls0, dispatched0, vaa);
      var k := |run.calls| - 1;
      var o := host.respond(calls0 + run.calls[..k], run.calls[k]);
      !o.reason.Succeed? ==>
        && run.dispatched == []
        && run.result == EnsureExitReasonSuccess(o.reason, o.output)
        && (o.reason.Revert? ==> run.result == Err(PrecompileFailure.Revert(o.reason.revert, o.output)))
  {
    var run := TransferRun(host, rt, codec, calls0, dispatched0, vaa);
    RunSteps(host, rt, codec, calls0, dispatched0, vaa);
    assert calls0 + run.calls[..0] == calls0;
  }

  /** A dispatch happens exactly when all three sub-calls were made and the
      completion succeeded; once it happens, a failing result can only be the
      dispatch's own failure. */
  lemma DispatchOnlyAfterCompletion(host: Host, rt: Runtime, codec: Codec, calls0: seq<SubCall>, dispatched0: seq<Dispatch>,
                                    vaa: BoundedBytes)
    ensures var run := TransferRun(host, rt, codec, calls0, dispatched0, vaa);
      run.dispatched != [] <==>
        |run.calls| == 3 && host.respond(calls0 + run.calls[..2], run.calls[2]).reason.Succeed?
    ensures var run := TransferRun(host, rt, codec, calls0, dispatched0, vaa);
      run.dispatched != [] ==>
        run.result == host.dispatch(calls0 + run.calls, dispatched0, run.dispatched[0])
  {
    RunSteps(host, rt, codec, calls0, dispatched0, vaa);
  }

  /** The completion call re-submits the original VAA, not anything parsed
      from it, to the core contract that parseVM went to; as written, its
      input is exactly a `parseAndVerifyVM(bytes)` call on that VAA and
      differs from the parseVM input only in the selector. */
  lemma CompletionResubmitsVaa(host: Host, rt: Runtime, codec: Codec, calls0: seq<SubCall>, dispatched0: seq<Dispatch>,
                               vaa: BoundedBytes)
    ensures var run := TransferRun(host, rt, codec, calls0, dispatched0, vaa);
      |run.calls| == 3 ==>
        && run.calls[2] == CompleteCall(host, codec, calls0 + run.calls[..2], vaa)
        && run.calls[2].address == run.calls[0].address == WORMHOLE
        && run.calls[2].input == WithSelector(codec, PARSE_AND_VERIFY_VM_SELECTOR, vaa)
        && run.calls[2].input[4..] == run.calls[0].input[4..] == codec.writeBytes(vaa)
        && InputSelector(run.calls[2].input) == Some(PARSE_AND_VERIFY_VM_SELECTOR)
  {
    RunSteps(host, rt, codec, calls0, dispatched0, vaa);
    SelectorReadBack(PARSE_AND_VERIFY_VM_SELECTOR, codec.writeBytes(vaa));
  }
}
