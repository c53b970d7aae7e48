# GMP precompile: `wormholeTransferERC20`

A Dafny model of the Moonbeam GMP precompile's `wormholeTransferERC20(bytes)`
pipeline and its exit-reason classifier `ensure_exit_reason_success`.

The precompile receives a Wormhole VAA (a signed message, at most
`CALL_DATA_LIMIT` = 2^16 bytes). It works through these steps in order:

1. It asks the Wormhole core contract to parse the VAA (`parseVM`).
2. It asks the token bridge to parse the VM's payload as a transfer with payload (`parseTransferWithPayload`).
3. It decodes the transfer's own payload as a `VersionedUserAction`, with a SCALE depth limit of 32.
4. It narrows the token address to a 20-byte address, maps that address to an account, and looks up the account's xtokens currency id.
5. It narrows the amount into the xtokens balance type.
6. It sends the original VAA back to Wormhole.
7. It dispatches one `orml_xtokens::transfer` to the user's destination, from the account mapped from its own code address.

Every step returns early on failure, as the source's `?` does; the model uses `:-` for the same purpose.

Files:

- `evm.dfy`, module `Evm`: fixed-width words as bounded naturals, `ExitReason`, `PrecompileFailure`, and the failure-compatible `EvmResult`.
- `gmp.dfy`, module `Gmp`:
  - the selector constants and the two hard-coded contract addresses;
  - the decoded Wormhole records;
  - the xtokens call;
  - the `Handle` class, with its `calls` and `dispatched` logs;
  - the classifier;
  - the pure middle of the pipeline (`ResolveTransfer`);
  - `TransferRun`, the whole pipeline as a function of the host's answers;
  - the imperative methods `ParseVm`, `ParseTransferWithPayload` and `WormholeTransferErc20`, which append to the handle's logs.
- `gmp_properties.dfy`, module `GmpProperties`: lemmas about `TransferRun` and the classifier.

Collaborators are injected:

- `Host` stands for what lies behind the handle. It holds the code address, what `handle.gas_limit()` reports given the calls so far, how the EVM answers a sub-call, and how the runtime answers a dispatch. Each of these may depend on everything that happened before it.
- `Codec` holds the ABI writer and readers, the SCALE decoder, and the encoding of a revert reason.
- `Runtime` holds `AddressMapping::into_account_id`, `account_to_currency_id`, and the largest value of the xtokens balance type.

The method `WormholeTransferErc20` is proved to append exactly `TransferRun`'s calls and dispatches to the handle's logs and to return `TransferRun`'s result. The lemmas then state what the source promises about it.

Two quirks of the code are kept as the code has them, not as the source's own comments describe them:

- `COMPLETE_TRANSFER_WITH_PAYLOAD_SELECTOR` is annotated `completeTransferWithPayload(bytes)` (precompiles/gmp/src/lib.rs:56) but has the value `0xc0fd8bde`, which is also `PARSE_AND_VERIFY_VM_SELECTOR` (lib.rs:54).
- The comment before the completion call (lib.rs:128-130) says it invokes Wormhole's `completeTransferWithPayload`, a token-bridge function; the call itself goes to the core contract `wormhole` (lib.rs:138-141), not to `wormhole_bridge`.

So the "completion" sub-call's input is exactly a `parseAndVerifyVM(bytes)` call on the original VAA, sent to the core contract (`CompletionResubmitsVaa`). The model follows the code, not the comments.

## Model

| member | source | states |
|---|---|---|
| `Gmp.EnsureExitReasonSuccess` | precompiles/gmp/src/lib.rs:250-262 | The result is success exactly when the reason is `Succeed`. `Fatal(s)` gives `Fatal{s}` and `Error(s)` gives `Error{s}`. `Revert(s)` gives `Revert{s, output}` with the sub-call's output bytes unchanged. |
| `GmpProperties.ClassifierKeepsReason` | precompiles/gmp/src/lib.rs:254-261 | A failed sub-call becomes a failure naming the same exit reason; for a revert, the failure carries the callee's exact output. |
| `GmpProperties.ClassifierReachesEveryFailure` | precompiles/gmp/src/lib.rs:254-261 | Every precompile failure is what the classifier makes of the exit reason and output it stands for, so every failure is reached. With `ClassifierKeepsReason`, the exit reason, and a revert's output, can be read back from the failure. The classifier is not one-to-one: an error or fatal exit drops the output, and all three success statuses give `Ok(())`. |
| `Gmp.ThenRead` | precompiles/gmp/src/lib.rs:206-209 | After a sub-call that did not succeed, the result is the classifier's failure. Only after a success is the ABI reader's result returned. |
| `GmpProperties.DecodeOnlyAfterSuccess` | precompiles/gmp/src/lib.rs:241-244 | When the classification fails, the result is that failure whatever the reader would have decoded. |
| `Gmp.SelectorBytes` | precompiles/gmp/src/lib.rs:198 | The selector is written as four bytes at the head of the call input. |
| `GmpProperties.SelectorReadBack` | precompiles/gmp/src/lib.rs:198-200 | A callee reading the first four bytes of the input, most significant first, recovers the selector, whatever follows. |
| `GmpProperties.SubCallLayout` | precompiles/gmp/src/lib.rs:185-204 | Each sub-call has the same layout. Callee and context address are the given contract. The caller is `code_address` and the apparent value is 0. There is no value transfer. The gas is `handle.gas_limit()` at that point and `is_static` is false. The input is the selector followed by the encoded bytes argument. |
| `Gmp.Handle.Call` | precompiles/gmp/src/lib.rs:195-204 | `handle.call` appends exactly this sub-call to the call log and returns the EVM's answer to it. The dispatch log is unchanged. |
| `Gmp.TryDispatch` | precompiles/gmp/src/lib.rs:174 | `try_dispatch` appends exactly `(origin, call)` to the dispatch log and returns the runtime's answer. The call log is unchanged. |
| `Gmp.ParseVm` | precompiles/gmp/src/lib.rs:180-212 | Issues exactly one sub-call: `parseVM` (`0xa9e11893`) with the VAA, to the given contract. It returns the classification, then, on success, the decoded VM. Nothing is dispatched. |
| `Gmp.ParseTransferWithPayload` | precompiles/gmp/src/lib.rs:215-247 | Issues exactly one sub-call: `parseTransferWithPayload` (`0xea63738d`) with the payload, to the given contract. It returns the classification, then, on success, the decoded transfer. Nothing is dispatched. |
| `Gmp.ResolveTransfer` | precompiles/gmp/src/lib.rs:101-122 | The checks run in order, and each failure reverts with its own message. A user action that does not decode gives "Invalid GMP Payload". A token address of 2^160 or more gives "Asset address is not a H160". An absent currency id gives "Unsupported asset, not a valid currency id". An amount above the balance bound gives "Amount overflows balance". The result is success exactly when all four checks pass; it then holds the decoded action, the currency id of the mapped account and the unchanged amount. |
| `Gmp.XtokensTransfer` | precompiles/gmp/src/lib.rs:159-168 | The outbound call is `transfer{currency_id, amount, dest = V1(destination_chain), dest_weight_limit = Limited(1_000_000_000_000)}`. |
| `Gmp.TransferRun` | precompiles/gmp/src/lib.rs:74-177 | A run makes one to three sub-calls and at most one dispatch. The first call is parseVM on the VAA. A dispatch happens only after three calls, the third being the completion call. A successful result implies exactly one dispatch. |
| `Gmp.WormholeTransferErc20` | precompiles/gmp/src/lib.rs:74-177 | Appends to the handle's logs exactly the calls and dispatches of `TransferRun`, and returns its result. |
| `GmpProperties.ParseVmFailureStops` | precompiles/gmp/src/lib.rs:93 | If the parse-VM sub-call or its decoding fails, the run is that single call, nothing is dispatched, and the failure is the result. |
| `GmpProperties.ParseTransferFailureStops` | precompiles/gmp/src/lib.rs:96-97 | If the parse-transfer sub-call or its decoding fails, the run is the two parse calls, with no completion call and no dispatch. The failure is the result. |
| `GmpProperties.ResolveFailureStops` | precompiles/gmp/src/lib.rs:101-122 | If resolution fails, the run is the two parse calls, with no completion call and no dispatch. The result is the revert with that check's message, checked in the source's order. |
| `GmpProperties.CompletionFailureStops` | precompiles/gmp/src/lib.rs:138-149 | If the completion sub-call fails, the run is the three calls and nothing is dispatched. The result is the classification; a revert keeps the callee's output bytes. |
| `GmpProperties.SuccessPath` | precompiles/gmp/src/lib.rs:159-176 | When every step succeeds, the calls are exactly parseVM→wormhole, parseTransferWithPayload→wormhole_bridge (with the VM's payload) and completion→wormhole (with the original VAA). They are followed by exactly one dispatch: the xtokens transfer of the resolved currency and amount to `V1(destination_chain)` with weight limit 10^12, from origin `Some(into_account_id(code_address))`. The result is the dispatch's, unchanged. |
| `GmpProperties.RunSteps` | precompiles/gmp/src/lib.rs:93-176 | Each run, read from its own calls. One call means parseVM or its decoding failed; that failure is the result and nothing is dispatched. A second call means parseVM succeeded, and it carries the decoded VM's payload to the bridge. Two calls mean the parse-transfer step or resolution failed, with that failure as the result and nothing dispatched. Three calls mean both parses and resolution succeeded, and the third is the completion call with the VAA. A failed completion's classification is then the result with nothing dispatched. A successful completion is followed by exactly the outbound dispatch, whose answer is the result. |
| `GmpProperties.CallsInOrder` | precompiles/gmp/src/lib.rs:93-147 | In every run, sub-call i goes to [wormhole, wormhole_bridge, wormhole][i] with selector [0xa9e11893, 0xea63738d, 0xc0fd8bde][i]. Each has the common layout and carries what `handle.gas_limit()` reports given the calls before it. |
| `GmpProperties.StopsAtFirstFailingCall` | precompiles/gmp/src/lib.rs:93-149 | Every sub-call except the last has succeeded. If the last one failed, nothing was dispatched and its classification is the result; a revert carries exactly the callee's output. |
| `GmpProperties.DispatchOnlyAfterCompletion` | precompiles/gmp/src/lib.rs:149-174 | A dispatch happens if and only if all three sub-calls were made and the completion succeeded. The result is then the dispatch's answer, so a failed dispatch is returned unchanged. |
| `GmpProperties.CompletionResubmitsVaa` | precompiles/gmp/src/lib.rs:131-147 | The completion call carries the original VAA, not the parsed VM or payload. It goes to the same core contract as parseVM. Its input equals a `parseAndVerifyVM(bytes)` call on the VAA (selector `0xc0fd8bde`). It differs from the parseVM input only in the selector. |

## Left out

- The ABI writer and readers (`EvmDataWriter`, `EvmDataReader`) are injected through `Codec`, as is the layout of `WormholeVM` and `WormholeTransferWithPayloadData`. Only the four-byte selector at the head of the input is modelled. A reader's failure is propagated as whatever failure it returns.
- The encoding of a revert reason into revert output bytes belongs to the precompile utilities and is injected as `Codec.revertOutput`.
- The SCALE decoder `decode_with_depth_limit` is injected; it either fails or yields `V1(destination_chain)`. It receives the limit 32. That the bound is enforced is the library's promise, not this code's.
- The token address's source type lives in the `types` module, which is not part of this model. It is a 256-bit value, and narrowing it to H160 is modelled as the check that its value is below 2^160.
- `TryFrom<U256>` for the xtokens balance is modelled as a range check against the runtime's bound `Runtime.balanceMax`.
- The VM and transfer records hold only the fields the pipeline reads: the VM's payload, and the transfer's token address, amount and payload.
- `AddressMapping::into_account_id` and `account_to_currency_id` are injected functions of `Runtime`. The account, currency and multilocation types are left abstract.
- EVM execution behind `handle.call`, gas metering, and the internals of `RuntimeHelper::try_dispatch` are oracles of `Host`. The logs record every attempt, including a failed dispatch. Rolling back state on failure is the host's atomicity, not this code's.
- The statuses inside `ExitError` and `ExitFatal` are opaque: the classifier only carries them.
- `H160::from_str` on the two hard-coded addresses is modelled by the constants; both strings are valid, so their error branches (lines 85-89) cannot be taken.
- `log::debug!` output is not modelled.
- The precompile macro's handling of the outer call is not part of this model: matching the `wormholeTransferERC20(bytes)` selector, rejecting inputs shorter than four bytes or with unknown selectors, and decoding and bounding the `BoundedBytes` argument. The bound of 2^16 bytes is carried by the type `BoundedBytes` of the VAA and of the VM's payload.
- The TODO items in the source are not implemented there and are not invented here: the before/after balance checks, rejecting value-bearing calls, and the trust placed in `code_address`.
- precompiles/proxy/src/tests.rs only tests a different precompile, whose implementation is not part of this model.
