# gnoclient transaction pipeline, modelled in Dafny

This project models how the gno.land client library builds and submits
transactions, together with two small pieces next to it.

- **Validation (`Util`).** The client checks the base transaction
  configuration and the four user message kinds: call a realm function,
  send coins, run a script package, and add a package. It also parses each
  message's coin amount.
- **Batching and submission (`ClientTxs`).**
  - The typed entry points `Call`, `Send`, `Run` and `AddPackage` turn each
    user message into a network message that acts for the signer.
  - `Sponsor` builds a homogeneous batch. The batch opens with a no-op
    message for the signer, and every user message in it acts for the
    sponsoree.
  - `sendTransaction` parses the gas fee and packs the transaction.
  - `signAndBroadcastTxCommit` resolves the account and sequence numbers,
    then signs, encodes and broadcasts the transaction. It classifies the
    result in two phases: CheckTx first, then DeliverTx.
- **Command-line helpers (`MakeTx`).** This covers the decision logic of
  the key client's transaction commands:
  - the simulate-option validator;
  - how the numbers used for signing are chosen, including the fallback
    for sponsor transactions;
  - how the simulate option maps onto the dry-run and test-simulation
    flags;
  - the ordering of signing and broadcasting.
- **Event attributes (`EmitEvent`).** A realm emits an event with a flat
  list of key/value strings. The model covers how that list is paired into
  attributes.

External code is modelled as oracles. These are the coin parser, the
binary codec, the signer, the RPC client, the key base, the password
prompt, the account query and the broadcast handler. Each is a
function-valued field of a datatype (`Types.Codec`, `ClientTxs.Signer`,
`ClientTxs.RpcClient`, `MakeTx.Env`), so the proofs hold for every answer
these oracles can give. Every operation also returns, in order, a trace
of the calls it made to the signer, the encoder and the RPC client
(`ClientTxs.ExternalCall`), and to the key base, the account query, the
password prompt, the signing routine and the broadcast handler
(`MakeTx.Effect`). Calls to the coin and fee parsers and to the account
decoder are not recorded. Ordering claims such as "never reaches signing"
and "broadcast only after signing" are stated over that trace. The oracles
see packages by reference, not by content: the encoder and the signer
cannot observe a package's name or path, so the "main" rename done before
signing is invisible to them.

Where the code changes state, the model does too:
- The package a script message points to is a class (`Types.MemPackage`).
  `Run` and `Sponsor` rename it to "main" with an empty path in place, and
  the caller's object is changed.
- The transaction that `SignHandler` signs through a pointer is a class
  (`MakeTx.TxRef`).
- The loops of the entry points are `while` loops. Their invariants tie the
  messages built so far to the specification function `ConvertAll`, which
  works prefix by prefix.
- `attrKeysAndValues` fills an array two input positions at a time.

The loops of `Run` and `Sponsor` are factored into the methods
`UnwrapRunMsgs` and `UnwrapSponsored`. Their callers then only do the
checks and the submission.

Each method of `ClientTxs` and `MakeTx` is proved equal to a
specification function, for example `BatchReply`, `SponsorReply`,
`SignAndBroadcast` or `ExecSignSpec`, and the properties of those
functions are proved as lemmas. `EmitEvent.AttrKeysAndValues` instead
states its properties directly in its postconditions, and its inverse
`Flatten` has lemmas of its own.

Three behaviours of the code that a reader might not expect:
- **Either number zero.** The account numbers are queried when EITHER the
  account number or the sequence number is zero, not only when both are.
- **Interleaved type check.** `Sponsor` checks each message's type in the
  same loop that validates it. So when a mixed batch has an invalid message
  before the first message of another type, the batch reports that
  validation error rather than the mixed-types error. The lemma
  `MixedBatchReportsEarlierValidationError` shows this for a concrete
  batch.
- **Different sentinel for "-1ugnot".** An unparseable send amount yields
  the invalid-send-amount error. One test expects a differently named
  sentinel for "-1ugnot"; the sentinel definitions are not part of this
  model.

## Model

| member | source | states |
|---|---|---|
| Types.CommitError | gno.land/pkg/gnoclient/client_txs.go:299-306 | no error exactly when neither phase failed; a CheckTx error is reported, with its log, whatever DeliverTx says; a DeliverTx error only when CheckTx passed |
| Types.CheckTxShadowsDeliverTx | gno.land/pkg/gnoclient/client_txs.go:299-301 | two results with the same failing CheckTx classify identically, whatever their DeliverTx |
| Util.ValidateBaseTxConfig | gno.land/pkg/gnoclient/util.go:5-15 | valid iff gas wanted is positive and the gas fee is non-empty; a non-positive gas wanted is reported first; the fee is not parsed |
| Util.ValidateCall | gno.land/pkg/gnoclient/util.go:17-27 | valid iff package path and function name are non-empty; an empty path takes precedence over an empty function name |
| Util.ValidateSend | gno.land/pkg/gnoclient/util.go:38-49 | valid iff the destination is non-zero and the amount parses; the zero address is reported before the amount is examined; a parse failure is ErrInvalidSendAmount |
| Util.ValidateRun | gno.land/pkg/gnoclient/util.go:60-66 | ErrEmptyPackage exactly when the package is nil or has no files, otherwise valid |
| Util.ValidateAddPackage | gno.land/pkg/gnoclient/util.go:77-83 | ErrEmptyPackage exactly when the package is nil or has no files, otherwise valid |
| Util.ValidateMsg | gno.land/pkg/gnoclient/util.go:60-83 | a validated script or add-package message has a non-nil package |
| Util.GetCoins | gno.land/pkg/gnoclient/util.go:29-92 | succeeds iff the parser accepts the message's amount (Deposit for add-package, Send otherwise), returning its coins or its error unchanged |
| Util.ValidSendHasCoins | gno.land/pkg/gnoclient/util.go:43-48 | a send message that passed validation always has parseable coins |
| ClientTxs.Bind | gno.land/pkg/gnoclient/client_txs.go:220-256 | the unwrapped network message acts for the given address and carries the user fields and the coins, with the matching kind |
| ClientTxs.ToVmMsg | gno.land/pkg/gnoclient/client_txs.go:27-48 | one loop step succeeds iff validation and coin parsing succeed; the validation error wins over the coin error; on success the message acts for the caller and carries the user fields and parsed coins |
| ClientTxs.ConvertAllShape | gno.land/pkg/gnoclient/client_txs.go:26-49 | a batch converts iff every message does, and then into exactly one network message per input, in input order |
| ClientTxs.LeadingOk | gno.land/pkg/gnoclient/client_txs.go:27-37 | the number of leading messages the loop gets through: all of them convert and the next one fails |
| ClientTxs.ConvertAllFailsAt | gno.land/pkg/gnoclient/client_txs.go:27-37 | a converting prefix followed by a failing message makes the batch fail with that message's error |
| ClientTxs.ConvertAllFirstError | gno.land/pkg/gnoclient/client_txs.go:27-37 | a failing batch fails with the error of its first failing message |
| ClientTxs.BuildTx | gno.land/pkg/gnoclient/client_txs.go:311-324 | fails iff the gas fee does not parse as one coin, with the parser's error; otherwise the Tx holds the messages, Fee(gas wanted, coin), no signatures and the memo |
| ClientTxs.ResolveNumbers | gno.land/pkg/gnoclient/client_txs.go:267-277 | the caller's numbers verbatim when both are non-zero; otherwise the queried account's, or the query error wrapped as "query account" |
| ClientTxs.SubmitOrder | gno.land/pkg/gnoclient/client_txs.go:279-306 | sign, encode and broadcast happen in that order, each only after the previous succeeded; a result is returned exactly when the broadcast went through, with the two-phase error; otherwise there is an error |
| ClientTxs.QueryIffEitherNumberZero | gno.land/pkg/gnoclient/client_txs.go:270-277 | the signer's account is queried first exactly when either number is zero, and never again |
| ClientTxs.SignerGetsResolvedNumbers | gno.land/pkg/gnoclient/client_txs.go:279-284 | the signer is handed the unchanged transaction with the resolved numbers |
| ClientTxs.BroadcastOnlyAfterSigning | gno.land/pkg/gnoclient/client_txs.go:284-297 | any broadcast follows a successful sign and a successful encoding, and broadcasts exactly the encoding of what the signer returned |
| ClientTxs.ResultIsClassified | gno.land/pkg/gnoclient/client_txs.go:294-306 | a result comes back exactly when the broadcast succeeded, is the node's answer, and carries the two-phase error; no result implies an error |
| ClientTxs.SendTransactionSpec | gno.land/pkg/gnoclient/client_txs.go:311-328 | a bad gas fee stops before any query, signing or broadcast; whatever is signed is the packed Tx of the messages, fee and memo |
| ClientTxs.BatchReplySpec | gno.land/pkg/gnoclient/client_txs.go:14-52 | client error, then config error, then the first failing message's error, each with no result and before any query, signing or broadcast; what is signed is one message per input, in order, acting for the signer, with the config's memo and gas |
| ClientTxs.SponsorMsgsSpec | gno.land/pkg/gnoclient/client_txs.go:187-257 | ErrNoMessages iff the batch is empty; a converted batch has length n+1, a MsgNoop for the signer first, then every message in order, of the first's type, acting for the sponsoree with its fields and coins |
| ClientTxs.SponsorMixedIff | gno.land/pkg/gnoclient/client_txs.go:203-207 | ErrMixedMessageTypes exactly when some message's type differs from the first's and every message before it converts |
| ClientTxs.MixedBatchReportsEarlierValidationError | gno.land/pkg/gnoclient/client_txs.go:203-212 | a call with an empty package path followed by a send reports ErrEmptyPkgPath, not the mixed-types error |
| ClientTxs.SponsorReplySpec | gno.land/pkg/gnoclient/client_txs.go:176-190 | client and config errors precede the empty-batch check; a batch that does not convert (mixed types, a validation or a coin error) returns that error with no result and before any query, signing or broadcast; what is signed is exactly the sponsor batch, with the config's memo and gas wanted |
| ClientTxs.SignAndBroadcastTxCommit | gno.land/pkg/gnoclient/client_txs.go:267-307 | the method, reassigning its number locals, equals the SignAndBroadcast specification |
| ClientTxs.SendTransaction | gno.land/pkg/gnoclient/client_txs.go:311-328 | equals the SendTransactionReply specification |
| ClientTxs.Call | gno.land/pkg/gnoclient/client_txs.go:14-52 | the loop equals BatchReply on the call messages |
| ClientTxs.Send | gno.land/pkg/gnoclient/client_txs.go:97-133 | the loop, with its second amount parse, equals BatchReply on the send messages |
| ClientTxs.AddPackage | gno.land/pkg/gnoclient/client_txs.go:136-172 | the loop equals BatchReply on the add-package messages |
| ClientTxs.UnwrapRunMsgs | gno.land/pkg/gnoclient/client_txs.go:66-91 | the result is ConvertAll of the batch; the packages of the messages the loop got through are renamed to "main" with an empty path, and no other package changes |
| ClientTxs.Run | gno.land/pkg/gnoclient/client_txs.go:55-94 | equals BatchReply on the script messages, with the renames of the messages its loop got through and no other package changed |
| ClientTxs.UnwrapSponsored | gno.land/pkg/gnoclient/client_txs.go:192-261 | the result is SponsorMsgs of the batch; the script packages of the messages the loop got through are renamed, and no other package changes |
| ClientTxs.Sponsor | gno.land/pkg/gnoclient/client_txs.go:176-264 | equals SponsorReply, with the renames of the messages its loop got through |
| MakeTx.Validate | tm2/pkg/crypto/keys/client/maketx.go:37-44 | accepts exactly "test", "skip" and "only"; any other value yields the invalid-simulate-option error naming it |
| MakeTx.SelectNumbers | tm2/pkg/crypto/keys/client/maketx.go:142-166 | a failed query is tolerated, with both numbers zero, iff the tx is a sponsor tx, else the "query account" error; a successful query supplies both numbers from the decoded account, and a decoding error is returned |
| MakeTx.BroadcastFlags | tm2/pkg/crypto/keys/client/maketx.go:214-220 | dry run iff the option is "only", test simulation iff it is "test"; the tx and root config are passed on |
| MakeTx.SimulateModes | tm2/pkg/crypto/keys/client/maketx.go:218-219 | the two flags are never both set; a valid option sets one of them or is "skip", which sets neither |
| MakeTx.ExecSignValidatesFirst | tm2/pkg/crypto/keys/client/maketx.go:187-190 | a failed validation is returned before any prompt, signing or broadcast, and the tx is untouched |
| MakeTx.SignHandlerUsesSelectedNumbers | tm2/pkg/crypto/keys/client/maketx.go:136-184 | the key lookup comes first; signing is the last call and uses the selected numbers; on success the tx is what signing returned; on error the tx is untouched |
| MakeTx.SponsorSignsWithZeroNumbers | tm2/pkg/crypto/keys/client/maketx.go:142-154 | a sponsor tx whose account query fails is signed with account number and sequence zero |
| MakeTx.QueryFailureStopsOrdinaryTx | tm2/pkg/crypto/keys/client/maketx.go:150-154 | for a non-sponsor tx a failed query stops with the "query account" error before signing |
| MakeTx.ExecSignEffects | tm2/pkg/crypto/keys/client/maketx.go:187-209 | signing never broadcasts, and a successful signing ends with the signing call |
| MakeTx.ExecBroadcastClassifies | tm2/pkg/crypto/keys/client/maketx.go:212-231 | one broadcast with the option's flags; success iff the handler and both phases succeed; a CheckTx error is reported before DeliverTx is looked at |
| MakeTx.BroadcastOnlyAfterSigning | tm2/pkg/crypto/keys/client/maketx.go:243-255 | a broadcast happens only after a successful signing, immediately after the signing call, and broadcasts the signed tx |
| MakeTx.SignHandler | tm2/pkg/crypto/keys/client/maketx.go:122-185 | the method, with its zero-initialised and overwritten number locals and in-place signing, equals SignHandlerSpec |
| MakeTx.ExecSign | tm2/pkg/crypto/keys/client/maketx.go:187-210 | equals ExecSignSpec: validate, prompt (quietly or not), then SignHandler on the first argument |
| MakeTx.ExecBroadcast | tm2/pkg/crypto/keys/client/maketx.go:212-231 | equals ExecBroadcastSpec and leaves the tx alone |
| MakeTx.ExecSignAndBroadcast | tm2/pkg/crypto/keys/client/maketx.go:243-255 | equals ExecSignAndBroadcastSpec |
| EmitEvent.Flatten | gnovm/stdlibs/std/emit_event.go:41-46 | the flat list of a list of attributes has twice its length |
| EmitEvent.FlattenPairsOf | gnovm/stdlibs/std/emit_event.go:41-46 | pairing drops and duplicates nothing and keeps the order: flattening the pairs gives the input back |
| EmitEvent.PairsOfFlatten | gnovm/stdlibs/std/emit_event.go:41-46 | every attribute list is the pairing of its own flattening |
| EmitEvent.AttrKeysAndValues | gnovm/stdlibs/std/emit_event.go:35-48 | fails, with the odd-count error, iff the length is odd; otherwise n/2 pairs, pair k being positions 2k and 2k+1, whose flattening is the input (so an empty input gives an empty list) |

## Left out

- The oracles are functions, so the same question always gets the same answer; timing, retries and concurrency of the real calls are not modelled.
- The coin and fee grammars are not modelled. The parser is an oracle, so no claim depends on what "1ugnot" means.
- Error texts are not modelled. A wrapped error is `Wrapped(context, cause)`; a sentinel error is a constructor of its own; an error returned verbatim from an oracle is `External`.
- validateClient is not part of this model; its body is not shown. A client carries the verdict it would give.
- The `default: ErrInvalidMsgType` branch of Sponsor is not modelled. The model's messages are the four value kinds; pointer messages (such as `&MsgCall{...}`), which satisfy the Go interface and reach ErrInvalidMsgType, are not modelled.
- Signer.Info().GetAddress() is read on every use in the code: once per loop iteration, once for Sponsor's MsgNoop, and once at the start of signAndBroadcastTxCommit. The model reads it as a fixed field of the signer.
- MakeTx.ExecSign: requires a key-name argument once validation has passed. The code indexes the first argument unchecked there and panics on an empty list; panics are not modelled.
- MakeTx.SignHandler: the QueryCfg it builds (maketx.go:145-148) has no client, so QueryHandler as written calls a method on a nil interface and panics (maketx.go:150, query.go:87); the model assumes a configured client and treats the account query as an oracle that returns success or error.
- MakeTx.SignHandler: opening the key base and looking the key up are one oracle, since both errors are returned unchanged.
- MakeTx.SignHandler: the query path "auth/accounts/<bech32 address>" is not spelled out; the query oracle receives the address.
- MakeTx.SignHandler: when signing fails, the transaction is left unchanged. What the signing routine leaves behind on failure is not visible.
- IsSponsorTx's body is not shown. The model takes a sponsor transaction to be one whose first message is a no-op.
- The printing in ExecBroadcast (data, gas, height, events) is not modelled; only the returned error is.
- NewMakeTxCmd and RegisterFlags (command and flag registration) are CLI plumbing.
- X_emit in emit_event.go needs the VM machine, realm lookup, stack inspection and the event logger.
- SponsorTxCfg, NewSponsorTransaction, SignTx and ExecuteSponsorTransaction are not part of this model.
