/** Transaction construction and submission in the client library
    (gnoclient client_txs.go): the four typed entry points, the sponsor
    batch, transaction packing, account-number resolution and the
    two-phase classification of the broadcast result.

    The signer, the RPC client and the codec are oracles: function-valued
    fields whose answers are arbitrary. Every operation reports, in
    `calls`, which calls to the signer, the encoder and the RPC client it
    made and with what, in order; the coin and fee parsers are not
    recorded. */
module ClientTxs {
  import opened Wrappers
  import opened Types
  import opened Util

  /** What the signer is handed (SignCfg). */
  datatype SignCfg = SignCfg(unsignedTx: Tx, sequenceNumber: uint64, accountNumber: uint64)

  /** Signer.Info().GetAddress() and Signer.Sign. */
  datatype Signer = Signer(address: Address, sign: SignCfg -> Result<Tx, string>)

  /** Client.QueryAccount (the account's number and sequence) and
      RPCClient.BroadcastTxCommit. */
  datatype RpcClient = RpcClient(
    queryAccount: Address -> Result<Numbers, string>,
    broadcastTxCommit: seq<bv8> -> Result<ResultBroadcastTxCommit, string>)

  /** A client; `clientError` is what validateClient reports for it (its
      rules are not part of this model). */
  datatype Client = Client(signer: Signer, rpc: RpcClient, clientError: Option<string>)

  /** One call to the signer, the encoder or the RPC client; the coin and
      fee parsers are not recorded. */
  datatype ExternalCall =
    | QueryAccount(address: Address)
    | Sign(signCfg: SignCfg)
    | Marshal(signedTx: Tx)
    | BroadcastTxCommit(bytes: seq<bv8>)

  /** The Go pair (*ResultBroadcastTxCommit, error), with the signer, encoder and RPC calls made. */
  datatype Reply = Reply(result: Option<ResultBroadcastTxCommit>, err: Option<Error>, calls: seq<ExternalCall>)

  // ---------------------------------------------------------------------
  // Unwrapping user messages into network messages

  predicate PackagePresent(m: Msg) {
    (m.Run? ==> m.run.pkg != null) && (m.AddPackage? ==> m.add.pkg != null)
  }

  /** The network message `v` carries the user fields of `m` and `coins`,
      and has the kind that corresponds to `m`'s. */
  predicate Carries(m: Msg, v: VmMsg, coins: Coins) {
    match m
    case Call(c) => v.VmCall? && v.pkgPath == c.pkgPath && v.funcName == c.funcName && v.args == c.args && v.send == coins
    case Send(s) => v.BankSend? && v.toAddress == s.toAddress && v.amount == coins
    case Run(r) => v.VmRun? && v.pkg == r.pkg && v.send == coins
    case AddPackage(a) => v.VmAddPackage? && v.pkg == a.pkg && v.deposit == coins
  }

  /** The struct literal each loop appends, acting for `caller`. */
  function Bind(caller: Address, m: Msg, coins: Coins): (v: VmMsg)
    requires PackagePresent(m)
    ensures SenderOf(v) == caller && Carries(m, v, coins)
  {
    match m
    case Call(c) => VmCall(caller, c.pkgPath, c.funcName, c.args, coins)
    case Send(s) => BankSend(caller, s.toAddress, coins)
    case Run(r) => VmRun(caller, r.pkg, coins)
    case AddPackage(a) => VmAddPackage(caller, a.pkg, coins)
  }

  /** One loop iteration: validate, parse the coins, unwrap. */
  function ToVmMsg(codec: Codec, caller: Address, m: Msg): (r: Result<VmMsg, Error>)
    ensures r.Success? <==> ValidateMsg(codec, m).None? && GetCoins(codec, m).Success?
    ensures ValidateMsg(codec, m).Some? ==> r == Failure(ValidateMsg(codec, m).value)
    ensures ValidateMsg(codec, m).None? && GetCoins(codec, m).Failure? ==> r == Failure(GetCoins(codec, m).error)
    ensures r.Success? ==> SenderOf(r.value) == caller && Carries(m, r.value, GetCoins(codec, m).value)
    ensures r != Failure(MixedMessageTypes)
  {
    var v := ValidateMsg(codec, m);
    if v.Some? then Failure(v.value)
    else match GetCoins(codec, m)
      case Failure(e) => Failure(e)
      case Success(coins) => Success(Bind(caller, m, coins))
  }

  /** An iteration of a batch loop; a sponsor batch first compares the
      message's type with the first message's (`want`), the typed entry
      points have that from their Go signature and pass None. */
  function Step(codec: Codec, caller: Address, want: Option<MsgType>, m: Msg): Result<VmMsg, Error> {
    if want.Some? && TypeOf(m) != want.value then Failure(MixedMessageTypes)
    else ToVmMsg(codec, caller, m)
  }

  /** The loop over a batch, by its prefixes: it stops at the first message
      that fails, returning that error, and otherwise yields one network
      message per input, in input order. */
  function ConvertAll(codec: Codec, caller: Address, want: Option<MsgType>, msgs: seq<Msg>): Result<seq<VmMsg>, Error>
    decreases |msgs|
  {
    if msgs == [] then Success([])
    else
      var init := msgs[..|msgs| - 1];
      match ConvertAll(codec, caller, want, init)
      case Failure(e) => Failure(e)
      case Success(vs) =>
        match Step(codec, caller, want, msgs[|msgs| - 1])
        case Failure(e) => Failure(e)
        case Success(v) => Success(vs + [v])
  }

  /** A batch converts exactly when every message does, and then into one
      network message per input, in input order. */
  lemma {:induction false} ConvertAllShape(codec: Codec, caller: Address, want: Option<MsgType>, msgs: seq<Msg>)
    ensures ConvertAll(codec, caller, want, msgs).Success? <==>
      forall i :: 0 <= i < |msgs| ==> Step(codec, caller, want, msgs[i]).Success?
    ensures ConvertAll(codec, caller, want, msgs).Success? ==>
      && |ConvertAll(codec, caller, want, msgs).value| == |msgs|
      && forall i :: 0 <= i < |msgs| ==>
           Step(codec, caller, want, msgs[i]) == Success(ConvertAll(codec, caller, want, msgs).value[i])
    decreases |msgs|
  {
    if msgs != [] {
      var init := msgs[..|msgs| - 1];
      ConvertAllShape(codec, caller, want, init);
      assert forall i :: 0 <= i < |init| ==> init[i] == msgs[i];
    }
  }

  /** How many leading messages a batch loop gets through before it stops. */
  function LeadingOk(codec: Codec, caller: Address, want: Option<MsgType>, msgs: seq<Msg>): (n: nat)
    ensures n <= |msgs|
    ensures forall j :: 0 <= j < n ==> Step(codec, caller, want, msgs[j]).Success?
    ensures n < |msgs| ==> Step(codec, caller, want, msgs[n]).Failure?
    decreases |msgs|
  {
    if msgs == [] || Step(codec, caller, want, msgs[0]).Failure? then 0
    else
      var n := 1 + LeadingOk(codec, caller, want, msgs[1..]);
      assert forall j :: 1 <= j < n ==> msgs[j] == msgs[1..][j - 1];
      n
  }

  /** A prefix that converts, followed by a failing message, makes the whole
      batch fail with that message's error. */
  lemma {:induction false} ConvertAllFailsAt(codec: Codec, caller: Address, want: Option<MsgType>, msgs: seq<Msg>, k: nat)
    requires k < |msgs|
    requires ConvertAll(codec, caller, want, msgs[..k]).Success?
    requires Step(codec, caller, want, msgs[k]).Failure?
    ensures ConvertAll(codec, caller, want, msgs) == Failure(Step(codec, caller, want, msgs[k]).error)
    decreases |msgs|
  {
    var init := msgs[..|msgs| - 1];
    if k < |msgs| - 1 {
      assert init[..k] == msgs[..k];
      assert init[k] == msgs[k];
      ConvertAllFailsAt(codec, caller, want, init, k);
    } else {
      assert init == msgs[..k];
    }
  }

  /** One more message that converts extends the converted prefix. */
  lemma ConvertAllSnoc(codec: Codec, caller: Address, want: Option<MsgType>, msgs: seq<Msg>, i: nat, vs: seq<VmMsg>, v: VmMsg)
    requires i < |msgs|
    requires ConvertAll(codec, caller, want, msgs[..i]) == Success(vs)
    requires Step(codec, caller, want, msgs[i]) == Success(v)
    ensures ConvertAll(codec, caller, want, msgs[..i + 1]) == Success(vs + [v])
  {
    assert msgs[..i + 1][..i] == msgs[..i];
  }

  /** The loop stops exactly where LeadingOk says. */
  lemma LeadingOkAt(codec: Codec, caller: Address, want: Option<MsgType>, msgs: seq<Msg>, k: nat)
    requires k <= |msgs|
    requires ConvertAll(codec, caller, want, msgs[..k]).Success?
    requires k < |msgs| ==> Step(codec, caller, want, msgs[k]).Failure?
    ensures LeadingOk(codec, caller, want, msgs) == k
  {
    ConvertAllShape(codec, caller, want, msgs[..k]);
    assert forall j :: 0 <= j < k ==> msgs[..k][j] == msgs[j];
  }

  /** A failing batch fails with the error of its first failing message. */
  lemma ConvertAllFirstError(codec: Codec, caller: Address, want: Option<MsgType>, msgs: seq<Msg>)
    requires ConvertAll(codec, caller, want, msgs).Failure?
    ensures LeadingOk(codec, caller, want, msgs) < |msgs|
    ensures ConvertAll(codec, caller, want, msgs)
         == Failure(Step(codec, caller, want, msgs[LeadingOk(codec, caller, want, msgs)]).error)
  {
    var n := LeadingOk(codec, caller, want, msgs);
    ConvertAllShape(codec, caller, want, msgs);
    assert forall j :: 0 <= j < n ==> msgs[..n][j] == msgs[j];
    ConvertAllShape(codec, caller, want, msgs[..n]);
    ConvertAllFailsAt(codec, caller, want, msgs, n);
  }

  /** The typed entry points' variadic arguments as messages of the sum type. */
  function CallMsgs(msgs: seq<MsgCall>): (r: seq<Msg>)
    ensures |r| == |msgs| && forall i :: 0 <= i < |msgs| ==> r[i] == Msg.Call(msgs[i])
  {
    seq(|msgs|, i requires 0 <= i < |msgs| => Msg.Call(msgs[i]))
  }

  function SendMsgs(msgs: seq<MsgSend>): (r: seq<Msg>)
    ensures |r| == |msgs| && forall i :: 0 <= i < |msgs| ==> r[i] == Msg.Send(msgs[i])
  {
    seq(|msgs|, i requires 0 <= i < |msgs| => Msg.Send(msgs[i]))
  }

  function RunMsgs(msgs: seq<MsgRun>): (r: seq<Msg>)
    ensures |r| == |msgs| && forall i :: 0 <= i < |msgs| ==> r[i] == Msg.Run(msgs[i])
  {
    seq(|msgs|, i requires 0 <= i < |msgs| => Msg.Run(msgs[i]))
  }

  function AddPackageMsgs(msgs: seq<MsgAddPackage>): (r: seq<Msg>)
    ensures |r| == |msgs| && forall i :: 0 <= i < |msgs| ==> r[i] == Msg.AddPackage(msgs[i])
  {
    seq(|msgs|, i requires 0 <= i < |msgs| => Msg.AddPackage(msgs[i]))
  }

  /** The packages of the MsgRun entries of a batch: the objects Run and
      Sponsor write through. */
  function RunPackages(msgs: seq<Msg>): (r: set<MemPackage>)
    decreases |msgs|
  {
    if msgs == [] then {}
    else
      var last := msgs[|msgs| - 1];
      RunPackages(msgs[..|msgs| - 1]) + (if last.Run? && last.run.pkg != null then {last.run.pkg} else {})
  }

  lemma {:induction false} RunPackagesHas(msgs: seq<Msg>, i: nat)
    requires i < |msgs| && msgs[i].Run? && msgs[i].run.pkg != null
    ensures msgs[i].run.pkg in RunPackages(msgs)
    decreases |msgs|
  {
    if i < |msgs| - 1 {
      var init := msgs[..|msgs| - 1];
      assert init[i] == msgs[i];
      RunPackagesHas(init, i);
    }
  }

  lemma RunPackagesSnoc(msgs: seq<Msg>, i: nat)
    requires i < |msgs|
    ensures RunPackages(msgs[..i + 1]) ==
      RunPackages(msgs[..i]) + (if msgs[i].Run? && msgs[i].run.pkg != null then {msgs[i].run.pkg} else {})
  {
    assert msgs[..i + 1][..i] == msgs[..i];
  }

  lemma {:induction false} RunPackagesPrefix(msgs: seq<Msg>, n: nat)
    requires n <= |msgs|
    ensures RunPackages(msgs[..n]) <= RunPackages(msgs)
    decreases |msgs|
  {
    if n < |msgs| {
      var init := msgs[..|msgs| - 1];
      assert init[..n] == msgs[..n];
      RunPackagesPrefix(init, n);
    } else {
      assert msgs[..n] == msgs;
    }
  }

  /** Every package in `pkgs` has been renamed by the Run rewrite. */
  ghost predicate Renamed(pkgs: set<MemPackage>)
    reads pkgs
  {
    forall p :: p in pkgs ==> p.name == "main" && p.path == ""
  }

  /** No package of `pkgs` outside `done` has changed since the old state. */
  twostate predicate Untouched(pkgs: set<MemPackage>, done: set<MemPackage>)
    reads pkgs
  {
    forall p :: p in pkgs && p !in done ==> unchanged(p)
  }

  /** The packages of the first `n` messages of `msgs` have been renamed,
      and the batch's other packages have not changed. */
  twostate predicate RenamedUpTo(msgs: seq<Msg>, n: nat)
    requires n <= |msgs|
    reads RunPackages(msgs), RunPackages(msgs[..n])
  {
    Renamed(RunPackages(msgs[..n])) && Untouched(RunPackages(msgs), RunPackages(msgs[..n]))
  }

  // ---------------------------------------------------------------------
  // Packing and submission

  /** sendTransaction's pure part: parse the gas fee as one coin and pack
      the messages, the fee and the memo, with no signatures. */
  function BuildTx(codec: Codec, cfg: BaseTxCfg, msgs: seq<VmMsg>): (r: Result<Tx, Error>)
    ensures r.Success? <==> codec.parseCoin(cfg.gasFee).Success?
    ensures r.Failure? ==> r.error == External(codec.parseCoin(cfg.gasFee).error)
    ensures r.Success? ==>
      && r.value.msgs == msgs
      && r.value.fee == Fee(cfg.gasWanted, codec.parseCoin(cfg.gasFee).value)
      && r.value.signatures == []
      && r.value.memo == cfg.memo
  {
    match codec.parseCoin(cfg.gasFee)
    case Failure(e) => Failure(External(e))
    case Success(gasFeeCoins) => Success(Tx(msgs, Fee(cfg.gasWanted, gasFeeCoins), [], cfg.memo))
  }

  /** The auto-resolve rule as the code has it: EITHER number being zero
      triggers the account query. */
  predicate NeedsQuery(accountNumber: uint64, sequenceNumber: uint64) {
    sequenceNumber == 0 || accountNumber == 0
  }

  /** The numbers signing uses: the caller's, verbatim, when both are
      non-zero; otherwise both come from the queried account. */
  function ResolveNumbers(rpc: RpcClient, caller: Address, accountNumber: uint64, sequenceNumber: uint64): (r: Result<Numbers, Error>)
    ensures !NeedsQuery(accountNumber, sequenceNumber) ==> r == Success(Numbers(accountNumber, sequenceNumber))
    ensures NeedsQuery(accountNumber, sequenceNumber) ==> (r.Success? <==> rpc.queryAccount(caller).Success?)
    ensures NeedsQuery(accountNumber, sequenceNumber) && r.Success? ==> r.value == rpc.queryAccount(caller).value
    ensures r.Failure? ==> r.error == Wrapped("query account", rpc.queryAccount(caller).error)
  {
    if NeedsQuery(accountNumber, sequenceNumber) then
      match rpc.queryAccount(caller)
      case Failure(e) => Failure(Wrapped("query account", e))
      case Success(account) => Success(Numbers(account.accountNumber, account.sequence))
    else
      Success(Numbers(accountNumber, sequenceNumber))
  }

  /** signAndBroadcastTxCommit from the signing step on: sign, encode,
      broadcast, stopping at the first failure, then classify. */
  function Submit(c: Client, codec: Codec, signCfg: SignCfg): Reply {
    match c.signer.sign(signCfg)
    case Failure(e) => Reply(None, Some(Wrapped("sign", e)), [Sign(signCfg)])
    case Success(signedTx) =>
      match codec.marshal(signedTx)
      case Failure(e) => Reply(None, Some(Wrapped("marshaling tx binary bytes", e)), [Sign(signCfg), Marshal(signedTx)])
      case Success(bz) =>
        var calls := [Sign(signCfg), Marshal(signedTx), BroadcastTxCommit(bz)];
        match c.rpc.broadcastTxCommit(bz)
        case Failure(e) => Reply(None, Some(Wrapped("broadcasting bytes", e)), calls)
        case Success(bres) => Reply(Some(bres), CommitError(bres), calls)
  }

  /** The whole of signAndBroadcastTxCommit as a value. */
  function SignAndBroadcast(c: Client, codec: Codec, tx: Tx, accountNumber: uint64, sequenceNumber: uint64): Reply {
    var caller := c.signer.address;
    var queried := if NeedsQuery(accountNumber, sequenceNumber) then [QueryAccount(caller)] else [];
    match ResolveNumbers(c.rpc, caller, accountNumber, sequenceNumber)
    case Failure(e) => Reply(None, Some(e), queried)
    case Success(n) =>
      var s := Submit(c, codec, SignCfg(tx, n.sequence, n.accountNumber));
      Reply(s.result, s.err, queried + s.calls)
  }

  /** Signing, encoding and broadcasting happen in that order, each only
      after the previous one succeeded, and a result comes back exactly
      when the broadcast went through. */
  lemma SubmitOrder(c: Client, codec: Codec, signCfg: SignCfg)
    ensures var r := Submit(c, codec, signCfg);
      && 1 <= |r.calls| <= 3 && r.calls[0] == Sign(signCfg)
      && (|r.calls| >= 2 ==> r.calls[1].Marshal? && c.signer.sign(signCfg) == Success(r.calls[1].signedTx))
      && (|r.calls| == 3 ==> r.calls[2].BroadcastTxCommit? && codec.marshal(r.calls[1].signedTx) == Success(r.calls[2].bytes))
      && (r.result.Some? <==> |r.calls| == 3 && c.rpc.broadcastTxCommit(r.calls[2].bytes).Success?)
      && (r.result.Some? ==> r.result.value == c.rpc.broadcastTxCommit(r.calls[2].bytes).value)
      && (r.result.Some? ==> r.err == CommitError(r.result.value))
      && (r.result.None? ==> r.err.Some?)
  {
  }

  /** The account is queried, for the signer and before anything else,
      exactly when either number is zero, and at most once. */
  lemma QueryIffEitherNumberZero(c: Client, codec: Codec, tx: Tx, accountNumber: uint64, sequenceNumber: uint64)
    ensures var r := SignAndBroadcast(c, codec, tx, accountNumber, sequenceNumber);
      (|r.calls| > 0 && r.calls[0] == QueryAccount(c.signer.address)) <==> NeedsQuery(accountNumber, sequenceNumber)
    ensures var r := SignAndBroadcast(c, codec, tx, accountNumber, sequenceNumber);
      forall k :: 0 < k < |r.calls| ==> !r.calls[k].QueryAccount?
  {
    var rn := ResolveNumbers(c.rpc, c.signer.address, accountNumber, sequenceNumber);
    if rn.Success? {
      SubmitOrder(c, codec, SignCfg(tx, rn.value.sequence, rn.value.accountNumber));
    }
  }

  /** The signer is handed `tx` unchanged with the resolved numbers: the
      caller's when both are non-zero, the queried account's otherwise. */
  lemma SignerGetsResolvedNumbers(c: Client, codec: Codec, tx: Tx, accountNumber: uint64, sequenceNumber: uint64)
    ensures var r := SignAndBroadcast(c, codec, tx, accountNumber, sequenceNumber);
      forall k :: 0 <= k < |r.calls| && r.calls[k].Sign? ==>
        && ResolveNumbers(c.rpc, c.signer.address, accountNumber, sequenceNumber).Success?
        && var n := ResolveNumbers(c.rpc, c.signer.address, accountNumber, sequenceNumber).value;
           r.calls[k].signCfg == SignCfg(tx, n.sequence, n.accountNumber)
  {
    var rn := ResolveNumbers(c.rpc, c.signer.address, accountNumber, sequenceNumber);
    if rn.Success? {
      SubmitOrder(c, codec, SignCfg(tx, rn.value.sequence, rn.value.accountNumber));
    }
  }

  /** Bytes are broadcast only after a successful signature, and they are
      the encoding of exactly what the signer returned. */
  lemma BroadcastOnlyAfterSigning(c: Client, codec: Codec, tx: Tx, accountNumber: uint64, sequenceNumber: uint64)
    ensures var r := SignAndBroadcast(c, codec, tx, accountNumber, sequenceNumber);
      forall k :: 0 <= k < |r.calls| && r.calls[k].BroadcastTxCommit? ==>
        && k >= 2 && r.calls[k - 2].Sign? && r.calls[k - 1].Marshal?
        && c.signer.sign(r.calls[k - 2].signCfg) == Success(r.calls[k - 1].signedTx)
        && codec.marshal(r.calls[k - 1].signedTx) == Success(r.calls[k].bytes)
  {
    var rn := ResolveNumbers(c.rpc, c.signer.address, accountNumber, sequenceNumber);
    if rn.Success? {
      SubmitOrder(c, codec, SignCfg(tx, rn.value.sequence, rn.value.accountNumber));
    }
  }

  /** A result comes back exactly when the broadcast went through, and it
      is the node's answer; the error beside it is the two-phase
      classification; without a result there is always an error. */
  lemma ResultIsClassified(c: Client, codec: Codec, tx: Tx, accountNumber: uint64, sequenceNumber: uint64)
    ensures var r := SignAndBroadcast(c, codec, tx, accountNumber, sequenceNumber);
      && (r.result.Some? <==>
            |r.calls| > 0 && r.calls[|r.calls| - 1].BroadcastTxCommit? &&
            c.rpc.broadcastTxCommit(r.calls[|r.calls| - 1].bytes).Success?)
      && (r.result.Some? ==> r.result.value == c.rpc.broadcastTxCommit(r.calls[|r.calls| - 1].bytes).value)
      && (r.result.Some? ==> r.err == CommitError(r.result.value))
      && (r.result.None? ==> r.err.Some?)
      && |r.calls| <= 4
  {
    var rn := ResolveNumbers(c.rpc, c.signer.address, accountNumber, sequenceNumber);
    if rn.Success? {
      SubmitOrder(c, codec, SignCfg(tx, rn.value.sequence, rn.value.accountNumber));
    }
  }

  /** sendTransaction as a value. */
  function SendTransactionReply(c: Client, codec: Codec, cfg: BaseTxCfg, msgs: seq<VmMsg>): Reply {
    match BuildTx(codec, cfg, msgs)
    case Failure(e) => Reply(None, Some(e), [])
    case Success(tx) => SignAndBroadcast(c, codec, tx, cfg.accountNumber, cfg.sequenceNumber)
  }

  /** A bad gas fee stops before any query, signing or broadcast; otherwise the signer is
      handed the messages packed with the configured fee and memo and no
      signatures. */
  lemma SendTransactionSpec(c: Client, codec: Codec, cfg: BaseTxCfg, msgs: seq<VmMsg>)
    ensures codec.parseCoin(cfg.gasFee).Failure? ==>
      SendTransactionReply(c, codec, cfg, msgs) == Reply(None, Some(External(codec.parseCoin(cfg.gasFee).error)), [])
    ensures var r := SendTransactionReply(c, codec, cfg, msgs);
      forall k :: 0 <= k < |r.calls| && r.calls[k].Sign? ==>
        r.calls[k].signCfg.unsignedTx == Tx(msgs, Fee(cfg.gasWanted, codec.parseCoin(cfg.gasFee).value), [], cfg.memo)
  {
    var tx := BuildTx(codec, cfg, msgs);
    if tx.Success? {
      SignerGetsResolvedNumbers(c, codec, tx.value, cfg.accountNumber, cfg.sequenceNumber);
    }
  }

  /** The client check, then the base configuration check. */
  function Prechecks(c: Client, cfg: BaseTxCfg): Option<Error> {
    if c.clientError.Some? then Some(ClientInvalid(c.clientError.value)) else ValidateBaseTxConfig(cfg)
  }

  /** The batch the signer's typed entry points assemble: one network
      message per input, in order, each acting for the signer. */
  predicate SignerBatch(codec: Codec, caller: Address, msgs: seq<Msg>, vms: seq<VmMsg>) {
    && |vms| == |msgs|
    && forall i :: 0 <= i < |msgs| ==>
         GetCoins(codec, msgs[i]).Success? && SenderOf(vms[i]) == caller && Carries(msgs[i], vms[i], GetCoins(codec, msgs[i]).value)
  }

  /** Call, Send, Run and AddPackage as a value. */
  function BatchReply(c: Client, codec: Codec, cfg: BaseTxCfg, msgs: seq<Msg>): Reply {
    if Prechecks(c, cfg).Some? then Reply(None, Prechecks(c, cfg), [])
    else
      match ConvertAll(codec, c.signer.address, None, msgs)
      case Failure(e) => Reply(None, Some(e), [])
      case Success(vms) => SendTransactionReply(c, codec, cfg, vms)
  }

  /** A local error is returned with no result and before any query,
      signing or broadcast: the client's first, then the configuration's,
      then the first failing message's. What reaches the signer is the converted batch, packed
      with the configured fee and memo. */
  lemma BatchReplySpec(c: Client, codec: Codec, cfg: BaseTxCfg, msgs: seq<Msg>)
    ensures c.clientError.Some? ==>
      BatchReply(c, codec, cfg, msgs) == Reply(None, Some(ClientInvalid(c.clientError.value)), [])
    ensures c.clientError.None? && ValidateBaseTxConfig(cfg).Some? ==>
      BatchReply(c, codec, cfg, msgs) == Reply(None, ValidateBaseTxConfig(cfg), [])
    ensures var n := LeadingOk(codec, c.signer.address, None, msgs);
      Prechecks(c, cfg).None? && n < |msgs| ==>
        BatchReply(c, codec, cfg, msgs) == Reply(None, Some(ToVmMsg(codec, c.signer.address, msgs[n]).error), [])
    ensures var r := BatchReply(c, codec, cfg, msgs);
      forall k :: 0 <= k < |r.calls| && r.calls[k].Sign? ==>
        && Prechecks(c, cfg).None?
        && SignerBatch(codec, c.signer.address, msgs, r.calls[k].signCfg.unsignedTx.msgs)
        && r.calls[k].signCfg.unsignedTx.memo == cfg.memo
        && r.calls[k].signCfg.unsignedTx.fee.gasWanted == cfg.gasWanted
  {
    if Prechecks(c, cfg).None? {
      var caller := c.signer.address;
      var conv := ConvertAll(codec, caller, None, msgs);
      if conv.Failure? {
        ConvertAllFirstError(codec, caller, None, msgs);
      } else {
        ConvertAllShape(codec, caller, None, msgs);
        assert msgs[..|msgs|] == msgs;
        LeadingOkAt(codec, caller, None, msgs, |msgs|);
        SendTransactionSpec(c, codec, cfg, conv.value);
      }
    }
  }

  /** How many packages Run renames: those of the messages its loop gets through. */
  function RunRenamed(c: Client, codec: Codec, cfg: BaseTxCfg, msgs: seq<Msg>): nat {
    if Prechecks(c, cfg).Some? then 0 else LeadingOk(codec, c.signer.address, None, msgs)
  }

  // ---------------------------------------------------------------------
  // Sponsor batches

  /** Sponsor's message list. */
  function SponsorMsgs(codec: Codec, signer: Address, sponsoree: Address, msgs: seq<Msg>): Result<seq<VmMsg>, Error> {
    if msgs == [] then Failure(NoMessages)
    else
      match ConvertAll(codec, sponsoree, Some(TypeOf(msgs[0])), msgs)
      case Failure(e) => Failure(e)
      case Success(vms) => Success([VmNoop(signer)] + vms)
  }

  /** An empty batch, and only that, gives ErrNoMessages. A sponsor batch
      that converts is a MsgNoop for the signer followed by every user
      message, in order, bound to the sponsoree, all of the first
      message's type. */
  lemma SponsorMsgsSpec(codec: Codec, signer: Address, sponsoree: Address, msgs: seq<Msg>)
    ensures msgs == [] <==> SponsorMsgs(codec, signer, sponsoree, msgs) == Failure(NoMessages)
    ensures var r := SponsorMsgs(codec, signer, sponsoree, msgs);
      r.Success? ==>
        && |r.value| == |msgs| + 1
        && r.value[0] == VmNoop(signer)
        && forall i :: 0 <= i < |msgs| ==>
             && TypeOf(msgs[i]) == TypeOf(msgs[0])
             && GetCoins(codec, msgs[i]).Success?
             && SenderOf(r.value[i + 1]) == sponsoree
             && Carries(msgs[i], r.value[i + 1], GetCoins(codec, msgs[i]).value)
  {
    if msgs != [] {
      var want := Some(TypeOf(msgs[0]));
      var conv := ConvertAll(codec, sponsoree, want, msgs);
      if conv.Failure? {
        ConvertAllFirstError(codec, sponsoree, want, msgs);
      } else {
        ConvertAllShape(codec, sponsoree, want, msgs);
        var out := [VmNoop(signer)] + conv.value;
        assert forall i :: 0 <= i < |msgs| ==> out[i + 1] == conv.value[i];
      }
    }
  }

  /** ErrMixedMessageTypes is returned exactly when some message's type
      differs from the first's and every message before it converts. */
  lemma SponsorMixedIff(codec: Codec, signer: Address, sponsoree: Address, msgs: seq<Msg>)
    requires msgs != []
    ensures SponsorMsgs(codec, signer, sponsoree, msgs) == Failure(MixedMessageTypes) <==>
      exists k :: 0 <= k < |msgs| && TypeOf(msgs[k]) != TypeOf(msgs[0]) &&
        forall j :: 0 <= j < k ==> Step(codec, sponsoree, Some(TypeOf(msgs[0])), msgs[j]).Success?
  {
    var want := Some(TypeOf(msgs[0]));
    var n := LeadingOk(codec, sponsoree, want, msgs);
    if SponsorMsgs(codec, signer, sponsoree, msgs) == Failure(MixedMessageTypes) {
      ConvertAllFirstError(codec, sponsoree, want, msgs);
      assert TypeOf(msgs[n]) != TypeOf(msgs[0]);
    }
    if exists k :: 0 <= k < |msgs| && TypeOf(msgs[k]) != TypeOf(msgs[0]) &&
        forall j :: 0 <= j < k ==> Step(codec, sponsoree, want, msgs[j]).Success? {
      var k :| 0 <= k < |msgs| && TypeOf(msgs[k]) != TypeOf(msgs[0]) &&
        forall j :: 0 <= j < k ==> Step(codec, sponsoree, want, msgs[j]).Success?;
      assert forall j :: 0 <= j < k ==> msgs[..k][j] == msgs[j];
      ConvertAllShape(codec, sponsoree, want, msgs[..k]);
      ConvertAllFailsAt(codec, sponsoree, want, msgs, k);
    }
  }

  /** The type check is interleaved with validation: a mixed batch whose
      first message is invalid reports the validation error. */
  lemma MixedBatchReportsEarlierValidationError(codec: Codec, signer: Address, sponsoree: Address, to: Address)
    ensures SponsorMsgs(codec, signer, sponsoree,
      [Msg.Call(MsgCall("", "Render", [], "")), Msg.Send(MsgSend(to, "1ugnot"))]) == Failure(EmptyPkgPath)
  {
    var msgs := [Msg.Call(MsgCall("", "Render", [], "")), Msg.Send(MsgSend(to, "1ugnot"))];
    assert msgs[..0] == [];
    ConvertAllFailsAt(codec, sponsoree, Some(CallType), msgs, 0);
  }

  /** Sponsor as a value. */
  function SponsorReply(c: Client, codec: Codec, cfg: BaseTxCfg, sponsoree: Address, msgs: seq<Msg>): Reply {
    if Prechecks(c, cfg).Some? then Reply(None, Prechecks(c, cfg), [])
    else
      match SponsorMsgs(codec, c.signer.address, sponsoree, msgs)
      case Failure(e) => Reply(None, Some(e), [])
      case Success(vms) => SendTransactionReply(c, codec, cfg, vms)
  }

  /** Client and configuration errors come before the empty-batch check;
      a batch that does not convert returns its error with no result and
      before any query, signing or broadcast; whatever reaches the signer
      is the sponsor batch, packed with the configured memo and gas. */
  lemma SponsorReplySpec(c: Client, codec: Codec, cfg: BaseTxCfg, sponsoree: Address, msgs: seq<Msg>)
    ensures Prechecks(c, cfg).Some? ==> SponsorReply(c, codec, cfg, sponsoree, msgs) == Reply(None, Prechecks(c, cfg), [])
    ensures Prechecks(c, cfg).None? && msgs == [] ==>
      SponsorReply(c, codec, cfg, sponsoree, msgs) == Reply(None, Some(NoMessages), [])
    ensures Prechecks(c, cfg).None? && SponsorMsgs(codec, c.signer.address, sponsoree, msgs).Failure? ==>
      SponsorReply(c, codec, cfg, sponsoree, msgs)
        == Reply(None, Some(SponsorMsgs(codec, c.signer.address, sponsoree, msgs).error), [])
    ensures var r := SponsorReply(c, codec, cfg, sponsoree, msgs);
      forall k :: 0 <= k < |r.calls| && r.calls[k].Sign? ==>
        && Prechecks(c, cfg).None?
        && SponsorMsgs(codec, c.signer.address, sponsoree, msgs).Success?
        && r.calls[k].signCfg.unsignedTx.msgs == SponsorMsgs(codec, c.signer.address, sponsoree, msgs).value
        && r.calls[k].signCfg.unsignedTx.memo == cfg.memo
        && r.calls[k].signCfg.unsignedTx.fee.gasWanted == cfg.gasWanted
  {
    var built := SponsorMsgs(codec, c.signer.address, sponsoree, msgs);
    if Prechecks(c, cfg).None? && built.Success? {
      SendTransactionSpec(c, codec, cfg, built.value);
    }
  }

  /** How many packages Sponsor renames. */
  function SponsorRenamed(c: Client, codec: Codec, cfg: BaseTxCfg, sponsoree: Address, msgs: seq<Msg>): nat {
    if Prechecks(c, cfg).Some? || msgs == [] then 0
    else LeadingOk(codec, sponsoree, Some(TypeOf(msgs[0])), msgs)
  }

  /** A typed batch loop leaving at message `i` with error `e`. */
  lemma BatchStopsAt(c: Client, codec: Codec, cfg: BaseTxCfg, msgs: seq<Msg>, i: nat, e: Error)
    requires Prechecks(c, cfg).None? && i < |msgs|
    requires ConvertAll(codec, c.signer.address, None, msgs[..i]).Success?
    requires Step(codec, c.signer.address, None, msgs[i]) == Failure(e)
    ensures BatchReply(c, codec, cfg, msgs) == Reply(None, Some(e), [])
    ensures RunRenamed(c, codec, cfg, msgs) == i
  {
    ConvertAllFailsAt(codec, c.signer.address, None, msgs, i);
    LeadingOkAt(codec, c.signer.address, None, msgs, i);
  }

  /** A typed batch loop getting through every message. */
  lemma BatchCompletes(c: Client, codec: Codec, cfg: BaseTxCfg, msgs: seq<Msg>, vms: seq<VmMsg>)
    requires Prechecks(c, cfg).None?
    requires ConvertAll(codec, c.signer.address, None, msgs) == Success(vms)
    ensures BatchReply(c, codec, cfg, msgs) == SendTransactionReply(c, codec, cfg, vms)
    ensures RunRenamed(c, codec, cfg, msgs) == |msgs|
  {
    assert msgs[..|msgs|] == msgs;
    LeadingOkAt(codec, c.signer.address, None, msgs, |msgs|);
  }

  /** Run's loop leaving at message `i` with error `e`. */
  lemma RunLoopStops(codec: Codec, caller: Address, msgs: seq<Msg>, i: nat, e: Error)
    requires i < |msgs|
    requires ConvertAll(codec, caller, None, msgs[..i]).Success?
    requires Step(codec, caller, None, msgs[i]) == Failure(e)
    ensures ConvertAll(codec, caller, None, msgs) == Failure(e)
    ensures LeadingOk(codec, caller, None, msgs) == i
  {
    ConvertAllFailsAt(codec, caller, None, msgs, i);
    LeadingOkAt(codec, caller, None, msgs, i);
  }

  /** Run's loop getting through every message. */
  lemma RunLoopCompletes(codec: Codec, caller: Address, msgs: seq<Msg>, vms: seq<VmMsg>)
    requires ConvertAll(codec, caller, None, msgs[..|msgs|]) == Success(vms)
    ensures ConvertAll(codec, caller, None, msgs) == Success(vms)
    ensures LeadingOk(codec, caller, None, msgs) == |msgs|
  {
    assert msgs[..|msgs|] == msgs;
    LeadingOkAt(codec, caller, None, msgs, |msgs|);
  }

  /** The sponsor loop leaving at message `i` with error `e`. */
  lemma SponsorLoopStops(codec: Codec, signer: Address, sponsoree: Address, msgs: seq<Msg>, i: nat, e: Error)
    requires i < |msgs|
    requires ConvertAll(codec, sponsoree, Some(TypeOf(msgs[0])), msgs[..i]).Success?
    requires Step(codec, sponsoree, Some(TypeOf(msgs[0])), msgs[i]) == Failure(e)
    ensures SponsorMsgs(codec, signer, sponsoree, msgs) == Failure(e)
    ensures LeadingOk(codec, sponsoree, Some(TypeOf(msgs[0])), msgs) == i
  {
    ConvertAllFailsAt(codec, sponsoree, Some(TypeOf(msgs[0])), msgs, i);
    LeadingOkAt(codec, sponsoree, Some(TypeOf(msgs[0])), msgs, i);
  }

  /** The sponsor loop getting through every message. */
  lemma SponsorLoopCompletes(codec: Codec, signer: Address, sponsoree: Address, msgs: seq<Msg>, vms: seq<VmMsg>)
    requires msgs != [] && |vms| >= 1 && vms[0] == VmNoop(signer)
    requires ConvertAll(codec, sponsoree, Some(TypeOf(msgs[0])), msgs[..|msgs|]) == Success(vms[1..])
    ensures SponsorMsgs(codec, signer, sponsoree, msgs) == Success(vms)
    ensures LeadingOk(codec, sponsoree, Some(TypeOf(msgs[0])), msgs) == |msgs|
  {
    assert msgs[..|msgs|] == msgs;
    assert vms == [VmNoop(signer)] + vms[1..];
    LeadingOkAt(codec, sponsoree, Some(TypeOf(msgs[0])), msgs, |msgs|);
  }

  // ---------------------------------------------------------------------
  // The operations

  /** signAndBroadcastTxCommit. */
  method SignAndBroadcastTxCommit(c: Client, codec: Codec, tx: Tx, accountNumber: uint64, sequenceNumber: uint64)
    returns (res: Option<ResultBroadcastTxCommit>, err: Option<Error>, calls: seq<ExternalCall>)
    ensures Reply(res, err, calls) == SignAndBroadcast(c, codec, tx, accountNumber, sequenceNumber)
  {
    var caller := c.signer.address;
    var accNum, seqNum := accountNumber, sequenceNumber;
    calls := [];

    if seqNum == 0 || accNum == 0 {
      calls := calls + [QueryAccount(caller)];
      var account := c.rpc.queryAccount(caller);
      if account.Failure? {
        return None, Some(Wrapped("query account", account.error)), calls;
      }
      accNum := account.value.accountNumber;
      seqNum := account.value.sequence;
    }

    var signCfg := SignCfg(tx, seqNum, accNum);
    calls := calls + [Sign(signCfg)];
    var signedTx := c.signer.sign(signCfg);
    if signedTx.Failure? {
      return None, Some(Wrapped("sign", signedTx.error)), calls;
    }

    calls := calls + [Marshal(signedTx.value)];
    var bz := codec.marshal(signedTx.value);
    if bz.Failure? {
      return None, Some(Wrapped("marshaling tx binary bytes", bz.error)), calls;
    }

    calls := calls + [BroadcastTxCommit(bz.value)];
    var bres := c.rpc.broadcastTxCommit(bz.value);
    if bres.Failure? {
      return None, Some(Wrapped("broadcasting bytes", bres.error)), calls;
    }

    var b := bres.value;
    if IsErr(b.checkTx) {
      return Some(b), Some(Wrapped("check transaction failed: log:" + b.checkTx.log, b.checkTx.error.value)), calls;
    }
    if IsErr(b.deliverTx) {
      return Some(b), Some(Wrapped("deliver transaction failed: log:" + b.deliverTx.log, b.deliverTx.error.value)), calls;
    }
    return Some(b), None, calls;
  }

  /** sendTransaction. */
  method SendTransaction(c: Client, codec: Codec, cfg: BaseTxCfg, msgs: seq<VmMsg>)
    returns (res: Option<ResultBroadcastTxCommit>, err: Option<Error>, calls: seq<ExternalCall>)
    ensures Reply(res, err, calls) == SendTransactionReply(c, codec, cfg, msgs)
  {
    var tx := BuildTx(codec, cfg, msgs);
    if tx.Failure? {
      return None, Some(tx.error), [];
    }
    res, err, calls := SignAndBroadcastTxCommit(c, codec, tx.value, cfg.accountNumber, cfg.sequenceNumber);
  }

  /** Call. */
  method Call(c: Client, codec: Codec, cfg: BaseTxCfg, msgs: seq<MsgCall>)
    returns (res: Option<ResultBroadcastTxCommit>, err: Option<Error>, calls: seq<ExternalCall>)
    ensures Reply(res, err, calls) == BatchReply(c, codec, cfg, CallMsgs(msgs))
  {
    if c.clientError.Some? {
      return None, Some(ClientInvalid(c.clientError.value)), [];
    }
    var cfgErr := ValidateBaseTxConfig(cfg);
    if cfgErr.Some? {
      return None, cfgErr, [];
    }

    ghost var all := CallMsgs(msgs);
    var vmMsgs: seq<VmMsg> := [];
    var i := 0;
    while i < |msgs|
      invariant 0 <= i <= |msgs|
      invariant ConvertAll(codec, c.signer.address, None, all[..i]) == Success(vmMsgs)
    {
      var msg := msgs[i];
      assert all[..i + 1][..i] == all[..i] && all[..i + 1][i] == Msg.Call(msg);
      var verr := ValidateCall(msg);
      if verr.Some? {
        BatchStopsAt(c, codec, cfg, all, i, verr.value);
        return None, verr, [];
      }
      var send := GetCoins(codec, Msg.Call(msg));
      if send.Failure? {
        BatchStopsAt(c, codec, cfg, all, i, send.error);
        return None, Some(send.error), [];
      }
      var caller := c.signer.address;
      vmMsgs := vmMsgs + [VmCall(caller, msg.pkgPath, msg.funcName, msg.args, send.value)];
      i := i + 1;
    }
    assert all[..i] == all;
    BatchCompletes(c, codec, cfg, all, vmMsgs);
    res, err, calls := SendTransaction(c, codec, cfg, vmMsgs);
  }

  /** Send. Its loop parses the amount a second time; validation has
      parsed it already, so that parse cannot fail. */
  method Send(c: Client, codec: Codec, cfg: BaseTxCfg, msgs: seq<MsgSend>)
    returns (res: Option<ResultBroadcastTxCommit>, err: Option<Error>, calls: seq<ExternalCall>)
    ensures Reply(res, err, calls) == BatchReply(c, codec, cfg, SendMsgs(msgs))
  {
    if c.clientError.Some? {
      return None, Some(ClientInvalid(c.clientError.value)), [];
    }
    var cfgErr := ValidateBaseTxConfig(cfg);
    if cfgErr.Some? {
      return None, cfgErr, [];
    }

    ghost var all := SendMsgs(msgs);
    var vmMsgs: seq<VmMsg> := [];
    var i := 0;
    while i < |msgs|
      invariant 0 <= i <= |msgs|
      invariant ConvertAll(codec, c.signer.address, None, all[..i]) == Success(vmMsgs)
    {
      var msg := msgs[i];
      assert all[..i + 1][..i] == all[..i] && all[..i + 1][i] == Msg.Send(msg);
      var verr := ValidateSend(codec, msg);
      if verr.Some? {
        BatchStopsAt(c, codec, cfg, all, i, verr.value);
        return None, verr, [];
      }
      var send := codec.parseCoins(msg.send);
      assert send.Success?;
      var caller := c.signer.address;
      vmMsgs := vmMsgs + [BankSend(caller, msg.toAddress, send.value)];
      i := i + 1;
    }
    assert all[..i] == all;
    BatchCompletes(c, codec, cfg, all, vmMsgs);
    res, err, calls := SendTransaction(c, codec, cfg, vmMsgs);
  }

  /** AddPackage. */
  method AddPackage(c: Client, codec: Codec, cfg: BaseTxCfg, msgs: seq<MsgAddPackage>)
    returns (res: Option<ResultBroadcastTxCommit>, err: Option<Error>, calls: seq<ExternalCall>)
    ensures Reply(res, err, calls) == BatchReply(c, codec, cfg, AddPackageMsgs(msgs))
  {
    if c.clientError.Some? {
      return None, Some(ClientInvalid(c.clientError.value)), [];
    }
    var cfgErr := ValidateBaseTxConfig(cfg);
    if cfgErr.Some? {
      return None, cfgErr, [];
    }

    ghost var all := AddPackageMsgs(msgs);
    var vmMsgs: seq<VmMsg> := [];
    var i := 0;
    while i < |msgs|
      invariant 0 <= i <= |msgs|
      invariant ConvertAll(codec, c.signer.address, None, all[..i]) == Success(vmMsgs)
    {
      var msg := msgs[i];
      assert all[..i + 1][..i] == all[..i] && all[..i + 1][i] == Msg.AddPackage(msg);
      var verr := ValidateAddPackage(msg);
      if verr.Some? {
        BatchStopsAt(c, codec, cfg, all, i, verr.value);
        return None, verr, [];
      }
      var deposit := GetCoins(codec, Msg.AddPackage(msg));
      if deposit.Failure? {
        BatchStopsAt(c, codec, cfg, all, i, deposit.error);
        return None, Some(deposit.error), [];
      }
      var caller := c.signer.address;
      vmMsgs := vmMsgs + [VmAddPackage(caller, msg.pkg, deposit.value)];
      i := i + 1;
    }
    assert all[..i] == all;
    BatchCompletes(c, codec, cfg, all, vmMsgs);
    res, err, calls := SendTransaction(c, codec, cfg, vmMsgs);
  }

  /** Run's loop: validate each message, parse its coins, rename its
      package to "main" at the empty path through the caller's pointer,
      and unwrap it. The first failure ends the loop; the renames done
      before it stay done. */
  method UnwrapRunMsgs(codec: Codec, caller: Address, msgs: seq<MsgRun>) returns (r: Result<seq<VmMsg>, Error>)
    modifies RunPackages(RunMsgs(msgs))
    ensures r == ConvertAll(codec, caller, None, RunMsgs(msgs))
    ensures RenamedUpTo(RunMsgs(msgs), LeadingOk(codec, caller, None, RunMsgs(msgs)))
  {
    ghost var all := RunMsgs(msgs);
    assert all[..0] == [];
    assert allocated(all) && allocated(RunPackages(all));
    var vmMsgs: seq<VmMsg> := [];
    var i := 0;
    while i < |msgs|
      invariant 0 <= i <= |msgs|
      invariant ConvertAll(codec, caller, None, all[..i]) == Success(vmMsgs)
      invariant Renamed(RunPackages(all[..i]))
      invariant Untouched(RunPackages(all), RunPackages(all[..i]))
      invariant old(allocated(RunPackages(all)))
    {
      var msg := msgs[i];
      assert all[i] == Msg.Run(msg);
      var verr := ValidateRun(msg);
      if verr.Some? {
        RunLoopStops(codec, caller, all, i, verr.value);
        return Failure(verr.value);
      }
      var send := GetCoins(codec, Msg.Run(msg));
      if send.Failure? {
        RunLoopStops(codec, caller, all, i, send.error);
        return Failure(send.error);
      }
      RunPackagesHas(all, i);
      RunPackagesSnoc(all, i);
      ghost var done := RunPackages(all[..i]);
      msg.pkg.name := "main";
      msg.pkg.path := "";
      ConvertAllSnoc(codec, caller, None, all, i, vmMsgs, VmRun(caller, msg.pkg, send.value));
      vmMsgs := vmMsgs + [VmRun(caller, msg.pkg, send.value)];
      forall p | p in RunPackages(all[..i + 1])
        ensures p.name == "main" && p.path == ""
      {
        if p !in done {
          assert p == msg.pkg;
        }
      }
      forall p | p in RunPackages(all) && p !in RunPackages(all[..i + 1])
        ensures unchanged(p)
      {
        assert old(allocated(p)) && p !in done;
      }
      i := i + 1;
    }
    RunLoopCompletes(codec, caller, all, vmMsgs);
    return Success(vmMsgs);
  }

  /** Run. */
  method Run(c: Client, codec: Codec, cfg: BaseTxCfg, msgs: seq<MsgRun>)
    returns (res: Option<ResultBroadcastTxCommit>, err: Option<Error>, calls: seq<ExternalCall>)
    modifies RunPackages(RunMsgs(msgs))
    ensures Reply(res, err, calls) == BatchReply(c, codec, cfg, RunMsgs(msgs))
    ensures RenamedUpTo(RunMsgs(msgs), RunRenamed(c, codec, cfg, RunMsgs(msgs)))
  {
    assert RunMsgs(msgs)[..0] == [];
    assert allocated(RunMsgs(msgs)) && allocated(RunPackages(RunMsgs(msgs)));
    if c.clientError.Some? {
      return None, Some(ClientInvalid(c.clientError.value)), [];
    }
    var cfgErr := ValidateBaseTxConfig(cfg);
    if cfgErr.Some? {
      return None, cfgErr, [];
    }
    var vmMsgs := UnwrapRunMsgs(codec, c.signer.address, msgs);
    if vmMsgs.Failure? {
      return None, Some(vmMsgs.error), [];
    }
    RunPackagesPrefix(RunMsgs(msgs), RunRenamed(c, codec, cfg, RunMsgs(msgs)));
    res, err, calls := SendTransaction(c, codec, cfg, vmMsgs.value);
  }

  /** Sponsor's loop: the MsgNoop for the signer first, then each message,
      which must have the first message's type, validated, its coins
      parsed and unwrapped for the sponsoree; a MsgRun's package is
      renamed as in Run. */
  method UnwrapSponsored(codec: Codec, signer: Address, sponsoree: Address, msgs: seq<Msg>) returns (r: Result<seq<VmMsg>, Error>)
    requires msgs != []
    modifies RunPackages(msgs)
    ensures r == SponsorMsgs(codec, signer, sponsoree, msgs)
    ensures RenamedUpTo(msgs, LeadingOk(codec, sponsoree, Some(TypeOf(msgs[0])), msgs))
  {
    assert msgs[..0] == [];
    assert allocated(RunPackages(msgs));
    var firstMsgType := TypeOf(msgs[0]);
    var vmMsgs: seq<VmMsg> := [VmNoop(signer)];
    assert vmMsgs[1..] == [];
    var i := 0;
    while i < |msgs|
      invariant 0 <= i <= |msgs|
      invariant |vmMsgs| >= 1 && vmMsgs[0] == VmNoop(signer)
      invariant ConvertAll(codec, sponsoree, Some(firstMsgType), msgs[..i]) == Success(vmMsgs[1..])
      invariant Renamed(RunPackages(msgs[..i]))
      invariant Untouched(RunPackages(msgs), RunPackages(msgs[..i]))
      invariant old(allocated(RunPackages(msgs)))
    {
      var msg := msgs[i];
      if TypeOf(msg) != firstMsgType {
        SponsorLoopStops(codec, signer, sponsoree, msgs, i, MixedMessageTypes);
        return Failure(MixedMessageTypes);
      }
      var verr := ValidateMsg(codec, msg);
      if verr.Some? {
        SponsorLoopStops(codec, signer, sponsoree, msgs, i, verr.value);
        return Failure(verr.value);
      }
      var coins := GetCoins(codec, msg);
      if coins.Failure? {
        SponsorLoopStops(codec, signer, sponsoree, msgs, i, coins.error);
        return Failure(coins.error);
      }
      RunPackagesSnoc(msgs, i);
      ghost var done := RunPackages(msgs[..i]);
      if msg.Run? {
        RunPackagesHas(msgs, i);
        msg.run.pkg.name := "main";
        msg.run.pkg.path := "";
      }
      ConvertAllSnoc(codec, sponsoree, Some(firstMsgType), msgs, i, vmMsgs[1..], Bind(sponsoree, msg, coins.value));
      vmMsgs := vmMsgs + [Bind(sponsoree, msg, coins.value)];
      assert vmMsgs[1..] == vmMsgs[1..|vmMsgs| - 1] + [vmMsgs[|vmMsgs| - 1]];
      forall p | p in RunPackages(msgs[..i + 1])
        ensures p.name == "main" && p.path == ""
      {
        if p !in done {
          assert msg.Run? && p == msg.run.pkg;
        }
      }
      forall p | p in RunPackages(msgs) && p !in RunPackages(msgs[..i + 1])
        ensures unchanged(p)
      {
        assert old(allocated(p)) && p !in done;
      }
      i := i + 1;
    }
    SponsorLoopCompletes(codec, signer, sponsoree, msgs, vmMsgs);
    return Success(vmMsgs);
  }

  /** Sponsor: the signer pays, the sponsoree acts. */
  method Sponsor(c: Client, codec: Codec, cfg: BaseTxCfg, sponsoree: Address, msgs: seq<Msg>)
    returns (res: Option<ResultBroadcastTxCommit>, err: Option<Error>, calls: seq<ExternalCall>)
    modifies RunPackages(msgs)
    ensures Reply(res, err, calls) == SponsorReply(c, codec, cfg, sponsoree, msgs)
    ensures RenamedUpTo(msgs, SponsorRenamed(c, codec, cfg, sponsoree, msgs))
  {
    assert msgs[..0] == [];
    assert allocated(RunPackages(msgs));
    if c.clientError.Some? {
      return None, Some(ClientInvalid(c.clientError.value)), [];
    }
    var cfgErr := ValidateBaseTxConfig(cfg);
    if cfgErr.Some? {
      return None, cfgErr, [];
    }
    if |msgs| == 0 {
      return None, Some(NoMessages), [];
    }
    var vmMsgs := UnwrapSponsored(codec, c.signer.address, sponsoree, msgs);
    if vmMsgs.Failure? {
      return None, Some(vmMsgs.error), [];
    }
    RunPackagesPrefix(msgs, SponsorRenamed(c, codec, cfg, sponsoree, msgs));
    res, err, calls := SendTransaction(c, codec, cfg, vmMsgs.value);
  }
}
