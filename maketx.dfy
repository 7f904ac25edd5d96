/** The decision logic of the command-line transaction helpers of the key
    client (maketx.go): the simulate-option validator, the choice of the
    account and sequence numbers used for signing, the mapping of the
    simulate option onto the broadcast flags, and the sequencing of signing
    and broadcasting with the two-phase result classification.
    The key base, the password prompt, the account query, the JSON decoder,
    the signing routine and the broadcast handler are oracles: the
    function-valued fields of `Env`. Every operation returns the trace of
    its calls to the key base, the account query, the password prompt, the
    signing routine and the broadcast handler; the decoder is not recorded. */
module MakeTx {
  import opened Wrappers
  import opened Types

  /** The valid values of the simulate option. */
  const SimulateTest: string := "test"
  const SimulateSkip: string := "skip"
  const SimulateOnly: string := "only"

  /** The password prompt shown unless the root config asks for quiet output. */
  const PasswordPrompt: string := "Enter password."

  /** The part of the root config BaseCfg the helpers read or pass on. */
  datatype BaseCfg = BaseCfg(home: string, remote: string, quiet: bool, insecurePasswordStdin: bool)

  datatype MakeTxCfg = MakeTxCfg(
    rootCfg: BaseCfg,
    gasWanted: int64,
    gasFee: string,
    memo: string,
    broadcast: bool,
    simulate: string,
    chainId: string,
    sponsor: string)

  datatype SignOpts = SignOpts(chainId: string, accountSequence: uint64, accountNumber: uint64)
  datatype KeyOpts = KeyOpts(keyName: string, decryptPass: string)
  datatype BroadcastCfg = BroadcastCfg(rootCfg: BaseCfg, tx: Tx, dryRun: bool, testSimulate: bool)

  /** The routines the helpers call but whose code is not part of this model. */
  datatype Env = Env(
    // keys.NewKeyBaseFromDir(home) followed by GetByNameOrAddress(name), then GetAddress
    lookupKey: (string, string) -> Result<Address, string>,
    // QueryHandler on the path "auth/accounts/<address>"; the response data.
    // The QueryCfg SignHandler builds has no client, so QueryHandler as
    // written calls a method on a nil interface and panics; the model assumes
    // a configured client and an answer that is success or error.
    queryAccount: (BaseCfg, Address) -> Result<seq<bv8>, string>,
    // amino.UnmarshalJSON of the response data into its BaseAccount
    unmarshalAccount: seq<bv8> -> Result<Numbers, string>,
    // signTx: the signed transaction that replaces the one passed in
    signTx: (Tx, SignOpts, KeyOpts) -> Result<Tx, string>,
    // io.GetPassword(prompt, insecure)
    getPassword: (string, bool) -> Result<string, string>,
    // BroadcastHandler
    broadcast: BroadcastCfg -> Result<ResultBroadcastTxCommit, string>)

  /** The recorded oracle calls an operation makes, in order. */
  datatype Effect =
    | LookupKey(home: string, nameOrBech32: string)
    | QueryAccount(address: Address)
    | PromptPassword(prompt: string)
    | SignTx(unsignedTx: Tx, sOpts: SignOpts, kOpts: KeyOpts)
    | Broadcast(bopts: BroadcastCfg)

  /** The error an operation returns, the recorded calls it made and the
      transaction it leaves behind. */
  datatype Outcome = Outcome(err: Option<Error>, effects: seq<Effect>, tx: Tx)

  /** The transaction, held by pointer and signed in place. */
  class TxRef {
    var tx: Tx

    constructor (tx: Tx)
      ensures this.tx == tx
    {
      this.tx := tx;
    }
  }

  /** Tx.IsSponsorTx: the transaction opens with a no-op message. */
  predicate IsSponsorTx(tx: Tx) {
    |tx.msgs| > 0 && tx.msgs[0].VmNoop?
  }

  /** MakeTxCfg.Validate: only the three named simulate options are accepted. */
  function Validate(cfg: MakeTxCfg): (r: Option<Error>)
    ensures r.None? <==> cfg.simulate in {SimulateTest, SimulateSkip, SimulateOnly}
    ensures r.Some? ==> r.value == InvalidSimulateOption(cfg.simulate)
  {
    if cfg.simulate == SimulateTest || cfg.simulate == SimulateSkip || cfg.simulate == SimulateOnly then
      None
    else
      Some(InvalidSimulateOption(cfg.simulate))
  }

  /** The account and sequence numbers SignHandler signs with. They start at
      zero; a failed account query is tolerated, keeping the zeros, only
      for a sponsor transaction; a successful one supplies both numbers from
      the decoded account, and a decoding error is returned verbatim. */
  function SelectNumbers(env: Env, root: BaseCfg, addr: Address, tx: Tx): (r: Result<Numbers, Error>)
    ensures env.queryAccount(root, addr).Failure? ==> (r.Success? <==> IsSponsorTx(tx))
    ensures env.queryAccount(root, addr).Failure? && IsSponsorTx(tx) ==> r == Success(Numbers(0, 0))
    ensures env.queryAccount(root, addr).Failure? && !IsSponsorTx(tx) ==>
      r == Failure(Wrapped("query account", env.queryAccount(root, addr).error))
    ensures env.queryAccount(root, addr).Success? ==>
      (r.Success? <==> env.unmarshalAccount(env.queryAccount(root, addr).value).Success?) &&
      (r.Success? ==> r.value == env.unmarshalAccount(env.queryAccount(root, addr).value).value) &&
      (r.Failure? ==> r.error == External(env.unmarshalAccount(env.queryAccount(root, addr).value).error))
  {
    var qres := env.queryAccount(root, addr);
    if qres.Failure? then
      if IsSponsorTx(tx) then Success(Numbers(0, 0)) else Failure(Wrapped("query account", qres.error))
    else
      var qret := env.unmarshalAccount(qres.value);
      if qret.Failure? then Failure(External(qret.error)) else Success(qret.value)
  }

  /** What SignHandler does: look the key up, select the numbers, and sign. */
  function SignHandlerSpec(env: Env, cfg: MakeTxCfg, nameOrBech32: string, tx: Tx, pass: string): Outcome {
    var key := env.lookupKey(cfg.rootCfg.home, nameOrBech32);
    var lookup := [LookupKey(cfg.rootCfg.home, nameOrBech32)];
    if key.Failure? then
      Outcome(Some(External(key.error)), lookup, tx)
    else
      var queried := lookup + [QueryAccount(key.value)];
      var nums := SelectNumbers(env, cfg.rootCfg, key.value, tx);
      if nums.Failure? then
        Outcome(Some(nums.error), queried, tx)
      else
        var sOpts := SignOpts(cfg.chainId, nums.value.sequence, nums.value.accountNumber);
        var kOpts := KeyOpts(nameOrBech32, pass);
        var signed := env.signTx(tx, sOpts, kOpts);
        var effects := queried + [SignTx(tx, sOpts, kOpts)];
        if signed.Failure? then Outcome(Some(UnableToSign(signed.error)), effects, tx)
        else Outcome(None, effects, signed.value)
  }

  /** The password prompt ExecSign shows. */
  function PromptFor(root: BaseCfg): string {
    if root.quiet then "" else PasswordPrompt
  }

  /** What ExecSign does: validate, ask for the password, then sign. The key
      name is the first argument; the code indexes it without a check, so an
      empty argument list is excluded once validation has passed. */
  function ExecSignSpec(env: Env, cfg: MakeTxCfg, args: seq<string>, tx: Tx): Outcome
    requires Validate(cfg).None? ==> |args| > 0
  {
    if Validate(cfg).Some? then
      Outcome(Validate(cfg), [], tx)
    else
      var prompt := PromptFor(cfg.rootCfg);
      var pass := env.getPassword(prompt, cfg.rootCfg.insecurePasswordStdin);
      if pass.Failure? then
        Outcome(Some(External(pass.error)), [PromptPassword(prompt)], tx)
      else
        var h := SignHandlerSpec(env, cfg, args[0], tx, pass.value);
        Outcome(h.err, [PromptPassword(prompt)] + h.effects, h.tx)
  }

  /** The broadcast options ExecBroadcast builds from the simulate option:
      a dry run exactly for "only" and a test simulation exactly for "test". */
  function BroadcastFlags(cfg: MakeTxCfg, tx: Tx): (b: BroadcastCfg)
    ensures b.dryRun <==> cfg.simulate == SimulateOnly
    ensures b.testSimulate <==> cfg.simulate == SimulateTest
    ensures b.tx == tx && b.rootCfg == cfg.rootCfg
  {
    BroadcastCfg(cfg.rootCfg, tx, cfg.simulate == SimulateOnly, cfg.simulate == SimulateTest)
  }

  /** What ExecBroadcast does: one broadcast; a handler error is wrapped,
      then CheckTx is classified before DeliverTx. */
  function ExecBroadcastSpec(env: Env, cfg: MakeTxCfg, tx: Tx): Outcome {
    var bopts := BroadcastFlags(cfg, tx);
    var bres := env.broadcast(bopts);
    if bres.Failure? then
      Outcome(Some(Wrapped("broadcast tx", bres.error)), [Broadcast(bopts)], tx)
    else
      Outcome(CommitError(bres.value), [Broadcast(bopts)], tx)
  }

  /** What ExecSignAndBroadcast does: sign, and broadcast the signed
      transaction only when signing succeeded. */
  function ExecSignAndBroadcastSpec(env: Env, cfg: MakeTxCfg, args: seq<string>, tx: Tx): Outcome
    requires Validate(cfg).None? ==> |args| > 0
  {
    var s := ExecSignSpec(env, cfg, args, tx);
    if s.err.Some? then s
    else
      var b := ExecBroadcastSpec(env, cfg, s.tx);
      Outcome(b.err, s.effects + b.effects, s.tx)
  }

  // ---------------------------------------------------------------------
  // Properties of the specifications

  /** A valid simulate option selects exactly one mode: a dry run, a test
      simulation, or neither (skip); the two flags are never set together. */
  lemma SimulateModes(cfg: MakeTxCfg, tx: Tx)
    ensures var b := BroadcastFlags(cfg, tx);
      !(b.dryRun && b.testSimulate) &&
      (Validate(cfg).None? ==> (b.dryRun || b.testSimulate || cfg.simulate == SimulateSkip)) &&
      (cfg.simulate == SimulateSkip ==> !b.dryRun && !b.testSimulate)
  {
  }

  /** A failed validation is returned before any prompt or signing, and the
      transaction is left as it was. */
  lemma ExecSignValidatesFirst(env: Env, cfg: MakeTxCfg, args: seq<string>, tx: Tx)
    requires Validate(cfg).Some?
    ensures ExecSignSpec(env, cfg, args, tx) == Outcome(Validate(cfg), [], tx)
    ensures ExecSignAndBroadcastSpec(env, cfg, args, tx) == Outcome(Validate(cfg), [], tx)
  {
  }

  /** SignHandler signs with the selected numbers, and with zero for both
      when the query failed for a sponsor transaction; the transaction is
      replaced only by a successful signing, and an error leaves it alone. */
  lemma SignHandlerUsesSelectedNumbers(env: Env, cfg: MakeTxCfg, nameOrBech32: string, tx: Tx, pass: string)
    ensures var o := SignHandlerSpec(env, cfg, nameOrBech32, tx, pass);
      var key := env.lookupKey(cfg.rootCfg.home, nameOrBech32);
      (o.err.Some? ==> o.tx == tx) &&
      (|o.effects| > 0 && o.effects[0] == LookupKey(cfg.rootCfg.home, nameOrBech32)) &&
      (forall i :: 0 <= i < |o.effects| && o.effects[i].SignTx? ==>
        i == |o.effects| - 1 && key.Success? &&
        SelectNumbers(env, cfg.rootCfg, key.value, tx).Success? &&
        o.effects[i] == SignTx(tx,
          SignOpts(cfg.chainId, SelectNumbers(env, cfg.rootCfg, key.value, tx).value.sequence,
                   SelectNumbers(env, cfg.rootCfg, key.value, tx).value.accountNumber),
          KeyOpts(nameOrBech32, pass))) &&
      (o.err.None? ==> (|o.effects| == 3 && o.effects[2].SignTx? &&
        env.signTx(tx, o.effects[2].sOpts, o.effects[2].kOpts) == Success(o.tx)))
  {
    var o := SignHandlerSpec(env, cfg, nameOrBech32, tx, pass);
    var key := env.lookupKey(cfg.rootCfg.home, nameOrBech32);
    if key.Success? {
      var nums := SelectNumbers(env, cfg.rootCfg, key.value, tx);
      if nums.Success? {
        assert |o.effects| == 3 && o.effects[..2] == [LookupKey(cfg.rootCfg.home, nameOrBech32), QueryAccount(key.value)];
      }
    }
  }

  /** A sponsor transaction whose account query fails is still signed, with
      account and sequence numbers zero. */
  lemma SponsorSignsWithZeroNumbers(env: Env, cfg: MakeTxCfg, nameOrBech32: string, tx: Tx, pass: string, addr: Address)
    requires env.lookupKey(cfg.rootCfg.home, nameOrBech32) == Success(addr)
    requires env.queryAccount(cfg.rootCfg, addr).Failure? && IsSponsorTx(tx)
    ensures SignHandlerSpec(env, cfg, nameOrBech32, tx, pass).effects ==
      [LookupKey(cfg.rootCfg.home, nameOrBech32), QueryAccount(addr),
       SignTx(tx, SignOpts(cfg.chainId, 0, 0), KeyOpts(nameOrBech32, pass))]
  {
  }

  /** For any other transaction a failed account query stops the signing
      with a "query account" error. */
  lemma QueryFailureStopsOrdinaryTx(env: Env, cfg: MakeTxCfg, nameOrBech32: string, tx: Tx, pass: string, addr: Address)
    requires env.lookupKey(cfg.rootCfg.home, nameOrBech32) == Success(addr)
    requires env.queryAccount(cfg.rootCfg, addr).Failure? && !IsSponsorTx(tx)
    ensures SignHandlerSpec(env, cfg, nameOrBech32, tx, pass) ==
      Outcome(Some(Wrapped("query account", env.queryAccount(cfg.rootCfg, addr).error)),
              [LookupKey(cfg.rootCfg.home, nameOrBech32), QueryAccount(addr)], tx)
  {
  }

  /** ExecBroadcast broadcasts once, with the flags of the simulate option,
      and succeeds exactly when the handler and both phases succeed. */
  lemma ExecBroadcastClassifies(env: Env, cfg: MakeTxCfg, tx: Tx)
    ensures var o := ExecBroadcastSpec(env, cfg, tx);
      var bres := env.broadcast(BroadcastFlags(cfg, tx));
      o.effects == [Broadcast(BroadcastFlags(cfg, tx))] && o.tx == tx &&
      (o.err.None? <==> bres.Success? && !IsErr(bres.value.checkTx) && !IsErr(bres.value.deliverTx)) &&
      (bres.Success? && IsErr(bres.value.checkTx) ==>
        o.err == Some(Wrapped("check transaction failed: log:" + bres.value.checkTx.log, bres.value.checkTx.error.value)))
  {
  }

  /** ExecSign's trace: no broadcast, and on success it ends with the
      signing call. */
  lemma ExecSignEffects(env: Env, cfg: MakeTxCfg, args: seq<string>, tx: Tx)
    requires Validate(cfg).None? ==> |args| > 0
    ensures var s := ExecSignSpec(env, cfg, args, tx);
      (forall i :: 0 <= i < |s.effects| ==> !s.effects[i].Broadcast?) &&
      (s.err.None? ==> |s.effects| > 0 && s.effects[|s.effects| - 1].SignTx?)
  {
    if Validate(cfg).None? {
      var pass := env.getPassword(PromptFor(cfg.rootCfg), cfg.rootCfg.insecurePasswordStdin);
      if pass.Success? {
        SignHandlerUsesSelectedNumbers(env, cfg, args[0], tx, pass.value);
        var s := ExecSignSpec(env, cfg, args, tx);
        var h := SignHandlerSpec(env, cfg, args[0], tx, pass.value);
        assert s.effects == [PromptPassword(PromptFor(cfg.rootCfg))] + h.effects;
      }
    }
  }

  /** ExecSignAndBroadcast broadcasts only after a successful signing, right
      after the signing call, and broadcasts the signed transaction. */
  lemma BroadcastOnlyAfterSigning(env: Env, cfg: MakeTxCfg, args: seq<string>, tx: Tx)
    requires Validate(cfg).None? ==> |args| > 0
    ensures var o := ExecSignAndBroadcastSpec(env, cfg, args, tx);
      var s := ExecSignSpec(env, cfg, args, tx);
      forall i :: 0 <= i < |o.effects| && o.effects[i].Broadcast? ==>
        s.err.None? && o.effects[i].bopts.tx == s.tx && 0 < i && o.effects[i - 1].SignTx?
  {
    ExecSignEffects(env, cfg, args, tx);
    var s := ExecSignSpec(env, cfg, args, tx);
    var o := ExecSignAndBroadcastSpec(env, cfg, args, tx);
    if s.err.None? {
      assert o.effects == s.effects + [Broadcast(BroadcastFlags(cfg, s.tx))];
    }
  }

  // ---------------------------------------------------------------------
  // The helpers

  /** SignHandler: the numbers start at zero and are overwritten from the
      decoded account; the transaction is signed in place. */
  method SignHandler(env: Env, cfg: MakeTxCfg, nameOrBech32: string, txr: TxRef, pass: string)
    returns (err: Option<Error>, effects: seq<Effect>)
    modifies txr
    ensures Outcome(err, effects, txr.tx) == SignHandlerSpec(env, cfg, nameOrBech32, old(txr.tx), pass)
  {
    effects := [LookupKey(cfg.rootCfg.home, nameOrBech32)];
    var info := env.lookupKey(cfg.rootCfg.home, nameOrBech32);
    if info.Failure? {
      return Some(External(info.error)), effects;
    }
    var accountAddr := info.value;

    var accountNumber: uint64 := 0;
    var sequence: uint64 := 0;

    effects := effects + [QueryAccount(accountAddr)];
    var qres := env.queryAccount(cfg.rootCfg, accountAddr);
    if qres.Failure? {
      if !IsSponsorTx(txr.tx) {
        return Some(Wrapped("query account", qres.error)), effects;
      }
    } else {
      var qret := env.unmarshalAccount(qres.value);
      if qret.Failure? {
        return Some(External(qret.error)), effects;
      }
      accountNumber := qret.value.accountNumber;
      sequence := qret.value.sequence;
    }

    var sOpts := SignOpts(cfg.chainId, sequence, accountNumber);
    var kOpts := KeyOpts(nameOrBech32, pass);
    effects := effects + [SignTx(txr.tx, sOpts, kOpts)];
    var signed := env.signTx(txr.tx, sOpts, kOpts);
    if signed.Failure? {
      return Some(UnableToSign(signed.error)), effects;
    }
    txr.tx := signed.value;
    return None, effects;
  }

  /** ExecSign: validate, prompt for the password, then sign. */
  method ExecSign(env: Env, cfg: MakeTxCfg, args: seq<string>, txr: TxRef)
    returns (err: Option<Error>, effects: seq<Effect>)
    requires Validate(cfg).None? ==> |args| > 0
    modifies txr
    ensures Outcome(err, effects, txr.tx) == ExecSignSpec(env, cfg, args, old(txr.tx))
  {
    err := Validate(cfg);
    if err.Some? {
      return err, [];
    }
    var nameOrBech32 := args[0];
    var prompt := if cfg.rootCfg.quiet then "" else PasswordPrompt;
    effects := [PromptPassword(prompt)];
    var pass := env.getPassword(prompt, cfg.rootCfg.insecurePasswordStdin);
    if pass.Failure? {
      return Some(External(pass.error)), effects;
    }
    var more;
    err, more := SignHandler(env, cfg, nameOrBech32, txr, pass.value);
    effects := effects + more;
  }

  /** ExecBroadcast: broadcast the transaction with the flags of the
      simulate option and classify the result. */
  method ExecBroadcast(env: Env, cfg: MakeTxCfg, txr: TxRef)
    returns (err: Option<Error>, effects: seq<Effect>)
    ensures Outcome(err, effects, txr.tx) == ExecBroadcastSpec(env, cfg, txr.tx)
  {
    var bopts := BroadcastCfg(cfg.rootCfg, txr.tx, cfg.simulate == SimulateOnly, cfg.simulate == SimulateTest);
    effects := [Broadcast(bopts)];
    var bres := env.broadcast(bopts);
    if bres.Failure? {
      return Some(Wrapped("broadcast tx", bres.error)), effects;
    }
    err := CommitError(bres.value);
  }

  /** ExecSignAndBroadcast: broadcast only what was signed. */
  method ExecSignAndBroadcast(env: Env, cfg: MakeTxCfg, args: seq<string>, txr: TxRef)
    returns (err: Option<Error>, effects: seq<Effect>)
    requires Validate(cfg).None? ==> |args| > 0
    modifies txr
    ensures Outcome(err, effects, txr.tx) == ExecSignAndBroadcastSpec(env, cfg, args, old(txr.tx))
  {
    err, effects := ExecSign(env, cfg, args, txr);
    if err.Some? {
      return;
    }
    var more;
    err, more := ExecBroadcast(env, cfg, txr);
    effects := effects + more;
  }
}
