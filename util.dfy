/** The user-facing message descriptors of the client library, the base
    transaction configuration, and their validation rules (gnoclient
    util.go). Every rule is a pure check of the value's own fields that runs
    before any network access. */
module Util {
  import opened Wrappers
  import opened Types

  datatype BaseTxCfg = BaseTxCfg(
    gasFee: string,
    gasWanted: int64,
    accountNumber: uint64,
    sequenceNumber: uint64,
    memo: string)

  datatype MsgCall = MsgCall(pkgPath: string, funcName: string, args: seq<string>, send: string)
  datatype MsgSend = MsgSend(toAddress: Address, send: string)
  /** A nil package pointer is `null`. */
  datatype MsgRun = MsgRun(pkg: MemPackage?, send: string)
  datatype MsgAddPackage = MsgAddPackage(pkg: MemPackage?, deposit: string)

  /** The client's Msg interface, restricted to its four value kinds;
      pointers to them, which the Go interface also admits, are not modelled. */
  datatype Msg =
    | Call(call: MsgCall)
    | Send(transfer: MsgSend)
    | Run(run: MsgRun)
    | AddPackage(add: MsgAddPackage)

  /** The discriminant getType() compares in a sponsor batch. */
  datatype MsgType = CallType | SendType | RunType | AddPackageType

  function TypeOf(m: Msg): MsgType {
    match m
    case Call(_) => CallType
    case Send(_) => SendType
    case Run(_) => RunType
    case AddPackage(_) => AddPackageType
  }

  /** validateBaseTxConfig: gas wanted must be positive, and is checked
      first; the gas fee must be non-empty, and is not parsed here. */
  function ValidateBaseTxConfig(cfg: BaseTxCfg): (r: Option<Error>)
    ensures r.None? <==> cfg.gasWanted > 0 && cfg.gasFee != ""
    ensures cfg.gasWanted <= 0 ==> r == Some(InvalidGasWanted)
    ensures cfg.gasWanted > 0 && cfg.gasFee == "" ==> r == Some(InvalidGasFee)
  {
    if cfg.gasWanted <= 0 then Some(InvalidGasWanted)
    else if cfg.gasFee == "" then Some(InvalidGasFee)
    else None
  }

  /** MsgCall.validateMsg: an empty package path wins over an empty function
      name; the send amount is not examined. */
  function ValidateCall(m: MsgCall): (r: Option<Error>)
    ensures r.None? <==> m.pkgPath != "" && m.funcName != ""
    ensures m.pkgPath == "" ==> r == Some(EmptyPkgPath)
    ensures m.pkgPath != "" && m.funcName == "" ==> r == Some(EmptyFuncName)
  {
    if m.pkgPath == "" then Some(EmptyPkgPath)
    else if m.funcName == "" then Some(EmptyFuncName)
    else None
  }

  /** MsgSend.validateMsg: the zero destination is rejected before the
      amount is parsed; a parse failure becomes ErrInvalidSendAmount. */
  function ValidateSend(codec: Codec, m: MsgSend): (r: Option<Error>)
    ensures r.None? <==> !IsZero(m.toAddress) && codec.parseCoins(m.send).Success?
    ensures IsZero(m.toAddress) ==> r == Some(InvalidToAddress)
    ensures !IsZero(m.toAddress) && codec.parseCoins(m.send).Failure? ==> r == Some(InvalidSendAmount)
  {
    if IsZero(m.toAddress) then Some(InvalidToAddress)
    else if codec.parseCoins(m.send).Failure? then Some(InvalidSendAmount)
    else None
  }

  /** The package rule shared by MsgRun and MsgAddPackage. */
  predicate HasFiles(pkg: MemPackage?) {
    pkg != null && |pkg.files| > 0
  }

  /** MsgRun.validateMsg. */
  function ValidateRun(m: MsgRun): (r: Option<Error>)
    ensures r == Some(EmptyPackage) <==> m.pkg == null || |m.pkg.files| == 0
    ensures r.None? || r == Some(EmptyPackage)
  {
    if !HasFiles(m.pkg) then Some(EmptyPackage) else None
  }

  /** MsgAddPackage.validateMsg. */
  function ValidateAddPackage(m: MsgAddPackage): (r: Option<Error>)
    ensures r == Some(EmptyPackage) <==> m.pkg == null || |m.pkg.files| == 0
    ensures r.None? || r == Some(EmptyPackage)
  {
    if !HasFiles(m.pkg) then Some(EmptyPackage) else None
  }

  /** validateMsg dispatched on the variant. */
  function ValidateMsg(codec: Codec, m: Msg): (r: Option<Error>)
    ensures r.None? && m.Run? ==> m.run.pkg != null
    ensures r.None? && m.AddPackage? ==> m.add.pkg != null
  {
    match m
    case Call(c) => ValidateCall(c)
    case Send(s) => ValidateSend(codec, s)
    case Run(r) => ValidateRun(r)
    case AddPackage(a) => ValidateAddPackage(a)
  }

  /** The coin string a message's getCoins parses: Deposit for
      MsgAddPackage, Send for the others. */
  function AmountOf(m: Msg): string {
    match m
    case Call(c) => c.send
    case Send(s) => s.send
    case Run(r) => r.send
    case AddPackage(a) => a.deposit
  }

  /** The four getCoins methods: the parser's result, success and error
      alike, passed through unchanged. */
  function GetCoins(codec: Codec, m: Msg): (r: Result<Coins, Error>)
    ensures r.Success? <==> codec.parseCoins(AmountOf(m)).Success?
    ensures r.Success? ==> r.value == codec.parseCoins(AmountOf(m)).value
    ensures r.Failure? ==> r.error == External(codec.parseCoins(AmountOf(m)).error)
  {
    match codec.parseCoins(AmountOf(m))
    case Success(coins) => Success(coins)
    case Failure(e) => Failure(External(e))
  }

  /** A MsgSend that passed validation always yields its coins, so the
      second parse in the client's Send loop cannot fail. */
  lemma ValidSendHasCoins(codec: Codec, m: MsgSend)
    requires ValidateSend(codec, m).None?
    ensures GetCoins(codec, Send(m)).Success?
  {
  }
}
