/** Values shared by the client library and the command-line helpers:
    addresses, coins, the network messages of the `vm` and `bank` keepers,
    transactions, the broadcast-and-commit result and the error kinds.
    The coin parser and the binary codec are libraries whose code is not part
    of this model; they appear as the function-valued fields of `Codec`. */
module Types {
  import opened Wrappers

  type int64 = x: int | -0x8000_0000_0000_0000 <= x < 0x8000_0000_0000_0000
  type uint64 = x: int | 0 <= x < 0x1_0000_0000_0000_0000

  /** A 20-byte account address (crypto.Address). */
  type Address = a: seq<bv8> | |a| == 20
    witness [0, 0, 0, 0, 0, 0, 0, 0, 0, 0, 0, 0, 0, 0, 0, 0, 0, 0, 0, 0]

  const ZeroAddress: Address := [0, 0, 0, 0, 0, 0, 0, 0, 0, 0, 0, 0, 0, 0, 0, 0, 0, 0, 0, 0]

  /** Address.IsZero: the address is the zero value of its type. */
  predicate IsZero(a: Address) {
    a == ZeroAddress
  }

  datatype Coin = Coin(denom: string, amount: int)
  type Coins = seq<Coin>

  datatype MemFile = MemFile(name: string, body: string)

  /** std.MemPackage, always handled through a pointer. The client code
      overwrites `name` and `path` for scripts it runs; nothing in it writes
      the file list. */
  class MemPackage {
    var name: string
    var path: string
    const files: seq<MemFile>

    constructor (name: string, path: string, files: seq<MemFile>)
      ensures this.name == name && this.path == path && this.files == files
    {
      this.name := name;
      this.path := path;
      this.files := files;
    }
  }

  /** The network messages: vm.MsgCall, bank.MsgSend, vm.MsgRun,
      vm.MsgAddPackage and vm.MsgNoop. Packages are held by reference. */
  datatype VmMsg =
    | VmCall(caller: Address, pkgPath: string, funcName: string, args: seq<string>, send: Coins)
    | BankSend(fromAddress: Address, toAddress: Address, amount: Coins)
    | VmRun(caller: Address, pkg: MemPackage, send: Coins)
    | VmAddPackage(creator: Address, pkg: MemPackage, deposit: Coins)
    | VmNoop(noopCaller: Address)

  /** The principal a network message acts for: its Caller, FromAddress or Creator. */
  function SenderOf(v: VmMsg): Address {
    match v
    case VmCall(caller, _, _, _, _) => caller
    case BankSend(from, _, _) => from
    case VmRun(caller, _, _) => caller
    case VmAddPackage(creator, _, _) => creator
    case VmNoop(caller) => caller
  }

  datatype Fee = Fee(gasWanted: int64, gasFee: Coin)
  datatype Signature = Signature(pubKey: seq<bv8>, signature: seq<bv8>)
  datatype Tx = Tx(msgs: seq<VmMsg>, fee: Fee, signatures: seq<Signature>, memo: string)

  /** Account number and sequence, as carried by std.BaseAccount. */
  datatype Numbers = Numbers(accountNumber: uint64, sequence: uint64)

  /** The part of abci.ResponseBase the core reads: IsErr() is `error != nil`. */
  datatype ResponseBase = ResponseBase(error: Option<string>, log: string, data: seq<bv8>)

  predicate IsErr(r: ResponseBase) {
    r.error.Some?
  }

  datatype ResultBroadcastTxCommit = ResultBroadcastTxCommit(
    checkTx: ResponseBase, deliverTx: ResponseBase, height: int)

  /** Library functions whose code is not part of this model. */
  datatype Codec = Codec(
    parseCoins: string -> Result<Coins, string>,   // std.ParseCoins
    parseCoin: string -> Result<Coin, string>,     // std.ParseCoin
    marshal: Tx -> Result<seq<bv8>, string>)       // amino.Marshal

  /** The error kinds of the core: the client's sentinel errors, errors
      wrapped with a context message (errors.Wrap), and errors returned
      verbatim from a library or an external call. */
  datatype Error =
    | InvalidGasWanted
    | InvalidGasFee
    | EmptyPkgPath
    | EmptyFuncName
    | InvalidToAddress
    | InvalidSendAmount
    | EmptyPackage
    | NoMessages
    | MixedMessageTypes
    | ClientInvalid(reason: string)
    | External(reason: string)
    | Wrapped(msg: string, cause: string)
    | InvalidSimulateOption(option: string)
    | UnableToSign(cause: string)

  /** The two-phase classification of a broadcast-and-commit result: a
      CheckTx error is reported without looking at DeliverTx; a DeliverTx
      error is reported only when CheckTx passed; otherwise there is none. */
  function CommitError(bres: ResultBroadcastTxCommit): (r: Option<Error>)
    ensures r.None? <==> !IsErr(bres.checkTx) && !IsErr(bres.deliverTx)
    ensures IsErr(bres.checkTx) ==>
      r == Some(Wrapped("check transaction failed: log:" + bres.checkTx.log, bres.checkTx.error.value))
    ensures !IsErr(bres.checkTx) && IsErr(bres.deliverTx) ==>
      r == Some(Wrapped("deliver transaction failed: log:" + bres.deliverTx.log, bres.deliverTx.error.value))
  {
    if IsErr(bres.checkTx) then
      Some(Wrapped("check transaction failed: log:" + bres.checkTx.log, bres.checkTx.error.value))
    else if IsErr(bres.deliverTx) then
      Some(Wrapped("deliver transaction failed: log:" + bres.deliverTx.log, bres.deliverTx.error.value))
    else
      None
  }

  /** Whatever DeliverTx says, a failed CheckTx decides the outcome. */
  lemma CheckTxShadowsDeliverTx(a: ResultBroadcastTxCommit, b: ResultBroadcastTxCommit)
    requires IsErr(a.checkTx) && a.checkTx == b.checkTx
    ensures CommitError(a) == CommitError(b)
  {
  }
}
