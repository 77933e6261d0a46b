/** The Sidetree transaction chaincode as state-transition functions: argument
    validation, response construction, the five handlers and the dispatcher.
    A handler maps the peer state before the call, its arguments and the behaviour
    of its collaborators (`plan`: the k-th collaborator call it makes behaves as
    `At(plan, k)`) to its reply and the peer state after the call. */
module Txn {
  import opened Bytes
  import opened Shim
  import Cas

  // Function names accepted by Invoke.
  const WriteContentName := "writeContent"
  const ReadContentName := "readContent"
  const WriteAnchorName := "writeAnchor"
  const AnchorBatchName := "anchorBatch"
  const WarmupName := "warmup"

  /** The private data collection holding content. */
  const Collection := "dcas"
  /** The prefix of every anchor key on the ledger. */
  const AnchorAddrPrefix := "sidetreetxn_"

  /** Status of a read whose address holds no content. */
  const NotFound := 404

  const FunctionNameRequired := "function name is required"
  const MissingContent := "missing content"
  const MissingContentAddress := "missing content address"
  const MissingAnchorFileAddress := "missing anchor file address"
  const BatchAndAnchorFilesRequired := "batch and anchor files are required"
  const ContentNotFound := "content not found"
  const PanicMessage := "panic: check server logs"

  datatype Handler = WriteHandler | ReadHandler | WriteAnchorHandler | AnchorBatchHandler | WarmupHandler

  /** The table `new` builds: function name to handler. */
  function DispatchTable(): map<string, Handler> {
    map[WriteContentName := WriteHandler,
        ReadContentName := ReadHandler,
        WriteAnchorName := WriteAnchorHandler,
        AnchorBatchName := AnchorBatchHandler,
        WarmupName := WarmupHandler]
  }

  /** A handler either returns a response or panics. */
  datatype Reply = Returned(resp: Response) | Panicked

  datatype Run = Run(reply: Reply, after: World)

  /** What Invoke hands back: a response (never a panic) and the state after. */
  datatype Completion = Completion(resp: Response, after: World)

  /** The behaviour of the k-th collaborator call; calls past the plan succeed. */
  function At(plan: seq<Fault>, k: nat): Fault {
    if k < |plan| then plan[k] else NoFault
  }

  /** The check shared by write, read and writeAnchor: no first argument, or an empty one. */
  predicate MissingFirst(args: seq<seq<byte>>) {
    |args| < 1 || |args[0]| == 0
  }

  /** anchorBatch's check: fewer than two arguments, or either of them empty. */
  predicate MissingBatchFiles(args: seq<seq<byte>>) {
    |args| < 2 || |args[0]| == 0 || |args[1]| == 0
  }

  /** The ledger key recording an anchor address. */
  function AnchorKey(address: string): string {
    AnchorAddrPrefix + address
  }

  /** `write`: store the first argument in the content store and return its address.
      It never touches the ledger and changes at most the entry of its own content. */
  function Write(w: World, args: seq<seq<byte>>, plan: seq<Fault>): (r: Run)
    ensures r.after.state == w.state
    ensures r.after == w || (!MissingFirst(args) &&
              r.after.privateData == w.privateData[(Collection, Cas.Addr(args[0])) := args[0]])
  {
    if MissingFirst(args) then Run(Returned(Error(MissingContent)), w)
    else
      var write := Cas.WriteEffect(w, Collection, args[0], At(plan, 0));
      match write.call
      case Failed(err) => Run(Returned(Error("failed to write content: " + err)), write.after)
      case Raised => Run(Panicked, write.after)
      case Done(address) => Run(Returned(Success(ToBytes(address))), write.after)
  }

  /** `read`: the content stored under the address given as first argument. A success
      returns exactly the stored bytes. */
  function Read(w: World, args: seq<seq<byte>>, plan: seq<Fault>): (r: Reply)
    ensures r.Returned? && r.resp.status == OK ==>
              !MissingFirst(args) && (Collection, ToString(args[0])) in w.privateData &&
              r.resp.payload == w.privateData[(Collection, ToString(args[0]))]
    ensures !MissingFirst(args) && At(plan, 0).NoFault? && (Collection, ToString(args[0])) in w.privateData ==>
              r == Returned(Success(w.privateData[(Collection, ToString(args[0]))]))
  {
    if MissingFirst(args) then Returned(Error(MissingContentAddress))
    else
      var address := ToString(args[0]);
      match Cas.Read(w, Collection, address, At(plan, 0))
      case Failed(err) => Returned(Error("failed to read content: " + err))
      case Raised => Panicked
      case Done(None) => Returned(Response(NotFound, ContentNotFound, []))
      case Done(Some(payload)) => Returned(Success(payload))
  }

  /** `writeAnchor`: record the address given as first argument on the ledger. It
      never touches the content store and writes at most the one anchor record. */
  function WriteAnchor(w: World, args: seq<seq<byte>>, plan: seq<Fault>): (r: Run)
    ensures r.after.privateData == w.privateData
    ensures r.after == w || (!MissingFirst(args) &&
              r.after.state == w.state[AnchorKey(ToString(args[0])) := ToBytes(ToString(args[0]))])
  {
    if MissingFirst(args) then Run(Returned(Error(MissingAnchorFileAddress)), w)
    else
      var anchorAddr := ToString(args[0]);
      var put := PutStateEffect(w, AnchorKey(anchorAddr), ToBytes(anchorAddr), At(plan, 0));
      match put.call
      case Failed(err) => Run(Returned(Error("failed to write anchor address: " + err)), put.after)
      case Raised => Run(Panicked, put.after)
      case Done(_) => Run(Returned(Success([])), put.after)
  }

  /** `anchorBatch`: store the batch file, store the anchor file, record the anchor
      file's address on the ledger, stopping at the first step that fails. The ledger
      gains at most the anchor record, and only once the anchor file is stored. */
  function AnchorBatch(w: World, args: seq<seq<byte>>, plan: seq<Fault>): (r: Run)
    ensures r.after.state == w.state || (!MissingBatchFiles(args) &&
              r.after.state == w.state[AnchorKey(Cas.Addr(args[1])) := ToBytes(Cas.Addr(args[1]))])
    ensures r.after.state != w.state ==>
              !MissingBatchFiles(args) && (Collection, Cas.Addr(args[1])) in r.after.privateData &&
              r.after.privateData[(Collection, Cas.Addr(args[1]))] == args[1]
  {
    if MissingBatchFiles(args) then Run(Returned(Error(BatchAndAnchorFilesRequired)), w)
    else
      var batch := Cas.WriteEffect(w, Collection, args[0], At(plan, 0));
      match batch.call
      case Failed(err) => Run(Returned(Error("failed to write batch content: " + err)), batch.after)
      case Raised => Run(Panicked, batch.after)
      case Done(_) =>
        var anchor := Cas.WriteEffect(batch.after, Collection, args[1], At(plan, 1));
        match anchor.call
        case Failed(err) => Run(Returned(Error("failed to write anchor content: " + err)), anchor.after)
        case Raised => Run(Panicked, anchor.after)
        case Done(anchorAddr) =>
          var put := PutStateEffect(anchor.after, AnchorKey(anchorAddr), ToBytes(anchorAddr), At(plan, 2));
          match put.call
          case Failed(err) => Run(Returned(Error("failed to write anchor address: " + err)), put.after)
          case Raised => Run(Panicked, put.after)
          case Done(_) => Run(Returned(Success([])), put.after)
  }

  /** `warmup`: succeeds with no payload, whatever its arguments. */
  function Warmup(args: seq<seq<byte>>): Response {
    Success([])
  }

  /** Runs the handler a table entry names. */
  function Handle(h: Handler, w: World, args: seq<seq<byte>>, plan: seq<Fault>): Run {
    match h
    case WriteHandler => Write(w, args, plan)
    case ReadHandler => Run(Read(w, args, plan), w)
    case WriteAnchorHandler => WriteAnchor(w, args, plan)
    case AnchorBatchHandler => AnchorBatch(w, args, plan)
    case WarmupHandler => Run(Returned(Warmup(args)), w)
  }

  /** A function name in double quotes. */
  function Quote(name: string): string {
    "\"" + name + "\""
  }

  /** `funcMap.String` for keys met in the order `order`: each quoted, joined by ", ". */
  function Listing(order: seq<string>): string
    decreases |order|
  {
    if |order| == 0 then ""
    else if |order| == 1 then Quote(order[0])
    else Listing(order[..|order| - 1]) + ", " + Quote(order[|order| - 1])
  }

  /** Meeting one more name extends the listing by a separator and that name. */
  lemma ListingAppend(order: seq<string>, name: string)
    ensures Listing(order + [name]) == if order == [] then Quote(name) else Listing(order) + ", " + Quote(name)
  {
    assert (order + [name])[..|order|] == order;
  }

  /** Every name of `order` appears, quoted, in its listing (at `pos`). */
  lemma {:induction false} ListingQuotes(order: seq<string>, i: nat) returns (pos: nat)
    requires i < |order|
    ensures pos + |Quote(order[i])| <= |Listing(order)|
    ensures Listing(order)[pos..pos + |Quote(order[i])|] == Quote(order[i])
    decreases |order|
  {
    var n := |order|;
    if n == 1 {
      pos := 0;
    } else {
      var front := order[..n - 1];
      var listing := Listing(front);
      assert Listing(order) == listing + ", " + Quote(order[n - 1]);
      if i == n - 1 {
        pos := |listing| + 2;
      } else {
        pos := ListingQuotes(front, i);
        assert front[i] == order[i];
        assert Listing(order)[pos..pos + |Quote(order[i])|] == listing[pos..pos + |Quote(order[i])|];
      }
    }
  }

  /** `order` lists every key of `keys` exactly once (an iteration order of a Go map). */
  ghost predicate IsOrdering(order: seq<string>, keys: set<string>) {
    && (forall i, j | 0 <= i < j < |order| :: order[i] != order[j])
    && (forall k :: k in keys <==> k in order)
  }

  function InvalidFunctionMessage(name: string, listing: string): string {
    "Invalid invoke function [" + name + "]. Expecting one of: " + listing
  }

  /** What handlePanic leaves behind: the handler's response, or the generic error
      if the handler panicked. */
  function Recover(reply: Reply): (r: Response)
    ensures reply.Panicked? ==> r.status == ERROR && r.message == PanicMessage && r.payload == []
  {
    match reply
    case Returned(resp) => resp
    case Panicked => Error(PanicMessage)
  }

  /** `Invoke`: the function name is the first argument; the rest go to its handler.
      `order` is the order in which the table's names are met when the error message
      for an unknown name lists them. Every invocation ends in a response with status
      200 and no message, 404, or 500 and no payload. */
  function Invoke(w: World, args: seq<seq<byte>>, plan: seq<Fault>, order: seq<string>): (c: Completion)
    ensures c.resp.status in {OK, NotFound, ERROR}
    ensures c.resp.status == OK ==> c.resp.message == ""
    ensures c.resp.status != OK ==> c.resp.payload == []
  {
    if |args| < 1 then Completion(Error(FunctionNameRequired), w)
    else
      var functionName := ToString(args[0]);
      if functionName !in DispatchTable() then
        Completion(Error(InvalidFunctionMessage(functionName, Listing(order))), w)
      else
        var run := Handle(DispatchTable()[functionName], w, args[1..], plan);
        Completion(Recover(run.reply), run.after)
  }
}
