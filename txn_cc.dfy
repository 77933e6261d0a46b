/** The chaincode object `SidetreeTxnCC`: its dispatch table, its state-changing
    handlers, the listing of the table's names, and the panic recovery boundary.
    Each method is proved to do exactly what the function of the same name in
    module Txn describes. */
module TxnCC {
  import opened Bytes
  import opened Shim
  import Cas
  import opened Txn

  /** `funcMap.String`: the table's names, each quoted, joined by ", ", in the order in
      which the map iteration meets them (Go leaves that order unspecified). */
  method FuncMapString(m: map<string, Handler>) returns (str: string, ghost order: seq<string>)
    ensures IsOrdering(order, m.Keys)
    ensures str == Listing(order)
  {
    str := "";
    var i := 0;
    order := [];
    var remaining := m.Keys;
    while remaining != {}
      invariant remaining <= m.Keys
      invariant forall k :: k in order <==> k in m.Keys && k !in remaining
      invariant forall p, q | 0 <= p < q < |order| :: order[p] != order[q]
      invariant i == |order|
      invariant str == Listing(order)
      decreases remaining
    {
      var key :| key in remaining;
      ListingAppend(order, key);
      if i > 0 {
        str := str + ", ";
      }
      i := i + 1;
      str := str + Quote(key);
      order := order + [key];
      remaining := remaining - {key};
    }
  }

  /** `handlePanic`: when a panic was recovered, reset the response and give it the
      generic error status and message; otherwise leave it alone. */
  method HandlePanic(resp: ResponseCell, recovered: bool)
    modifies resp
    ensures recovered ==> resp.Value() == Error(PanicMessage)
    ensures !recovered ==> resp.Value() == old(resp.Value())
  {
    if recovered {
      var errResp := Error(PanicMessage);
      resp.Reset();
      resp.status := errResp.status;
      resp.message := errResp.message;
    }
  }

  class SidetreeTxnCC {
    var functions: map<string, Handler>

    ghost predicate Valid()
      reads this
    {
      functions == DispatchTable()
    }

    /** `new`: fills the table entry by entry. */
    constructor ()
      ensures Valid()
    {
      functions := map[];
      new;
      functions := functions[WriteContentName := WriteHandler];
      functions := functions[ReadContentName := ReadHandler];
      functions := functions[WriteAnchorName := WriteAnchorHandler];
      functions := functions[AnchorBatchName := AnchorBatchHandler];
      functions := functions[WarmupName := WarmupHandler];
    }

    /** `Invoke`: looks the function name up and runs its handler on the remaining
        arguments, behind the panic recovery boundary. `order` is the iteration order
        behind the listing in the unknown-name message. */
    method Invoke(stub: Stub, args: seq<seq<byte>>, plan: seq<Fault>) returns (resp: Response, ghost order: seq<string>)
      requires Valid()
      modifies stub
      ensures |args| >= 1 && ToString(args[0]) !in DispatchTable() ==> IsOrdering(order, DispatchTable().Keys)
      ensures Completion(resp, stub.Snapshot()) == Txn.Invoke(old(stub.Snapshot()), args, plan, order)
    {
      order := [];
      var cell := new ResponseCell();
      var recovered := false;
      if |args| < 1 {
        cell.Set(Error(FunctionNameRequired));
      } else {
        var functionName := ToString(args[0]);
        if functionName !in functions {
          var names;
          names, order := FuncMapString(functions);
          cell.Set(Error(InvalidFunctionMessage(functionName, names)));
        } else {
          var reply: Reply;
          match functions[functionName] {
            case WriteHandler => reply := Write(stub, args[1..], plan);
            case ReadHandler => reply := Txn.Read(stub.Snapshot(), args[1..], plan);
            case WriteAnchorHandler => reply := WriteAnchor(stub, args[1..], plan);
            case AnchorBatchHandler => reply := AnchorBatch(stub, args[1..], plan);
            case WarmupHandler => reply := Returned(Txn.Warmup(args[1..]));
          }
          match reply {
            case Returned(r) => cell.Set(r);
            case Panicked => recovered := true;
          }
        }
      }
      HandlePanic(cell, recovered);
      resp := cell.Value();
    }

    /** `write` */
    method Write(stub: Stub, args: seq<seq<byte>>, plan: seq<Fault>) returns (reply: Reply)
      modifies stub
      ensures Run(reply, stub.Snapshot()) == Txn.Write(old(stub.Snapshot()), args, plan)
    {
      if MissingFirst(args) {
        return Returned(Error(MissingContent));
      }
      var address := Cas.Write(stub, Collection, args[0], At(plan, 0));
      match address {
        case Failed(err) => reply := Returned(Error("failed to write content: " + err));
        case Raised => reply := Panicked;
        case Done(a) => reply := Returned(Success(ToBytes(a)));
      }
    }

    /** `writeAnchor` */
    method WriteAnchor(stub: Stub, args: seq<seq<byte>>, plan: seq<Fault>) returns (reply: Reply)
      modifies stub
      ensures Run(reply, stub.Snapshot()) == Txn.WriteAnchor(old(stub.Snapshot()), args, plan)
    {
      if MissingFirst(args) {
        return Returned(Error(MissingAnchorFileAddress));
      }
      var anchorAddr := ToString(args[0]);
      var put := stub.PutState(AnchorKey(anchorAddr), ToBytes(anchorAddr), At(plan, 0));
      match put {
        case Failed(err) => reply := Returned(Error("failed to write anchor address: " + err));
        case Raised => reply := Panicked;
        case Done(_) => reply := Returned(Success([]));
      }
    }

    /** `anchorBatch`: three steps, each returning early on failure, none undone. */
    method AnchorBatch(stub: Stub, args: seq<seq<byte>>, plan: seq<Fault>) returns (reply: Reply)
      modifies stub
      ensures Run(reply, stub.Snapshot()) == Txn.AnchorBatch(old(stub.Snapshot()), args, plan)
    {
      if MissingBatchFiles(args) {
        return Returned(Error(BatchAndAnchorFilesRequired));
      }
      // write batch file
      var batch := Cas.Write(stub, Collection, args[0], At(plan, 0));
      if batch.Failed? {
        return Returned(Error("failed to write batch content: " + batch.err));
      } else if batch.Raised? {
        return Panicked;
      }
      // write anchor file
      var anchor := Cas.Write(stub, Collection, args[1], At(plan, 1));
      if anchor.Failed? {
        return Returned(Error("failed to write anchor content: " + anchor.err));
      } else if anchor.Raised? {
        return Panicked;
      }
      // record anchor file address on the ledger
      var anchorAddr := anchor.value;
      var put := stub.PutState(AnchorKey(anchorAddr), ToBytes(anchorAddr), At(plan, 2));
      if put.Failed? {
        return Returned(Error("failed to write anchor address: " + put.err));
      } else if put.Raised? {
        return Panicked;
      }
      return Returned(Success([]));
    }
  }
}
