/** What the transaction chaincode promises, stated over the model in module Txn. */
module TxnProperties {
  import opened Bytes
  import opened Shim
  import Cas
  import opened Txn

  // ---------------------------------------------------------------------------
  // Dispatcher

  /** No arguments at all: an error, and nothing is stored. */
  lemma InvokeWithoutFunctionName(w: World, plan: seq<Fault>, order: seq<string>)
    ensures Invoke(w, [], plan, order) == Completion(Response(ERROR, "function name is required", []), w)
  {
  }

  /** A name outside the table: an error naming it and listing the table, nothing stored. */
  lemma InvokeUnknownFunction(w: World, args: seq<seq<byte>>, plan: seq<Fault>, order: seq<string>)
    requires |args| >= 1 && ToString(args[0]) !in DispatchTable()
    ensures Invoke(w, args, plan, order) ==
              Completion(Error("Invalid invoke function [" + ToString(args[0]) + "]. Expecting one of: " + Listing(order)), w)
  {
  }

  /** ... and that listing shows every valid name in double quotes (at `pos`). */
  lemma UnknownFunctionListsEveryName(w: World, args: seq<seq<byte>>, plan: seq<Fault>, order: seq<string>, name: string)
    returns (pos: nat)
    requires |args| >= 1 && ToString(args[0]) !in DispatchTable()
    requires IsOrdering(order, DispatchTable().Keys) && name in DispatchTable()
    ensures var message := Invoke(w, args, plan, order).resp.message;
              pos + |Quote(name)| <= |message| && message[pos..pos + |Quote(name)|] == Quote(name)
  {
    var i :| 0 <= i < |order| && order[i] == name;
    var prefix := "Invalid invoke function [" + ToString(args[0]) + "]. Expecting one of: ";
    var at := ListingQuotes(order, i);
    var message := Invoke(w, args, plan, order).resp.message;
    assert message == prefix + Listing(order);
    pos := |prefix| + at;
    assert message[pos..pos + |Quote(name)|] == Listing(order)[at..at + |Quote(name)|];
  }

  /** The name in front of the handler's arguments is split off, converted with
      `string(args[0])`, and looked up: these are the arguments the handler sees. */
  lemma NameThenRest(name: string, rest: seq<seq<byte>>)
    requires IsByteString(name)
    ensures ToString(([ToBytes(name)] + rest)[0]) == name
    ensures ([ToBytes(name)] + rest)[1..] == rest
  {
    ToStringToBytes(name);
    assert ([ToBytes(name)] + rest)[1..] == rest;
  }

  /** "writeContent" runs write on the arguments after the name. */
  lemma InvokeRoutesWriteContent(w: World, rest: seq<seq<byte>>, plan: seq<Fault>, order: seq<string>)
    ensures Invoke(w, [ToBytes(WriteContentName)] + rest, plan, order) ==
              Completion(Recover(Write(w, rest, plan).reply), Write(w, rest, plan).after)
  {
    NameThenRest(WriteContentName, rest);
  }

  /** "readContent" runs read on the arguments after the name; it stores nothing. */
  lemma InvokeRoutesReadContent(w: World, rest: seq<seq<byte>>, plan: seq<Fault>, order: seq<string>)
    ensures Invoke(w, [ToBytes(ReadContentName)] + rest, plan, order) == Completion(Recover(Read(w, rest, plan)), w)
  {
    NameThenRest(ReadContentName, rest);
  }

  /** "writeAnchor" runs writeAnchor on the arguments after the name. */
  lemma InvokeRoutesWriteAnchor(w: World, rest: seq<seq<byte>>, plan: seq<Fault>, order: seq<string>)
    ensures Invoke(w, [ToBytes(WriteAnchorName)] + rest, plan, order) ==
              Completion(Recover(WriteAnchor(w, rest, plan).reply), WriteAnchor(w, rest, plan).after)
  {
    NameThenRest(WriteAnchorName, rest);
  }

  /** "anchorBatch" runs anchorBatch on the arguments after the name. */
  lemma InvokeRoutesAnchorBatch(w: World, rest: seq<seq<byte>>, plan: seq<Fault>, order: seq<string>)
    ensures Invoke(w, [ToBytes(AnchorBatchName)] + rest, plan, order) ==
              Completion(Recover(AnchorBatch(w, rest, plan).reply), AnchorBatch(w, rest, plan).after)
  {
    NameThenRest(AnchorBatchName, rest);
  }

  /** A handler that panics yields the generic error, whatever it had built so far;
      what it stored before the panic stays stored. */
  lemma InvokePanicIsGeneric(w: World, args: seq<seq<byte>>, plan: seq<Fault>, order: seq<string>)
    requires |args| >= 1 && ToString(args[0]) in DispatchTable()
    requires Handle(DispatchTable()[ToString(args[0])], w, args[1..], plan).reply.Panicked?
    ensures Invoke(w, args, plan, order).resp == Response(ERROR, "panic: check server logs", [])
    ensures Invoke(w, args, plan, order).after == Handle(DispatchTable()[ToString(args[0])], w, args[1..], plan).after
  {
  }

  /** `warmup` succeeds with no payload and changes nothing, whatever the collaborators do. */
  lemma InvokeWarmup(w: World, args: seq<seq<byte>>, plan: seq<Fault>, order: seq<string>)
    requires |args| >= 1 && ToString(args[0]) == WarmupName
    ensures Invoke(w, args, plan, order) == Completion(Response(OK, "", []), w)
  {
  }

  // ---------------------------------------------------------------------------
  // Content store handlers

  /** Without a non-empty first argument, write, read and writeAnchor each refuse with
      their own message and change nothing. */
  lemma MissingArgumentRejected(w: World, args: seq<seq<byte>>, plan: seq<Fault>)
    requires |args| == 0 || |args[0]| == 0
    ensures Write(w, args, plan) == Run(Returned(Error("missing content")), w)
    ensures Read(w, args, plan) == Returned(Error("missing content address"))
    ensures WriteAnchor(w, args, plan) == Run(Returned(Error("missing anchor file address")), w)
  {
  }

  /** A successful write returns the content's address, and reading that address
      returns the content. */
  lemma WriteThenRead(w: World, args: seq<seq<byte>>, plan: seq<Fault>, readArgs: seq<seq<byte>>, readPlan: seq<Fault>)
    requires |args| >= 1 && |args[0]| > 0 && At(plan, 0) == NoFault
    requires |readArgs| >= 1 && readArgs[0] == ToBytes(Cas.Addr(args[0])) && At(readPlan, 0) == NoFault
    ensures Write(w, args, plan).reply == Returned(Success(ToBytes(Cas.Addr(args[0]))))
    ensures Read(Write(w, args, plan).after, readArgs, readPlan) == Returned(Success(args[0]))
  {
    ToStringToBytes(Cas.Addr(args[0]));
  }

  /** Writing the same content again returns the same address and changes nothing more. */
  lemma WriteIsIdempotent(w: World, args: seq<seq<byte>>, plan: seq<Fault>, again: seq<Fault>)
    requires At(plan, 0) == NoFault && At(again, 0) == NoFault
    ensures Write(Write(w, args, plan).after, args, again) == Write(w, args, plan)
  {
  }

  /** A failing content write is reported with the store's error text; nothing changes. */
  lemma WriteFails(w: World, args: seq<seq<byte>>, plan: seq<Fault>, err: string)
    requires !MissingFirst(args) && At(plan, 0) == Fails(err)
    ensures Write(w, args, plan) == Run(Returned(Error("failed to write content: " + err)), w)
  {
  }

  /** A failing content read is reported with the store's error text. */
  lemma ReadFails(w: World, args: seq<seq<byte>>, plan: seq<Fault>, err: string)
    requires !MissingFirst(args) && At(plan, 0) == Fails(err)
    ensures Read(w, args, plan) == Returned(Error("failed to read content: " + err))
  {
  }

  /** With a working store, a read answers 404 "content not found" exactly when nothing
      is stored under the address; that answer is not the generic error. */
  lemma ReadNotFound(w: World, args: seq<seq<byte>>, plan: seq<Fault>)
    requires |args| >= 1 && |args[0]| > 0 && At(plan, 0) == NoFault
    ensures Read(w, args, plan) == Returned(Response(404, "content not found", [])) <==>
              (Collection, ToString(args[0])) !in w.privateData
    ensures Read(w, args, plan).resp.status != ERROR
  {
  }

  /** The round trip through the dispatcher: "writeContent" then "readContent" of the
      returned address gives the content back. */
  lemma InvokeWriteThenRead(w: World, args: seq<seq<byte>>, plan: seq<Fault>, order: seq<string>,
                            readArgs: seq<seq<byte>>, readPlan: seq<Fault>, readOrder: seq<string>)
    requires |args| >= 2 && ToString(args[0]) == WriteContentName && |args[1]| > 0 && At(plan, 0) == NoFault
    requires |readArgs| >= 2 && ToString(readArgs[0]) == ReadContentName && At(readPlan, 0) == NoFault
    requires readArgs[1] == Invoke(w, args, plan, order).resp.payload
    ensures Invoke(w, args, plan, order).resp == Response(OK, "", ToBytes(Cas.Addr(args[1])))
    ensures Invoke(Invoke(w, args, plan, order).after, readArgs, readPlan, readOrder).resp == Response(OK, "", args[1])
  {
    WriteThenRead(w, args[1..], plan, readArgs[1..], readPlan);
  }

  // ---------------------------------------------------------------------------
  // Ledger handlers

  /** A successful writeAnchor records `"sidetreetxn_" + a -> a` and changes nothing else. */
  lemma WriteAnchorRecordsAddress(w: World, args: seq<seq<byte>>, plan: seq<Fault>)
    requires |args| >= 1 && |args[0]| > 0 && At(plan, 0) == NoFault
    ensures WriteAnchor(w, args, plan) ==
              Run(Returned(Response(OK, "", [])), w.(state := w.state["sidetreetxn_" + ToString(args[0]) := args[0]]))
  {
    ToBytesToString(args[0]);
  }

  /** Recording the same anchor twice succeeds and leaves the same single record. */
  lemma WriteAnchorIsIdempotent(w: World, args: seq<seq<byte>>, plan: seq<Fault>, again: seq<Fault>)
    requires At(plan, 0) == NoFault && At(again, 0) == NoFault
    ensures WriteAnchor(WriteAnchor(w, args, plan).after, args, again) == WriteAnchor(w, args, plan)
  {
  }

  /** Distinct addresses have distinct anchor keys: the prefix can be stripped again. */
  lemma AnchorKeyInjective(a: string, b: string)
    requires AnchorKey(a) == AnchorKey(b)
    ensures a == b
  {
    assert a == AnchorKey(a)[|AnchorAddrPrefix|..];
    assert b == AnchorKey(b)[|AnchorAddrPrefix|..];
  }

  /** The ledger only grows, and an anchor record, once there, is never changed or
      removed by any invocation, whatever its arguments and collaborators. */
  lemma InvokeKeepsAnchorRecords(w: World, args: seq<seq<byte>>, plan: seq<Fault>, order: seq<string>, a: string)
    requires IsByteString(a) && AnchorKey(a) in w.state && w.state[AnchorKey(a)] == ToBytes(a)
    ensures var after := Invoke(w, args, plan, order).after;
            w.state.Keys <= after.state.Keys && AnchorKey(a) in after.state && after.state[AnchorKey(a)] == ToBytes(a)
  {
    var after := Invoke(w, args, plan, order).after;
    if |args| >= 1 && ToString(args[0]) in DispatchTable() && after.state != w.state {
      var rest := args[1..];
      var b: string;
      if DispatchTable()[ToString(args[0])] == WriteAnchorHandler {
        b := ToString(rest[0]);
        assert after.state == w.state[AnchorKey(b) := ToBytes(b)];
      } else {
        assert DispatchTable()[ToString(args[0])] == AnchorBatchHandler;
        b := Cas.Addr(rest[1]);
        assert after.state == w.state[AnchorKey(b) := ToBytes(b)];
      }
      if AnchorKey(b) == AnchorKey(a) {
        AnchorKeyInjective(a, b);
      }
    }
  }

  // ---------------------------------------------------------------------------
  // anchorBatch

  /** Fewer than two files, or an empty one: refused, nothing stored. */
  lemma AnchorBatchRejectsMissingFiles(w: World, args: seq<seq<byte>>, plan: seq<Fault>)
    requires |args| < 2 || |args[0]| == 0 || |args[1]| == 0
    ensures AnchorBatch(w, args, plan) == Run(Returned(Error("batch and anchor files are required")), w)
  {
  }

  /** All three steps succeed: both files are stored under their addresses and the
      anchor file's address is on the ledger under its anchor key. */
  lemma AnchorBatchStoresAndAnchors(w: World, args: seq<seq<byte>>, plan: seq<Fault>)
    requires |args| >= 2 && |args[0]| > 0 && |args[1]| > 0
    requires At(plan, 0) == NoFault && At(plan, 1) == NoFault && At(plan, 2) == NoFault
    ensures var batch, anchor := Cas.Addr(args[0]), Cas.Addr(args[1]);
            AnchorBatch(w, args, plan) ==
              Run(Returned(Response(OK, "", [])),
                  World(w.privateData[(Collection, batch) := args[0]][(Collection, anchor) := args[1]],
                        w.state["sidetreetxn_" + anchor := ToBytes(anchor)]))
  {
  }

  /** After a successful anchorBatch both files can be read back at their addresses. */
  lemma AnchorBatchFilesReadable(w: World, args: seq<seq<byte>>, plan: seq<Fault>, readPlan: seq<Fault>)
    requires |args| >= 2 && |args[0]| > 0 && |args[1]| > 0
    requires At(plan, 0) == NoFault && At(plan, 1) == NoFault && At(plan, 2) == NoFault
    requires At(readPlan, 0) == NoFault
    ensures Read(AnchorBatch(w, args, plan).after, [ToBytes(Cas.Addr(args[0]))], readPlan) == Returned(Success(args[0]))
    ensures Read(AnchorBatch(w, args, plan).after, [ToBytes(Cas.Addr(args[1]))], readPlan) == Returned(Success(args[1]))
  {
    ToStringToBytes(Cas.Addr(args[0]));
    ToStringToBytes(Cas.Addr(args[1]));
    if Cas.Addr(args[0]) == Cas.Addr(args[1]) {
      Cas.AddrInjective(args[0], args[1]);
    }
  }

  /** The batch write fails: its error is reported and nothing is stored. */
  lemma AnchorBatchBatchWriteFails(w: World, args: seq<seq<byte>>, plan: seq<Fault>, err: string)
    requires |args| >= 2 && |args[0]| > 0 && |args[1]| > 0
    requires At(plan, 0) == Fails(err)
    ensures AnchorBatch(w, args, plan) == Run(Returned(Error("failed to write batch content: " + err)), w)
  {
  }

  /** The anchor file write fails: its error is reported, the batch file stays stored
      and the ledger is untouched. */
  lemma AnchorBatchAnchorWriteFails(w: World, args: seq<seq<byte>>, plan: seq<Fault>, err: string)
    requires |args| >= 2 && |args[0]| > 0 && |args[1]| > 0
    requires At(plan, 0) == NoFault && At(plan, 1) == Fails(err)
    ensures AnchorBatch(w, args, plan) ==
              Run(Returned(Error("failed to write anchor content: " + err)),
                  w.(privateData := w.privateData[(Collection, Cas.Addr(args[0])) := args[0]]))
  {
  }

  /** The ledger write fails: its error is reported, both files stay stored and the
      ledger is untouched. */
  lemma AnchorBatchLedgerPutFails(w: World, args: seq<seq<byte>>, plan: seq<Fault>, err: string)
    requires |args| >= 2 && |args[0]| > 0 && |args[1]| > 0
    requires At(plan, 0) == NoFault && At(plan, 1) == NoFault && At(plan, 2) == Fails(err)
    ensures AnchorBatch(w, args, plan) ==
              Run(Returned(Error("failed to write anchor address: " + err)),
                  w.(privateData := w.privateData[(Collection, Cas.Addr(args[0])) := args[0]]
                                                 [(Collection, Cas.Addr(args[1])) := args[1]]))
  {
  }

  /** Nothing is rolled back, yet retrying is safe: whatever a first attempt did before
      it failed or panicked, a successful retry ends exactly where one successful
      attempt from the original state would. */
  lemma AnchorBatchRetry(w: World, args: seq<seq<byte>>, first: seq<Fault>, retry: seq<Fault>)
    requires At(retry, 0) == NoFault && At(retry, 1) == NoFault && At(retry, 2) == NoFault
    ensures AnchorBatch(AnchorBatch(w, args, first).after, args, retry) == AnchorBatch(w, args, retry)
  {
    if !MissingBatchFiles(args) {
      var batch, anchor := Cas.Addr(args[0]), Cas.Addr(args[1]);
      var key := AnchorKey(anchor);
      var w1 := AnchorBatch(w, args, first).after;
      AnchorBatchStoresAndAnchors(w, args, retry);
      AnchorBatchStoresAndAnchors(w1, args, retry);
      if batch == anchor {
        Cas.AddrInjective(args[0], args[1]);
      }
      var p1 := w.privateData[(Collection, batch) := args[0]];
      var p2 := p1[(Collection, anchor) := args[1]];
      if !At(first, 0).NoFault? {
        assert w1 == w;
      } else if !At(first, 1).NoFault? {
        assert w1 == w.(privateData := p1);
        assert p1[(Collection, batch) := args[0]] == p1;
      } else {
        assert w1.privateData == p2;
        assert w1.state == w.state || w1.state == w.state[key := ToBytes(anchor)];
        assert p2[(Collection, batch) := args[0]][(Collection, anchor) := args[1]] == p2;
      }
    }
  }
}
