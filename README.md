# Sidetree transaction chaincode, modelled in Dafny

This project models the Sidetree transaction chaincode of sidetree-fabric
(`cmd/chaincode/txn/txn.go`). The chaincode is a Hyperledger Fabric chaincode. Its
`Invoke` takes a function name and byte-array arguments, and routes them through a
fixed table to one of five handlers:

- `writeContent` stores a blob in a content-addressed store (the private data
  collection `dcas`) and returns its address;
- `readContent` returns the blob stored at an address, or status 404
  "content not found";
- `writeAnchor` records an anchor address on the ledger under the key
  `"sidetreetxn_" + address`;
- `anchorBatch` stores a batch file, stores an anchor file, and records the anchor
  file's address. It stops at the first failing step and undoes nothing;
- `warmup` does nothing and succeeds.

A recovery boundary (`handlePanic`) turns a panic inside a handler into a generic
error response.

Layout:

- `bytes.dfy` (module `Bytes`): Go's `string(b)` and `[]byte(s)` conversions. A Go
  string is a Dafny string whose characters are all below 256.
- `shim.dfy` (module `Shim`): the parts of the Fabric shim the chaincode uses. It
  holds the response envelope (`Response`, `Success`, `Error`) and the peer state
  reachable through the stub (`World`: private data and the world state). It also
  holds the `Stub` class, whose fields are those stores and whose `PutState` and
  `PutPrivateData` methods update them in place, and `ResponseCell`, a
  `pb.Response` variable updated field by field.
- `cas.dfy` (module `Cas`): the content-store client. It covers the address of
  some content, writing content under its address, and reading by address.
- `txn.dfy` (module `Txn`): the chaincode as functions. Each handler maps the state
  before the call, its arguments and the collaborators' behaviour to its reply and
  the state after. The module also holds the dispatch table, `funcMap.String`'s
  listing, the panic recovery and `Invoke`.
- `txn_cc.dfy` (module `TxnCC`): the `SidetreeTxnCC` class. Its constructor fills
  the table entry by entry. `Invoke`, `Write`, `WriteAnchor` and `AnchorBatch` are
  methods that change the stub's stores step by step; each is proved to produce
  exactly the reply and state that the function of the same name in `Txn` gives.
  `FuncMapString` is the listing loop and `HandlePanic` the recovery boundary.
- `txn_properties.dfy` (module `TxnProperties`): the properties the chaincode
  promises, as lemmas over `Txn`.

Collaborators are inputs. Every handler takes a `plan: seq<Fault>`, and the k-th
collaborator call it makes (a content write or read, or a `PutState`) behaves as
`At(plan, k)`: it succeeds, returns an error with a given text, or panics. A call
beyond the end of the plan succeeds. Panics are modelled only at these calls,
because the handlers themselves contain nothing else that can panic. Go's map
iteration order in `funcMap.String` is a nondeterministic choice. `Invoke` returns
the order that was used as a ghost value, and the `Txn.Invoke` function takes it as
a parameter.

Anchoring is a blind `PutState` (txn.go:171, 193): the handlers do not look at the
ledger first. Re-anchoring the same address writes the same value again
(`WriteAnchorIsIdempotent`), and no invocation ever changes or removes an anchor
record that is already there (`InvokeKeepsAnchorRecords`).

## Model

| member | source | states |
|---|---|---|
| `Bytes.ToString` | cmd/chaincode/txn/txn.go:81 | `string(b)` gives a string of single-byte characters |
| `Bytes.ToBytesToString` | cmd/chaincode/txn/txn.go:190-193 | `[]byte(string(b)) == b`, so the ledger value written for an anchor is exactly the argument bytes |
| `Bytes.ToStringToBytes` | cmd/chaincode/txn/txn.go:109-123 | `string([]byte(s)) == s` for a byte string, so an address returned by write reads back as the same address |
| `Shim.PutStateEffect` | cmd/chaincode/txn/txn.go:193 | `PutState` succeeds exactly when no fault occurs; it then sets that one world-state key, otherwise changes nothing; it never touches private data |
| `Shim.PutPrivateDataEffect` | cmd/chaincode/txn/txn.go:102 | a private-data put succeeds exactly when no fault occurs and then sets that one key, otherwise changes nothing; the ledger is untouched |
| `Shim.GetPrivateData` | cmd/chaincode/txn/txn.go:124 | returns nil exactly when the key is absent and there is no fault, and the stored bytes exactly when it is present |
| `Shim.Stub.PutState` | cmd/chaincode/txn/txn.go:193 | the stub's stores change as `PutStateEffect` says and the call returns its result |
| `Shim.Stub.PutPrivateData` | cmd/chaincode/txn/txn.go:102 | the stub's stores change as `PutPrivateDataEffect` says |
| `Shim.ResponseCell.constructor` | cmd/chaincode/txn/txn.go:62 | the named result starts as the zero response |
| `Shim.ResponseCell.Reset` | cmd/chaincode/txn/txn.go:228 | `resp.Reset()` sets status, message and payload back to zero values |
| `Shim.ResponseCell.Set` | cmd/chaincode/txn/txn.go:78-88 | a `return` assigns the whole response to the named result |
| `Cas.Addr` | cmd/chaincode/txn/txn.go:102 | the address of n bytes has 2n single-byte characters, so it is non-empty for non-empty content |
| `Cas.UnhexAddr` | cmd/chaincode/txn/txn.go:102 | the content can be recovered from its address |
| `Cas.AddrInjective` | cmd/chaincode/txn/txn.go:155-163 | different content never shares an address, so the batch and anchor files cannot overwrite each other unless they are equal |
| `Cas.WriteEffect` | cmd/chaincode/txn/txn.go:100-102 | a content write succeeds exactly when no fault occurs; it then returns `Addr(content)` and stores the content under it in the collection; a failed write changes nothing; the ledger is never touched |
| `Cas.Write` | cmd/chaincode/txn/txn.go:100-102 | the stub's stores change and the call returns as `WriteEffect` says |
| `Cas.Read` | cmd/chaincode/txn/txn.go:121-124 | with a working store, the stored content is returned exactly when something is stored under the address, and nil exactly when nothing is; content is only ever returned from the address it is stored under |
| `Txn.ListingAppend` | cmd/chaincode/txn/txn.go:206-211 | one more loop iteration extends the listing by `", "` (except the first time) and the quoted key |
| `Txn.ListingQuotes` | cmd/chaincode/txn/txn.go:203-214 | every key met by the loop appears, double-quoted, in the listing |
| `Txn.Write` | cmd/chaincode/txn/txn.go:92-110 | write never touches the ledger, and changes at most the entry of its own content's address |
| `Txn.Read` | cmd/chaincode/txn/txn.go:113-139 | a success is returned only for an address that holds content, with exactly that content as payload; and with a working store, an address that holds content always gives that success |
| `Txn.WriteAnchor` | cmd/chaincode/txn/txn.go:182-201 | writeAnchor never touches the content store; it either changes nothing or adds exactly the record `"sidetreetxn_" + a -> []byte(a)` |
| `Txn.AnchorBatch` | cmd/chaincode/txn/txn.go:143-179 | the ledger gains at most the record for the anchor file's address, and gains it only when the anchor file is stored under that address |
| `Txn.Recover` | cmd/chaincode/txn/txn.go:222-231 | after a panic the response is status 500, message "panic: check server logs", empty payload |
| `Txn.Invoke` | cmd/chaincode/txn/txn.go:62-89 | every invocation ends with a well-formed envelope: status 200 with no message, or 404/500 with no payload |
| `TxnCC.FuncMapString` | cmd/chaincode/txn/txn.go:203-214 | the loop returns the listing of some order that meets every table name exactly once (Go's iteration order is unspecified) |
| `TxnCC.HandlePanic` | cmd/chaincode/txn/txn.go:222-231 | after a recovered panic the response is reset and becomes the generic error; without a panic it is left unchanged |
| `TxnCC.SidetreeTxnCC.constructor` | cmd/chaincode/txn/txn.go:43-54 | the table maps exactly the five function names to their handlers |
| `TxnCC.SidetreeTxnCC.Invoke` | cmd/chaincode/txn/txn.go:62-89 | the response and the new stub state are those of `Txn.Invoke`; for an unknown name the listing order covers every table name once |
| `TxnCC.SidetreeTxnCC.Write` | cmd/chaincode/txn/txn.go:92-110 | the reply and new stub state are those of `Txn.Write` |
| `TxnCC.SidetreeTxnCC.WriteAnchor` | cmd/chaincode/txn/txn.go:182-201 | the reply and new stub state are those of `Txn.WriteAnchor` |
| `TxnCC.SidetreeTxnCC.AnchorBatch` | cmd/chaincode/txn/txn.go:143-179 | the reply and new stub state, step by step with early returns, are those of `Txn.AnchorBatch` |
| `TxnProperties.InvokeWithoutFunctionName` | cmd/chaincode/txn/txn.go:75-79 | no arguments: error "function name is required", state unchanged |
| `TxnProperties.InvokeUnknownFunction` | cmd/chaincode/txn/txn.go:81-86 | unknown name: error `Invalid invoke function [<name>]. Expecting one of: <listing>`, state unchanged |
| `TxnProperties.UnknownFunctionListsEveryName` | cmd/chaincode/txn/txn.go:84 | that message contains every valid function name in double quotes |
| `TxnProperties.NameThenRest` | cmd/chaincode/txn/txn.go:81-88 | the first argument, converted back to a string, is the function name, and the handler gets exactly the arguments after it |
| `TxnProperties.InvokeRoutesWriteContent` | cmd/chaincode/txn/txn.go:81-88 | "writeContent" runs write on the remaining arguments; its reply passes the recovery boundary and its writes stay |
| `TxnProperties.InvokeRoutesReadContent` | cmd/chaincode/txn/txn.go:81-88 | "readContent" runs read on the remaining arguments, behind the recovery boundary, and changes nothing |
| `TxnProperties.InvokeRoutesWriteAnchor` | cmd/chaincode/txn/txn.go:81-88 | "writeAnchor" runs writeAnchor on the remaining arguments; its reply passes the recovery boundary and its write stays |
| `TxnProperties.InvokeRoutesAnchorBatch` | cmd/chaincode/txn/txn.go:81-88 | "anchorBatch" runs anchorBatch on the remaining arguments; its reply passes the recovery boundary and its writes stay |
| `TxnProperties.InvokePanicIsGeneric` | cmd/chaincode/txn/txn.go:66-231 | a handler panic gives status 500, "panic: check server logs", empty payload; writes made before the panic remain |
| `TxnProperties.InvokeWarmup` | cmd/chaincode/txn/txn.go:217-219 | "warmup" always succeeds with an empty payload and changes nothing |
| `TxnProperties.MissingArgumentRejected` | cmd/chaincode/txn/txn.go:94-188 | a missing or empty first argument gives "missing content", "missing content address" or "missing anchor file address", with no state change |
| `TxnProperties.WriteThenRead` | cmd/chaincode/txn/txn.go:102-138 | a successful write returns the content's address, and reading that address returns the content with success status |
| `TxnProperties.WriteIsIdempotent` | cmd/chaincode/txn/txn.go:102-109 | writing the same content twice returns the same address and leaves the same state as one write |
| `TxnProperties.WriteFails` | cmd/chaincode/txn/txn.go:102-107 | a failing content write gives "failed to write content: <err>" and changes nothing |
| `TxnProperties.ReadFails` | cmd/chaincode/txn/txn.go:124-129 | a failing content read gives "failed to read content: <err>" |
| `TxnProperties.ReadNotFound` | cmd/chaincode/txn/txn.go:124-136 | with a working store, read returns 404 "content not found" with no payload exactly when nothing is stored at the address, and never the generic error |
| `TxnProperties.InvokeWriteThenRead` | cmd/chaincode/txn/txn.go:81-138 | through the dispatcher, "writeContent" returns the address and "readContent" of that payload returns the content |
| `TxnProperties.WriteAnchorRecordsAddress` | cmd/chaincode/txn/txn.go:190-200 | a successful writeAnchor(a) sets `ledger["sidetreetxn_" + a] = a` and changes nothing else |
| `TxnProperties.WriteAnchorIsIdempotent` | cmd/chaincode/txn/txn.go:190-200 | writeAnchor twice gives the same result and the same single record as once |
| `TxnProperties.AnchorKeyInjective` | cmd/chaincode/txn/txn.go:193 | two addresses share an anchor key `"sidetreetxn_" + a` only if they are equal |
| `TxnProperties.InvokeKeepsAnchorRecords` | cmd/chaincode/txn/txn.go:171-193 | no invocation removes a ledger key, and an anchor record `"sidetreetxn_" + a -> a` already present keeps its value |
| `TxnProperties.AnchorBatchRejectsMissingFiles` | cmd/chaincode/txn/txn.go:146-150 | fewer than two arguments or an empty one: "batch and anchor files are required", nothing changed |
| `TxnProperties.AnchorBatchStoresAndAnchors` | cmd/chaincode/txn/txn.go:154-178 | on success both files are stored under their addresses and `ledger["sidetreetxn_" + Addr(anchor)] = Addr(anchor)` |
| `TxnProperties.AnchorBatchFilesReadable` | cmd/chaincode/txn/txn.go:154-178 | after a success both files read back, each at its own address |
| `TxnProperties.AnchorBatchBatchWriteFails` | cmd/chaincode/txn/txn.go:155-160 | batch write fails: "failed to write batch content: <err>", nothing changed |
| `TxnProperties.AnchorBatchAnchorWriteFails` | cmd/chaincode/txn/txn.go:163-168 | anchor write fails: "failed to write anchor content: <err>", the batch stays stored, the ledger is untouched |
| `TxnProperties.AnchorBatchLedgerPutFails` | cmd/chaincode/txn/txn.go:171-176 | ledger put fails: "failed to write anchor address: <err>", both files stay stored, the ledger is untouched |
| `TxnProperties.AnchorBatchRetry` | cmd/chaincode/txn/txn.go:154-178 | nothing is rolled back, but a successful retry after any failed or panicked attempt ends in the same state as one successful attempt |

## Left out

- Logging (`logger.Debugf`/`Errorf`, the stack trace from `debug.Stack`, the transaction id used only in log lines). This includes the `Debugf` at txn.go:85, which has one argument too few; that only affects a log line.
- `Init`, `main` and `shim.Start`: process bootstrapping, with no logic to specify.
- The cas package's hashing and its private-collection transport are not part of this model. `Cas.Addr` (hex encoding) stands in for the digest. The properties use only what a digest promises: the address is deterministic, injective, non-empty for non-empty content, and a byte string.
- A Go `panic`/`recover` is not modelled as control flow. A panic is a `Panics` outcome of a collaborator call, and `HandlePanic` turns it into the generic response. Faults elsewhere (for example a nil stub) are not modelled.
- Fabric's transaction semantics are not modelled. The stub's stores are updated in place when a call succeeds. Whether the peer later commits or discards those writes is the ledger's concern.
- Collaborator errors and panics are inputs (`plan`). Nothing about real I/O, concurrency or the order between transactions is modelled.
- Response status and message are unbounded `int`/`string`. The protobuf `int32` never matters here, because only 200, 404 and 500 occur.
