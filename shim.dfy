/** The part of the Fabric chaincode shim that the transaction chaincode relies on:
    the response envelope, the peer's keyed stores as seen through the stub, and
    the outcome of a call into a collaborator (success, an error return, or a panic). */
module Shim {
  import opened Bytes

  /** shim.OK and shim.ERROR. */
  const OK := 200
  const ERROR := 500

  /** pb.Response; a nil payload is the empty sequence. */
  datatype Response = Response(status: int, message: string, payload: seq<byte>)

  /** shim.Success(payload) */
  function Success(payload: seq<byte>): Response {
    Response(OK, "", payload)
  }

  /** shim.Error(msg) */
  function Error(msg: string): Response {
    Response(ERROR, msg, [])
  }

  datatype Option<T> = None | Some(value: T)

  /** What one call into a collaborator (the stub, the content store) does: it
      succeeds, returns an error with the given text, or panics. Collaborators are
      not part of this model, so their behaviour is an input. */
  datatype Fault = NoFault | Fails(err: string) | Panics

  /** The result a caller sees from a collaborator call. */
  datatype Call<T> = Done(value: T) | Failed(err: string) | Raised

  /** The peer's state reachable through the stub: private data collections, keyed by
      (collection, key), and the world state (the ledger), keyed by string. */
  datatype World = World(privateData: map<(string, string), seq<byte>>, state: map<string, seq<byte>>)

  /** A collaborator call's result together with the state it leaves behind. */
  datatype Effect<T> = Effect(call: Call<T>, after: World)

  /** stub.PutState(key, value): a blind write to the world state. */
  function PutStateEffect(w: World, key: string, value: seq<byte>, f: Fault): (e: Effect<()>)
    ensures e.after.privateData == w.privateData
    ensures e.call.Done? <==> f.NoFault?
    ensures e.call.Done? ==> e.after.state == w.state[key := value]
    ensures !e.call.Done? ==> e.after == w
  {
    match f
    case NoFault => Effect(Done(()), w.(state := w.state[key := value]))
    case Fails(err) => Effect(Failed(err), w)
    case Panics => Effect(Raised, w)
  }

  /** stub.PutPrivateData(collection, key, value). */
  function PutPrivateDataEffect(w: World, collection: string, key: string, value: seq<byte>, f: Fault): (e: Effect<()>)
    ensures e.after.state == w.state
    ensures e.call.Done? <==> f.NoFault?
    ensures e.call.Done? ==> e.after.privateData == w.privateData[(collection, key) := value]
    ensures !e.call.Done? ==> e.after == w
  {
    match f
    case NoFault => Effect(Done(()), w.(privateData := w.privateData[(collection, key) := value]))
    case Fails(err) => Effect(Failed(err), w)
    case Panics => Effect(Raised, w)
  }

  /** stub.GetPrivateData(collection, key): nil (None) when the key is absent. */
  function GetPrivateData(w: World, collection: string, key: string, f: Fault): (c: Call<Option<seq<byte>>>)
    ensures c == Done(None) <==> f.NoFault? && (collection, key) !in w.privateData
    ensures c.Done? && c.value.Some? <==> f.NoFault? && (collection, key) in w.privateData
    ensures c.Done? && c.value.Some? ==> c.value.value == w.privateData[(collection, key)]
  {
    match f
    case NoFault =>
      if (collection, key) in w.privateData then Done(Some(w.privateData[(collection, key)])) else Done(None)
    case Fails(err) => Failed(err)
    case Panics => Raised
  }

  /** The stub handed to the chaincode: its fields are the peer's stores, updated in place. */
  class Stub {
    var privateData: map<(string, string), seq<byte>>
    var state: map<string, seq<byte>>

    function Snapshot(): World
      reads this
    {
      World(privateData, state)
    }

    method PutState(key: string, value: seq<byte>, f: Fault) returns (r: Call<()>)
      modifies this
      ensures Effect(r, Snapshot()) == PutStateEffect(old(Snapshot()), key, value, f)
    {
      match f {
        case NoFault =>
          state := state[key := value];
          r := Done(());
        case Fails(err) =>
          r := Failed(err);
        case Panics =>
          r := Raised;
      }
    }

    method PutPrivateData(collection: string, key: string, value: seq<byte>, f: Fault) returns (r: Call<()>)
      modifies this
      ensures Effect(r, Snapshot()) == PutPrivateDataEffect(old(Snapshot()), collection, key, value, f)
    {
      match f {
        case NoFault =>
          privateData := privateData[(collection, key) := value];
          r := Done(());
        case Fails(err) =>
          r := Failed(err);
        case Panics =>
          r := Raised;
      }
    }
  }

  /** A pb.Response variable that code updates field by field (the named result of
      Invoke, which handlePanic rewrites through a pointer). */
  class ResponseCell {
    var status: int
    var message: string
    var payload: seq<byte>

    /** The zero value of pb.Response. */
    constructor ()
      ensures Value() == Response(0, "", [])
    {
      status, message, payload := 0, "", [];
    }

    function Value(): Response
      reads this
    {
      Response(status, message, payload)
    }

    /** pb.Response.Reset: back to the zero value. */
    method Reset()
      modifies this
      ensures Value() == Response(0, "", [])
    {
      status, message, payload := 0, "", [];
    }

    /** Assigning a whole response, as a `return` does to a named result. */
    method Set(r: Response)
      modifies this
      ensures Value() == r
    {
      status, message, payload := r.status, r.message, r.payload;
    }
  }
}
