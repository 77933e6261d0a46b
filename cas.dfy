/** The content-addressed store client (`cas.New(stub, collection)`): content is kept
    in a private data collection under its content address.

    The real address is a digest computed by the cas package, which is not part of
    this model. `Addr` stands in for it with an encoding that has the properties the
    chaincode relies on: it is deterministic, injective, non-empty for non-empty
    content, and a byte string (so that `[]byte(address)` and back is exact). */
module Cas {
  import opened Bytes
  import opened Shim

  function HexValue(c: char): (v: nat)
    ensures v < 16
  {
    if '0' <= c <= '9' then c as int - '0' as int
    else if 'a' <= c <= 'f' then c as int - 'a' as int + 10
    else 0
  }

  function HexDigit(n: nat): (c: char)
    requires n < 16
    ensures c as int < 256 && HexValue(c) == n
  {
    if n < 10 then ('0' as int + n) as char else ('a' as int + n - 10) as char
  }

  /** The content address of `content`: two lower-case hex digits per byte. */
  function Addr(content: seq<byte>): (a: string)
    ensures |a| == 2 * |content|
    ensures IsByteString(a)
  {
    if content == [] then ""
    else [HexDigit(content[0] as nat / 16), HexDigit(content[0] as nat % 16)] + Addr(content[1..])
  }

  /** Reads an address back into the content it was computed from. */
  function Unhex(a: string): seq<byte>
    decreases |a|
  {
    if |a| < 2 then []
    else [(HexValue(a[0]) * 16 + HexValue(a[1])) as byte] + Unhex(a[2..])
  }

  lemma {:induction false} UnhexAddr(content: seq<byte>)
    ensures Unhex(Addr(content)) == content
  {
    if content != [] {
      var a := Addr(content);
      assert a[2..] == Addr(content[1..]);
      UnhexAddr(content[1..]);
      assert (HexValue(a[0]) * 16 + HexValue(a[1])) as byte == content[0];
    }
  }

  /** Different content never shares an address. */
  lemma AddrInjective(c1: seq<byte>, c2: seq<byte>)
    requires Addr(c1) == Addr(c2)
    ensures c1 == c2
  {
    UnhexAddr(c1);
    UnhexAddr(c2);
  }

  /** client.Write(content): stores `content` under its address in `collection` and
      returns the address. Writing the same bytes again rewrites the same value. */
  function WriteEffect(w: World, collection: string, content: seq<byte>, f: Fault): (e: Effect<string>)
    ensures e.after.state == w.state
    ensures e.call.Done? <==> f.NoFault?
    ensures e.call.Done? ==> e.call.value == Addr(content)
    ensures e.call.Done? ==> e.after.privateData == w.privateData[(collection, Addr(content)) := content]
    ensures !e.call.Done? ==> e.after == w
  {
    var put := PutPrivateDataEffect(w, collection, Addr(content), content, f);
    match put.call
    case Done(_) => Effect(Done(Addr(content)), put.after)
    case Failed(err) => Effect(Failed(err), put.after)
    case Raised => Effect(Raised, put.after)
  }

  method Write(stub: Stub, collection: string, content: seq<byte>, f: Fault) returns (r: Call<string>)
    modifies stub
    ensures Effect(r, stub.Snapshot()) == WriteEffect(old(stub.Snapshot()), collection, content, f)
  {
    var address := Addr(content);
    var put := stub.PutPrivateData(collection, address, content, f);
    match put {
      case Done(_) => r := Done(address);
      case Failed(err) => r := Failed(err);
      case Raised => r := Raised;
    }
  }

  /** client.Read(address): the stored content, None (Go's nil) if nothing is stored. */
  function Read(w: World, collection: string, address: string, f: Fault): (c: Call<Option<seq<byte>>>)
    ensures c.Done? && c.value.Some? ==>
              (collection, address) in w.privateData && c.value.value == w.privateData[(collection, address)]
    ensures c == Done(None) <==> f.NoFault? && (collection, address) !in w.privateData
    ensures f.NoFault? && (collection, address) in w.privateData ==>
              c == Done(Some(w.privateData[(collection, address)]))
  {
    GetPrivateData(w, collection, address, f)
  }
}
