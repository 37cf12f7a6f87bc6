/**
 * The X-Plane data-bus client of XPlane.ts, speaking the datagram format of
 * NASA's XPlaneConnect plugin: every request is a 4-byte ASCII opcode, one
 * zero pad byte and an opcode-specific payload; responses to reads start
 * with "RESP". Pending reads wait on a stack of callbacks, and each inbound
 * datagram is handed to the most recently pushed one.
 *
 * Names are the ASCII bytes of data-ref and command names. A packed 'f'
 * value is kept as its four bytes (Word): IEEE-754 is not interpreted.
 */
module XPlane {
  import opened Wrappers

  newtype byte = b: int | 0 <= b < 256

  type Bytes = seq<byte>

  /** One packed 32-bit value, as its four little-endian bytes. */
  datatype Word = Word(b0: byte, b1: byte, b2: byte, b3: byte)

  /** A python-struct value format made of `count` 'f' codes ("f" is Floats(1)). */
  datatype Format = Floats(count: nat)

  datatype QueryType = GETD | DREF | COMM

  /** The opcodes "GETD", "DREF" and "COMM" in ASCII. */
  function Opcode(q: QueryType): (op: Bytes)
    ensures |op| == 4
  {
    match q
    case GETD => [71, 69, 84, 68]
    case DREF => [68, 82, 69, 70]
    case COMM => [67, 79, 77, 77]
  }

  /** "RESP" in ASCII. */
  const RESP: Bytes := [82, 69, 83, 80]

  lemma OpcodesDistinct(p: QueryType, q: QueryType)
    ensures Opcode(p) == Opcode(q) <==> p == q
    ensures Opcode(p) != RESP
  {
    if p != q {
      assert Opcode(p)[0] != Opcode(q)[0];
    }
    assert Opcode(p)[0] != RESP[0];
  }

  datatype Error =
    | PackError                      // a value python-struct cannot pack
    | SendFailed                     // the socket reported a send error
    | UnexpectedResponse(tag: Bytes) // a response whose tag is not "RESP"
    | UnpackError                    // a response too short for its format

  // ---------------------------------------------------------------------
  // Packing
  // ---------------------------------------------------------------------

  function PackWord(w: Word): Bytes
  {
    [w.b0, w.b1, w.b2, w.b3]
  }

  /** The packed bytes of a value list. */
  function PackWords(ws: seq<Word>): (bs: Bytes)
    ensures |bs| == 4 * |ws|
  {
    if ws == [] then [] else PackWord(ws[0]) + PackWords(ws[1..])
  }

  /** The first `n` packed values of `bs`, read in order; None when `bs` is too short. */
  function UnpackWords(bs: Bytes, n: nat): (r: Option<seq<Word>>)
    ensures r.Some? <==> |bs| >= 4 * n
    ensures r.Some? ==> |r.value| == n
  {
    if n == 0 then Some([])
    else if |bs| < 4 then None
    else
      match UnpackWords(bs[4..], n - 1)
      case None => None
      case Some(rest) => Some([Word(bs[0], bs[1], bs[2], bs[3])] + rest)
  }

  /** Unpacking reads back what was packed, whatever follows it. */
  lemma {:induction false} UnpackPackWords(ws: seq<Word>, tail: Bytes)
    ensures UnpackWords(PackWords(ws) + tail, |ws|) == Some(ws)
  {
    if ws != [] {
      var rest := PackWords(ws[1..]) + tail;
      var bs := PackWords(ws) + tail;
      assert bs == PackWord(ws[0]) + rest;
      assert bs[4..] == rest;
      assert Word(bs[0], bs[1], bs[2], bs[3]) == ws[0];
      UnpackPackWords(ws[1..], tail);
      assert [ws[0]] + ws[1..] == ws;
    }
  }

  /** A 'B' field: one unsigned byte, which python-struct refuses beyond 255. */
  function PackB(n: nat): (r: Result<byte, Error>)
    ensures r.Ok? <==> n < 256
    ensures r.Ok? ==> r.value as int == n
  {
    if n < 256 then Ok(n as byte) else Err(PackError)
  }

  /** pack("<4sx", [type]) followed by the payload. */
  function Frame(q: QueryType, payload: Bytes): (dgram: Bytes)
    ensures |dgram| == 5 + |payload|
    ensures dgram[..4] == Opcode(q) && dgram[4] == 0 && dgram[5..] == payload
  {
    Opcode(q) + [0] + payload
  }

  // ---------------------------------------------------------------------
  // Requests
  // ---------------------------------------------------------------------

  /** The three kinds of outgoing datagram. */
  datatype Packet =
    | ReadRef(name: Bytes)
    | WriteRef(name: Bytes, format: Format, values: seq<Word>)
    | RunCommand(name: Bytes)

  /** getDataRef: pack("<BB{n}s", [1, n, name]). */
  function GetDataRefPayload(name: Bytes): Result<Bytes, Error>
  {
    match PackB(|name|)
    case Err(e) => Err(e)
    case Ok(n) => Ok([1, n] + name)
  }

  /** sendDataRef: pack("<B{n}sB{format}", [n, name, data.length, ...data]); the values must match the format. */
  function SendDataRefPayload(name: Bytes, format: Format, values: seq<Word>): Result<Bytes, Error>
  {
    if |values| != format.count then Err(PackError)
    else
      match (PackB(|name|), PackB(|values|))
      case (Ok(n), Ok(k)) => Ok([n] + name + [k] + PackWords(values))
      case _ => Err(PackError)
  }

  /** command: pack("<B{n}s", [n, name]). */
  function CommandPayload(name: Bytes): Result<Bytes, Error>
  {
    match PackB(|name|)
    case Err(e) => Err(e)
    case Ok(n) => Ok([n] + name)
  }

  /** The datagram a request is sent as. */
  function Encode(r: Packet): Result<Bytes, Error>
  {
    match r
    case ReadRef(name) =>
      (match GetDataRefPayload(name) case Err(e) => Err(e) case Ok(p) => Ok(Frame(GETD, p)))
    case WriteRef(name, format, values) =>
      (match SendDataRefPayload(name, format, values) case Err(e) => Err(e) case Ok(p) => Ok(Frame(DREF, p)))
    case RunCommand(name) =>
      (match CommandPayload(name) case Err(e) => Err(e) case Ok(p) => Ok(Frame(COMM, p)))
  }

  /** A request can be packed exactly when every length fits its byte and the values match the format. */
  lemma EncodeSucceeds(r: Packet)
    ensures Encode(r).Ok? <==>
      |r.name| < 256 && (r.WriteRef? ==> |r.values| == r.format.count && |r.values| < 256)
  {
  }

  /** The layout of each encoded request, byte by byte. */
  lemma EncodeLayout(r: Packet)
    requires Encode(r).Ok?
    ensures var d := Encode(r).value;
      && (r.ReadRef? ==> d == Opcode(GETD) + [0] + [1, |r.name| as byte] + r.name)
      && (r.WriteRef? ==> d == Opcode(DREF) + [0] + [|r.name| as byte] + r.name + [|r.values| as byte] + PackWords(r.values))
      && (r.RunCommand? ==> d == Opcode(COMM) + [0] + [|r.name| as byte] + r.name)
  {
  }

  /**
   * The receiving side of the format: the request a datagram carries, or
   * None when it is not a well-formed GETD, DREF or COMM datagram.
   */
  function ParsePacket(d: Bytes): Option<Packet>
  {
    if |d| < 6 || d[4] != 0 then None
    else if d[..4] == Opcode(GETD) then ParseGetd(d[5..])
    else if d[..4] == Opcode(COMM) then ParseComm(d[5..])
    else if d[..4] == Opcode(DREF) then ParseDref(d[5..])
    else None
  }

  /** A GETD payload: 1, the name length, the name. */
  function ParseGetd(p: Bytes): Option<Packet>
  {
    if |p| >= 2 && p[0] == 1 && |p| == 2 + p[1] as int then Some(ReadRef(p[2..])) else None
  }

  /** A COMM payload: the name length, the name. */
  function ParseComm(p: Bytes): Option<Packet>
  {
    if |p| >= 1 && |p| == 1 + p[0] as int then Some(RunCommand(p[1..])) else None
  }

  /** A DREF payload: the name length, the name, the value count, the packed values. */
  function ParseDref(p: Bytes): Option<Packet>
  {
    if |p| < 1 then None
    else
      var n := p[0] as int;
      if |p| < 2 + n then None
      else
        var k := p[1 + n] as int;
        if |p| != 2 + n + 4 * k then None
        else
          match UnpackWords(p[2 + n..], k)
          case None => None
          case Some(vs) => Some(WriteRef(p[1..1 + n], Floats(k), vs))
  }

  lemma ParseReadRef(name: Bytes)
    requires |name| < 256
    ensures ParsePacket(Frame(GETD, [1, |name| as byte] + name)) == Some(ReadRef(name))
  {
    var p := [1, |name| as byte] + name;
    assert p[2..] == name;
    assert ParseGetd(p) == Some(ReadRef(name));
  }

  lemma ParseRunCommand(name: Bytes)
    requires |name| < 256
    ensures ParsePacket(Frame(COMM, [|name| as byte] + name)) == Some(RunCommand(name))
  {
    OpcodesDistinct(COMM, GETD);
    var p := [|name| as byte] + name;
    assert p[1..] == name;
    assert ParseComm(p) == Some(RunCommand(name));
  }

  /** The fields of a length-prefixed record `a`, `x`, `b`, `y`. */
  lemma RecordFields(a: byte, x: Bytes, b: byte, y: Bytes)
    ensures var p := [a] + x + [b] + y;
      && |p| == 2 + |x| + |y|
      && p[0] == a && p[1..1 + |x|] == x && p[1 + |x|] == b && p[2 + |x|..] == y
  {
    var p := [a] + x + [b] + y;
    assert p == [a] + (x + ([b] + y));
    assert p[1..] == x + ([b] + y);
    assert p[1..][..|x|] == x;
    assert p[1..][|x|..] == [b] + y;
  }

  lemma ParseDrefPayload(name: Bytes, values: seq<Word>)
    requires |name| < 256 && |values| < 256
    ensures ParseDref([|name| as byte] + name + [|values| as byte] + PackWords(values))
      == Some(WriteRef(name, Floats(|values|), values))
  {
    var n := |name|;
    var k := |values|;
    var w := PackWords(values);
    var p := [n as byte] + name + [k as byte] + w;
    RecordFields(n as byte, name, k as byte, w);
    UnpackPackWords(values, []);
    assert w + [] == w;
    assert UnpackWords(p[2 + n..], k) == Some(values);
  }

  lemma ParseWriteRef(name: Bytes, values: seq<Word>)
    requires |name| < 256 && |values| < 256
    ensures ParsePacket(Frame(DREF, [|name| as byte] + name + [|values| as byte] + PackWords(values)))
      == Some(WriteRef(name, Floats(|values|), values))
  {
    OpcodesDistinct(DREF, GETD);
    OpcodesDistinct(DREF, COMM);
    ParseDrefPayload(name, values);
  }

  /** Round trip: every datagram the client can send is read back as the request it encodes. */
  lemma {:induction false} ParseEncode(r: Packet)
    requires Encode(r).Ok?
    ensures ParsePacket(Encode(r).value) == Some(r)
  {
    EncodeLayout(r);
    match r
    case ReadRef(name) =>
      ParseReadRef(name);
    case RunCommand(name) =>
      ParseRunCommand(name);
    case WriteRef(name, format, values) =>
      ParseWriteRef(name, values);
  }

  // ---------------------------------------------------------------------
  // Responses
  // ---------------------------------------------------------------------

  /** #query's check of a response: the tag must be "RESP"; the bytes from offset 5 on are returned. */
  function CheckResponse(res: Bytes): (r: Result<Bytes, Error>)
    ensures r.Ok? <==> |res| >= 4 && res[..4] == RESP
    ensures r.Ok? ==> r.value == if |res| <= 5 then [] else res[5..]
    ensures |res| >= 4 && res[..4] != RESP ==> r == Err(UnexpectedResponse(res[..4]))
  {
    if |res| < 4 then Err(UnpackError)
    else if res[..4] != RESP then Err(UnexpectedResponse(res[..4]))
    else Ok(if |res| <= 5 then [] else res[5..])
  }

  /** getDataRef's unpack("<BB{format}"): the results count and row length are dropped, the values returned. */
  function DecodeDataRef(body: Bytes, format: Format): (r: Result<seq<Word>, Error>)
    ensures r.Ok? <==> |body| >= 2 + 4 * format.count
    ensures r.Ok? ==> |r.value| == format.count && PackWords(r.value) == body[2..2 + 4 * format.count]
  {
    if |body| < 2 + 4 * format.count then Err(UnpackError)
    else
      var vs := UnpackWords(body[2..], format.count).value;
      PackUnpackWords(body[2..], format.count);
      Ok(vs)
  }

  /** Packing what was unpacked gives back the bytes that were read. */
  lemma {:induction false} PackUnpackWords(bs: Bytes, n: nat)
    requires |bs| >= 4 * n
    ensures PackWords(UnpackWords(bs, n).value) == bs[..4 * n]
  {
    if n > 0 {
      PackUnpackWords(bs[4..], n - 1);
      var vs := UnpackWords(bs, n).value;
      assert vs[1..] == UnpackWords(bs[4..], n - 1).value;
      assert bs[..4 * n] == bs[..4] + bs[4..][..4 * (n - 1)];
    }
  }

  /** What a read returns once its response has arrived. */
  function ReadResponse(res: Bytes, format: Format): Result<seq<Word>, Error>
  {
    match CheckResponse(res)
    case Err(e) => Err(e)
    case Ok(body) => DecodeDataRef(body, format)
  }

  /** The plugin's answer to a one-data-ref read: "RESP", a pad, one result of |values| values. */
  function EncodeResponse(values: seq<Word>): Bytes
    requires |values| < 256
  {
    RESP + [0] + [1, |values| as byte] + PackWords(values)
  }

  /** A response tagged otherwise than "RESP" never yields a value. */
  lemma ReadResponseRejectsOtherTags(res: Bytes, format: Format)
    requires |res| >= 4 && res[..4] != RESP
    ensures ReadResponse(res, format) == Err(UnexpectedResponse(res[..4]))
  {
  }

  /** Round trip: reading a well-formed response gives the values the plugin packed. */
  lemma ReadResponseRoundTrip(values: seq<Word>)
    requires |values| < 256
    ensures ReadResponse(EncodeResponse(values), Floats(|values|)) == Ok(values)
  {
    var res := EncodeResponse(values);
    assert res[..4] == RESP;
    var body := res[5..];
    assert body == [1, |values| as byte] + PackWords(values);
    assert body[2..] == PackWords(values) + [];
    UnpackPackWords(values, []);
  }

  // ---------------------------------------------------------------------
  // The client and its callback stack
  // ---------------------------------------------------------------------

  /** How a request's promise stands once the send callback has run. */
  datatype Outcome =
    | Failed(error: Error)   // rejected
    | Resolved(value: Bytes) // resolved (fire-and-forget: an empty buffer)
    | Awaiting(id: nat)      // its callback waits on the stack

  /** Where an inbound datagram went. */
  datatype Delivery = Delivered(id: nat, message: Bytes) | Unclaimed

  class Client {
    /** Ids of the pending callbacks, oldest first; the last is popped first. */
    var callbackStack: seq<nat>
    /** The id the next pending callback gets. */
    var nextId: nat
    /** Every datagram handed to the socket, in order. */
    var sent: seq<Bytes>
    /** Datagrams that arrived with no pending callback, each reported as an error. */
    var unclaimed: seq<Bytes>

    /** Pending ids are distinct, in push order, and all issued already. */
    ghost predicate Valid()
      reads this
    {
      && (forall i, j :: 0 <= i < j < |callbackStack| ==> callbackStack[i] < callbackStack[j])
      && (forall i :: 0 <= i < |callbackStack| ==> callbackStack[i] < nextId)
    }

    constructor ()
      ensures Valid()
      ensures callbackStack == [] && nextId == 0 && sent == [] && unclaimed == []
    {
      callbackStack := [];
      nextId := 0;
      sent := [];
      unclaimed := [];
    }

    /**
     * #request: hands `req` to the socket. `sendOk` is whether the send
     * callback reports no error. A callback is pushed only when a response
     * is expected and the send succeeded.
     */
    method Request(req: Bytes, withResponse: bool, sendOk: bool) returns (r: Outcome)
      requires Valid()
      modifies this
      ensures Valid()
      ensures sent == old(sent) + [req] && unclaimed == old(unclaimed)
      ensures !sendOk ==> r == Failed(SendFailed) && callbackStack == old(callbackStack) && nextId == old(nextId)
      ensures sendOk && withResponse ==>
        r == Awaiting(old(nextId)) && callbackStack == old(callbackStack) + [old(nextId)] && nextId == old(nextId) + 1
      ensures sendOk && !withResponse ==>
        r == Resolved([]) && callbackStack == old(callbackStack) && nextId == old(nextId)
    {
      sent := sent + [req];
      if !sendOk {
        return Failed(SendFailed);
      }
      if withResponse {
        callbackStack := callbackStack + [nextId];
        r := Awaiting(nextId);
        nextId := nextId + 1;
      } else {
        r := Resolved([]);
      }
    }

    /** #query: a framed request that waits for its response. */
    method Query(q: QueryType, data: Bytes, sendOk: bool) returns (r: Outcome)
      requires Valid()
      modifies this
      ensures Valid()
      ensures sent == old(sent) + [Frame(q, data)] && unclaimed == old(unclaimed)
      ensures !sendOk ==> r == Failed(SendFailed) && callbackStack == old(callbackStack) && nextId == old(nextId)
      ensures sendOk ==>
        r == Awaiting(old(nextId)) && callbackStack == old(callbackStack) + [old(nextId)] && nextId == old(nextId) + 1
    {
      r := Request(Opcode(q) + [0] + data, true, sendOk);
    }

    /** #call: a framed fire-and-forget request. */
    method Call(q: QueryType, data: Bytes, sendOk: bool) returns (r: Outcome)
      requires Valid()
      modifies this
      ensures Valid()
      ensures sent == old(sent) + [Frame(q, data)] && unclaimed == old(unclaimed)
      ensures callbackStack == old(callbackStack) && nextId == old(nextId)
      ensures r == if sendOk then Resolved([]) else Failed(SendFailed)
    {
      r := Request(Opcode(q) + [0] + data, false, sendOk);
    }

    /** getDataRef(name, format): a GETD query; a name too long to pack rejects before anything is sent. */
    method GetDataRef(name: Bytes, sendOk: bool) returns (r: Outcome)
      requires Valid()
      modifies this
      ensures Valid()
      ensures unclaimed == old(unclaimed)
      ensures Encode(ReadRef(name)).Err? ==>
        r == Failed(PackError) && sent == old(sent) && callbackStack == old(callbackStack) && nextId == old(nextId)
      ensures Encode(ReadRef(name)).Ok? ==> sent == old(sent) + [Encode(ReadRef(name)).value]
      ensures Encode(ReadRef(name)).Ok? && !sendOk ==>
        r == Failed(SendFailed) && callbackStack == old(callbackStack) && nextId == old(nextId)
      ensures Encode(ReadRef(name)).Ok? && sendOk ==>
        r == Awaiting(old(nextId)) && callbackStack == old(callbackStack) + [old(nextId)] && nextId == old(nextId) + 1
    {
      var payload := GetDataRefPayload(name);
      if payload.Err? {
        return Failed(payload.error);
      }
      r := Query(GETD, payload.value, sendOk);
    }

    /** sendDataRef(name, format, data): a DREF call; a value list that cannot be packed rejects before anything is sent. */
    method SendDataRef(name: Bytes, format: Format, values: seq<Word>, sendOk: bool) returns (r: Outcome)
      requires Valid()
      modifies this
      ensures Valid()
      ensures unclaimed == old(unclaimed) && callbackStack == old(callbackStack) && nextId == old(nextId)
      ensures Encode(WriteRef(name, format, values)).Err? ==> r == Failed(PackError) && sent == old(sent)
      ensures Encode(WriteRef(name, format, values)).Ok? ==>
        sent == old(sent) + [Encode(WriteRef(name, format, values)).value]
        && r == if sendOk then Resolved([]) else Failed(SendFailed)
    {
      var payload := SendDataRefPayload(name, format, values);
      if payload.Err? {
        return Failed(payload.error);
      }
      r := Call(DREF, payload.value, sendOk);
    }

    /** command(name): a COMM call. */
    method Command(name: Bytes, sendOk: bool) returns (r: Outcome)
      requires Valid()
      modifies this
      ensures Valid()
      ensures unclaimed == old(unclaimed) && callbackStack == old(callbackStack) && nextId == old(nextId)
      ensures Encode(RunCommand(name)).Err? ==> r == Failed(PackError) && sent == old(sent)
      ensures Encode(RunCommand(name)).Ok? ==>
        sent == old(sent) + [Encode(RunCommand(name)).value]
        && r == if sendOk then Resolved([]) else Failed(SendFailed)
    {
      var payload := CommandPayload(name);
      if payload.Err? {
        return Failed(payload.error);
      }
      r := Call(COMM, payload.value, sendOk);
    }

    /**
     * The socket's "message" handler: the datagram goes to the most recently
     * pushed callback, which is removed; with no callback waiting it is
     * reported as an error and the stack stays as it was.
     */
    method OnMessage(msg: Bytes) returns (d: Delivery)
      requires Valid()
      modifies this
      ensures Valid()
      ensures sent == old(sent) && nextId == old(nextId)
      ensures old(callbackStack) == [] ==>
        d == Unclaimed && callbackStack == [] && unclaimed == old(unclaimed) + [msg]
      ensures old(callbackStack) != [] ==>
        && d == Delivered(old(callbackStack)[|old(callbackStack)| - 1], msg)
        && callbackStack == old(callbackStack)[..|old(callbackStack)| - 1]
        && unclaimed == old(unclaimed)
      ensures d.Delivered? ==> forall i :: 0 <= i < |callbackStack| ==> callbackStack[i] < d.id
    {
      if callbackStack == [] {
        unclaimed := unclaimed + [msg];
        return Unclaimed;
      }
      var cb := callbackStack[|callbackStack| - 1];
      callbackStack := callbackStack[..|callbackStack| - 1];
      d := Delivered(cb, msg);
    }
  }

  /**
   * Two reads issued back to back: the first datagram to arrive, whichever
   * read it answers, goes to the read issued last.
   */
  method LastInFirstServed(name1: Bytes, name2: Bytes, msg: Bytes) returns (first: Outcome, second: Outcome, d: Delivery)
    requires |name1| < 256 && |name2| < 256
    ensures first.Awaiting? && second.Awaiting? && first.id != second.id
    ensures d == Delivered(second.id, msg)
  {
    var client := new Client();
    first := client.GetDataRef(name1, true);
    second := client.GetDataRef(name2, true);
    d := client.OnMessage(msg);
  }
}
