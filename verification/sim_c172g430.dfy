/**
 * The remote-variable layer of models/SimC172G430.ts: command bindings and
 * data-ref bindings that forward to the X-Plane client and reshape values
 * (a single value is read back as a scalar, a scalar is written as a
 * one-element list). The catalog of names is configuration and is not part
 * of this model: a binding carries its name and format as values.
 */
module SimC172G430 {
  import opened Wrappers
  import X = XPlane

  /** The closure #makeCommand(name) returns. */
  datatype CommandBinding = CommandBinding(name: X.Bytes)

  /** The object #makeDataRef (get and set) or #makeReadonlyDataRef (get only) returns. */
  datatype DataRefBinding = DataRefBinding(name: X.Bytes, format: X.Format, writable: bool)

  function MakeCommand(name: X.Bytes): CommandBinding
  {
    CommandBinding(name)
  }

  function MakeDataRef(name: X.Bytes, format: X.Format): DataRefBinding
  {
    DataRefBinding(name, format, true)
  }

  function MakeReadonlyDataRef(name: X.Bytes, format: X.Format): DataRefBinding
  {
    DataRefBinding(name, format, false)
  }

  /** What `get()` resolves to: a list when several values came back, otherwise the first (undefined when none did). */
  datatype Reading = Many(values: seq<X.Word>) | One(value: X.Word) | Missing

  /** What `set(value)` accepts: an array or a single value. */
  datatype Writing = Array(values: seq<X.Word>) | Scalar(value: X.Word)

  /** #getReader's reshaping of the values getDataRef returns. */
  function Unwrap(result: seq<X.Word>): Reading
  {
    if |result| > 1 then Many(result)
    else if |result| == 1 then One(result[0])
    else Missing
  }

  /** #getWriter's reshaping: an array passes through, a scalar becomes a one-element list. */
  function Wrap(v: Writing): seq<X.Word>
  {
    match v
    case Array(vs) => vs
    case Scalar(w) => [w]
  }

  /** The reading a written value comes back as. */
  function AsReading(v: Writing): Reading
  {
    match v
    case Scalar(w) => One(w)
    case Array(vs) => Unwrap(vs)
  }

  /**
   * Reshaping round trip: a scalar written is read back as that scalar, an
   * array of two or more values as that array; an array of one value comes
   * back as a scalar and an empty array as undefined.
   */
  lemma UnwrapWrap(v: Writing)
    ensures Unwrap(Wrap(v)) == AsReading(v)
    ensures v.Scalar? ==> Unwrap(Wrap(v)) == One(v.value)
    ensures v.Array? && |v.values| > 1 ==> Unwrap(Wrap(v)) == Many(v.values)
    ensures v.Array? && |v.values| == 1 ==> Unwrap(Wrap(v)) == One(v.values[0])
    ensures v.Array? && v.values == [] ==> Unwrap(Wrap(v)) == Missing
  {
  }

  /** The other direction: writing back what was read sends the same list, unless nothing was read. */
  lemma WrapUnwrap(result: seq<X.Word>)
    requires result != []
    ensures Wrap(if |result| > 1 then Array(result) else Scalar(result[0])) == result
    ensures Unwrap(result).Many? <==> |result| > 1
  {
    if |result| == 1 {
      assert [result[0]] == result;
    }
  }

  /** The request a command binding's call sends. */
  function InvokePacket(c: CommandBinding): X.Packet
  {
    X.RunCommand(c.name)
  }

  /** The request `get()` sends: a GETD for the binding's name. */
  function GetPacket(r: DataRefBinding): X.Packet
  {
    X.ReadRef(r.name)
  }

  /** The request `set(value)` sends: a DREF for the binding's name and format. */
  function SetPacket(r: DataRefBinding, v: Writing): X.Packet
    requires r.writable
  {
    X.WriteRef(r.name, r.format, Wrap(v))
  }

  /** What `get()` resolves to once `response` has arrived for it. */
  function ReadResult(r: DataRefBinding, response: X.Bytes): Result<Reading, X.Error>
  {
    match X.ReadResponse(response, r.format)
    case Err(e) => Err(e)
    case Ok(vs) => Ok(Unwrap(vs))
  }

  /** A command binding sends a COMM datagram carrying exactly its bound name. */
  lemma InvokeSendsName(name: X.Bytes)
    requires |name| < 256
    ensures X.Encode(InvokePacket(MakeCommand(name))).Ok?
    ensures X.Frame(X.COMM, [|name| as X.byte] + name) == X.Encode(InvokePacket(MakeCommand(name))).value
    ensures X.ParsePacket(X.Encode(InvokePacket(MakeCommand(name))).value) == Some(X.RunCommand(name))
  {
    X.ParseEncode(InvokePacket(MakeCommand(name)));
  }

  /** `get` and `set` of one data ref address the same name, and `set` packs with the ref's format. */
  lemma GetSetSameRef(name: X.Bytes, format: X.Format, v: Writing)
    requires |name| < 256 && |Wrap(v)| == format.count < 256
    ensures var r := MakeDataRef(name, format);
      && X.ParsePacket(X.Encode(GetPacket(r)).value) == Some(X.ReadRef(name))
      && X.ParsePacket(X.Encode(SetPacket(r, v)).value) == Some(X.WriteRef(name, format, Wrap(v)))
  {
    var r := MakeDataRef(name, format);
    X.ParseEncode(GetPacket(r));
    X.ParseEncode(SetPacket(r, v));
  }

  /** A read-only data ref can be read and cannot be written; a data ref can be both. */
  lemma ReadonlyHasNoSet(name: X.Bytes, format: X.Format)
    ensures !MakeReadonlyDataRef(name, format).writable
    ensures MakeDataRef(name, format).writable
    ensures GetPacket(MakeReadonlyDataRef(name, format)) == GetPacket(MakeDataRef(name, format)) == X.ReadRef(name)
  {
  }

  /**
   * Across the whole stack: when the plugin answers a read of a one-value
   * ref with the value last written, `get()` resolves to that scalar.
   */
  lemma ReadBackWrittenScalar(name: X.Bytes, w: X.Word)
    ensures ReadResult(MakeDataRef(name, X.Floats(1)), X.EncodeResponse(Wrap(Scalar(w)))) == Ok(One(w))
  {
    X.ReadResponseRoundTrip([w]);
  }

  /** SimC172G430: every binding forwards to the one client `xp`. */
  class Sim {
    const xp: X.Client

    constructor (xp: X.Client)
      ensures this.xp == xp
    {
      this.xp := xp;
    }

    /** Calling a command binding: one COMM datagram; the result is not awaited. */
    method Invoke(c: CommandBinding, sendOk: bool)
      requires xp.Valid()
      modifies xp
      ensures xp.Valid()
      ensures X.Encode(InvokePacket(c)).Ok? ==> xp.sent == old(xp.sent) + [X.Encode(InvokePacket(c)).value]
      ensures X.Encode(InvokePacket(c)).Err? ==> xp.sent == old(xp.sent)
      ensures xp.callbackStack == old(xp.callbackStack) && xp.nextId == old(xp.nextId)
      ensures xp.unclaimed == old(xp.unclaimed)
    {
      var _ := xp.Command(c.name, sendOk);
    }

    /** `get()`: every call issues a fresh getDataRef; nothing is cached. */
    method Get(r: DataRefBinding, sendOk: bool) returns (o: X.Outcome)
      requires xp.Valid()
      modifies xp
      ensures xp.Valid()
      ensures xp.unclaimed == old(xp.unclaimed)
      ensures X.Encode(GetPacket(r)).Err? ==>
        && o == X.Failed(X.PackError) && xp.sent == old(xp.sent)
        && xp.callbackStack == old(xp.callbackStack) && xp.nextId == old(xp.nextId)
      ensures X.Encode(GetPacket(r)).Ok? ==> xp.sent == old(xp.sent) + [X.Encode(GetPacket(r)).value]
      ensures X.Encode(GetPacket(r)).Ok? && !sendOk ==>
        o == X.Failed(X.SendFailed) && xp.callbackStack == old(xp.callbackStack) && xp.nextId == old(xp.nextId)
      ensures X.Encode(GetPacket(r)).Ok? && sendOk ==>
        && o == X.Awaiting(old(xp.nextId))
        && xp.callbackStack == old(xp.callbackStack) + [old(xp.nextId)]
        && xp.nextId == old(xp.nextId) + 1
    {
      o := xp.GetDataRef(r.name, sendOk);
    }

    /** `set(value)` of a data ref made by #makeDataRef. */
    method Set(r: DataRefBinding, v: Writing, sendOk: bool) returns (o: X.Outcome)
      requires r.writable
      requires xp.Valid()
      modifies xp
      ensures xp.Valid()
      ensures xp.callbackStack == old(xp.callbackStack) && xp.nextId == old(xp.nextId)
      ensures xp.unclaimed == old(xp.unclaimed)
      ensures X.Encode(SetPacket(r, v)).Err? ==> xp.sent == old(xp.sent) && o == X.Failed(X.PackError)
      ensures X.Encode(SetPacket(r, v)).Ok? ==>
        && xp.sent == old(xp.sent) + [X.Encode(SetPacket(r, v)).value]
        && o == if sendOk then X.Resolved([]) else X.Failed(X.SendFailed)
    {
      o := xp.SendDataRef(r.name, r.format, Wrap(v), sendOk);
    }
  }

  /** Two reads of one ref send two identical GETD datagrams: the second is not answered from a cache. */
  method ReadTwice(r: DataRefBinding) returns (sent: seq<X.Bytes>)
    requires |r.name| < 256
    ensures |sent| == 2 && sent[0] == sent[1] == X.Encode(GetPacket(r)).value
  {
    var client := new X.Client();
    var sim := new Sim(client);
    var _ := sim.Get(r, true);
    var _ := sim.Get(r, true);
    sent := client.sent;
  }
}
