/**
 * The serial line codec of devices/DeviceG43.ts: outbound commands are
 * framed as `<code>\t<arg>\t<arg>...\n`, inbound lines are split on tabs,
 * their numeric tag is looked up in the handler and descriptor tables, and
 * a named-field event is built in descriptor order and dispatched.
 *
 * Lines are strings without their "\n" delimiter (the readline parser strips
 * it); command arguments are the strings `String(val)` gives.
 */
module DeviceG43 {
  import opened Wrappers

  const TAB: char := '\t'
  const NEWLINE: char := '\n'

  // ---------------------------------------------------------------------
  // String.prototype.split and Array.prototype.join on one separator
  // ---------------------------------------------------------------------

  /** `s.split(sep)`: the pieces between separators; an empty string gives one empty piece. */
  function Split(s: string, sep: char): (parts: seq<string>)
    ensures |parts| >= 1
    ensures forall i :: 0 <= i < |parts| ==> sep !in parts[i]
    decreases |s|
  {
    if s == [] then [""]
    else
      var rest := Split(s[1..], sep);
      if s[0] == sep then [""] + rest
      else [[s[0]] + rest[0]] + rest[1..]
  }

  /** `parts.join(sep)`: the pieces with one separator between neighbours. */
  function Join(parts: seq<string>, sep: char): string
    decreases |parts|
  {
    if parts == [] then ""
    else if |parts| == 1 then parts[0]
    else parts[0] + [sep] + Join(parts[1..], sep)
  }

  /** A piece that holds no separator is split off whole in front of the rest. */
  lemma {:induction false} SplitFront(a: string, sep: char, t: string)
    requires sep !in a
    ensures Split(a + [sep] + t, sep) == [a] + Split(t, sep)
    decreases |a|
  {
    if a == [] {
      assert a + [sep] + t == [sep] + t;
      assert ([sep] + t)[1..] == t;
    } else {
      SplitFront(a[1..], sep, t);
      assert (a + [sep] + t)[1..] == a[1..] + [sep] + t;
      assert [a[0]] + a[1..] == a;
    }
  }

  /** A string without a separator splits into itself. */
  lemma {:induction false} SplitNoSeparator(a: string, sep: char)
    requires sep !in a
    ensures Split(a, sep) == [a]
    decreases |a|
  {
    if a != [] {
      SplitNoSeparator(a[1..], sep);
      assert [a[0]] + a[1..] == a;
    }
  }

  /** Framing round trip: joining separator-free pieces and splitting again gives the pieces back. */
  lemma {:induction false} SplitJoin(parts: seq<string>, sep: char)
    requires |parts| >= 1
    requires forall i :: 0 <= i < |parts| ==> sep !in parts[i]
    ensures Split(Join(parts, sep), sep) == parts
    decreases |parts|
  {
    if |parts| == 1 {
      SplitNoSeparator(parts[0], sep);
    } else {
      SplitJoin(parts[1..], sep);
      SplitFront(parts[0], sep, Join(parts[1..], sep));
      assert [parts[0]] + parts[1..] == parts;
    }
  }

  /** The other direction: splitting a line and joining the pieces gives the line back. */
  lemma {:induction false} JoinSplit(s: string, sep: char)
    ensures Join(Split(s, sep), sep) == s
    decreases |s|
  {
    if s != [] {
      JoinSplit(s[1..], sep);
      var rest := Split(s[1..], sep);
      if s[0] == sep {
        assert Split(s, sep) == [""] + rest;
        assert ([""] + rest)[1..] == rest;
        assert [sep] + s[1..] == s;
      } else {
        var parts := Split(s, sep);
        assert parts == [[s[0]] + rest[0]] + rest[1..];
        if |rest| == 1 {
          assert Join(rest, sep) == rest[0];
          assert [s[0]] + s[1..] == s;
        } else {
          assert parts[1..] == rest[1..];
          assert Join(rest, sep) == rest[0] + [sep] + Join(rest[1..], sep);
          assert [s[0]] + s[1..] == s;
        }
      }
    }
  }

  // ---------------------------------------------------------------------
  // Decimal text of numbers: `${command}` and Number(...)
  // ---------------------------------------------------------------------

  predicate IsDigit(c: char)
  {
    '0' <= c <= '9'
  }

  function DigitChar(d: nat): (c: char)
    requires d < 10
    ensures IsDigit(c)
  {
    "0123456789"[d]
  }

  function DigitValue(c: char): (d: nat)
    requires IsDigit(c)
    ensures d < 10
  {
    (c as int) - ('0' as int)
  }

  /** The decimal text of a non-negative integer, as template interpolation writes it. */
  function Decimal(n: nat): (s: string)
    ensures |s| >= 1
    ensures forall i :: 0 <= i < |s| ==> IsDigit(s[i])
  {
    if n < 10 then [DigitChar(n)] else Decimal(n / 10) + [DigitChar(n % 10)]
  }

  /** The value of a string of decimal digits, most significant first. */
  function DigitsValue(s: string): nat
    requires forall i :: 0 <= i < |s| ==> IsDigit(s[i])
  {
    if s == [] then 0 else DigitsValue(s[..|s| - 1]) * 10 + DigitValue(s[|s| - 1])
  }

  predicate AllDigits(s: string)
  {
    forall i :: 0 <= i < |s| ==> IsDigit(s[i])
  }

  /**
   * Number(text) on integer text: the empty string is 0, an optional sign
   * followed by at least one digit is its value, anything else is NaN (None).
   */
  function ParseNumber(s: string): (r: Option<int>)
    ensures s == "" ==> r == Some(0)
    ensures r.Some? && s != "" ==> exists i :: 0 <= i < |s| && IsDigit(s[i])
  {
    if s == "" then Some(0)
    else if AllDigits(s) then Some(DigitsValue(s))
    else if (s[0] == '-' || s[0] == '+') && |s| > 1 && AllDigits(s[1..]) then
      assert IsDigit(s[1..][0]);
      Some(if s[0] == '-' then -(DigitsValue(s[1..]) as int) else DigitsValue(s[1..]) as int)
    else None
  }

  /** Reading back the decimal text of `n` gives `n`. */
  lemma {:induction false} DecimalValue(n: nat)
    ensures DigitsValue(Decimal(n)) == n
  {
    if n >= 10 {
      DecimalValue(n / 10);
      var s := Decimal(n);
      assert s[..|s| - 1] == Decimal(n / 10);
    }
  }

  lemma ParseDecimal(n: nat)
    ensures ParseNumber(Decimal(n)) == Some(n)
  {
    DecimalValue(n);
  }

  /** The decimal text of any integer, as `${n}` writes it: a minus sign before a negative value. */
  function SignedDecimal(n: int): (s: string)
    ensures |s| >= 1 && TAB !in s && NEWLINE !in s
    ensures n >= 0 ==> s == Decimal(n)
    ensures n < 0 ==> s == "-" + Decimal(-n)
  {
    var s := if n >= 0 then Decimal(n) else "-" + Decimal(-n);
    assert forall i :: 0 <= i < |s| ==> s[i] != TAB && s[i] != NEWLINE by {
      forall i | 0 <= i < |s| ensures s[i] != TAB && s[i] != NEWLINE {
        if n < 0 && i > 0 { assert s[i] == Decimal(-n)[i - 1]; }
      }
    }
    s
  }

  /** Number() reads the signed decimal text of any integer back as that integer. */
  lemma ParseSignedDecimal(n: int)
    ensures ParseNumber(SignedDecimal(n)) == Some(n)
  {
    if n >= 0 {
      ParseDecimal(n);
    } else {
      var s := SignedDecimal(n);
      assert s[0] == '-' && !IsDigit(s[0]);
      assert s[1..] == Decimal(-n);
      DecimalValue(-n);
    }
  }

  // ---------------------------------------------------------------------
  // #call: the outbound line
  // ---------------------------------------------------------------------

  /** Number of tab characters in `s`. */
  function TabCount(s: string): nat
  {
    if s == [] then 0 else (if s[0] == TAB then 1 else 0) + TabCount(s[1..])
  }

  /** `s.replace("\t", "\\t")` as written: a string pattern replaces its FIRST occurrence only. */
  function EscapeFirstTab(s: string): string
  {
    if s == [] then ""
    else if s[0] == TAB then "\\t" + s[1..]
    else [s[0]] + EscapeFirstTab(s[1..])
  }

  /** Replacing every tab by the two characters `\t`, as framing needs. */
  function EscapeTabs(s: string): string
  {
    if s == [] then ""
    else (if s[0] == TAB then "\\t" else [s[0]]) + EscapeTabs(s[1..])
  }

  /** The first-occurrence replacement removes one tab at most: a second tab survives. */
  lemma {:induction false} EscapeFirstTabCount(s: string)
    ensures TabCount(EscapeFirstTab(s)) == if TabCount(s) == 0 then 0 else TabCount(s) - 1
    ensures TAB !in s ==> EscapeFirstTab(s) == s
  {
    if s != [] {
      if s[0] == TAB {
        TabCountAppend("\\t", s[1..]);
        assert TabCount("\\t") == 0 by {
          assert "\\t"[1..] == "t";
          assert "t"[1..] == "";
        }
      } else {
        EscapeFirstTabCount(s[1..]);
        TabCountAppend([s[0]], EscapeFirstTab(s[1..]));
        assert [s[0]][1..] == [];
        assert [s[0]] + s[1..] == s;
      }
    }
  }

  lemma {:induction false} TabCountAppend(a: string, b: string)
    ensures TabCount(a + b) == TabCount(a) + TabCount(b)
    decreases |a|
  {
    if a != [] {
      TabCountAppend(a[1..], b);
      assert (a + b)[0] == a[0];
      assert (a + b)[1..] == a[1..] + b;
    } else {
      assert a + b == b;
    }
  }

  lemma {:induction false} TabCountZero(s: string)
    ensures TabCount(s) == 0 <==> TAB !in s
  {
    if s != [] {
      TabCountZero(s[1..]);
      assert s == [s[0]] + s[1..];
      assert TAB in s <==> s[0] == TAB || TAB in s[1..];
    }
  }

  /** On text with at most one tab the first-occurrence replacement escapes every tab. */
  lemma {:induction false} EscapeFirstTabOneTab(s: string)
    requires TabCount(s) <= 1
    ensures EscapeFirstTab(s) == EscapeTabs(s)
  {
    if s != [] {
      if s[0] == TAB {
        TabCountZero(s[1..]);
        EscapeTabsClean(s[1..]);
      } else {
        EscapeFirstTabOneTab(s[1..]);
      }
    }
  }

  /** The full replacement leaves no tab, keeps every other character, and is the identity on tab-free text. */
  lemma {:induction false} EscapeTabsClean(s: string)
    ensures TAB !in EscapeTabs(s)
    ensures NEWLINE in EscapeTabs(s) <==> NEWLINE in s
    ensures TAB !in s ==> EscapeTabs(s) == s
  {
    if s != [] {
      EscapeTabsClean(s[1..]);
      var head := if s[0] == TAB then "\\t" else [s[0]];
      assert EscapeTabs(s) == head + EscapeTabs(s[1..]);
      assert s == [s[0]] + s[1..];
    }
  }

  /** Each argument escaped with `escape`. */
  function EscapeAll(args: seq<string>, escape: string -> string): (r: seq<string>)
    ensures |r| == |args|
    ensures forall i :: 0 <= i < |args| ==> r[i] == escape(args[i])
  {
    if args == [] then [] else [escape(args[0])] + EscapeAll(args[1..], escape)
  }

  /** The line `#call` writes as written: only the first tab of each argument escaped. */
  function EncodeLineAsWritten(code: nat, args: seq<string>): string
  {
    Decimal(code) + [TAB] + Join(EscapeAll(args, EscapeFirstTab), TAB) + [NEWLINE]
  }

  /** The line `#call` writes, every tab of every argument escaped. */
  function EncodeLine(code: nat, args: seq<string>): string
  {
    Decimal(code) + [TAB] + Join(EscapeAll(args, EscapeTabs), TAB) + [NEWLINE]
  }

  /** The frame of a line: the decimal code, a tab, the joined arguments, a final newline. */
  lemma EncodeLineShape(code: nat, args: seq<string>)
    ensures |EncodeLine(code, args)| >= 3
    ensures EncodeLine(code, args)[|EncodeLine(code, args)| - 1] == NEWLINE
    ensures EncodeLine(code, args)[..|Decimal(code)|] == Decimal(code)
    ensures EncodeLine(code, args)[|Decimal(code)|] == TAB
    ensures args == [] ==> EncodeLine(code, args) == Decimal(code) + "\t\n"
  {
  }

  /** The line without its final newline is the join of the code and the escaped arguments. */
  lemma LineBody(code: nat, escaped: seq<string>)
    requires escaped != []
    ensures Decimal(code) + [TAB] + Join(escaped, TAB) == Join([Decimal(code)] + escaped, TAB)
  {
    var parts := [Decimal(code)] + escaped;
    assert parts[1..] == escaped;
  }

  /**
   * Framing round trip: when no argument holds a newline, splitting the
   * line (without its newline) on tabs gives the code and then each
   * argument with its tabs escaped; an argument without tabs comes back as
   * it was. With no argument at all the line ends in a tab, so the split
   * has one empty field after the code.
   */
  lemma {:induction false} EncodeLineSplit(code: nat, args: seq<string>)
    ensures var line := EncodeLine(code, args);
      var fields := Split(line[..|line| - 1], TAB);
      && (args == [] ==> fields == [Decimal(code), ""])
      && (args != [] ==>
            && |fields| == |args| + 1
            && fields[0] == Decimal(code)
            && forall i :: 0 <= i < |args| ==> fields[i + 1] == EscapeTabs(args[i]))
      && (args != [] && (forall i :: 0 <= i < |args| ==> TAB !in args[i]) ==> fields == [Decimal(code)] + args)
  {
    var line := EncodeLine(code, args);
    var escaped := EscapeAll(args, EscapeTabs);
    var body := Decimal(code) + [TAB] + Join(escaped, TAB);
    assert line[..|line| - 1] == body;
    forall i | 0 <= i < |args|
      ensures TAB !in escaped[i]
      ensures TAB !in args[i] ==> escaped[i] == args[i]
    {
      EscapeTabsClean(args[i]);
    }
    if args == [] {
      assert body == Decimal(code) + [TAB];
      assert body == Decimal(code) + [TAB] + "";
      SplitFront(Decimal(code), TAB, "");
    } else {
      LineBody(code, escaped);
      var parts := [Decimal(code)] + escaped;
      forall i | 0 <= i < |parts| ensures TAB !in parts[i] {
        if i == 0 { assert AllDigits(Decimal(code)); }
      }
      SplitJoin(parts, TAB);
      if forall i :: 0 <= i < |args| ==> TAB !in args[i] {
        assert escaped == args;
      }
    }
  }

  /**
   * The line as written agrees with the fully escaped line when no argument
   * holds two tabs, so arguments free of tabs come back whole from the split.
   */
  lemma EncodeLineAsWrittenAgrees(code: nat, args: seq<string>)
    requires forall i :: 0 <= i < |args| ==> TabCount(args[i]) <= 1
    ensures EncodeLineAsWritten(code, args) == EncodeLine(code, args)
    ensures args != [] && (forall i :: 0 <= i < |args| ==> TAB !in args[i]) ==>
      var line := EncodeLineAsWritten(code, args);
      Split(line[..|line| - 1], TAB) == [Decimal(code)] + args
  {
    forall i | 0 <= i < |args|
      ensures EscapeFirstTab(args[i]) == EscapeTabs(args[i])
    {
      EscapeFirstTabOneTab(args[i]);
    }
    assert EscapeAll(args, EscapeFirstTab) == EscapeAll(args, EscapeTabs);
    EncodeLineSplit(code, args);
  }

  /**
   * The first-occurrence escape breaks framing: one argument holding two
   * tabs comes out of the split as two fields.
   */
  lemma EncodeLineAsWrittenSplitsArgument()
    ensures var line := EncodeLineAsWritten(1, ["a\t\tb"]);
      Split(line[..|line| - 1], TAB) == ["1", "a\\t", "b"]
  {
    var line := EncodeLineAsWritten(1, ["a\t\tb"]);
    var escaped := EscapeAll(["a\t\tb"], EscapeFirstTab);
    assert escaped == [EscapeFirstTab("a\t\tb")];
    assert EscapeFirstTab("a\t\tb") == "a\\t\tb" by {
      assert "a\t\tb"[0] == 'a' && "a\t\tb"[1..] == "\t\tb";
      assert "\t\tb"[0] == TAB && "\t\tb"[1..] == "\tb";
      assert EscapeFirstTab("\t\tb") == "\\t" + "\tb";
    }
    assert Join(escaped, TAB) == "a\\t\tb";
    assert Decimal(1) == "1";
    assert line == "1" + [TAB] + "a\\t\tb" + [NEWLINE];
    assert line[..|line| - 1] == "1" + [TAB] + ("a\\t" + [TAB] + "b");
    assert TAB !in "a\\t";
    SplitFront("1", TAB, "a\\t" + [TAB] + "b");
    SplitFront("a\\t", TAB, "b");
    SplitNoSeparator("b", TAB);
    assert Split("a\\t" + [TAB] + "b", TAB) == ["a\\t", "b"];
  }

  // ---------------------------------------------------------------------
  // #onMessage: tables, event building, dispatch
  // ---------------------------------------------------------------------

  datatype FieldType = NumberType | StringType

  datatype FieldDescriptor = FieldDescriptor(name: string, fieldType: FieldType)

  /** A decoded field value: Number(...) gives a number or NaN (None), String(...) some text. */
  datatype FieldValue = Num(n: Option<int>) | Text(s: string)

  datatype Field = Field(name: string, value: FieldValue)

  /** What a handler does with its event. */
  datatype Handler = EmitRotate | EmitClick | EmitLongClick | Ignore

  /** The events DeviceG43 emits. */
  datatype DeviceEvent =
    | SmallEncoderRotate(fields: seq<Field>)
    | SmallEncoderClick
    | SmallEncoderLongClick

  /** messageDescriptions, keyed by Message: EncoderSmallRotate = 1, EncoderSmallButton = 2, EncoderSmallShortPress = 3, EncoderSmallLongPress = 4. */
  const MessageDescriptions: map<int, seq<FieldDescriptor>> := map[
    1 := [FieldDescriptor("delta", NumberType), FieldDescriptor("position", NumberType)],
    2 := [FieldDescriptor("state", NumberType)],
    3 := [],
    4 := []
  ]

  /** #messageHandlers: tag 2 (the encoder button state) has a handler that does nothing. */
  const MessageHandlers: map<int, Handler> := map[
    1 := EmitRotate,
    3 := EmitClick,
    4 := EmitLongClick,
    2 := Ignore
  ]

  /** `descriptor.type(arg)`: Number or String applied to the argument, or to `undefined` when it is missing. */
  function Convert(t: FieldType, arg: Option<string>): FieldValue
  {
    match (t, arg)
    case (NumberType, Some(a)) => Num(ParseNumber(a))
    case (NumberType, None) => Num(None)
    case (StringType, Some(a)) => Text(a)
    case (StringType, None) => Text("undefined")
  }

  /** The i-th argument, or None (`undefined`) past the end. */
  function Arg(args: seq<string>, i: nat): Option<string>
  {
    if i < |args| then Some(args[i]) else None
  }

  /** The event object: one field per descriptor entry, named by it, in descriptor order, field i from args[i]. */
  function BuildEvent(desc: seq<FieldDescriptor>, args: seq<string>): (event: seq<Field>)
    ensures |event| == |desc|
    ensures forall i :: 0 <= i < |desc| ==>
      event[i] == Field(desc[i].name, Convert(desc[i].fieldType, Arg(args, i)))
  {
    seq(|desc|, i requires 0 <= i < |desc| => Field(desc[i].name, Convert(desc[i].fieldType, Arg(args, i))))
  }

  /** handler(event): what is emitted. */
  function Dispatch(h: Handler, event: seq<Field>): Option<DeviceEvent>
  {
    match h
    case EmitRotate => Some(SmallEncoderRotate(event))
    case EmitClick => Some(SmallEncoderClick)
    case EmitLongClick => Some(SmallEncoderLongClick)
    case Ignore => None
  }

  /** The tag of a line: Number() of its first tab-separated field. */
  function LineTag(line: string): Option<int>
  {
    ParseNumber(Split(line, TAB)[0])
  }

  /** What one inbound line makes the device emit: nothing, or one event. */
  function Decode(line: string): (r: Option<DeviceEvent>)
    ensures r.Some? ==> LineTag(line).Some? && LineTag(line).value in {1, 3, 4}
  {
    var parts := Split(line, TAB);
    var tag := ParseNumber(parts[0]);
    if tag.None? || tag.value !in MessageHandlers then None
    else if tag.value !in MessageDescriptions then None
    else Dispatch(MessageHandlers[tag.value], BuildEvent(MessageDescriptions[tag.value], parts[1..]))
  }

  /** A line whose tag is NaN or has no handler or no description emits nothing. */
  lemma DecodeUnknownTag(line: string)
    requires LineTag(line).None? || LineTag(line).value !in MessageHandlers || LineTag(line).value !in MessageDescriptions
    ensures Decode(line) == None
  {
  }

  /** Dispatch by tag: 1 rotates with delta and position from the first two arguments, 2 emits nothing, 3 clicks, 4 long-clicks. */
  lemma DecodeByTag(line: string)
    requires LineTag(line).Some?
    ensures var args := Split(line, TAB)[1..];
      && (LineTag(line) == Some(1) ==> Decode(line) == Some(SmallEncoderRotate([
            Field("delta", Num(if |args| > 0 then ParseNumber(args[0]) else None)),
            Field("position", Num(if |args| > 1 then ParseNumber(args[1]) else None))])))
      && (LineTag(line) == Some(2) ==> Decode(line) == None)
      && (LineTag(line) == Some(3) ==> Decode(line) == Some(SmallEncoderClick))
      && (LineTag(line) == Some(4) ==> Decode(line) == Some(SmallEncoderLongClick))
  {
    var args := Split(line, TAB)[1..];
    if LineTag(line) == Some(1) {
      var event := BuildEvent(MessageDescriptions[1], args);
      assert |event| == 2;
      assert event == [event[0], event[1]];
    }
  }

  /** An encoder rotation sent as `1\t<delta>\t<position>` decodes to those two numbers, either sign. */
  lemma {:induction false} DecodeRotateLine(delta: int, position: int)
    ensures Decode(Join([Decimal(1), SignedDecimal(delta), SignedDecimal(position)], TAB))
      == Some(SmallEncoderRotate([Field("delta", Num(Some(delta))), Field("position", Num(Some(position)))]))
  {
    var parts := [Decimal(1), SignedDecimal(delta), SignedDecimal(position)];
    forall i | 0 <= i < 3 ensures TAB !in parts[i] {
      if i == 0 { assert AllDigits(parts[i]); }
    }
    SplitJoin(parts, TAB);
    ParseDecimal(1);
    ParseSignedDecimal(delta);
    ParseSignedDecimal(position);
    var args := parts[1..];
    assert args == [SignedDecimal(delta), SignedDecimal(position)];
    var event := BuildEvent(MessageDescriptions[1], args);
    assert event == [event[0], event[1]];
  }

  /** The serial device: `written` lists the lines handed to the port, `emitted` the events emitted. */
  class Device {
    var written: seq<string>
    var emitted: seq<DeviceEvent>

    constructor ()
      ensures written == [] && emitted == []
    {
      written := [];
      emitted := [];
    }

    /** #call(command, ...args): writes one framed line. */
    method Call(code: nat, args: seq<string>)
      modifies this
      ensures written == old(written) + [EncodeLine(code, args)]
      ensures emitted == old(emitted)
    {
      var escaped := EscapeAll(args, EscapeTabs);
      written := written + [Decimal(code) + [TAB] + Join(escaped, TAB) + [NEWLINE]];
    }

    /** The loop of #onMessage that fills the event object field by field. */
    static method FillEvent(desc: seq<FieldDescriptor>, args: seq<string>) returns (event: seq<Field>)
      ensures |event| == |desc|
      ensures forall i :: 0 <= i < |desc| ==>
        event[i] == Field(desc[i].name, Convert(desc[i].fieldType, Arg(args, i)))
    {
      event := [];
      for i := 0 to |desc|
        invariant |event| == i
        invariant forall k :: 0 <= k < i ==>
          event[k] == Field(desc[k].name, Convert(desc[k].fieldType, Arg(args, k)))
      {
        var argDescription := desc[i];
        event := event + [Field(argDescription.name, Convert(argDescription.fieldType, Arg(args, i)))];
      }
    }

    /** #onMessage(line): at most one event is emitted, the one Decode gives. */
    method OnMessage(line: string)
      modifies this
      ensures emitted == old(emitted) + OptionToSeq(Decode(line))
      ensures written == old(written)
    {
      var parts := Split(line, TAB);
      var tag := ParseNumber(parts[0]);
      if tag.None? || tag.value !in MessageHandlers {
        return;
      }
      var handler := MessageHandlers[tag.value];
      if tag.value !in MessageDescriptions {
        return;
      }
      var description := MessageDescriptions[tag.value];
      var event := FillEvent(description, parts[1..]);
      assert event == BuildEvent(description, parts[1..]);
      emitted := emitted + OptionToSeq(Dispatch(handler, event));
    }
  }
}
