/** The server-sent events wire under the stream converters: what is written is read back,
    event by event, exactly when the data is one line that does not end in a carriage return. */
module Sse {
  import opened Wrappers

  datatype Event = Event(name: string, data: string)

  /** What reading one event gives, and what is left of the input. */
  datatype Read = Read(event: Option<Event>, rest: string)

  // ---------------------------------------------------------------------------
  // Strings
  // ---------------------------------------------------------------------------

  /** The position of the first newline, or the length. */
  function LineEnd(s: string): (i: nat)
    ensures i <= |s| && '\n' !in s[..i] && (i < |s| ==> s[i] == '\n')
  {
    if s == "" || s[0] == '\n' then 0 else
      var i := LineEnd(s[1..]);
      assert s[..i + 1] == [s[0]] + s[1..][..i];
      i + 1
  }

  function TrimRight(s: string): (r: string)
    ensures r <= s
  {
    if s != "" && s[|s| - 1] in "\r\n" then TrimRight(s[..|s| - 1]) else s
  }

  predicate IsSpace(c: char) {
    || c in "\t\n\r " || c in {11 as char, 12 as char, 0x85 as char, 0xA0 as char, 0x1680 as char}
    || 0x2000 as char <= c <= 0x200a as char
    || c in {0x2028 as char, 0x2029 as char, 0x202f as char, 0x205f as char, 0x3000 as char}
  }

  function TrimSpace(s: string): (r: string)
    ensures |r| <= |s|
  {
    if s == "" then s
    else if IsSpace(s[0]) then TrimSpace(s[1..])
    else if IsSpace(s[|s| - 1]) then TrimSpace(s[..|s| - 1])
    else s
  }

  function TrimPrefix(s: string, p: string): (r: string)
    ensures |r| <= |s|
  {
    if p <= s then s[|p|..] else s
  }

  function Join(lines: seq<string>): string {
    if lines == [] then "" else if |lines| == 1 then lines[0] else Join(lines[..|lines| - 1]) + "\n" + lines[|lines| - 1]
  }

  // ---------------------------------------------------------------------------
  // Reading and writing
  // ---------------------------------------------------------------------------

  /** The fields of an event collected so far. */
  datatype Fields = Fields(name: string, data: seq<string>)

  const NONE: Fields := Fields("", [])

  predicate Blank(line: string) { TrimRight(line) == "" }

  /** What a line that is not blank adds. */
  function Field(line: string, f: Fields): Fields {
    var t := TrimRight(line);
    if "event:" <= t then Fields(TrimSpace(t[6..]), f.data)
    else if "data:" <= t then Fields(f.name, f.data + [TrimPrefix(t[5..], " ")])
    else f
  }

  function Whole(f: Fields): Event { Event(f.name, Join(f.data)) }

  /** Reading on with the fields collected so far. */
  function ReadFrom(s: string, f: Fields): Read
    decreases |s|
  {
    var i := LineEnd(s);
    if i == |s| then Read(if f != NONE then Some(Whole(f)) else None, "")
    else if Blank(s[..i]) then
      if f == NONE then ReadFrom(s[i + 1..], f) else Read(Some(Whole(f)), s[i + 1..])
    else ReadFrom(s[i + 1..], Field(s[..i], f))
  }

  function Written(e: Event): string {
    (if e.name != "" then "event: " + e.name + "\n" else "") + "data: " + e.data + "\n\n"
  }

  lemma {:induction false} ReadStep(s: string, f: Fields)
    requires LineEnd(s) < |s|
    ensures var i := LineEnd(s);
            && (Blank(s[..i]) && f == NONE ==> ReadFrom(s, f) == ReadFrom(s[i + 1..], f))
            && (Blank(s[..i]) && f != NONE ==> ReadFrom(s, f) == Read(Some(Whole(f)), s[i + 1..]))
            && (!Blank(s[..i]) ==> ReadFrom(s, f) == ReadFrom(s[i + 1..], Field(s[..i], f)))
  {
  }

  lemma {:induction false} ReadEnd(s: string, f: Fields)
    requires LineEnd(s) == |s|
    ensures ReadFrom(s, f) == Read(if f != NONE then Some(Whole(f)) else None, "")
  {
  }

  class SSEReader {
    var input: string

    constructor (s: string)
      ensures input == s
    {
      input := s;
    }

    /** The next event; none once the input ends with nothing collected. */
    method Next() returns (ev: Option<Event>)
      modifies this
      ensures Read(ev, input) == ReadFrom(old(input), NONE)
    {
      var name: string, data: seq<string> := "", [];
      while true
        invariant ReadFrom(input, Fields(name, data)) == ReadFrom(old(input), NONE)
        decreases |input|
      {
        var i := LineEnd(input);
        if i == |input| {
          ReadEnd(input, Fields(name, data));
          ev := if data != [] || name != "" then Some(Event(name, Join(data))) else None;
          input := "";
          return;
        }
        var raw := input[..i];
        ReadStep(input, Fields(name, data));
        input := input[i + 1..];
        var line := TrimRight(raw);
        if line == "" {
          if data == [] && name == "" { continue; }
          return Some(Event(name, Join(data)));
        }
        name, data := AddLine(raw, line, name, data);
      }
    }

    /** Comments and unknown fields add nothing. */
    static method AddLine(ghost raw: string, line: string, name: string, data: seq<string>) returns (name2: string, data2: seq<string>)
      requires line == TrimRight(raw) && line != ""
      ensures Fields(name2, data2) == Field(raw, Fields(name, data))
    {
      if line[0] == ':' { return name, data; }
      if "event:" <= line { return TrimSpace(line[6..]), data; }
      if "data:" <= line { return name, data + [TrimPrefix(line[5..], " ")]; }
      return name, data;
    }
  }

  method WriteSSE(e: Event) returns (s: string)
    ensures s == Written(e)
  {
    s := "";
    if e.name != "" { s := s + "event: " + e.name + "\n"; }
    s := s + "data: " + e.data + "\n\n";
  }

  // ---------------------------------------------------------------------------
  // Round trip
  // ---------------------------------------------------------------------------

  predicate CleanName(name: string) { '\n' !in name && TrimSpace(name) == name }

  predicate CleanData(data: string) { '\n' !in data && (data != "" ==> data[|data| - 1] != '\r') }

  lemma {:induction false} LineOf(line: string, rest: string)
    requires '\n' !in line
    ensures LineEnd(line + "\n" + rest) == |line|
    ensures (line + "\n" + rest)[..|line|] == line && (line + "\n" + rest)[|line| + 1..] == rest
  {
    var s := line + "\n" + rest;
    assert s[..|line|] == line && s[|line|] == '\n';
    if LineEnd(s) != |line| { assert false; }
  }

  /** Reading one more line. */
  lemma {:induction false} ReadLine(line: string, rest: string, f: Fields)
    requires '\n' !in line
    ensures Blank(line) && f != NONE ==> ReadFrom(line + "\n" + rest, f) == Read(Some(Whole(f)), rest)
    ensures !Blank(line) ==> ReadFrom(line + "\n" + rest, f) == ReadFrom(rest, Field(line, f))
  {
    LineOf(line, rest);
  }

  lemma {:induction false} SpaceAtEnd(s: string)
    requires s != "" && IsSpace(s[|s| - 1])
    ensures TrimSpace(s) == TrimSpace(s[..|s| - 1])
  {
    if |s| > 1 && IsSpace(s[0]) {
      SpaceAtEnd(s[1..]);
      assert s[1..][..|s| - 2] == s[..|s| - 1][1..];
    }
  }

  /** The name line gives the name back. */
  lemma {:induction false} NameLine(name: string)
    requires CleanName(name) && name != ""
    ensures !Blank("event: " + name) && Field("event: " + name, NONE) == Fields(name, [])
  {
    var line := "event: " + name;
    if IsSpace(name[|name| - 1]) { SpaceAtEnd(name); }
    assert TrimRight(line) == line;
    assert line[6..] == " " + name && (" " + name)[1..] == name;
  }

  lemma {:induction false} DataLine(data: string, name: string)
    ensures !Blank("data: " + data) && Field("data: " + data, Fields(name, [])) == Fields(name, [TrimRight(data)])
  {
    TrimRightKeeps("data: ", data);
    var t := "data: " + TrimRight(data);
    assert TrimRight("data: " + data) == t && t[0] == 'd' && "data:" <= t;
    assert t[5..] == " " + TrimRight(data) && t[5..][1..] == TrimRight(data);
    assert TrimPrefix(t[5..], " ") == TrimRight(data);
  }

  lemma {:induction false} TrimRightKeeps(p: string, s: string)
    requires p != "" && p[|p| - 1] !in "\r\n"
    ensures TrimRight(p + s) == p + TrimRight(s)
  {
    if s == "" {
      assert p + s == p;
    } else {
      assert (p + s)[..|p + s| - 1] == p + s[..|s| - 1];
      TrimRightKeeps(p, s[..|s| - 1]);
    }
  }

  lemma {:induction false} TrimRightIsSame(s: string)
    requires '\n' !in s
    ensures TrimRight(s) == s <==> CleanData(s)
  {
  }

  /** The written form after the name line. */
  function DataPart(data: string, rest: string): string { "data: " + data + "\n" + ("\n" + rest) }

  lemma {:induction false} ReadData(data: string, rest: string, name: string)
    requires '\n' !in data
    ensures ReadFrom(DataPart(data, rest), Fields(name, [])) == Read(Some(Event(name, TrimRight(data))), rest)
  {
    DataLine(data, name);
    ReadLine("data: " + data, "\n" + rest, Fields(name, []));
    ReadLine("", rest, Fields(name, [TrimRight(data)]));
    assert "" + "\n" + rest == "\n" + rest;
  }

  lemma {:induction false} ReadWritten(e: Event, rest: string)
    requires CleanName(e.name)
    ensures ReadFrom(Written(e) + rest, NONE) == ReadFrom(DataPart(e.data, rest), Fields(e.name, []))
  {
    var d := DataPart(e.data, rest);
    if e.name != "" {
      assert Written(e) + rest == "event: " + e.name + "\n" + d;
      NameLine(e.name);
      ReadLine("event: " + e.name, d, NONE);
    } else {
      assert Written(e) + rest == d;
    }
  }

  lemma {:induction false} SplitLine(u: string, i: nat, rest: string)
    requires i < |u| && u[i] == '\n'
    ensures u + "\n\n" + rest == u[..i] + "\n" + (u[i + 1..] + "\n\n" + rest)
  {
    assert u == u[..i] + "\n" + u[i + 1..];
  }

  /** A line break in the data loses at least the break itself. */
  lemma {:induction false} BrokenData(u: string, rest: string, f: Fields)
    requires f.data != []
    ensures var r := ReadFrom(u + "\n\n" + rest, f); r.event.Some? && |r.event.value.data| <= |Join(f.data)| + |u|
    decreases |u|
  {
    var i := LineEnd(u);
    var s := u + "\n\n" + rest;
    if i == |u| {
      assert s == u + "\n" + ("\n" + rest);
      ReadLine(u, "\n" + rest, f);
      if !Blank(u) {
        assert "" + "\n" + rest == "\n" + rest;
        ReadLine("", rest, Field(u, f));
        FieldGrows(u, f);
      }
    } else {
      var line, tail := u[..i], u[i + 1..];
      var left := tail + "\n\n" + rest;
      SplitLine(u, i, rest);
      ReadLine(line, left, f);
      FieldGrows(line, f);
      if !Blank(line) { BrokenData(tail, rest, Field(line, f)); }
    }
  }

  lemma {:induction false} FieldGrows(line: string, f: Fields)
    requires f.data != []
    ensures Field(line, f).data != [] && |Join(Field(line, f).data)| <= |Join(f.data)| + |line|
  {
    var t := TrimRight(line);
    if !("event:" <= t) && "data:" <= t {
      var more := TrimPrefix(t[5..], " ");
      assert (f.data + [more])[..|f.data|] == f.data;
      assert Join(f.data + [more]) == Join(f.data) + "\n" + more;
    }
  }

  /** What is written is read back, with everything after it left to read, exactly when the
      data is one line that does not end in a carriage return. */
  lemma {:induction false} RoundTrip(e: Event, rest: string)
    requires CleanName(e.name)
    ensures ReadFrom(Written(e) + rest, NONE) == Read(Some(e), rest) <==> CleanData(e.data)
  {
    ReadWritten(e, rest);
    if '\n' !in e.data {
      ReadData(e.data, rest, e.name);
      TrimRightIsSame(e.data);
    } else {
      MultiLine(e, rest);
    }
  }

  lemma {:induction false} MultiLine(e: Event, rest: string)
    requires '\n' in e.data
    ensures ReadFrom(DataPart(e.data, rest), Fields(e.name, [])).event != Some(e)
  {
    var i := LineEnd(e.data);
    assert i < |e.data|;
    var first, u := e.data[..i], e.data[i + 1..];
    SplitLine(e.data, i, rest);
    assert DataPart(e.data, rest) == "data: " + first + "\n" + (u + "\n\n" + rest);
    DataLine(first, e.name);
    ReadLine("data: " + first, u + "\n\n" + rest, Fields(e.name, []));
    BrokenData(u, rest, Fields(e.name, [TrimRight(first)]));
  }

  // ---------------------------------------------------------------------------
  // Whole streams
  // ---------------------------------------------------------------------------

  function WriteAll(es: seq<Event>): string {
    if es == [] then "" else Written(es[0]) + WriteAll(es[1..])
  }

  lemma {:induction false} LeftIsLess(s: string, f: Fields)
    ensures |ReadFrom(s, f).rest| <= |s|
    ensures f == NONE && ReadFrom(s, f).event.Some? ==> |ReadFrom(s, f).rest| < |s|
    decreases |s|
  {
    var i := LineEnd(s);
    if i < |s| && !(Blank(s[..i]) && f != NONE) {
      LeftIsLess(s[i + 1..], if Blank(s[..i]) then f else Field(s[..i], f));
    }
  }

  function ReadAll(s: string): seq<Event>
    decreases |s|
  {
    LeftIsLess(s, NONE);
    var r := ReadFrom(s, NONE);
    if r.event.None? then [] else [r.event.value] + ReadAll(r.rest)
  }

  /** A stream of clean events is read back event by event. */
  lemma {:induction false} ReadsBack(es: seq<Event>)
    requires forall e :: e in es ==> CleanName(e.name) && CleanData(e.data)
    ensures ReadAll(WriteAll(es)) == es
  {
    if es != [] {
      RoundTrip(es[0], WriteAll(es[1..]));
      ReadsBack(es[1..]);
      assert es == [es[0]] + es[1..];
    }
  }

  function Encoded<T>(vs: seq<T>, encode: T -> Event): seq<Event> {
    if vs == [] then [] else [encode(vs[0])] + Encoded(vs[1..], encode)
  }

  function Decoded<T>(es: seq<Event>, decode: Event -> T): seq<T> {
    if es == [] then [] else [decode(es[0])] + Decoded(es[1..], decode)
  }

  lemma {:induction false} EncodedClean<T>(vs: seq<T>, encode: T -> Event, decode: Event -> T)
    requires forall v :: v in vs ==> CleanName(encode(v).name) && CleanData(encode(v).data) && decode(encode(v)) == v
    ensures forall e :: e in Encoded(vs, encode) ==> CleanName(e.name) && CleanData(e.data)
    ensures Decoded(Encoded(vs, encode), decode) == vs
  {
    if vs != [] {
      EncodedClean(vs[1..], encode, decode);
      assert vs == [vs[0]] + vs[1..];
    }
  }

  /** Values sent as clean events arrive as they were sent. */
  lemma {:induction false} OverTheWire<T>(vs: seq<T>, encode: T -> Event, decode: Event -> T)
    requires forall v :: v in vs ==> CleanName(encode(v).name) && CleanData(encode(v).data) && decode(encode(v)) == v
    ensures Decoded(ReadAll(WriteAll(Encoded(vs, encode))), decode) == vs
  {
    EncodedClean(vs, encode, decode);
    ReadsBack(Encoded(vs, encode));
  }
}
