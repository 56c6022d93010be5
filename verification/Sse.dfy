/**
 Server-sent event frames: the reader that splits a stream into frames, the printer that
 writes them back, and exactly which frames survive the round trip.
 */
module Sse {
  import opened Basics

  datatype Frame = Frame(name: string, data: string)

  datatype Parsed = End | Event(frame: Frame, rest: string)

  /** The index of the first newline, or the length if there is none. */
  function LineEnd(s: string): (n: nat)
    ensures n <= |s| && '\n' !in s[..n] && (n < |s| ==> s[n] == '\n')
  {
    if s == "" || s[0] == '\n' then 0
    else
      var m := LineEnd(s[1..]);
      assert s[..m + 1] == [s[0]] + s[1..][..m];
      m + 1
  }

  function TrimEnds(s: string): (r: string)
    ensures r <= s
  {
    if s != "" && (s[|s| - 1] == '\r' || s[|s| - 1] == '\n') then TrimEnds(s[..|s| - 1]) else s
  }

  const EVENT := "event:"
  const DATA := "data:"

  /** Reads on from `rest` with a name and data lines gathered so far, line by line. */
  function Parse(rest: string, name: string, data: seq<string>): Parsed
    decreases |rest|
  {
    if rest == "" then (if data != [] then Event(Frame(name, Join(data, "\n")), "") else End)
    else
      var n := LineEnd(rest);
      var last := n == |rest|;
      var after := if last then "" else rest[n + 1..];
      var line := TrimEnds(rest[..n]);
      if line == "" then
        if data == [] && name == "" then (if last then End else Parse(after, name, data))
        else Event(Frame(name, Join(data, "\n")), after)
      else if HasPrefix(line, EVENT) then Parse(after, Trim(line[|EVENT|..]), data)
      else
        var more := if HasPrefix(line, DATA) then data + [Trim(line[|DATA|..])] else data;
        if last then Event(Frame(name, Join(more, "\n")), "") else Parse(after, name, more)
  }

  lemma {:induction false} ParseAdvances(rest: string, name: string, data: seq<string>)
    ensures var p := Parse(rest, name, data);
            p.Event? ==> |p.rest| <= |rest| && (|p.rest| < |rest| || (rest == "" && data != []))
    decreases |rest|
  {
    if rest != "" {
      var n := LineEnd(rest);
      var last := n == |rest|;
      var after := if last then "" else rest[n + 1..];
      var line := TrimEnds(rest[..n]);
      if line == "" {
        if data == [] && name == "" && !last { ParseAdvances(after, name, data); }
      } else if HasPrefix(line, EVENT) {
        ParseAdvances(after, Trim(line[|EVENT|..]), data);
      } else if !last {
        ParseAdvances(after, name, if HasPrefix(line, DATA) then data + [Trim(line[|DATA|..])] else data);
      }
    }
  }

  /** Every frame of a document. */
  function ParseAll(text: string): seq<Frame>
    decreases |text|
  {
    var p := Parse(text, "", []);
    ParseAdvances(text, "", []);
    if p.End? then [] else [p.frame] + ParseAll(p.rest)
  }

  /** A frame as the rewriting stream writes it. */
  function Written(f: Frame): string
  {
    (if f.name != "" then "event: " + f.name + "\n" else "")
    + (if f.data != "" then "data: " + f.data + "\n\n" else if f.name != "" then "\n" else "")
  }

  function WrittenAll(frames: seq<Frame>): string
  {
    if frames == [] then "" else Written(frames[0]) + WrittenAll(frames[1..])
  }

  // The reader as it runs

  class Reader {
    const text: string
    var pos: nat

    predicate Valid()
      reads this
    {
      pos <= |text|
    }

    function Rest(): string
      reads this
      requires Valid()
    {
      text[pos..]
    }

    constructor (text: string)
      ensures this.text == text && Valid() && Rest() == text
    {
      this.text, pos := text, 0;
    }

    /** The next line with its newline; `eof` when the text ended before one. */
    method ReadString() returns (line: string, eof: bool)
      requires Valid()
      modifies this
      ensures Valid()
      ensures eof == (LineEnd(old(Rest())) == |old(Rest())|)
      ensures line == if eof then old(Rest()) else old(Rest())[..LineEnd(old(Rest())) + 1]
      ensures Rest() == if eof then "" else old(Rest())[LineEnd(old(Rest())) + 1..]
    {
      var start := pos;
      var rest := text[pos..];
      while pos < |text| && text[pos] != '\n'
        invariant start <= pos <= |text|
        invariant forall k :: start <= k < pos ==> text[k] != '\n'
      {
        pos := pos + 1;
      }
      FirstNewline(rest, pos - start);
      eof := pos == |text|;
      if !eof { pos := pos + 1; }
      line := text[start..pos];
    }

    /** The next frame; none at the end of the text. */
    method ReadEvent() returns (frame: Option<Frame>)
      requires Valid()
      modifies this
      ensures Valid()
      ensures var p := Parse(old(Rest()), "", []);
              if p.End? then frame == None && Rest() == "" else frame == Some(p.frame) && Rest() == p.rest
    {
      hide TrimEnds, LineEnd, Join, Trim;
      var name := "";
      var lines: seq<string> := [];
      ghost var whole := Parse(Rest(), "", []);
      while true
        invariant Valid() && whole == Parse(Rest(), name, lines)
        decreases |Rest()|
      {
        ghost var rest := Rest();
        var line, eof := ReadString();
        if eof && line == "" {
          if lines != [] { return Some(Frame(name, Join(lines, "\n"))); }
          return None;
        }
        WithoutNewline(rest, LineEnd(rest));
        line := TrimEnds(line);
        if line == "" {
          if lines == [] && name == "" {
            if eof { return None; }
            continue;
          }
          return Some(Frame(name, Join(lines, "\n")));
        }
        if HasPrefix(line, EVENT) {
          name := Trim(line[|EVENT|..]);
          continue;
        }
        if HasPrefix(line, DATA) { lines := lines + [Trim(line[|DATA|..])]; }
        if eof { return Some(Frame(name, Join(lines, "\n"))); }
      }
    }
  }

  /** Walks a whole document. */
  method ReadAll(text: string) returns (frames: seq<Frame>)
    ensures frames == ParseAll(text)
  {
    hide Parse, ParseAll;
    frames := [];
    var reader := new Reader(text);
    ghost var rest := text;
    while true
      invariant reader.Valid() && fresh(reader) && reader.Rest() == rest
      invariant ParseAll(text) == frames + ParseAll(rest)
      decreases |rest|
    {
      FirstAndRest(rest);
      var frame := reader.ReadEvent();
      if frame.None? {
        assert frames + [] == frames;
        return;
      }
      rest := reader.Rest();
      assert frames + ([frame.value] + ParseAll(rest)) == (frames + [frame.value]) + ParseAll(rest);
      frames := frames + [frame.value];
    }
  }

  lemma FirstAndRest(text: string)
    ensures var p := Parse(text, "", []);
            if p.End? then ParseAll(text) == [] else ParseAll(text) == [p.frame] + ParseAll(p.rest) && |p.rest| < |text|
  {
    ParseAdvances(text, "", []);
  }

  lemma FirstNewline(s: string, n: nat)
    requires n <= |s| && (forall k :: 0 <= k < n ==> s[k] != '\n') && (n < |s| ==> s[n] == '\n')
    ensures LineEnd(s) == n
  {
    var m := LineEnd(s);
    assert forall k :: 0 <= k < m ==> s[..m][k] == s[k];
  }

  /** Trimming takes the newline of a full line with the rest. */
  lemma WithoutNewline(s: string, n: nat)
    requires n == LineEnd(s)
    ensures TrimEnds(if n < |s| then s[..n + 1] else s) == TrimEnds(s[..n])
  {
    assert n == |s| ==> s[..n] == s;
    if n < |s| { assert s[..n + 1][..n] == s[..n]; }
  }

  // Round trips

  /** Newline-free and without white space at its ends. */
  predicate Plain(s: string)
  {
    Tight(s) && '\n' !in s
  }

  predicate Clean(f: Frame)
  {
    Plain(f.name) && Plain(f.data) && (f.name != "" || f.data != "")
  }

  lemma {:induction false} TrimEndsPlain(s: string)
    requires s != "" && !IsSpace(s[|s| - 1])
    ensures TrimEnds(s) == s
  {
  }

  lemma TrimSpaced(s: string)
    requires Tight(s)
    ensures Trim(" " + s) == s
  {
    assert (" " + s)[1..] == s;
    TrimTight(s);
    assert TrimLeft(" " + s) == TrimLeft(s);
  }

  /** One printed `field: value` line. */
  lemma LineParts(field: string, value: string, tail: string)
    requires '\n' !in field && '\n' !in value
    ensures var s := field + " " + value + "\n" + tail;
            LineEnd(s) == |field| + 1 + |value| && s[..LineEnd(s)] == field + " " + value && s[LineEnd(s) + 1..] == tail
  {
    var s := field + " " + value + "\n" + tail;
    var n := |field| + 1 + |value|;
    assert s[..n] == field + " " + value;
    forall k | 0 <= k < n ensures s[k] != '\n' { assert s[k] == (field + " " + value)[k]; }
    FirstNewline(s, n);
  }

  lemma EventLine(value: string, tail: string, data: seq<string>)
    requires Plain(value) && value != ""
    ensures Parse("event: " + value + "\n" + tail, "", data) == Parse(tail, value, data)
  {
    var s := EVENT + " " + value + "\n" + tail;
    assert "event: " == EVENT + " ";
    assert "event: " + value + "\n" + tail == s;
    LineParts(EVENT, value, tail);
    TrimEndsPlain(EVENT + " " + value);
    TrimSpaced(value);
    assert (EVENT + " " + value)[|EVENT|..] == " " + value;
  }

  lemma DataLine(value: string, tail: string, name: string)
    requires Plain(value) && value != ""
    ensures Parse("data: " + value + "\n\n" + tail, name, []) == Event(Frame(name, value), tail)
  {
    var s := DATA + " " + value + "\n" + ("\n" + tail);
    assert "data: " == DATA + " ";
    assert "data: " + value + "\n\n" + tail == s;
    LineParts(DATA, value, "\n" + tail);
    TrimEndsPlain(DATA + " " + value);
    TrimSpaced(value);
    assert (DATA + " " + value)[|DATA|..] == " " + value;
    assert (DATA + " " + value)[0] != EVENT[0];
    assert [] + [value] == [value];
    BlankLine(tail, name, [value]);
  }

  lemma BlankLine(tail: string, name: string, data: seq<string>)
    requires data != [] || name != ""
    ensures Parse("\n" + tail, name, data) == Event(Frame(name, Join(data, "\n")), tail)
  {
    var s := "\n" + tail;
    assert LineEnd(s) == 0 && s[..0] == "" && s[1..] == tail;
  }

  lemma OneRoundTrip(f: Frame, tail: string)
    requires Clean(f)
    ensures Parse(Written(f) + tail, "", []) == Event(f, tail)
  {
    hide Parse;
    var body := if f.data != "" then "data: " + f.data + "\n\n" else "\n";
    if f.data != "" {
      DataLine(f.data, tail, f.name);
    } else {
      BlankLine(tail, f.name, []);
    }
    if f.name != "" {
      EventLine(f.name, body + tail, []);
      assert Written(f) + tail == "event: " + f.name + "\n" + (body + tail);
    } else {
      assert Written(f) + tail == body + tail;
    }
  }

  /** Reading what was printed gives back exactly the frames, for any list of clean ones. */
  lemma {:induction false} RoundTrip(frames: seq<Frame>)
    requires forall i :: 0 <= i < |frames| ==> Clean(frames[i])
    ensures ParseAll(WrittenAll(frames)) == frames
  {
    hide Parse, Written, Clean;
    if frames == [] {
      NothingToRead();
    } else {
      assert Clean(frames[0]);
      forall i | 0 <= i < |frames[1..]| ensures Clean(frames[1..][i]) { assert Clean(frames[i + 1]); }
      OneRoundTrip(frames[0], WrittenAll(frames[1..]));
      RoundTrip(frames[1..]);
    }
  }

  lemma NothingToRead()
    ensures ParseAll("") == []
  {
  }

  // And only they survive

  lemma {:induction false} TrimLeftPart(s: string)
    ensures |TrimLeft(s)| <= |s| && forall c :: c in TrimLeft(s) ==> c in s
  {
    if s != "" && IsSpace(s[0]) { TrimLeftPart(s[1..]); }
  }

  lemma {:induction false} TrimRightPart(s: string)
    ensures |TrimRight(s)| <= |s| && forall c :: c in TrimRight(s) ==> c in s
  {
    if s != "" && IsSpace(s[|s| - 1]) { TrimRightPart(s[..|s| - 1]); }
  }

  lemma TrimPart(s: string)
    ensures |Trim(s)| <= |s| && ('\n' !in s ==> Plain(Trim(s)))
  {
    TrimLeftPart(s);
    TrimRightPart(TrimLeft(s));
    TrimTight(s);
  }

  lemma {:induction false} JoinAppend(pieces: seq<string>, x: string)
    ensures |Join(pieces + [x], "\n")| == |Join(pieces, "\n")| + |x| + if pieces == [] then 0 else 1
  {
    if |pieces| == 1 {
      assert (pieces + [x])[1..] == [x];
    } else if |pieces| > 1 {
      assert (pieces + [x])[1..] == pieces[1..] + [x];
      JoinAppend(pieces[1..], x);
    }
  }

  /** A name read is plain, and data lines cost more characters than they add. */
  lemma {:induction false} ParseBounds(rest: string, name: string, data: seq<string>)
    requires Plain(name)
    ensures var p := Parse(rest, name, data);
            p.Event? ==>
              && Plain(p.frame.name)
              && (|p.frame.data| <= |Join(data, "\n")| || |p.frame.data| + 4 <= |Join(data, "\n")| + |rest|)
    decreases |rest|
  {
    hide TrimEnds, Join, Plain, Trim;
    if rest != "" {
      var n := LineEnd(rest);
      var last := n == |rest|;
      var after := if last then "" else rest[n + 1..];
      var line := TrimEnds(rest[..n]);
      LineIsPlain(rest[..n], line);
      if line == "" {
        if data == [] && name == "" && !last { ParseBounds(after, name, data); }
      } else if HasPrefix(line, EVENT) {
        TrimPart(line[|EVENT|..]);
        ParseBounds(after, Trim(line[|EVENT|..]), data);
      } else if HasPrefix(line, DATA) {
        TrimPart(line[|DATA|..]);
        JoinAppend(data, Trim(line[|DATA|..]));
        if !last { ParseBounds(after, name, data + [Trim(line[|DATA|..])]); }
      } else if !last {
        ParseBounds(after, name, data);
      }
    }
  }

  lemma LineIsPlain(s: string, line: string)
    requires line <= s && '\n' !in s
    ensures '\n' !in line && forall k :: 0 <= k <= |line| ==> '\n' !in line[k..]
  {
  }

  lemma {:induction false} TrimEndsKeeps(front: string, s: string)
    requires front != "" && front[|front| - 1] == ' '
    ensures TrimEnds(front + s) == front + TrimEnds(s)
  {
    if s == "" {
      assert front + s == front;
    } else {
      assert (front + s)[..|front + s| - 1] == front + s[..|s| - 1];
      TrimEndsKeeps(front, s[..|s| - 1]);
    }
  }

  lemma SpaceGoes(s: string)
    ensures |Trim(" " + s)| <= |s|
  {
    assert (" " + s)[1..] == s;
    TrimLeftPart(s);
    TrimRightPart(TrimLeft(s));
  }

  lemma DataStep(s: string, name: string)
    requires LineEnd(s) < |s| && HasPrefix(TrimEnds(s[..LineEnd(s)]), DATA)
    ensures Parse(s, name, []) == Parse(s[LineEnd(s) + 1..], name, [Trim(TrimEnds(s[..LineEnd(s)])[|DATA|..])])
  {
    hide Trim, TrimEnds, Join;
    var line := TrimEnds(s[..LineEnd(s)]);
    assert line[0] == DATA[0] && DATA[0] != EVENT[0];
    assert [] + [Trim(line[|DATA|..])] == [Trim(line[|DATA|..])];
  }

  /** What a printed data field of any content reads as up to its first newline. */
  lemma DataStarts(data: string, name: string)
    requires data != ""
    ensures var k := LineEnd(data); var value := Trim(" " + TrimEnds(data[..k]));
            && |value| <= k && Plain(value)
            && Parse("data: " + data + "\n\n", name, []) == Parse((data + "\n\n")[k + 1..], name, [value])
  {
    hide Parse, Trim, TrimLeft, TrimRight, Plain, Tight;
    var k := LineEnd(data);
    var front, tail := data[..k], (data + "\n\n")[k + 1..];
    assert "data: " == DATA + " ";
    assert data + "\n\n" == front + "\n" + tail;
    assert "data: " + data + "\n\n" == DATA + " " + front + "\n" + tail;
    LineParts(DATA, front, tail);
    assert DATA + " " + front == "data: " + front;
    TrimEndsKeeps("data: ", front);
    var line := "data: " + TrimEnds(front);
    assert line[..|DATA|] == DATA;
    assert line[|DATA|..] == " " + TrimEnds(front);
    DataStep("data: " + data + "\n\n", name);
    TrimPart(" " + TrimEnds(front));
    SpaceGoes(TrimEnds(front));
  }

  /** A frame whose data is not plain reads back as something else. */
  lemma DataSurvives(name: string, data: string, rest: string)
    requires data != "" && Parse("data: " + data + "\n\n", name, []) == Event(Frame(name, data), rest) && Plain(name)
    ensures Plain(data)
  {
    hide Parse, Plain, Trim, TrimEnds, Tight;
    var k := LineEnd(data);
    var value := Trim(" " + TrimEnds(data[..k]));
    DataStarts(data, name);
    ParseBounds((data + "\n\n")[k + 1..], name, [value]);
    if k == |data| {
      assert (data + "\n\n")[k + 1..] == "\n" + "";
      BlankLine("", name, [value]);
    }
  }

  /** Exactly the clean frames are read back as they were printed. */
  lemma SurvivesIffClean(f: Frame)
    ensures Parse(Written(f), "", []) == Event(f, "") <==> Clean(f)
  {
    hide Parse;
    if Clean(f) {
      OneRoundTrip(f, "");
      assert Written(f) + "" == Written(f);
    } else if Parse(Written(f), "", []) == Event(f, "") {
      NothingParsed();
      ParseBounds(Written(f), "", []);
      assert f.data != "";
      var body := "data: " + f.data + "\n\n";
      if f.name != "" {
        EventLine(f.name, body, []);
        assert Written(f) == "event: " + f.name + "\n" + body;
      } else {
        assert Written(f) == body;
      }
      DataSurvives(f.name, f.data, "");
      assert false;
    }
  }

  lemma NothingParsed()
    ensures Parse("", "", []) == End
  {
  }
}
