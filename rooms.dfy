/**
  The room list format and its parser. Each line of the list is
  `<name> <meeting-id> [ignored...]`, split on white space after trimming;
  a line with fewer than two columns contributes no room. Lines end with
  LF or CRLF, and the last line may lack its end.
 */
module Rooms {
  import opened Strings

  datatype Option<T> = None | Some(value: T)

  /** Stand-in for the meeting provider's `New(id)`: a meeting known only by
      the raw id it was made from. */
  datatype Meeting = Meeting(id: string)

  datatype Room = Room(name: string, meeting: Meeting)

  /** What every parsed room satisfies: its name and id are single columns. */
  predicate WellFormedRoom(r: Room) {
    Token(r.name) && Token(r.meeting.id)
  }

  /** A line holds a room when it has at least two columns. */
  predicate WellFormedLine(line: string) {
    |Fields(line)| >= 2
  }

  /** One line of the list: the first column is the name, the second the
      meeting id, and the rest is ignored. */
  function ParseLine(line: string): (r: Option<Room>)
    ensures r.Some? <==> WellFormedLine(line)
    ensures r.Some? ==> WellFormedRoom(r.value)
  {
    var fields := Fields(TrimSpace(line));
    FieldsTrimSpace(line);
    if |fields| < 2 then None else Some(Room(fields[0], Meeting(fields[1])))
  }

  /** The rooms a single line contributes: none or one. */
  function RoomsOf(line: string): seq<Room> {
    match ParseLine(line)
    case Some(r) => [r]
    case None => []
  }

  /** The rooms of a sequence of scanned lines, in line order. */
  function ParseLines(ls: seq<string>): (rs: seq<Room>)
    ensures |rs| <= |ls|
  {
    if ls == [] then [] else RoomsOf(ls[0]) + ParseLines(ls[1..])
  }

  /** The rooms of the whole content of a room list: at most one per line,
      each with a single-column name and id. */
  function Parse(content: string): (rs: seq<Room>)
    ensures |rs| <= |Lines(content)|
    ensures forall i :: 0 <= i < |rs| ==> WellFormedRoom(rs[i])
  {
    ParseLinesWellFormed(Lines(content));
    ParseLines(Lines(content))
  }

  // ---------------------------------------------------------------------------
  // One line

  /** Only the columns of a line decide what it contributes. */
  lemma ParseLineByFields(a: string, b: string)
    requires Fields(a) == Fields(b)
    ensures ParseLine(a) == ParseLine(b)
  {
    FieldsTrimSpace(a);
    FieldsTrimSpace(b);
  }

  /** A line with two or more columns yields the room of its first two. */
  lemma ParseLineOfFields(line: string)
    requires |Fields(line)| >= 2
    ensures ParseLine(line) == Some(Room(Fields(line)[0], Meeting(Fields(line)[1])))
  {
    FieldsTrimSpace(line);
  }

  /** A name and an id separated by white space make one room, whatever
      columns follow them. */
  lemma ParseLineColumns(name: string, sep: char, id: string, rest: string)
    requires Token(name) && Token(id) && IsSpace(sep)
    requires rest == [] || IsSpace(rest[0])
    ensures ParseLine(name + [sep] + id + rest) == Some(Room(name, Meeting(id)))
  {
    var line := name + [sep] + id + rest;
    assert Fields(id + rest)[..1] == [id] by {
      FieldsOfToken(id);
      if rest == [] {
        assert id + rest == id;
      } else {
        assert id + rest == id + [rest[0]] + rest[1..];
        FieldsSplit(id, rest[0], rest[1..]);
      }
    }
    assert Fields(line) == [name] + Fields(id + rest) by {
      assert line == name + [sep] + (id + rest);
      FieldsSplit(name, sep, id + rest);
      FieldsOfToken(name);
    }
    ParseLineOfFields(line);
  }

  /** A single column, with or without white space around it, is dropped. */
  lemma ParseLineSingleColumn(word: string)
    requires Token(word)
    ensures ParseLine(word) == None
  {
    FieldsOfToken(word);
  }

  /** Trailing white space on a line is ignored. */
  lemma ParseLineTrailingSpace(line: string, c: char)
    requires IsSpace(c)
    ensures ParseLine(line + [c]) == ParseLine(line)
  {
    FieldsDropLast(line, c);
    ParseLineByFields(line + [c], line);
  }

  lemma ParseLineDropCR(line: string)
    ensures ParseLine(DropCR(line)) == ParseLine(line)
  {
    if DropCR(line) != line {
      ParseLineTrailingSpace(DropCR(line), '\r');
    }
  }

  // ---------------------------------------------------------------------------
  // Sequences of lines

  /** Parsing distributes over concatenation of line sequences. */
  lemma {:induction false} ParseLinesAppend(ls: seq<string>, ms: seq<string>)
    ensures ParseLines(ls + ms) == ParseLines(ls) + ParseLines(ms)
  {
    if ls == [] {
      assert ls + ms == ms;
    } else {
      assert (ls + ms)[1..] == ls[1..] + ms;
      ParseLinesAppend(ls[1..], ms);
    }
  }

  /** Every room loaded has a single-column name and a single-column id. */
  lemma {:induction false} ParseLinesWellFormed(ls: seq<string>)
    ensures forall i :: 0 <= i < |ParseLines(ls)| ==> WellFormedRoom(ParseLines(ls)[i])
  {
    if ls != [] {
      ParseLinesWellFormed(ls[1..]);
    }
  }

  /** The number of lines that hold a room. */
  function CountWellFormed(ls: seq<string>): nat {
    if ls == [] then 0 else (if WellFormedLine(ls[0]) then 1 else 0) + CountWellFormed(ls[1..])
  }

  /** There is one room per well-formed line: blank lines and lines with a
      single column contribute nothing. */
  lemma {:induction false} ParseLinesCount(ls: seq<string>)
    ensures |ParseLines(ls)| == CountWellFormed(ls)
  {
    if ls != [] {
      ParseLinesCount(ls[1..]);
    }
  }

  /** The rooms of `ls` are those of its first line followed by those of the rest. */
  lemma ParseLinesCons(ls: seq<string>)
    requires ls != []
    ensures ParseLines(ls) == RoomsOf(ls[0]) + ParseLines(ls[1..])
  {
  }

  // ---------------------------------------------------------------------------
  // Content

  /** A trailing '\n' adds nothing. */
  lemma ParseNewlineEnd(a: string)
    ensures Parse(a + "\n") == Parse(a)
  {
    LinesNewlineEnd(a);
    if Lines(a + "\n") != Lines(a) {
      ParseLinesAppend(Lines(a), [""]);
      FieldsOfBlank("");
    }
  }

  /** The rooms of text joined by '\n' are the rooms of each part, in order:
      the line end closes the last line of `a`, and blank lines in between
      contribute nothing. */
  lemma ParseSplit(a: string, b: string)
    ensures Parse(a + "\n" + b) == Parse(a) + Parse(b)
  {
    LinesSplit(a, b);
    ParseLinesAppend(Lines(a + "\n"), Lines(b));
    ParseNewlineEnd(a);
  }

  /** A blank line at the start adds nothing. */
  lemma ParseBlankFirst(b: string)
    ensures Parse("\n" + b) == Parse(b)
  {
    assert "\n" + b == "" + "\n" + b;
    ParseSplit("", b);
    assert Parse("") == [];
  }

  /** A line without '\n' is parsed on its own, with or without a CR. */
  lemma ParseOfLine(line: string)
    requires NoNewline(line)
    ensures Parse(line) == RoomsOf(line)
  {
    if line == [] {
      FieldsOfBlank(line);
    } else {
      LinesOfLine(line);
      ParseLineDropCR(line);
      assert Parse(line) == RoomsOf(DropCR(line)) + ParseLines([]);
    }
  }

  /** A line of a name, an id and any further columns, ended by '\n', loads
      the one room of that name and id. */
  lemma ParseLineWithColumns(name: string, id: string, rest: string)
    requires Token(name) && Token(id)
    requires NoNewline(rest) && (rest == [] || IsSpace(rest[0]))
    ensures Parse(name + " " + id + rest + "\n") == [Room(name, Meeting(id))]
  {
    var line := name + " " + (id + rest);
    assert name + " " + id + rest + "\n" == line + "\n";
    assert NoNewline(line) by {
      assert NoNewline(id + rest) by {
        forall i | 0 <= i < |id + rest| ensures (id + rest)[i] != '\n' {
          if i >= |id| {
            assert (id + rest)[i] == rest[i - |id|];
          }
        }
      }
      NoNewlineJoin(name, id + rest);
    }
    assert RoomsOf(line) == [Room(name, Meeting(id))] by {
      assert line == name + [' '] + id + rest;
      ParseLineColumns(name, ' ', id, rest);
    }
    ParseNewlineEnd(line);
    ParseOfLine(line);
  }

  /** Content of one single-column line loads no room. */
  lemma ParseSingleColumn(word: string)
    requires Token(word)
    ensures Parse(word) == []
  {
    assert NoNewline(word);
    ParseOfLine(word);
    ParseLineSingleColumn(word);
  }

  /** White space other than '\n' at the very end of the content is ignored. */
  lemma {:induction false} ParseTrailingSpace(a: string, c: char)
    requires IsSpace(c) && c != '\n'
    ensures Parse(a + [c]) == Parse(a)
    decreases |a|
  {
    var k := LineLen(a);
    if k == |a| {
      assert a[..k] == a;
      assert NoNewline(a + [c]);
      ParseOfLine(a + [c]);
      ParseOfLine(a);
      ParseLineTrailingSpace(a, c);
    } else {
      var head, tail := a[..k], a[k + 1..];
      assert a == head + "\n" + tail;
      assert a + [c] == head + "\n" + (tail + [c]);
      ParseSplit(head, tail + [c]);
      ParseTrailingSpace(tail, c);
      ParseSplit(head, tail);
    }
  }

  /** CRLF line ends split the content just as LF ones do. */
  lemma ParseSplitCRLF(a: string, b: string)
    ensures Parse(a + "\r\n" + b) == Parse(a) + Parse(b)
  {
    assert a + "\r\n" + b == (a + "\r") + "\n" + b;
    ParseSplit(a + "\r", b);
    ParseTrailingSpace(a, '\r');
  }

  // ---------------------------------------------------------------------------
  // Writing a room list back

  /** The room list that holds `rs`, one `<name> <id>` line each, ended by
      `eol`. */
  function Render(rs: seq<Room>, eol: string): string {
    if rs == [] then ""
    else rs[0].name + " " + rs[0].meeting.id + eol + Render(rs[1..], eol)
  }

  /** The line `Render` writes for a well-formed room parses back to it. */
  lemma ParseRenderedLine(r: Room)
    requires WellFormedRoom(r)
    ensures NoNewline(r.name + " " + r.meeting.id)
    ensures Parse(r.name + " " + r.meeting.id) == [r]
  {
    var line := r.name + " " + r.meeting.id;
    NoNewlineJoin(r.name, r.meeting.id);
    assert line == r.name + [' '] + r.meeting.id + [];
    ParseLineColumns(r.name, ' ', r.meeting.id, []);
    ParseOfLine(line);
  }

  /** Loading what `Render` wrote gives back the same rooms, in order, with
      LF or CRLF line ends. */
  lemma {:induction false} ParseRender(rs: seq<Room>, eol: string)
    requires eol == "\n" || eol == "\r\n"
    requires forall i :: 0 <= i < |rs| ==> WellFormedRoom(rs[i])
    ensures Parse(Render(rs, eol)) == rs
  {
    if rs != [] {
      var line := rs[0].name + " " + rs[0].meeting.id;
      var rest := Render(rs[1..], eol);
      assert Render(rs, eol) == line + eol + rest;
      ParseRenderedLine(rs[0]);
      if eol == "\n" {
        ParseSplit(line, rest);
      } else {
        ParseSplitCRLF(line, rest);
      }
      ParseRender(rs[1..], eol);
      assert rs == [rs[0]] + rs[1..];
    }
  }

  lemma ScanStep(lines: seq<string>, i: nat)
    requires i < |lines|
    ensures ParseLines(lines[..i + 1]) == ParseLines(lines[..i]) + RoomsOf(lines[i])
    ensures RoomsOf(lines[i]) ==
              var fields := Fields(TrimSpace(lines[i]));
              if |fields| >= 2 then [Room(fields[0], Meeting(fields[1]))] else []
  {
    assert lines[..i + 1] == lines[..i] + [lines[i]];
    ParseLinesAppend(lines[..i], [lines[i]]);
    ParseLinesCons([lines[i]]);
  }

  /** The loop `Load` runs over the scanned lines: trim, split, keep lines of
      two or more columns, and append their rooms to a fresh sequence. */
  method Scan(content: string) returns (rs: seq<Room>)
    ensures rs == Parse(content)
  {
    var lines := Lines(content);
    rs := [];
    var i := 0;
    while i < |lines|
      invariant 0 <= i <= |lines|
      invariant rs == ParseLines(lines[..i])
    {
      var fields := Fields(TrimSpace(lines[i]));
      if |fields| >= 2 {
        rs := rs + [Room(fields[0], Meeting(fields[1]))];
      }
      ScanStep(lines, i);
      i := i + 1;
    }
    assert lines[..i] == lines;
  }
}
