/**
  The scenarios of the package's tests, stated against the model: the five
  room lists of the load test, the lookups of the find test, the resolution
  cases, the URL cases and the prefixed and unprefixed exports.
 */
module RoomScenarios {
  import opened Strings
  import opened Source
  import opened Rooms
  import opened Directory

  // The load test's five inputs, with any words in place of the test's words.

  /** Two single-column lines with CRLF ends, as in "FOO\r\nBAR\r\n", load
      no room. */
  lemma LoadBadFile(foo: string, bar: string)
    requires Token(foo) && Token(bar)
    ensures Parse(foo + "\r\n" + bar + "\r\n") == []
  {
    var line1, line2 := foo + "\r\n", bar + "\r\n";
    ConcatAssoc(line1, bar, "\r\n");
    assert Parse(line2) == [] by {
      assert line2 == bar + "\r\n" + "";
      ParseSplitCRLF(bar, "");
      ParseSingleColumn(bar);
      assert Parse("") == [];
    }
    assert Parse(line1 + line2) == [] by {
      ParseSplitCRLF(foo, line2);
      ParseSingleColumn(foo);
    }
  }

  /** One `<name> <id>` line, as in "ABC 12345\n", loads one room. */
  lemma LoadSingle(name: string, id: string)
    requires Token(name) && Token(id)
    ensures Parse(name + " " + id + "\n") == [Room(name, Meeting(id))]
  {
    ParseLineWithColumns(name, id, "");
    assert name + " " + id + "" == name + " " + id;
  }

  /** Columns after the second are ignored, as in "MORE THAN TWO COLUMNS\n". */
  lemma LoadExtraColumns(w1: string, w2: string, w3: string, w4: string)
    requires Token(w1) && Token(w2) && Token(w3) && Token(w4)
    ensures Parse(w1 + " " + w2 + " " + w3 + " " + w4 + "\n") == [Room(w1, Meeting(w2))]
  {
    var rest := " " + w3 + " " + w4;
    assert NoNewline(rest) && rest[0] == ' ' by {
      NoNewlineJoin(w3, w4);
      NoNewlineJoin("", w3 + " " + w4);
      assert rest == "" + " " + (w3 + " " + w4);
    }
    ParseLineWithColumns(w1, w2, rest);
    var head := w1 + " " + w2;
    ConcatAssoc(head, " ", w3);
    ConcatAssoc(head, " " + w3, " ");
    ConcatAssoc(head, " " + w3 + " ", w4);
  }

  /** Two lines, the last without a newline, as in "ABC 12345\nXYZ 9823",
      load two rooms in order. */
  lemma LoadMultiple(n1: string, i1: string, n2: string, i2: string)
    requires Token(n1) && Token(i1) && Token(n2) && Token(i2)
    ensures Parse(n1 + " " + i1 + "\n" + n2 + " " + i2) == [Room(n1, Meeting(i1)), Room(n2, Meeting(i2))]
  {
    assert n1 + " " + i1 + "\n" + n2 + " " + i2 == (n1 + " " + i1) + "\n" + (n2 + " " + i2);
    ParseSplit(n1 + " " + i1, n2 + " " + i2);
    ParseRenderedLine(Room(n1, Meeting(i1)));
    ParseRenderedLine(Room(n2, Meeting(i2)));
  }

  /** Blank lines load nothing: the result of "\nABC 12345\n\nXYZ 9823" is
      that of the same text without them, whatever the two lines hold. */
  lemma LoadEmptyLines(a: string, b: string)
    ensures Parse("\n" + a + "\n\n" + b) == Parse(a + "\n" + b)
  {
    var inner := a + "\n" + ("\n" + b);
    assert "\n" + a + "\n\n" + b == "\n" + inner;
    ParseBlankFirst(inner);
    ParseSplit(a, "\n" + b);
    ParseBlankFirst(b);
    ParseSplit(a, b);
  }

  /** The empty-lines input, as in "\nABC 12345\n\nXYZ 9823", loads its two
      rooms in order, as the multiple input does. */
  lemma LoadEmptyLinesRooms(n1: string, i1: string, n2: string, i2: string)
    requires Token(n1) && Token(i1) && Token(n2) && Token(i2)
    ensures Parse("\n" + (n1 + " " + i1) + "\n\n" + (n2 + " " + i2)) ==
            [Room(n1, Meeting(i1)), Room(n2, Meeting(i2))]
  {
    var a, b := n1 + " " + i1, n2 + " " + i2;
    assert Parse("\n" + a + "\n\n" + b) == Parse(a + "\n" + b) by {
      LoadEmptyLines(a, b);
    }
    assert Parse(a + "\n" + b) == [Room(n1, Meeting(i1)), Room(n2, Meeting(i2))] by {
      ParseSplit(a, b);
      ParseRenderedLine(Room(n1, Meeting(i1)));
      ParseRenderedLine(Room(n2, Meeting(i2)));
    }
  }

  /** The load test end to end: `$DENIM_ROOMS` names a local file holding a
      single `<name> <id>` line, and the directory then holds that one room. */
  method LoadFromFile(dir: RoomDirectory, path: string, name: string, id: string)
    requires path != "" && !IsURL(path)
    requires Token(name) && Token(id)
    modifies dir
    ensures dir.rooms == [Room(name, Meeting(id))]
  {
    var env := map[DenimRooms := path, DenimHome := "", Home := ""];
    dir.Load(env, map[path := name + " " + id + "\n"], map[]);
    LoadSingle(name, id);
  }

  /** The find test's directory. */
  method FooBar() returns (dir: RoomDirectory)
    ensures fresh(dir) && dir.rooms == [Room("foo", Meeting("12345")), Room("bar", Meeting("67890"))]
  {
    dir := new RoomDirectory();
    dir.rooms := [Room("foo", Meeting("12345")), Room("bar", Meeting("67890"))];
  }

  /** The find test: "foo" and "Foo" both find the room named "foo". */
  method FindIgnoresCase() returns (lower: FindResult, upper: FindResult)
    ensures lower == upper == Found(Room("foo", Meeting("12345")))
  {
    var dir := FooBar();
    assert EqualFold(dir.rooms[0].name, "foo") && EqualFold(dir.rooms[0].name, "Foo");
    lower := dir.Find("foo");
    upper := dir.Find("Foo");
  }

  /** The find test: "bar" finds the second room. */
  method FindSecond() returns (r: FindResult)
    ensures r == Found(Room("bar", Meeting("67890")))
  {
    var dir := FooBar();
    assert EqualFold(dir.rooms[1].name, "bar");
    assert !EqualFold(dir.rooms[0].name, "bar") by { assert ToLowerChar("foo"[0]) != ToLowerChar("bar"[0]); }
    r := dir.Find("bar");
  }

  /** The find test: "baz" fails with a not-found error and no room. */
  method FindMissing() returns (r: FindResult)
    ensures r == Failed(NotFound("baz"))
  {
    var dir := FooBar();
    assert !EqualFold("foo", "baz") by { assert ToLowerChar("foo"[0]) != ToLowerChar("baz"[0]); }
    assert !EqualFold("bar", "baz") by { assert ToLowerChar("bar"[2]) != ToLowerChar("baz"[2]); }
    r := dir.Find("baz");
  }

  /** The resolution test's five environments. */
  lemma ResolveCases(userHome: string, appHome: string)
    requires userHome != "" && appHome != ""
    ensures ResolveSource(map[DenimRooms := "", DenimHome := "", Home := ""]) == ""
    ensures ResolveSource(map[DenimRooms := "", DenimHome := "", Home := userHome]) == userHome + "/.denim/rooms"
    ensures ResolveSource(map[DenimRooms := "", DenimHome := appHome, Home := userHome]) == appHome + "/rooms"
    ensures ResolveSource(map[DenimRooms := appHome + "/rooms", DenimHome := appHome, Home := userHome]) ==
            appHome + "/rooms"
    ensures ResolveSource(map[DenimRooms := "http://localhost:8080/rooms", DenimHome := appHome, Home := userHome]) ==
            "http://localhost:8080/rooms"
  {
  }

  /** The URL test's four strings. */
  lemma URLCases()
    ensures !IsURL("") && !IsURL("/foo")
    ensures IsURL("http://foo.co/bar") && IsURL("https://foo.co/bar")
  {
    PathsAreNotURLs("");
    PathsAreNotURLs("/foo");
    SchemesAreURLs("foo.co/bar");
  }

  /** The export test: one room with and without a prefix, and two rooms in
      order. */
  method ExportCases(urlOf: Meeting -> string) returns (plain: seq<Card>, prefixed: seq<Card>, both: seq<Card>)
    ensures plain == [Card("foo_1", urlOf(Meeting("12345")))]
    ensures prefixed == [Card("foo-foo_1", urlOf(Meeting("12345")))]
    ensures both == [Card("foo-foo_1", urlOf(Meeting("12345"))), Card("foo-bar_1", urlOf(Meeting("12345")))]
  {
    var dir := new RoomDirectory();
    dir.rooms := [Room("foo_1", Meeting("12345"))];
    plain := dir.Export("", urlOf);
    prefixed := dir.Export("foo-", urlOf);
    assert "" + "foo_1" == "foo_1" && "foo-" + "foo_1" == "foo-foo_1";
    dir.rooms := [Room("foo_1", Meeting("12345")), Room("bar_1", Meeting("12345"))];
    both := dir.Export("foo-", urlOf);
    assert "foo-" + "bar_1" == "foo-bar_1";
  }
}
