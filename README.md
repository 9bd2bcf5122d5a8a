# denim rooms: a Dafny model

This project models the `room` package of denim, a small command-line tool.
The package keeps a directory of named meeting rooms. Each room binds a name
to a video-meeting identifier. The package does four things:

- It finds where the room list lives (`resolveSource`). `$DENIM_ROOMS` wins,
  then `$DENIM_HOME/rooms`, then `$HOME/.denim/rooms`, and otherwise there is
  no source. `isURL` tells a web source from a file path.
- It loads the list (`Load`). The text is scanned line by line with LF or
  CRLF ends. Each line is trimmed and split on white space. A line with fewer
  than two columns is dropped. Otherwise the first column is the room name,
  the second is the meeting id, and any further columns are ignored. The new
  rooms replace the old ones wholesale.
- It looks a room up by name, ignoring case (`Find`). The first match wins;
  no match is a not-found error with no room.
- It exports rooms as vCards (`Export`). There is one card per room, in
  order. Its formatted name is the prefix followed by the room name, and its
  URL comes from the room's meeting.

The package's implementation file is not part of this model. Its behaviour
is taken from its tests in `room/room_test.go`.

Layout:

- `strings.dfy` (module `Strings`): the text primitives the model assumes.
  White space is Go's `unicode.IsSpace`. Lines are split as `bufio.ScanLines`
  splits them, and columns as `strings.TrimSpace` and `strings.Fields` find
  them. Names compare up to ASCII case. These choices agree with the tests'
  LF, CRLF, blank-line, white-space and extra-column cases; the
  implementation file that would confirm them is not part of this model.
- `source.dfy` (module `Source`): `ResolveSource` over an environment map,
  `IsURL`, and `Fetch`. `Fetch` stands in for the file read and the HTTP GET.
- `rooms.dfy` (module `Rooms`): the `Room` and `Meeting` values, the
  line-format parser `Parse`, and its laws. It also holds `Scan`, the parse
  loop of `Load`, and `Render`, the inverse used to state the round trip.
- `directory.dfy` (module `Directory`): the `RoomDirectory` class, whose
  `rooms` field is overwritten by `Load` and read by `Find` and `Export`. It
  also holds the card mapping `ExportCards`.
- `room_test.dfy` (module `RoomScenarios`): the test scenarios stated against
  the model. Four of the five load inputs become lemmas over any tokens in
  place of the test's words. The empty-lines input becomes two lemmas: one
  shows that the blank lines change nothing for any text, and the other
  gives the two rooms for any tokens.

## Model

| member | source | states |
|---|---|---|
| Source.Getenv | room/room_test.go:24-44 | A set variable reads as its value. Unset and set-to-empty both read as `""`. |
| Source.Fetch | room/room_test.go:79-83 | No source gives empty content. A readable source gives its content: the web store's entry for a URL, the file store's entry for a path. Non-empty content never comes from anywhere else. |
| Source.ResolveSource | room/room_test.go:14-61 | A non-empty `DENIM_ROOMS` is returned verbatim. Otherwise a non-empty `DENIM_HOME` gives `DENIM_HOME + "/rooms"`. Otherwise a non-empty `HOME` gives `HOME + "/.denim/rooms"`. |
| Source.ResolveSourceEmpty | room/room_test.go:22-26 | The result is `""` exactly when all three variables are empty or unset. |
| Source.ResolveSourceDependsOnlyOn | room/room_test.go:37-46 | Two environments that agree on `DENIM_ROOMS` resolve alike when it is non-empty, whatever else they hold. Otherwise they resolve alike when they agree on the variables that precedence reaches. |
| Source.IsURL | room/room_test.go:184-199 | True exactly when the string is `"http://"` or `"https://"` followed by anything. |
| Source.SchemesAreURLs | room/room_test.go:191-192 | Every `http://…` and every `https://…` string is a URL. |
| Source.PathsAreNotURLs | room/room_test.go:189-190 | The empty string and any string not starting with `h`, such as `/foo`, are not URLs. |
| Strings.Fields | room/room_test.go:72-73 | Every column is a non-empty run of non-space characters. |
| Strings.FieldsSplit | room/room_test.go:72-73 | A white-space character separates the columns on its two sides: `Fields(a + [c] + b) == Fields(a) + Fields(b)`. |
| Strings.FieldsOfToken | room/room_test.go:71 | A single run of non-space characters is one column. |
| Strings.FieldsOfBlank | room/room_test.go:75 | Text made only of white space has no columns. |
| Strings.FieldsTrimSpace | room/room_test.go:72 | Trimming a line never changes its columns. |
| Strings.LinesHaveNoNewline | room/room_test.go:71-75 | No scanned line contains `'\n'`. |
| Strings.LinesSplit | room/room_test.go:74-75 | A `'\n'` ends the line before it, and the text after it scans on its own. |
| Strings.LinesNewlineEnd | room/room_test.go:72-74 | A final `'\n'` adds at most one empty line to the scan. |
| Strings.LinesOfLine | room/room_test.go:74 | A non-empty text without `'\n'` scans as one line, less a trailing CR. |
| Strings.EqualFold | room/room_test.go:104-107 | Two names are equal up to ASCII case exactly when their ASCII-lower-cased forms are equal. |
| Strings.TrimSpace | room/room_test.go:71-75 | What trimming leaves is empty or starts and ends with a non-space character, and is no longer than the line. |
| Strings.TrimSpaceDropsOnlySpace | room/room_test.go:71-75 | Trimming keeps one contiguous piece of the line and drops only white space before and after it. |
| Strings.Lines | room/room_test.go:71-75 | Scanning yields no line exactly when the content is empty, and never more lines than characters. |
| Strings.EqualFoldEquivalence | room/room_test.go:104-107 | Equality up to case is reflexive, symmetric and transitive. |
| Rooms.ParseLine | room/room_test.go:71-73 | A line yields a room exactly when it has at least two columns. The room's name and id are then single columns. |
| Rooms.ParseLineColumns | room/room_test.go:72-73 | A name, white space, an id and anything starting with white space yield the room of that name and id. |
| Rooms.ParseLineSingleColumn | room/room_test.go:71 | A line of one column yields no room. |
| Rooms.ParseLineTrailingSpace | room/room_test.go:71 | Trailing white space on a line does not change what it yields. |
| Rooms.ParseLineDropCR | room/room_test.go:71 | Dropping the CR of a CRLF line end does not change what the line yields. |
| Rooms.ParseLineOfFields | room/room_test.go:72-73 | A line of two or more columns yields the room named by its first column with the id in its second. |
| Rooms.ParseSingleColumn | room/room_test.go:71 | Content that is one single-column line loads no room. |
| Rooms.ParseLineByFields | room/room_test.go:72-73 | Only a line's columns decide what it yields. |
| Rooms.Parse | room/room_test.go:71-85 | The content loads at most one room per scanned line, and every room has a single-column name and a single-column id. |
| Rooms.ParseLines | room/room_test.go:83-85 | There are never more rooms than lines. |
| Rooms.ParseLinesWellFormed | room/room_test.go:83-85 | Every room loaded has a single-column name and a single-column id. |
| Rooms.ParseLinesAppend | room/room_test.go:74-75 | The rooms of two runs of lines are the rooms of each, in order. |
| Rooms.ParseLinesCount | room/room_test.go:83-85 | There are exactly as many rooms as lines with at least two columns. |
| Rooms.ParseNewlineEnd | room/room_test.go:72-74 | A trailing newline adds no room, so a last line without one still counts. |
| Rooms.ParseSplit | room/room_test.go:74-75 | The rooms of `a + "\n" + b` are the rooms of `a` followed by those of `b`. |
| Rooms.ParseBlankFirst | room/room_test.go:75 | A leading blank line adds no room. |
| Rooms.ParseOfLine | room/room_test.go:74 | A text without `'\n'` yields the rooms of that one line. |
| Rooms.ParseTrailingSpace | room/room_test.go:71 | White space other than `'\n'` at the end of the content adds no room. |
| Rooms.ParseSplitCRLF | room/room_test.go:71 | CRLF line ends split the content into rooms just as LF ones do. |
| Rooms.ParseLineWithColumns | room/room_test.go:72-73 | A name, an id and further columns ended by `'\n'` load exactly the room of that name and id. |
| Rooms.ParseRenderedLine | room/room_test.go:72 | The `<name> <id>` line of a well-formed room has no `'\n'` and loads exactly that room. |
| Rooms.ParseRender | room/room_test.go:63-91 | Loading the list written for well-formed rooms, with LF or CRLF ends, gives back the same rooms in order. |
| Rooms.ScanStep | room/room_test.go:83 | One loop step appends the room of the current line, built from its first two columns, to the rooms of the lines before it. |
| Rooms.Scan | room/room_test.go:83-85 | The parse loop returns exactly `Parse(content)`. |
| Directory.ExportCards | room/room_test.go:132-156 | There is one card per room, in order. Card `i` is named `prefix + rooms[i].name` and carries the URL of `rooms[i]`'s meeting. |
| Directory.ExportPrefixOnlyChangesName | room/room_test.go:132-147 | Cards exported with a prefix equal those exported without one, except that each formatted name is the prefix followed by the unprefixed name. |
| Directory.ExportCardsAppend | room/room_test.go:148-156 | Exporting a concatenation gives the cards of each part, in order. |
| Directory.RoomDirectory.constructor | room/room_test.go:94-97 | A new directory holds no rooms: the initial, empty state of the package-level room list, which the find test then overwrites with two rooms. |
| Directory.RoomDirectory.Load | room/room_test.go:78-88 | The rooms become the parse of the content fetched from the resolved source, replacing the old rooms. A missing or unreadable source leaves no rooms. |
| Directory.RoomDirectory.Find | room/room_test.go:93-121 | The lookup fails, with a not-found error for the name, exactly when no room matches up to case. Otherwise it returns a matching room with no match before it. It changes nothing. |
| Directory.RoomDirectory.Export | room/room_test.go:159-161 | The cards written for the current rooms are `ExportCards(rooms, prefix, urlOf)`. |
| RoomScenarios.LoadBadFile | room/room_test.go:71 | Two single-column lines with CRLF ends load no room. |
| RoomScenarios.LoadSingle | room/room_test.go:72 | One `<name> <id>` line loads exactly that room. |
| RoomScenarios.LoadExtraColumns | room/room_test.go:73 | A four-column line loads one room from its first two columns. |
| RoomScenarios.LoadMultiple | room/room_test.go:74 | Two lines, the last without a newline, load both rooms in order. |
| RoomScenarios.LoadEmptyLines | room/room_test.go:75 | The blank lines of the empty-lines input, one leading and one between its two lines, change nothing that is loaded. |
| RoomScenarios.LoadEmptyLinesRooms | room/room_test.go:75 | The empty-lines input loads its two rooms in order, so it counts 2. |
| RoomScenarios.LoadFromFile | room/room_test.go:78-87 | With `DENIM_ROOMS` naming a local file that holds one `<name> <id>` line, `Load` leaves exactly that room. |
| RoomScenarios.FooBar | room/room_test.go:94-97 | The find test's directory holds `foo` and `bar`, in that order. |
| RoomScenarios.FindIgnoresCase | room/room_test.go:104-105 | `"foo"` and `"Foo"` both find the room named `foo`. |
| RoomScenarios.FindSecond | room/room_test.go:106 | `"bar"` finds the second room. |
| RoomScenarios.FindMissing | room/room_test.go:107 | `"baz"` fails with a not-found error for `"baz"` and no room. |
| RoomScenarios.ResolveCases | room/room_test.go:22-46 | The five environments of the resolution test resolve to the expected sources. |
| RoomScenarios.URLCases | room/room_test.go:189-192 | `""` and `"/foo"` are not URLs; `"http://foo.co/bar"` and `"https://foo.co/bar"` are. |
| RoomScenarios.ExportCases | room/room_test.go:132-161 | The single room exports as `foo_1` without a prefix and `foo-foo_1` with `foo-`. The two rooms export as `foo-foo_1` then `foo-bar_1`, each with its meeting's URL. |

## Left out

- The file read and the HTTP GET are not modelled as I/O. `Fetch` reads from two maps, one from path to file content and one from URL to response body. A failed read is a missing key and gives empty content.
- The process environment is a map argument, not `os.Getenv`/`os.Setenv`. An unset variable reads as `""`.
- Directory.RoomDirectory.Load: a failed read empties the directory. The tests never make a read fail, so they do not fix whether the old rooms are kept. Clearing was chosen because it is the more predictable policy.
- Rooms.Scan: the tally of bad lines, which the package keeps for diagnostics only, is not modelled. The loaded rooms do not depend on it.
- Rooms.Scan: the model scans lines of any length. If the package reads lines with a `bufio.Scanner`, a line over its 64 KiB token limit would stop a real scan early. The tests do not exercise this.
- Content is modelled as decoded Unicode text (`seq<char>`). Go strings are byte strings, and file or HTTP content can hold invalid UTF-8. Go's `strings.Fields` treats such bytes as non-space and `strings.EqualFold` treats any two of them as equal. The model cannot represent such content, so invalid UTF-8 is out of scope.
- The meeting provider is not modelled. `Meeting(id)` stands for `bluejeans.New(id)`. The URL of a meeting is an uninterpreted function parameter, `urlOf`.
- Directory.RoomDirectory.Export: the vCard wire format, the go-vcard encoder and decoder, and the fixture `.vcf` files are a foreign library. Only the structured name and URL of each card are modelled. Creating and truncating the output file, the returned handle and the write errors are I/O and are left out.
- Strings.EqualFold, Directory.RoomDirectory.Find: names match up to ASCII case only. Go's case folding covers all of Unicode, so non-ASCII letters that differ in case do not match in the model.
- Directory.RoomDirectory.Find: it returns the room as a value. Go returns a pointer, and pointer identity is not modelled.
- The test helpers `setup`, `teardown` and `touch` manage temporary directories and are not modelled.
- There is no concurrency: the package-level room list is plain single-threaded state, modelled as the `rooms` field of one `RoomDirectory` object.
