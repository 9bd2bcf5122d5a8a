/**
  The process-wide room directory: the ordered rooms of the last load, the
  loader that replaces them, the case-insensitive lookup, and the mapping of
  rooms to the contact cards the vCard export writes.
 */
module Directory {
  import opened Strings
  import opened Source
  import opened Rooms

  /** The lookup error: no room has the requested name. */
  datatype FindError = NotFound(name: string)

  /** Result of a lookup: the room found, or an error and no room. */
  datatype FindResult = Found(room: Room) | Failed(error: FindError)

  /** The structured content of one exported vCard: its formatted name and
      its URL. */
  datatype Card = Card(formattedName: string, url: string)

  /** The cards `Export` writes for `rs`: one per room, in order, named
      `prefix + name`, with the URL the meeting provider gives for its
      meeting (`urlOf`). */
  function ExportCards(rs: seq<Room>, prefix: string, urlOf: Meeting -> string): (cards: seq<Card>)
    ensures |cards| == |rs|
    ensures forall i :: 0 <= i < |rs| ==>
              cards[i].formattedName == prefix + rs[i].name && cards[i].url == urlOf(rs[i].meeting)
  {
    if rs == [] then []
    else [Card(prefix + rs[0].name, urlOf(rs[0].meeting))] + ExportCards(rs[1..], prefix, urlOf)
  }

  /** Exporting with a prefix and without one gives the same cards except
      that each formatted name is the prefix followed by the unprefixed name. */
  lemma ExportPrefixOnlyChangesName(rs: seq<Room>, prefix: string, urlOf: Meeting -> string)
    ensures |ExportCards(rs, prefix, urlOf)| == |ExportCards(rs, "", urlOf)|
    ensures forall i :: 0 <= i < |rs| ==>
              ExportCards(rs, prefix, urlOf)[i] ==
              ExportCards(rs, "", urlOf)[i].(formattedName := prefix + ExportCards(rs, "", urlOf)[i].formattedName)
  {
    var with, without := ExportCards(rs, prefix, urlOf), ExportCards(rs, "", urlOf);
    forall i | 0 <= i < |rs|
      ensures with[i] == without[i].(formattedName := prefix + without[i].formattedName)
    {
      assert "" + rs[i].name == rs[i].name;
    }
  }

  /** Exporting two lists one after the other writes the same cards as
      exporting their concatenation. */
  lemma {:induction false} ExportCardsAppend(rs: seq<Room>, qs: seq<Room>, prefix: string, urlOf: Meeting -> string)
    ensures ExportCards(rs + qs, prefix, urlOf) == ExportCards(rs, prefix, urlOf) + ExportCards(qs, prefix, urlOf)
  {
    if rs == [] {
      assert rs + qs == qs;
    } else {
      assert (rs + qs)[1..] == rs[1..] + qs;
      ExportCardsAppend(rs[1..], qs, prefix, urlOf);
    }
  }

  /** The directory: the rooms of the last load, in source order. */
  class RoomDirectory {
    var rooms: seq<Room>

    constructor ()
      ensures rooms == []
    {
      rooms := [];
    }

    /** `Load`: resolve the source from the environment, read it from the
        file system or the web, parse it, and replace the rooms wholesale.
        A source that cannot be read loads as empty content. */
    method Load(env: Env, files: map<string, string>, web: map<string, string>)
      modifies this
      ensures rooms == Parse(Fetch(ResolveSource(env), files, web))
      ensures Fetch(ResolveSource(env), files, web) == "" ==> rooms == []
    {
      var source := ResolveSource(env);
      var content := Fetch(source, files, web);
      rooms := Scan(content);
    }

    /** `Find`: the first room whose name equals `name` up to case, or a
        not-found error. */
    method Find(name: string) returns (r: FindResult)
      ensures r.Failed? <==> forall i :: 0 <= i < |rooms| ==> !EqualFold(rooms[i].name, name)
      ensures r.Failed? ==> r.error == NotFound(name)
      ensures r.Found? ==> exists i :: 0 <= i < |rooms| && rooms[i] == r.room &&
                                      EqualFold(rooms[i].name, name) &&
                                      forall j :: 0 <= j < i ==> !EqualFold(rooms[j].name, name)
    {
      var i := 0;
      while i < |rooms|
        invariant 0 <= i <= |rooms|
        invariant forall j :: 0 <= j < i ==> !EqualFold(rooms[j].name, name)
      {
        if EqualFold(rooms[i].name, name) {
          return Found(rooms[i]);
        }
        i := i + 1;
      }
      return Failed(NotFound(name));
    }

    /** `Export`'s field mapping: the card of each room, in order. */
    method Export(prefix: string, urlOf: Meeting -> string) returns (cards: seq<Card>)
      ensures cards == ExportCards(rooms, prefix, urlOf)
    {
      cards := [];
      var i := 0;
      while i < |rooms|
        invariant 0 <= i <= |rooms|
        invariant cards == ExportCards(rooms[..i], prefix, urlOf)
      {
        var room := rooms[i];
        cards := cards + [Card(prefix + room.name, urlOf(room.meeting))];
        assert rooms[..i + 1] == rooms[..i] + [room];
        ExportCardsAppend(rooms[..i], [room], prefix, urlOf);
        i := i + 1;
      }
      assert rooms[..i] == rooms;
    }
  }
}
