/**
  Where the room list comes from. The process environment is a map from
  variable name to value; an absent variable reads as "", as `os.Getenv`
  gives it. The file system and the web are maps from path or URL to the
  content a read or a GET would return; a read that fails is an absent key.
 */
module Source {
  import opened Strings

  type Env = map<string, string>

  const DenimRooms: string := "DENIM_ROOMS"
  const DenimHome: string := "DENIM_HOME"
  const Home: string := "HOME"

  /** `os.Getenv`: a set variable reads as its value, and unset and empty
      are the same. */
  function Getenv(env: Env, key: string): (v: string)
    ensures key in env ==> v == env[key]
    ensures v == "" <==> key !in env || env[key] == ""
  {
    if key in env then env[key] else ""
  }

  /** `resolveSource`: `$DENIM_ROOMS` verbatim, else `$DENIM_HOME/rooms`,
      else `$HOME/.denim/rooms`, else "". */
  function ResolveSource(env: Env): (r: string)
    ensures Getenv(env, DenimRooms) != "" ==> r == Getenv(env, DenimRooms)
    ensures Getenv(env, DenimRooms) == "" && Getenv(env, DenimHome) != "" ==>
              r == Getenv(env, DenimHome) + "/rooms"
    ensures Getenv(env, DenimRooms) == "" && Getenv(env, DenimHome) == "" && Getenv(env, Home) != "" ==>
              r == Getenv(env, Home) + "/.denim/rooms"
  {
    var rooms := Getenv(env, DenimRooms);
    if rooms != "" then rooms
    else
      var appHome := Getenv(env, DenimHome);
      if appHome != "" then appHome + "/rooms"
      else
        var home := Getenv(env, Home);
        if home != "" then home + "/.denim/rooms"
        else ""
  }

  /** No source is found exactly when all three variables are empty. */
  lemma ResolveSourceEmpty(env: Env)
    ensures ResolveSource(env) == "" <==>
              Getenv(env, DenimRooms) == "" && Getenv(env, DenimHome) == "" && Getenv(env, Home) == ""
  {
  }

  /** Only the three variables matter, and a non-empty `$DENIM_ROOMS` hides
      the other two entirely. */
  lemma ResolveSourceDependsOnlyOn(env: Env, env': Env)
    requires Getenv(env, DenimRooms) == Getenv(env', DenimRooms)
    requires Getenv(env, DenimRooms) != "" ||
               (Getenv(env, DenimHome) == Getenv(env', DenimHome) &&
                (Getenv(env, DenimHome) != "" || Getenv(env, Home) == Getenv(env', Home)))
    ensures ResolveSource(env) == ResolveSource(env')
  {
  }

  /** `isURL`: the source names an `http://` or `https://` endpoint. */
  function IsURL(s: string): (r: bool)
    ensures r <==> (|s| >= 7 && s == "http://" + s[7..]) || (|s| >= 8 && s == "https://" + s[8..])
  {
    HasPrefix(s, "http://") || HasPrefix(s, "https://")
  }

  /** Every string with either scheme prefix is a URL, whatever follows it. */
  lemma SchemesAreURLs(rest: string)
    ensures IsURL("http://" + rest) && IsURL("https://" + rest)
  {
    assert ("http://" + rest)[7..] == rest;
    assert ("https://" + rest)[8..] == rest;
  }

  /** The empty string and any path not starting with 'h' (such as an absolute
      path) are not URLs. */
  lemma PathsAreNotURLs(s: string)
    requires s == [] || s[0] != 'h'
    ensures !IsURL(s)
  {
    if |s| >= 7 {
      assert s[..7][0] == s[0];
    }
  }

  /** The content `Load` reads from `source`: the GET body for a URL, the file
      for a path; an empty source or a failed read gives "". Content never
      comes from the wrong store. */
  function Fetch(source: string, files: map<string, string>, web: map<string, string>): (content: string)
    ensures source == "" ==> content == ""
    ensures source != "" && IsURL(source) && source in web ==> content == web[source]
    ensures source != "" && !IsURL(source) && source in files ==> content == files[source]
    ensures content != "" && IsURL(source) ==> source in web && content == web[source]
    ensures content != "" && !IsURL(source) ==> source in files && content == files[source]
  {
    if source == "" then ""
    else if IsURL(source) then (if source in web then web[source] else "")
    else if source in files then files[source]
    else ""
  }
}
