/** `user/name[:version]` references to registry plugins and processors. */
module CyanReferences {
  import opened Base
  import opened Strings

  datatype CyanReference = CyanReference(username: string, name: string, version: Option<string>)

  /** The part of a reference before its version, if it has one. */
  function Unversioned(ref: string): string {
    if ':' in ref then Split(ref, ':')[0] else ref
  }

  /** `parseCyanReference`. A reference with two or more `:` is rejected with the whole reference;
      one whose unversioned part is not exactly two `/`-separated pieces with that part. */
  function ParseCyanReference(ref: string): Result<CyanReference>
  {
    var split := Split(ref, ':');
    if ':' in ref && |split| != 2 then Err(InvalidReference(ref))
    else
      var version := if ':' in ref then Some(split[1]) else None;
      var path := Unversioned(ref);
      assert ':' !in path;
      var sects := Split(path, '/');
      if |sects| != 2 then Err(InvalidReference(path))
      else
        SplitKeepsOut(path, '/', ':');
        Ok(CyanReference(sects[0], sects[1], version))
  }

  /** A reference parses exactly when it has at most one ':' and its unversioned part exactly one
      '/'; the error names the whole reference or its unversioned part; the fields hold neither
      separator, and the version is present exactly when the reference names one. */
  lemma ParseCyanReferenceSound(ref: string)
    ensures var r := ParseCyanReference(ref);
      r.Ok? <==> Count(ref, ':') <= 1 && Count(Unversioned(ref), '/') == 1
    ensures var r := ParseCyanReference(ref);
      Count(ref, ':') > 1 ==> r == Err(InvalidReference(ref))
    ensures var r := ParseCyanReference(ref);
      Count(ref, ':') <= 1 && r.Err? ==> r == Err(InvalidReference(Unversioned(ref)))
    ensures var r := ParseCyanReference(ref);
      r.Ok? ==> '/' !in r.value.username && '/' !in r.value.name
    ensures var r := ParseCyanReference(ref);
      r.Ok? ==> ':' !in r.value.username && ':' !in r.value.name
    ensures var r := ParseCyanReference(ref);
      r.Ok? ==> (r.value.version.Some? <==> ':' in ref)
    ensures var r := ParseCyanReference(ref);
      r.Ok? && r.value.version.Some? ==> ':' !in r.value.version.value
  {
    var path := Unversioned(ref);
    if Count(ref, ':') <= 1 {
      assert ':' !in path;
      SplitKeepsOut(path, '/', ':');
    }
  }

  /** The reference text a parsed reference came from. */
  function FormatCyanReference(c: CyanReference): (s: string)
    ensures Count(s, '/') == Count(c.username, '/') + Count(c.name, '/') + (if c.version.Some? then Count(c.version.value, '/') else 0) + 1
  {
    CountAppend(c.username + "/", c.name, '/');
    CountAppend(c.username, "/", '/');
    var path := c.username + "/" + c.name;
    if c.version.Some? then
      CountAppend(path + ":", c.version.value, '/');
      CountAppend(path, ":", '/');
      path + ":" + c.version.value
    else path
  }

  /** Parsing a formatted reference gives it back, with and without a version. */
  lemma ParseFormat(c: CyanReference)
    requires '/' !in c.username && '/' !in c.name && ':' !in c.username && ':' !in c.name
    requires c.version.Some? ==> ':' !in c.version.value
    ensures ParseCyanReference(FormatCyanReference(c)) == Ok(c)
  {
    var path := c.username + "/" + c.name;
    PathParts(c.username, c.name);
    if c.version.Some? {
      var v := c.version.value;
      var ref := path + ":" + v;
      assert FormatCyanReference(c) == ref;
      SplitAt(path, v, ':');
      SplitNone(v, ':');
      assert Split(ref, ':') == [path, v];
      assert ':' in ref;
      assert Unversioned(ref) == path;
    } else {
      assert FormatCyanReference(c) == path;
      assert Unversioned(path) == path;
    }
  }

  /** The path of a reference splits into its user and its name, and holds no ':'. */
  lemma PathParts(username: string, name: string)
    requires '/' !in username && '/' !in name && ':' !in username && ':' !in name
    ensures ':' !in username + "/" + name
    ensures Split(username + "/" + name, '/') == [username, name]
  {
    CountAppend(username + "/", name, ':');
    CountAppend(username, "/", ':');
    SplitAt(username, name, '/');
    SplitNone(name, '/');
  }

  /** Every accepted reference is the formatting of what it parses to. */
  lemma {:induction false} FormatParse(ref: string)
    requires ParseCyanReference(ref).Ok?
    ensures FormatCyanReference(ParseCyanReference(ref).value) == ref
  {
    var path := Unversioned(ref);
    var sects := Split(path, '/');
    JoinSplit(path, '/');
    assert sects[1..] == [sects[1]];
    assert path == sects[0] + "/" + sects[1];
    if ':' in ref {
      var split := Split(ref, ':');
      JoinSplit(ref, ':');
      assert split[1..] == [split[1]];
    }
  }
}
