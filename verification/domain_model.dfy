/** Docker resource naming: how the orchestrator encodes template, plugin and processor
    containers, session volumes and images as Docker names, and decodes them back. */
module DomainModel {
  import opened Base
  import opened Strings

  /** `StripDash`: the id with every `-` removed. */
  function StripDash(id: string): (r: string)
    ensures '-' !in r
    ensures |r| == |id| - Count(id, '-')
    ensures '-' !in id ==> r == id
  {
    if id == [] then []
    else (if id[0] == '-' then [] else [id[0]]) + StripDash(id[1..])
  }

  lemma {:induction false} StripDashAppend(a: string, b: string)
    ensures StripDash(a + b) == StripDash(a) + StripDash(b)
  {
    if a != [] {
      assert (a + b)[0] == a[0];
      assert (a + b)[1..] == a[1..] + b;
      StripDashAppend(a[1..], b);
    } else {
      assert a + b == b;
    }
  }

  /** Stripping a text made of pieces separated by dashes glues the stripped pieces. */
  lemma {:induction false} StripDashAround(a: string, b: string)
    ensures StripDash(a + "-" + b) == StripDash(a) + StripDash(b)
  {
    var dash: string := "-";
    assert dash[1..] == [];
    assert StripDash(dash) == [];
    StripDashAppend(a + dash, b);
    StripDashAppend(a, dash);
  }

  /** `InsertDash`: lays a 32-character undashed UUID out as 8-4-4-4-12; other lengths are kept. */
  function InsertDash(uuid: string): (r: string)
    ensures |uuid| != 32 ==> r == uuid
    ensures |uuid| == 32 ==> |r| == 36 && forall i :: 0 <= i < 36 ==>
      r[i] == (if DashAt(i) then '-' else uuid[i - DashesBefore(i)])
  {
    if |uuid| != 32 then uuid
    else uuid[..8] + "-" + uuid[8..12] + "-" + uuid[12..16] + "-" + uuid[16..20] + "-" + uuid[20..]
  }

  /** Positions of the four dashes of a canonical UUID. */
  predicate DashAt(i: int) {
    i == 8 || i == 13 || i == 18 || i == 23
  }

  /** How many of the four dashes come before position `i`. */
  function DashesBefore(i: int): (n: nat)
    ensures n <= 4
    ensures 0 <= i < 36 && !DashAt(i) ==> 0 <= i - n < 32
  {
    if i < 8 then 0 else if i < 13 then 1 else if i < 18 then 2 else if i < 23 then 3 else 4
  }

  /** A dashed UUID in canonical 8-4-4-4-12 form. */
  predicate Canonical(u: string) {
    |u| == 36 && forall i :: 0 <= i < 36 ==> (u[i] == '-' <==> DashAt(i))
  }

  lemma {:induction false} InsertDashCanonical(s: string)
    requires |s| == 32 && '-' !in s
    ensures Canonical(InsertDash(s))
  {
    var r := InsertDash(s);
    forall i | 0 <= i < 36
      ensures r[i] == '-' <==> DashAt(i)
    {
      if !DashAt(i) {
        assert s[i - DashesBefore(i)] in s;
      }
    }
  }

  /** Stripping the dashes InsertDash added gives back a dash-free id. */
  lemma {:induction false} StripInsertInverse(s: string)
    requires '-' !in s
    ensures StripDash(InsertDash(s)) == s
  {
    if |s| == 32 {
      var a, b, c, d, e := s[..8], s[8..12], s[12..16], s[16..20], s[20..];
      assert s == a + b + c + d + e;
      assert InsertDash(s) == (((a + "-" + b) + "-" + c) + "-" + d) + "-" + e;
      StripDashAround((a + "-" + b) + "-" + c + "-" + d, e);
      StripDashAround((a + "-" + b) + "-" + c, d);
      StripDashAround(a + "-" + b, c);
      StripDashAround(a, b);
      assert a + b + c + d + e == s;
    }
  }

  /** A stretch of a canonical UUID between two of its dashes is dash-free. */
  lemma {:induction false} CanonicalGroup(u: string, lo: int, hi: int)
    requires Canonical(u) && 0 <= lo <= hi <= 36
    requires forall i :: lo <= i < hi ==> !DashAt(i)
    ensures '-' !in u[lo..hi]
  {
    forall j | 0 <= j < hi - lo
      ensures u[lo..hi][j] != '-'
    {
      assert u[lo..hi][j] == u[lo + j];
    }
  }

  /** The five dash-free groups of a canonical UUID. */
  lemma {:induction false} CanonicalGroups(u: string)
    requires Canonical(u)
    ensures u == u[..8] + "-" + u[9..13] + "-" + u[14..18] + "-" + u[19..23] + "-" + u[24..]
    ensures '-' !in u[..8] && '-' !in u[9..13] && '-' !in u[14..18] && '-' !in u[19..23] && '-' !in u[24..]
  {
    CanonicalGroup(u, 0, 8);
    CanonicalGroup(u, 9, 13);
    CanonicalGroup(u, 14, 18);
    CanonicalGroup(u, 19, 23);
    CanonicalGroup(u, 24, 36);
    assert u[..8] == u[0..8];
    assert u[24..] == u[24..36];
  }

  /** Stripping five dash-separated dash-free groups glues them. */
  lemma {:induction false} StripGroups(a: string, b: string, c: string, d: string, e: string)
    requires '-' !in a && '-' !in b && '-' !in c && '-' !in d && '-' !in e
    ensures StripDash(a + "-" + b + "-" + c + "-" + d + "-" + e) == a + b + c + d + e
  {
    StripDashAround(a + "-" + b + "-" + c + "-" + d, e);
    StripDashAround(a + "-" + b + "-" + c, d);
    StripDashAround(a + "-" + b, c);
    StripDashAround(a, b);
  }

  /** Re-dashing five glued groups of the UUID lengths separates them again. */
  lemma {:induction false} InsertGroups(a: string, b: string, c: string, d: string, e: string)
    requires |a| == 8 && |b| == 4 && |c| == 4 && |d| == 4 && |e| == 12
    ensures InsertDash(a + b + c + d + e) == a + "-" + b + "-" + c + "-" + d + "-" + e
  {
    var s := a + b + c + d + e;
    assert s[..8] == a && s[8..12] == b && s[12..16] == c && s[16..20] == d && s[20..] == e;
  }

  /** Inserting dashes back into a stripped canonical UUID restores it. */
  lemma {:induction false} InsertStripInverse(u: string)
    requires Canonical(u)
    ensures InsertDash(StripDash(u)) == u
  {
    CanonicalGroups(u);
    StripGroups(u[..8], u[9..13], u[14..18], u[19..23], u[24..]);
    InsertGroups(u[..8], u[9..13], u[14..18], u[19..23], u[24..]);
  }

  /** An id survives a trip through a Docker name exactly when re-dashing its stripped form gives it back. */
  predicate IdSurvives(id: string) {
    InsertDash(StripDash(id)) == id
  }

  lemma {:induction false} IdSurvivesCases(id: string)
    ensures Canonical(id) ==> IdSurvives(id)
    ensures '-' !in id && |id| != 32 ==> IdSurvives(id)
    ensures '-' !in id && |id| == 32 ==> !IdSurvives(id)
  {
    if Canonical(id) {
      InsertStripInverse(id);
    }
    if '-' !in id && |id| == 32 {
      assert |InsertDash(id)| == 36;
    }
  }

  // ----- Images -----

  /** An image as (repository reference, tag or digest). */
  datatype ImageRef = ImageRef(reference: string, tag: string)

  /** `DockerImageToString`: `reference:tag`. */
  function ImageToString(image: ImageRef): (s: string)
    ensures Count(s, ':') == Count(image.reference, ':') + Count(image.tag, ':') + 1
  {
    CountAppend(image.reference + ":", image.tag, ':');
    CountAppend(image.reference, ":", ':');
    image.reference + ":" + image.tag
  }

  /** `DockerImageToStruct`: accepts exactly the strings holding one `:`. */
  function ImageToStruct(s: string): (r: Result<ImageRef>)
    ensures r.Ok? <==> Count(s, ':') == 1
    ensures r.Err? ==> r == Err(InvalidImageString)
    ensures r.Ok? ==> ':' !in r.value.reference && ':' !in r.value.tag
  {
    var parts := Split(s, ':');
    if |parts| != 2 then Err(InvalidImageString)
    else Ok(ImageRef(parts[0], parts[1]))
  }

  lemma {:induction false} ImageRoundTrip(image: ImageRef)
    requires ':' !in image.reference && ':' !in image.tag
    ensures ImageToStruct(ImageToString(image)) == Ok(image)
  {
    SplitAt(image.reference, image.tag, ':');
    SplitNone(image.tag, ':');
  }

  /** Every accepted image string is the encoding of what it decodes to. */
  lemma {:induction false} ImageStringRoundTrip(s: string)
    requires ImageToStruct(s).Ok?
    ensures ImageToString(ImageToStruct(s).value) == s
  {
    var parts := Split(s, ':');
    JoinSplit(s, ':');
    assert parts[1..] == [parts[1]];
  }

  // ----- Containers -----

  /** A container: which template version, plugin or processor it runs (`cyanId`), its role
      (`cyanType`: "template", "volume", "merger", "plugin", "processor"…) and its session, "" for none. */
  datatype ContainerRef = ContainerRef(cyanId: string, cyanType: string, sessionId: string)

  /** `DockerContainerToString`. */
  function ContainerToString(c: ContainerRef): (name: string)
    ensures HasPrefix(name, "cyan-")
  {
    var base := "cyan-" + c.cyanType + "-" + StripDash(c.cyanId);
    assert base[..5] == "cyan-";
    if c.sessionId == "" then base
    else
      assert (base + "-" + c.sessionId)[..5] == "cyan-";
      base + "-" + c.sessionId
  }

  /** `DockerContainerNameToStruct`. A `cyan-` name with fewer than three dash-separated
      segments makes the Go code index past the end of its segment list. */
  function ContainerNameToStruct(name: string): (r: Result<ContainerRef>)
    ensures !HasPrefix(name, "cyan-") <==> r == Err(InvalidContainerName(name))
    ensures HasPrefix(name, "cyan-") && Count(name, '-') < 2 <==> r == Err(IndexOutOfRange(name))
    ensures r.Ok? ==> '-' !in r.value.cyanType && '-' !in r.value.sessionId
    ensures r.Ok? && Count(name, '-') != 3 ==> r.value.sessionId == ""
  {
    if !HasPrefix(name, "cyan-") then Err(InvalidContainerName(name))
    else
      var parts := Split(name, '-');
      if |parts| < 3 then Err(IndexOutOfRange(name))
      else Ok(ContainerRef(InsertDash(parts[2]), parts[1], if |parts| == 4 then parts[3] else ""))
  }

  lemma {:induction false} Split3(a: string, b: string, c: string)
    requires '-' !in a && '-' !in b && '-' !in c
    ensures Split(a + "-" + b + "-" + c, '-') == [a, b, c]
  {
    assert a + "-" + b + "-" + c == a + ['-'] + (b + ['-'] + c);
    SplitAt(a, b + ['-'] + c, '-');
    SplitAt(b, c, '-');
    SplitNone(c, '-');
  }

  lemma {:induction false} Split4(a: string, b: string, c: string, d: string)
    requires '-' !in a && '-' !in b && '-' !in c && '-' !in d
    ensures Split(a + "-" + b + "-" + c + "-" + d, '-') == [a, b, c, d]
  {
    assert a + "-" + b + "-" + c + "-" + d == a + ['-'] + (b + "-" + c + "-" + d);
    SplitAt(a, b + "-" + c + "-" + d, '-');
    Split3(b, c, d);
  }

  /** Decoding a container name gives back the reference it encodes, with its id re-dashed. */
  lemma {:induction false} ContainerRoundTrip(c: ContainerRef)
    requires '-' !in c.cyanType && '-' !in c.sessionId
    ensures ContainerNameToStruct(ContainerToString(c))
         == Ok(c.(cyanId := InsertDash(StripDash(c.cyanId))))
  {
    var id := StripDash(c.cyanId);
    assert "cyan-" + c.cyanType == "cyan" + "-" + c.cyanType;
    if c.sessionId == "" {
      Split3("cyan", c.cyanType, id);
    } else {
      Split4("cyan", c.cyanType, id, c.sessionId);
    }
  }

  /** The exact round trip for a canonical id. */
  lemma {:induction false} ContainerRoundTripCanonical(c: ContainerRef)
    requires '-' !in c.cyanType && '-' !in c.sessionId && Canonical(c.cyanId)
    ensures ContainerNameToStruct(ContainerToString(c)) == Ok(c)
  {
    ContainerRoundTrip(c);
    InsertStripInverse(c.cyanId);
  }

  /** A `cyan-` name splits into "cyan" followed by the segments after the prefix. */
  lemma {:induction false} SplitCyan(name: string)
    requires HasPrefix(name, "cyan-")
    ensures Split(name, '-') == ["cyan"] + Split(name[5..], '-')
  {
    assert name == "cyan" + ['-'] + name[5..];
    SplitAt("cyan", name[5..], '-');
  }

  lemma {:induction false} Join3(p: seq<string>)
    requires |p| == 3
    ensures Join(p, '-') == p[0] + "-" + p[1] + "-" + p[2]
  {
    var q := p[1..];
    assert q[1..] == [p[2]];
    assert Join(q, '-') == p[1] + "-" + p[2];
    assert Join(p, '-') == p[0] + "-" + Join(q, '-');
  }

  lemma {:induction false} Join4(p: seq<string>)
    requires |p| == 4
    ensures Join(p, '-') == p[0] + "-" + p[1] + "-" + p[2] + "-" + p[3]
  {
    Join3(p[1..]);
  }

  /** A name with three or four segments (a non-empty fourth) is the encoding of what it decodes to. */
  lemma {:induction false} ContainerNameRoundTrip(name: string)
    requires HasPrefix(name, "cyan-")
    requires Count(name, '-') == 2 || (Count(name, '-') == 3 && Split(name, '-')[3] != "")
    ensures ContainerNameToStruct(name).Ok?
    ensures ContainerToString(ContainerNameToStruct(name).value) == name
  {
    var parts := Split(name, '-');
    SplitCyan(name);
    assert parts[0] == "cyan";
    JoinSplit(name, '-');
    StripInsertInverse(parts[2]);
    var c := ContainerNameToStruct(name).value;
    assert c.cyanType == parts[1] && StripDash(c.cyanId) == parts[2];
    if |parts| == 3 {
      Join3(parts);
      assert c.sessionId == "";
    } else {
      Join4(parts);
      assert c.sessionId == parts[3];
    }
  }

  // ----- Volumes -----

  /** A volume holding a template's files, optionally for one session. */
  datatype VolumeRef = VolumeRef(cyanId: string, sessionId: string)

  /** `DockerVolumeToString`. */
  function VolumeToString(v: VolumeRef): (name: string)
    ensures HasPrefix(name, "cyan-")
  {
    var base := "cyan-" + StripDash(v.cyanId);
    assert base[..5] == "cyan-";
    if v.sessionId == "" then base
    else
      assert (base + "-" + v.sessionId)[..5] == "cyan-";
      base + "-" + v.sessionId
  }

  /** `DockerVolumeNameToStruct`. */
  function VolumeNameToStruct(name: string): (r: Result<VolumeRef>)
    ensures r.Err? <==> !HasPrefix(name, "cyan-")
    ensures r.Err? ==> r == Err(InvalidVolumeName)
    ensures r.Ok? ==> '-' !in r.value.sessionId
    ensures r.Ok? && Count(name, '-') != 2 ==> r.value.sessionId == ""
  {
    if !HasPrefix(name, "cyan-") then Err(InvalidVolumeName)
    else
      var parts := Split(name, '-');
      assert name == "cyan" + "-" + name[5..];
      CountAppend("cyan-", name[5..], '-');
      Ok(VolumeRef(InsertDash(parts[1]), if |parts| == 3 then parts[2] else ""))
  }

  lemma {:induction false} Split2(a: string, b: string)
    requires '-' !in a && '-' !in b
    ensures Split(a + "-" + b, '-') == [a, b]
  {
    SplitAt(a, b, '-');
    SplitNone(b, '-');
  }

  /** Decoding a volume name gives back the reference it encodes, with its id re-dashed. */
  lemma {:induction false} VolumeRoundTrip(v: VolumeRef)
    requires '-' !in v.sessionId
    ensures VolumeNameToStruct(VolumeToString(v)) == Ok(v.(cyanId := InsertDash(StripDash(v.cyanId))))
  {
    var id := StripDash(v.cyanId);
    assert "cyan-" + id == "cyan" + "-" + id;
    if v.sessionId == "" {
      Split2("cyan", id);
    } else {
      Split3("cyan", id, v.sessionId);
    }
  }

  lemma {:induction false} VolumeRoundTripCanonical(v: VolumeRef)
    requires '-' !in v.sessionId && Canonical(v.cyanId)
    ensures VolumeNameToStruct(VolumeToString(v)) == Ok(v)
  {
    VolumeRoundTrip(v);
    InsertStripInverse(v.cyanId);
  }

  /** A name with two or three segments (a non-empty third) is the encoding of what it decodes to. */
  lemma {:induction false} VolumeNameRoundTrip(name: string)
    requires HasPrefix(name, "cyan-")
    requires Count(name, '-') == 1 || (Count(name, '-') == 2 && Split(name, '-')[2] != "")
    ensures VolumeToString(VolumeNameToStruct(name).value) == name
  {
    var parts := Split(name, '-');
    SplitCyan(name);
    assert parts[0] == "cyan";
    JoinSplit(name, '-');
    StripInsertInverse(parts[1]);
    var v := VolumeNameToStruct(name).value;
    assert StripDash(v.cyanId) == parts[1];
    if |parts| == 2 {
      assert parts[1..] == [parts[1]];
      assert v.sessionId == "";
    } else {
      Join3(parts);
      assert v.sessionId == parts[2];
    }
  }
}
