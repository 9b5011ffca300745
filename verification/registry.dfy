/** The registry client: fetching plugin and processor versions over HTTP and resolving a
    caller's reference to a version the template allows. */
module Registry {
  import opened Base
  import opened Strings
  import opened Models
  import opened CyanReferences

  /** What an HTTP GET gives back: a transport failure, a failure while reading the body, or a reply. */
  datatype HttpReply = TransportFailure(message: string) | BodyReadFailure(message: string) | Reply(status: int, body: string)

  /** The part of a registry version response the orchestrator reads. */
  datatype VersionPrincipal = VersionPrincipal(id: string, version: int)

  datatype Kind = ProcessorKind | PluginKind

  /** A registry client: its endpoint, and the HTTP GET and JSON decoder it calls into, as parameters. */
  datatype RegistryClient = RegistryClient(
    endpoint: string,
    get: string -> HttpReply,
    decode: string -> Result<VersionPrincipal>)

  /** A plugin or processor in the registry. */
  datatype Slug = Slug(kind: Kind, username: string, name: string)

  function KindSegment(kind: Kind): string {
    match kind
    case ProcessorKind => "Processor"
    case PluginKind => "Plugin"
  }

  function SlugPrefix(rc: RegistryClient, slug: Slug): string {
    rc.endpoint + "/api/v1/" + KindSegment(slug.kind) + "/slug/" + slug.username + "/" + slug.name + "/versions/"
  }

  /** The URL of one version of a slug; `version` is a decimal number or "latest". */
  function VersionUrl(rc: RegistryClient, slug: Slug, version: string): string {
    SlugPrefix(rc, slug) + version
  }

  /** A version URL lies under the registry's API root and ends with the version. */
  lemma VersionUrlShape(rc: RegistryClient, slug: Slug, version: string)
    ensures HasPrefix(VersionUrl(rc, slug, version), rc.endpoint + "/api/v1/")
    ensures HasSuffix(VersionUrl(rc, slug, version), "/versions/" + version)
  {
    var p := SlugPrefix(rc, slug);
    var url := p + version;
    assert url[..|rc.endpoint + "/api/v1/"|] == rc.endpoint + "/api/v1/";
    assert p[|p| - |"/versions/"|..] == "/versions/";
    assert url[|url| - |"/versions/" + version|..] == "/versions/" + version;
  }

  /** Distinct versions of one slug have distinct URLs. */
  lemma VersionUrlInjective(rc: RegistryClient, slug: Slug, v1: string, v2: string)
    requires VersionUrl(rc, slug, v1) == VersionUrl(rc, slug, v2)
    ensures v1 == v2
  {
    var p := SlugPrefix(rc, slug);
    assert v1 == VersionUrl(rc, slug, v1)[|p|..];
    assert v2 == VersionUrl(rc, slug, v2)[|p|..];
  }

  function LatestUrl(rc: RegistryClient, slug: Slug): string {
    VersionUrl(rc, slug, "latest")
  }

  /** The URL probed for version `i` during a scan (`strconv.Itoa(i)`). */
  function ProbeUrl(rc: RegistryClient, slug: Slug, i: nat): string {
    VersionUrl(rc, slug, NatToString(i))
  }

  /** The four `get*Version*` fetchers: a transport or body-read failure, any status but 200 and a
      decode failure are errors; otherwise the decoded version. */
  function Fetch(rc: RegistryClient, url: string): Result<VersionPrincipal>
  {
    match rc.get(url)
    case TransportFailure(m) => Err(Transport(m))
    case BodyReadFailure(m) => Err(Transport(m))
    case Reply(status, body) =>
      if status != 200 then Err(UnexpectedStatus(status, body)) else rc.decode(body)
  }

  /** The template allows the version with this id. */
  predicate Allows(allowed: seq<TemplateEntry>, id: string) {
    exists k :: 0 <= k < |allowed| && allowed[k].id == id
  }

  /** The version passes the probe of a scan: it was fetched and the template does not allow it. */
  predicate Rejected(rc: RegistryClient, slug: Slug, allowed: seq<TemplateEntry>, j: nat) {
    Fetch(rc, ProbeUrl(rc, slug, j)).Ok? && !Allows(allowed, Fetch(rc, ProbeUrl(rc, slug, j)).value.id)
  }

  datatype ScanOutcome = Matched(version: int, principal: VersionPrincipal) | FetchFailed(version: int, error: Error) | NoMatch

  /** The downward scan from version `i` to 1: the first version the template allows, or the
      first fetch that fails. */
  function Scan(rc: RegistryClient, slug: Slug, allowed: seq<TemplateEntry>, i: int): ScanOutcome
    decreases i
  {
    if i <= 0 then NoMatch
    else match Fetch(rc, ProbeUrl(rc, slug, i))
      case Err(e) => FetchFailed(i, e)
      case Ok(p) => if Allows(allowed, p.id) then Matched(i, p) else Scan(rc, slug, allowed, i - 1)
  }

  /** The URLs a scan from version `i` fetches, in order. */
  function ScanCalls(rc: RegistryClient, slug: Slug, allowed: seq<TemplateEntry>, i: int): seq<string>
    decreases i
  {
    if i <= 0 then []
    else [ProbeUrl(rc, slug, i)] + (if Rejected(rc, slug, allowed, i) then ScanCalls(rc, slug, allowed, i - 1) else [])
  }

  /** A match is the highest allowed version: every version above it was fetched and rejected. */
  lemma {:induction false} ScanMatched(rc: RegistryClient, slug: Slug, allowed: seq<TemplateEntry>, i: int)
    requires Scan(rc, slug, allowed, i).Matched?
    ensures var o := Scan(rc, slug, allowed, i);
      0 < o.version <= i
      && Fetch(rc, ProbeUrl(rc, slug, o.version)) == Ok(o.principal)
      && Allows(allowed, o.principal.id)
      && forall j :: o.version < j <= i ==> Rejected(rc, slug, allowed, j)
    decreases i
  {
    if Fetch(rc, ProbeUrl(rc, slug, i)).Ok? && !Allows(allowed, Fetch(rc, ProbeUrl(rc, slug, i)).value.id) {
      ScanMatched(rc, slug, allowed, i - 1);
    }
  }

  /** A failed scan names the first fetch that failed; every version above it was rejected. */
  lemma {:induction false} ScanFailed(rc: RegistryClient, slug: Slug, allowed: seq<TemplateEntry>, i: int)
    requires Scan(rc, slug, allowed, i).FetchFailed?
    ensures var o := Scan(rc, slug, allowed, i);
      0 < o.version <= i
      && Fetch(rc, ProbeUrl(rc, slug, o.version)) == Err(o.error)
      && forall j :: o.version < j <= i ==> Rejected(rc, slug, allowed, j)
    decreases i
  {
    if Fetch(rc, ProbeUrl(rc, slug, i)).Ok? && !Allows(allowed, Fetch(rc, ProbeUrl(rc, slug, i)).value.id) {
      ScanFailed(rc, slug, allowed, i - 1);
    }
  }

  /** No match exactly when every version from `i` down to 1 was fetched and rejected
      (in particular when `i` is not positive). */
  lemma {:induction false} ScanNoMatch(rc: RegistryClient, slug: Slug, allowed: seq<TemplateEntry>, i: int)
    ensures Scan(rc, slug, allowed, i) == NoMatch <==> forall j :: 0 < j <= i ==> Rejected(rc, slug, allowed, j)
    decreases i
  {
    if i > 0 {
      ScanNoMatch(rc, slug, allowed, i - 1);
      if Rejected(rc, slug, allowed, i) {
        assert Scan(rc, slug, allowed, i) == Scan(rc, slug, allowed, i - 1);
        assert (forall j :: 0 < j <= i ==> Rejected(rc, slug, allowed, j))
          <==> (forall j :: 0 < j <= i - 1 ==> Rejected(rc, slug, allowed, j));
      } else {
        assert Scan(rc, slug, allowed, i) != NoMatch;
      }
    }
  }

  /** The scan fetches versions strictly downward from `i`, one URL per version: its `k`-th fetch
      is version `i - k`. */
  lemma {:induction false} ScanCallsDescend(rc: RegistryClient, slug: Slug, allowed: seq<TemplateEntry>, i: int, k: nat)
    requires k < |ScanCalls(rc, slug, allowed, i)|
    ensures k < i && ScanCalls(rc, slug, allowed, i)[k] == ProbeUrl(rc, slug, i - k)
    decreases k
  {
    assert i > 0;
    if k > 0 {
      assert Rejected(rc, slug, allowed, i);
      var rest := ScanCalls(rc, slug, allowed, i - 1);
      assert ScanCalls(rc, slug, allowed, i) == [ProbeUrl(rc, slug, i)] + rest;
      ScanCallsDescend(rc, slug, allowed, i - 1, k - 1);
      ConsAt(ProbeUrl(rc, slug, i), rest, k);
    }
  }

  /** The scan fetches one URL per version from `i` down to the version it reports, or down to 1
      when nothing matches. */
  lemma {:induction false} ScanCallsCount(rc: RegistryClient, slug: Slug, allowed: seq<TemplateEntry>, i: int)
    ensures Scan(rc, slug, allowed, i).NoMatch? ==> |ScanCalls(rc, slug, allowed, i)| == (if i <= 0 then 0 else i)
    ensures !Scan(rc, slug, allowed, i).NoMatch? ==>
      |ScanCalls(rc, slug, allowed, i)| == i - Scan(rc, slug, allowed, i).version + 1
    decreases i
  {
    if i > 0 {
      if Rejected(rc, slug, allowed, i) {
        ScanCallsCount(rc, slug, allowed, i - 1);
        assert Scan(rc, slug, allowed, i) == Scan(rc, slug, allowed, i - 1);
        assert |ScanCalls(rc, slug, allowed, i)| == 1 + |ScanCalls(rc, slug, allowed, i - 1)|;
      } else {
        assert |ScanCalls(rc, slug, allowed, i)| == 1;
      }
    }
  }

  /** One step of the scan at a positive version. */
  lemma ScanStep(rc: RegistryClient, slug: Slug, allowed: seq<TemplateEntry>, i: int)
    requires i > 0
    ensures var r := Fetch(rc, ProbeUrl(rc, slug, i));
      r.Err? ==> Scan(rc, slug, allowed, i) == FetchFailed(i, r.error)
                 && ScanCalls(rc, slug, allowed, i) == [ProbeUrl(rc, slug, i)]
    ensures var r := Fetch(rc, ProbeUrl(rc, slug, i));
      r.Ok? && Allows(allowed, r.value.id) ==>
        Scan(rc, slug, allowed, i) == Matched(i, r.value)
        && ScanCalls(rc, slug, allowed, i) == [ProbeUrl(rc, slug, i)]
    ensures var r := Fetch(rc, ProbeUrl(rc, slug, i));
      r.Ok? && !Allows(allowed, r.value.id) ==>
        Scan(rc, slug, allowed, i) == Scan(rc, slug, allowed, i - 1)
        && ScanCalls(rc, slug, allowed, i) == [ProbeUrl(rc, slug, i)] + ScanCalls(rc, slug, allowed, i - 1)
  {
  }

  /** The scan loop of `convertProcessor` and `convertPlugin`: probes versions from `latest` down
      to 1, stopping at the first one the template allows or the first fetch that fails. */
  method ScanVersions(rc: RegistryClient, slug: Slug, allowed: seq<TemplateEntry>, latest: int)
    returns (outcome: ScanOutcome, calls: seq<string>)
    ensures outcome == Scan(rc, slug, allowed, latest)
    ensures calls == ScanCalls(rc, slug, allowed, latest)
  {
    var i := latest;
    calls := [];
    while i > 0
      invariant Scan(rc, slug, allowed, latest) == Scan(rc, slug, allowed, i)
      invariant ScanCalls(rc, slug, allowed, latest) == calls + ScanCalls(rc, slug, allowed, i)
      decreases i
    {
      ScanStep(rc, slug, allowed, i);
      var url := ProbeUrl(rc, slug, i);
      var r := Fetch(rc, url);
      if r.Err? {
        return FetchFailed(i, r.error), calls + [url];
      }
      var found := FindAllowed(allowed, r.value.id);
      if found {
        return Matched(i, r.value), calls + [url];
      }
      AppendAssoc(calls, [url], ScanCalls(rc, slug, allowed, i - 1));
      calls := calls + [url];
      i := i - 1;
    }
    return NoMatch, calls;
  }

  /** The inner loop of the scan: whether some allowed version has this id. */
  method FindAllowed(allowed: seq<TemplateEntry>, id: string) returns (found: bool)
    ensures found <==> Allows(allowed, id)
  {
    var k := 0;
    while k < |allowed|
      invariant 0 <= k <= |allowed|
      invariant forall m :: 0 <= m < k ==> allowed[m].id != id
    {
      if allowed[k].id == id {
        return true;
      }
      k := k + 1;
    }
    return false;
  }

  /** A resolved reference: the version chosen (`chosen`) and the version whose number is
      reported (`reported`: the latest one when the reference names no version). */
  datatype Resolution = Resolution(ref: CyanReference, chosen: VersionPrincipal, reported: VersionPrincipal)

  /** Resolution of a reference with a scan whose failed fetch is reported as an error. */
  function Resolve(rc: RegistryClient, kind: Kind, reference: string, allowed: seq<TemplateEntry>): Result<Resolution>
  {
    match ParseCyanReference(reference)
    case Err(e) => Err(e)
    case Ok(ref) =>
      var slug := SlugOf(kind, ref);
      if ref.version.Some? then
        match Fetch(rc, VersionUrl(rc, slug, ref.version.value))
        case Err(e) => Err(e)
        case Ok(res) => Ok(Resolution(ref, res, res))
      else
        match Fetch(rc, LatestUrl(rc, slug))
        case Err(e) => Err(e)
        case Ok(latest) =>
          match Scan(rc, slug, allowed, latest.version)
          case Matched(_, p) => Ok(Resolution(ref, p, latest))
          case FetchFailed(_, e) => Err(e)
          case NoMatch => Err(NoMatchingVersion(reference))
  }

  /** The reference parses and names no version, so it is resolved by a scan. */
  predicate Unversioned(reference: string) {
    ParseCyanReference(reference).Ok? && ParseCyanReference(reference).value.version.None?
  }

  function SlugOf(kind: Kind, ref: CyanReference): Slug {
    Slug(kind, ref.username, ref.name)
  }

  /** A resolution comes from the parsed reference: a named version is fetched and reported as
      is; otherwise the chosen version is one the template allows and the reported one is the
      latest. A malformed reference is the parse error. */
  lemma ResolveSound(rc: RegistryClient, kind: Kind, reference: string, allowed: seq<TemplateEntry>)
    ensures var r := Resolve(rc, kind, reference, allowed);
      ParseCyanReference(reference).Err? ==> r == Err(ParseCyanReference(reference).error)
    ensures var r := Resolve(rc, kind, reference, allowed);
      r.Ok? ==> ParseCyanReference(reference) == Ok(r.value.ref)
    ensures var r := Resolve(rc, kind, reference, allowed);
      r.Ok? && r.value.ref.version.Some? ==>
        r.value.chosen == r.value.reported
        && Fetch(rc, VersionUrl(rc, SlugOf(kind, r.value.ref), r.value.ref.version.value)) == Ok(r.value.chosen)
    ensures var r := Resolve(rc, kind, reference, allowed);
      r.Ok? && r.value.ref.version.None? ==>
        Allows(allowed, r.value.chosen.id)
        && Fetch(rc, LatestUrl(rc, SlugOf(kind, r.value.ref))) == Ok(r.value.reported)
  {
    var parsed := ParseCyanReference(reference);
    if parsed.Ok? && parsed.value.version.None? {
      var slug := SlugOf(kind, parsed.value);
      var latest := Fetch(rc, LatestUrl(rc, slug));
      if latest.Ok? && Scan(rc, slug, allowed, latest.value.version).Matched? {
        ScanMatched(rc, slug, allowed, latest.value.version);
      }
    }
  }

  /** The URLs resolving a reference fetches, in order. */
  function ResolveCalls(rc: RegistryClient, kind: Kind, reference: string, allowed: seq<TemplateEntry>): seq<string> {
    match ParseCyanReference(reference)
    case Err(_) => []
    case Ok(ref) =>
      var slug := SlugOf(kind, ref);
      if ref.version.Some? then [VersionUrl(rc, slug, ref.version.value)]
      else
        [LatestUrl(rc, slug)]
        + match Fetch(rc, LatestUrl(rc, slug))
          case Err(_) => []
          case Ok(latest) => ScanCalls(rc, slug, allowed, latest.version)
  }

  /** A malformed reference fetches nothing; a versioned one fetches exactly that version; an
      unversioned one fetches the latest version and then, if that worked, the scan's URLs
      (`ScanCallsDescend`: downward from the latest version's number). */
  lemma ResolveCallsShape(rc: RegistryClient, kind: Kind, reference: string, allowed: seq<TemplateEntry>)
    ensures ParseCyanReference(reference).Err? ==> ResolveCalls(rc, kind, reference, allowed) == []
    ensures ParseCyanReference(reference).Ok? && ParseCyanReference(reference).value.version.Some? ==>
      var ref := ParseCyanReference(reference).value;
      ResolveCalls(rc, kind, reference, allowed) == [VersionUrl(rc, SlugOf(kind, ref), ref.version.value)]
    ensures Unversioned(reference) ==>
      var slug := SlugOf(kind, ParseCyanReference(reference).value);
      var latest := Fetch(rc, LatestUrl(rc, slug));
      ResolveCalls(rc, kind, reference, allowed)
        == [LatestUrl(rc, slug)] + (if latest.Ok? then ScanCalls(rc, slug, allowed, latest.value.version) else [])
  {
  }

  /** `getProcessorVersion`/`getPluginVersion` and the descending scan of `convertProcessor` and
      `convertPlugin`, shared by both. */
  method ResolveReference(rc: RegistryClient, kind: Kind, reference: string, allowed: seq<TemplateEntry>)
    returns (r: Result<Resolution>, calls: seq<string>)
    ensures r == Resolve(rc, kind, reference, allowed)
    ensures calls == ResolveCalls(rc, kind, reference, allowed)
  {
    var parsed := ParseCyanReference(reference);
    if parsed.Err? {
      return Err(parsed.error), [];
    }
    var ref := parsed.value;
    var slug := SlugOf(kind, ref);
    if ref.version.Some? {
      var url := VersionUrl(rc, slug, ref.version.value);
      var res := Fetch(rc, url);
      if res.Err? {
        return Err(res.error), [url];
      }
      return Ok(Resolution(ref, res.value, res.value)), [url];
    }
    var latestUrl := LatestUrl(rc, slug);
    var latest := Fetch(rc, latestUrl);
    if latest.Err? {
      return Err(latest.error), [latestUrl];
    }
    var outcome, scanned := ScanVersions(rc, slug, allowed, latest.value.version);
    calls := [latestUrl] + scanned;
    match outcome
    case Matched(_, p) =>
      r := Ok(Resolution(ref, p, latest.value));
    case FetchFailed(_, e) =>
      r := Err(e);
    case NoMatch =>
      r := Err(NoMatchingVersion(reference));
  }

  /** An unversioned reference whose scan hits a failing fetch. */
  predicate ProbeFails(rc: RegistryClient, kind: Kind, reference: string, allowed: seq<TemplateEntry>) {
    Unversioned(reference)
    && var slug := SlugOf(kind, ParseCyanReference(reference).value);
    Fetch(rc, LatestUrl(rc, slug)).Ok?
    && Scan(rc, slug, allowed, Fetch(rc, LatestUrl(rc, slug)).value.version).FetchFailed?
  }

  /** A failed probe during a scan is reported as an error. */
  lemma ResolveProbeFailure(rc: RegistryClient, kind: Kind, reference: string, allowed: seq<TemplateEntry>)
    requires ProbeFails(rc, kind, reference, allowed)
    ensures var slug := SlugOf(kind, ParseCyanReference(reference).value);
      Resolve(rc, kind, reference, allowed)
        == Err(Scan(rc, slug, allowed, Fetch(rc, LatestUrl(rc, slug)).value.version).error)
  {
  }

  /** A scan that finds no allowed version, including one from a latest version of 0 or less,
      reports that no version matches. */
  lemma ResolveNoMatch(rc: RegistryClient, kind: Kind, reference: string, allowed: seq<TemplateEntry>)
    requires Unversioned(reference)
    requires var slug := SlugOf(kind, ParseCyanReference(reference).value);
      Fetch(rc, LatestUrl(rc, slug)).Ok?
      && forall j :: 0 < j <= Fetch(rc, LatestUrl(rc, slug)).value.version ==> Rejected(rc, slug, allowed, j)
    ensures Resolve(rc, kind, reference, allowed) == Err(NoMatchingVersion(reference))
  {
    var slug := SlugOf(kind, ParseCyanReference(reference).value);
    ScanNoMatch(rc, slug, allowed, Fetch(rc, LatestUrl(rc, slug)).value.version);
  }

  // ----- Processors -----

  /** `convertProcessor`, with a failed probe reported as an error: the chosen version's id, the
      latest version's number when no version was named, and the request's config and globs. */
  function ResolveProcessor(rc: RegistryClient, cp: CyanProcessorReq, allowed: seq<TemplateEntry>): Result<CyanProcessor>
  {
    match Resolve(rc, ProcessorKind, cp.name, allowed)
    case Err(e) => Err(e)
    case Ok(res) =>
      Ok(CyanProcessor(res.chosen.id, cp.name, res.ref.username, res.ref.name, res.reported.version, cp.config, cp.files))
  }

  /** What `convertProcessor` promises: parse errors pass through, the request's reference,
      config and files are kept, a latest-version reference yields an id the template allows,
      and a pinned reference yields exactly the fetched version. */
  lemma ResolveProcessorSound(rc: RegistryClient, cp: CyanProcessorReq, allowed: seq<TemplateEntry>)
    ensures var r := ResolveProcessor(rc, cp, allowed);
      ParseCyanReference(cp.name).Err? ==> r == Err(ParseCyanReference(cp.name).error)
    ensures var r := ResolveProcessor(rc, cp, allowed);
      r.Ok? ==> r.value.reference == cp.name && r.value.config == cp.config && r.value.files == cp.files
    ensures var r := ResolveProcessor(rc, cp, allowed);
      r.Ok? ==> r.value.username == ParseCyanReference(cp.name).value.username
                      && r.value.name == ParseCyanReference(cp.name).value.name
    ensures var r := ResolveProcessor(rc, cp, allowed);
      r.Ok? && Unversioned(cp.name) ==> Allows(allowed, r.value.id)
    ensures var r := ResolveProcessor(rc, cp, allowed);
      r.Ok? && Unversioned(cp.name) ==>
      var latest := Fetch(rc, LatestUrl(rc, SlugOf(ProcessorKind, ParseCyanReference(cp.name).value)));
      latest.Ok? && latest.value.version == r.value.version
    ensures var r := ResolveProcessor(rc, cp, allowed);
      r.Ok? && !Unversioned(cp.name) ==>
      var ref := ParseCyanReference(cp.name).value;
      Fetch(rc, VersionUrl(rc, SlugOf(ProcessorKind, ref), ref.version.value))
        == Ok(VersionPrincipal(r.value.id, r.value.version))
  {
    ResolveSound(rc, ProcessorKind, cp.name, allowed);
  }

  /** `convertProcessor` and the URLs it fetches. */
  method ConvertProcessor(rc: RegistryClient, cp: CyanProcessorReq, allowed: seq<TemplateEntry>)
    returns (r: Result<CyanProcessor>, calls: seq<string>)
    ensures r == ResolveProcessor(rc, cp, allowed)
    ensures calls == ResolveCalls(rc, ProcessorKind, cp.name, allowed)
  {
    var res;
    res, calls := ResolveReference(rc, ProcessorKind, cp.name, allowed);
    if res.Err? {
      return Err(res.error), calls;
    }
    var v := res.value;
    r := Ok(CyanProcessor(v.chosen.id, cp.name, v.ref.username, v.ref.name, v.reported.version, cp.config, cp.files));
  }

  /** `convertProcessor` as written: a failed probe returns Go's zero processor with a nil error. */
  function ConvertProcessorAsWritten(rc: RegistryClient, cp: CyanProcessorReq, allowed: seq<TemplateEntry>): Result<CyanProcessor> {
    if ProbeFails(rc, ProcessorKind, cp.name, allowed) then Ok(NoProcessor)
    else ResolveProcessor(rc, cp, allowed)
  }

  /** Where the scan hits a failing fetch, the code as written reports success with an empty
      processor while the failure is an error. */
  lemma ProcessorNilError(rc: RegistryClient, cp: CyanProcessorReq, allowed: seq<TemplateEntry>)
    requires ProbeFails(rc, ProcessorKind, cp.name, allowed)
    ensures ConvertProcessorAsWritten(rc, cp, allowed) == Ok(NoProcessor)
    ensures ResolveProcessor(rc, cp, allowed).Err?
  {
    ResolveProbeFailure(rc, ProcessorKind, cp.name, allowed);
  }

  // ----- Plugins -----

  /** `convertPlugin`, with a failed probe reported as an error and the chosen version's id. */
  function ResolvePlugin(rc: RegistryClient, cp: CyanPluginReq, allowed: seq<TemplateEntry>): Result<CyanPlugin>
  {
    match Resolve(rc, PluginKind, cp.name, allowed)
    case Err(e) => Err(e)
    case Ok(res) => Ok(CyanPlugin(res.chosen.id, cp.name, res.ref.username, res.ref.name, res.reported.version, cp.config))
  }

  /** What `convertPlugin` promises, as for processors. */
  lemma ResolvePluginSound(rc: RegistryClient, cp: CyanPluginReq, allowed: seq<TemplateEntry>)
    ensures var r := ResolvePlugin(rc, cp, allowed);
      ParseCyanReference(cp.name).Err? ==> r == Err(ParseCyanReference(cp.name).error)
    ensures var r := ResolvePlugin(rc, cp, allowed);
      r.Ok? ==> r.value.reference == cp.name && r.value.config == cp.config
    ensures var r := ResolvePlugin(rc, cp, allowed);
      r.Ok? ==> r.value.username == ParseCyanReference(cp.name).value.username
                      && r.value.name == ParseCyanReference(cp.name).value.name
    ensures var r := ResolvePlugin(rc, cp, allowed);
      r.Ok? && Unversioned(cp.name) ==> Allows(allowed, r.value.id)
    ensures var r := ResolvePlugin(rc, cp, allowed);
      r.Ok? && Unversioned(cp.name) ==>
      var latest := Fetch(rc, LatestUrl(rc, SlugOf(PluginKind, ParseCyanReference(cp.name).value)));
      latest.Ok? && latest.value.version == r.value.version
    ensures var r := ResolvePlugin(rc, cp, allowed);
      r.Ok? && !Unversioned(cp.name) ==>
      var ref := ParseCyanReference(cp.name).value;
      Fetch(rc, VersionUrl(rc, SlugOf(PluginKind, ref), ref.version.value))
        == Ok(VersionPrincipal(r.value.id, r.value.version))
  {
    ResolveSound(rc, PluginKind, cp.name, allowed);
  }

  /** `convertPlugin` and the URLs it fetches. */
  method ConvertPlugin(rc: RegistryClient, cp: CyanPluginReq, allowed: seq<TemplateEntry>)
    returns (r: Result<CyanPlugin>, calls: seq<string>)
    ensures r == ResolvePlugin(rc, cp, allowed)
    ensures calls == ResolveCalls(rc, PluginKind, cp.name, allowed)
  {
    var res;
    res, calls := ResolveReference(rc, PluginKind, cp.name, allowed);
    if res.Err? {
      return Err(res.error), calls;
    }
    var v := res.value;
    r := Ok(CyanPlugin(v.chosen.id, cp.name, v.ref.username, v.ref.name, v.reported.version, cp.config));
  }

  /** `convertPlugin` as written: a failed probe returns Go's zero plugin with a nil error, and a
      match reports the latest version's id rather than the matched one. */
  function ConvertPluginAsWritten(rc: RegistryClient, cp: CyanPluginReq, allowed: seq<TemplateEntry>): Result<CyanPlugin> {
    if ProbeFails(rc, PluginKind, cp.name, allowed) then Ok(NoPlugin)
    else match Resolve(rc, PluginKind, cp.name, allowed)
      case Err(e) => Err(e)
      case Ok(res) => Ok(CyanPlugin(res.reported.id, cp.name, res.ref.username, res.ref.name, res.reported.version, cp.config))
  }

  /** Where the scan hits a failing fetch, the code as written reports success with an empty plugin. */
  lemma PluginNilError(rc: RegistryClient, cp: CyanPluginReq, allowed: seq<TemplateEntry>)
    requires ProbeFails(rc, PluginKind, cp.name, allowed)
    ensures ConvertPluginAsWritten(rc, cp, allowed) == Ok(NoPlugin)
    ensures ResolvePlugin(rc, cp, allowed).Err?
  {
    ResolveProbeFailure(rc, PluginKind, cp.name, allowed);
  }

  /** When the latest version of an unversioned plugin is not one the template allows, the code as
      written still reports the latest version's id, which the template does not allow. */
  lemma PluginLatestId(rc: RegistryClient, cp: CyanPluginReq, allowed: seq<TemplateEntry>)
    requires Unversioned(cp.name)
    requires ResolvePlugin(rc, cp, allowed).Ok?
    requires var slug := SlugOf(PluginKind, ParseCyanReference(cp.name).value);
      !Allows(allowed, Fetch(rc, LatestUrl(rc, slug)).value.id)
    ensures ConvertPluginAsWritten(rc, cp, allowed).Ok?
    ensures !Allows(allowed, ConvertPluginAsWritten(rc, cp, allowed).value.id)
    ensures ConvertPluginAsWritten(rc, cp, allowed).value.id != ResolvePlugin(rc, cp, allowed).value.id
  {
    ResolvePluginSound(rc, cp, allowed);
  }
}
