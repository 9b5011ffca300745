/** The Docker client (`DockerClient`): listings and commands against a Docker daemon. The
    daemon is a value (its images, containers, volumes and networks); whether it accepts each
    request, and with what error it refuses one, is an oracle the client is built with. */
module Docker {
  import opened Base
  import opened Strings
  import opened DomainModel

  const NetworkName := "cyanprint"
  /** The label on everything the orchestrator creates, and the one on its own image. */
  const DevLabel := "cyanprint.dev"
  const CoordinatorLabel := "cyanprint.name"
  const CoordinatorName := "sulfone-boron"
  /** Where a worker container sees the template volume and the session's work volume. */
  const TemplateDir := "/workspace/cyanprint"
  const AreaDir := "/workspace/area"

  const DevLabels := map[DevLabel := "true"]

  datatype ImageSummary = ImageSummary(repoTags: seq<string>, created: int, labels: map<string, string>)
  /** A volume mount of a container. */
  datatype Mount = Mount(source: string, target: string, readOnly: bool)
  datatype ContainerSummary = ContainerSummary(
    names: seq<string>, state: string, labels: map<string, string>,
    image: string, network: string, mounts: seq<Mount>)
  datatype VolumeSummary = VolumeSummary(name: string, labels: map<string, string>)
  datatype NetworkSummary = NetworkSummary(name: string, driver: string)

  datatype Daemon = Daemon(
    images: seq<ImageSummary>, containers: seq<ContainerSummary>,
    volumes: seq<VolumeSummary>, networks: seq<NetworkSummary>)

  /** A read-only request; the image listing is filtered by one label. */
  datatype Query = ImageList(key: string, value: string) | ContainerList | VolumeList | NetworkList

  /** A request that changes the daemon; `ContainerWait` lets a container run to its end. */
  datatype Command =
    | NetworkCreate(name: string, driver: string)
    | ContainerCreate(name: string, image: string, labels: map<string, string>, network: string, mounts: seq<Mount>)
    | ContainerStart(name: string)
    | ContainerWait(name: string)
    | ContainerRemove(name: string)
    | VolumeCreate(name: string, labels: map<string, string>)
    | VolumeRemove(name: string)
    | ImagePull(image: string)

  predicate HasLabel(labels: map<string, string>, key: string, value: string) {
    key in labels && labels[key] == value
  }

  predicate DevImage(i: ImageSummary) { HasLabel(i.labels, DevLabel, "true") }
  predicate CoordinatorCandidate(i: ImageSummary) { HasLabel(i.labels, CoordinatorLabel, CoordinatorName) }
  predicate DevContainer(c: ContainerSummary) { HasLabel(c.labels, DevLabel, "true") }
  predicate DevVolume(v: VolumeSummary) { HasLabel(v.labels, DevLabel, "true") }

  /** Docker lists a container's names with a leading '/'. */
  predicate Named(c: ContainerSummary, name: string) {
    "/" + name in c.names
  }

  function SetState(cs: seq<ContainerSummary>, name: string, state: string): seq<ContainerSummary> {
    seq(|cs|, i requires 0 <= i < |cs| => if Named(cs[i], name) then cs[i].(state := state) else cs[i])
  }

  // ----- The daemon -----

  /** What a command the daemon accepts does to it. A pulled image is not added to the images:
      its labels and creation time are not known here. */
  function Effect(d: Daemon, c: Command): Daemon {
    match c
    case NetworkCreate(name, driver) => d.(networks := d.networks + [NetworkSummary(name, driver)])
    case ContainerCreate(name, image, labels, network, mounts) =>
      d.(containers := d.containers + [ContainerSummary(["/" + name], "created", labels, image, network, mounts)])
    case ContainerStart(name) => d.(containers := SetState(d.containers, name, "running"))
    case ContainerWait(name) => d.(containers := SetState(d.containers, name, "exited"))
    case ContainerRemove(name) => d.(containers := Filter(d.containers, (x: ContainerSummary) => !Named(x, name)))
    case VolumeCreate(name, labels) => d.(volumes := d.volumes + [VolumeSummary(name, labels)])
    case VolumeRemove(name) => d.(volumes := Filter(d.volumes, (v: VolumeSummary) => v.name != name))
    case ImagePull(_) => d
  }

  /** The daemon after a run of commands, of which only those it accepts take effect. */
  function Replay(answer: Command -> Outcome, d: Daemon, cs: seq<Command>): Daemon {
    if cs == [] then d
    else
      var before := Replay(answer, d, cs[..|cs| - 1]);
      if answer(cs[|cs| - 1]).Pass? then Effect(before, cs[|cs| - 1]) else before
  }

  /** Replaying two runs one after the other is replaying them together. */
  lemma {:induction false} ReplayAppend(answer: Command -> Outcome, d: Daemon, a: seq<Command>, b: seq<Command>)
    ensures Replay(answer, d, a + b) == Replay(answer, Replay(answer, d, a), b)
    decreases |b|
  {
    if b == [] {
      assert a + b == a;
    } else {
      ReplayAppend(answer, d, a, b[..|b| - 1]);
      assert (a + b)[..|a + b| - 1] == a + b[..|b| - 1];
      assert (a + b)[|a + b| - 1] == b[|b| - 1];
    }
  }

  /** The daemon's answers to a run of commands, in order. */
  function Answers(answer: Command -> Outcome, cs: seq<Command>): (os: seq<Outcome>)
    ensures |os| == |cs|
    ensures forall i :: 0 <= i < |cs| ==> os[i] == answer(cs[i])
  {
    seq(|cs|, i requires 0 <= i < |cs| => answer(cs[i]))
  }

  /** The daemon accepts every command of the run. */
  predicate AllAccepted(answer: Command -> Outcome, cs: seq<Command>) {
    forall k :: 0 <= k < |cs| ==> answer(cs[k]).Pass?
  }

  /** A run of commands reports no error exactly when the daemon accepts them all, and never
      more errors than commands. */
  lemma NoFailures(answer: Command -> Outcome, cs: seq<Command>)
    ensures Failures(Answers(answer, cs)) == [] <==> AllAccepted(answer, cs)
    ensures |Failures(Answers(answer, cs))| <= |cs|
  {
  }

  lemma AcceptedAppend(answer: Command -> Outcome, a: seq<Command>, b: seq<Command>)
    ensures AllAccepted(answer, a + b) <==> AllAccepted(answer, a) && AllAccepted(answer, b)
  {
    if AllAccepted(answer, a) && AllAccepted(answer, b) {
      forall k | 0 <= k < |a + b| ensures answer((a + b)[k]).Pass? {
        if k >= |a| {
          assert (a + b)[k] == b[k - |a|];
        }
      }
    }
    if AllAccepted(answer, a + b) {
      forall k | 0 <= k < |a| ensures answer(a[k]).Pass? {
        assert (a + b)[k] == a[k];
      }
      forall k | 0 <= k < |b| ensures answer(b[k]).Pass? {
        assert (a + b)[|a| + k] == b[k];
      }
    }
  }

  /** A step chain: the commands are sent in order until the daemon refuses one; the outcome and
      how many commands were sent. */
  function Chain(answer: Command -> Outcome, cs: seq<Command>): (r: (Outcome, nat))
    ensures r.1 <= |cs|
  {
    if cs == [] then (Pass, 0)
    else if answer(cs[0]).Fail? then (answer(cs[0]), 1)
    else
      var rest := Chain(answer, cs[1..]);
      (rest.0, rest.1 + 1)
  }

  /** A chain succeeds exactly when the daemon accepts every command, and then sends them all;
      otherwise it stops right after the first refused command and returns that refusal. */
  lemma {:induction false} ChainSound(answer: Command -> Outcome, cs: seq<Command>)
    ensures Chain(answer, cs).0.Pass? <==> forall i :: 0 <= i < |cs| ==> answer(cs[i]).Pass?
    ensures Chain(answer, cs).0.Pass? ==> Chain(answer, cs).1 == |cs|
    ensures var (o, n) := Chain(answer, cs);
      o.Fail? ==> 1 <= n && answer(cs[n - 1]) == o && forall i :: 0 <= i < n - 1 ==> answer(cs[i]).Pass?
  {
    if cs != [] && answer(cs[0]).Pass? {
      ChainSound(answer, cs[1..]);
      assert forall i :: 1 <= i < |cs| ==> cs[1..][i - 1] == cs[i];
    }
  }

  /** A chain whose first `i` commands are accepted continues with the rest. */
  lemma {:induction false} ChainSkip(answer: Command -> Outcome, cs: seq<Command>, i: nat)
    requires i <= |cs|
    requires forall j :: 0 <= j < i ==> answer(cs[j]).Pass?
    ensures Chain(answer, cs) == (Chain(answer, cs[i..]).0, Chain(answer, cs[i..]).1 + i)
    decreases i
  {
    if i > 0 {
      ChainSkip(answer, cs[1..], i - 1);
      assert cs[1..][i - 1..] == cs[i..];
    }
  }

  /** A chain stops at its first refused command. */
  lemma ChainStops(answer: Command -> Outcome, cs: seq<Command>, i: nat)
    requires i < |cs| && answer(cs[i]).Fail?
    requires forall j :: 0 <= j < i ==> answer(cs[j]).Pass?
    ensures Chain(answer, cs) == (answer(cs[i]), i + 1)
  {
    ChainSkip(answer, cs, i);
    assert cs[i..][0] == cs[i];
  }

  /** A chain whose every command is accepted sends them all. */
  lemma ChainPasses(answer: Command -> Outcome, cs: seq<Command>)
    requires forall j :: 0 <= j < |cs| ==> answer(cs[j]).Pass?
    ensures Chain(answer, cs) == (Pass, |cs|)
  {
    ChainSkip(answer, cs, |cs|);
    assert cs[|cs|..] == [];
  }

  // ----- Listings -----

  /** Decodes every name in order; the first name that does not decode fails the whole list. */
  function DecodeAll<T>(names: seq<string>, decode: string -> Result<T>): Result<seq<T>> {
    if names == [] then Ok([])
    else match DecodeAll(names[..|names| - 1], decode)
      case Err(e) => Err(e)
      case Ok(done) =>
        match decode(names[|names| - 1])
        case Err(e) => Err(e)
        case Ok(x) => Ok(done + [x])
  }

  /** The list decodes exactly when every name does, one value per name in order; a failure is
      that of the first name that does not decode. */
  lemma {:induction false} DecodeAllSound<T>(names: seq<string>, decode: string -> Result<T>)
    ensures DecodeAll(names, decode).Ok? <==> forall i :: 0 <= i < |names| ==> decode(names[i]).Ok?
    ensures DecodeAll(names, decode).Ok? ==>
      |DecodeAll(names, decode).value| == |names|
      && forall i :: 0 <= i < |names| ==> DecodeAll(names, decode).value[i] == decode(names[i]).value
    ensures DecodeAll(names, decode).Err? ==>
      exists k :: 0 <= k < |names| && decode(names[k]) == Err(DecodeAll(names, decode).error)
        && forall j :: 0 <= j < k ==> decode(names[j]).Ok?
  {
    if names != [] {
      var init := names[..|names| - 1];
      DecodeAllSound(init, decode);
      assert forall i :: 0 <= i < |init| ==> init[i] == names[i];
      if DecodeAll(init, decode).Ok? && decode(names[|names| - 1]).Err? {
        assert decode(names[|names| - 1]) == Err(DecodeAll(names, decode).error);
      }
    }
  }

  /** Once a prefix fails to decode, what follows it is never looked at. */
  lemma {:induction false} DecodeAllStops<T>(a: seq<string>, b: seq<string>, decode: string -> Result<T>)
    requires DecodeAll(a, decode).Err?
    ensures DecodeAll(a + b, decode) == DecodeAll(a, decode)
    decreases |b|
  {
    if b == [] {
      assert a + b == a;
    } else {
      DecodeAllStops(a, b[..|b| - 1], decode);
      assert (a + b)[..|a + b| - 1] == a + b[..|b| - 1];
    }
  }

  /** One more name decoded. */
  lemma DecodeAllStep<T>(names: seq<string>, x: string, decode: string -> Result<T>)
    ensures DecodeAll(names + [x], decode)
      == match DecodeAll(names, decode)
         case Err(e) => Err(e)
         case Ok(done) => (match decode(x) case Err(e) => Err(e) case Ok(v) => Ok(done + [v]))
  {
    assert (names + [x])[..|names + [x]| - 1] == names;
  }

  /** The tags of the images, image by image. */
  function Tags(images: seq<ImageSummary>): seq<string> {
    Flatten(images, RepoTags)
  }

  function RepoTags(image: ImageSummary): seq<string> { image.repoTags }

  /** `ListImages`: every tag of every labelled image, decoded, or the first error. */
  function ImageListing(queries: Query -> Outcome, d: Daemon): Result<seq<ImageRef>> {
    var q := queries(ImageList(DevLabel, "true"));
    if q.Fail? then Err(q.error)
    else DecodeAll(Tags(Filter(d.images, DevImage)), ImageToStruct)
  }

  /** The names of one container, each with whether the container is running. */
  function Entries(c: ContainerSummary): (es: seq<(string, bool)>)
    ensures |es| == |c.names|
    ensures forall j :: 0 <= j < |c.names| ==> es[j] == (c.names[j], c.state == "running")
  {
    seq(|c.names|, j requires 0 <= j < |c.names| => (c.names[j], c.state == "running"))
  }

  /** Every name of every container, with whether that container is running. */
  function NameEntries(cs: seq<ContainerSummary>): seq<(string, bool)> {
    Flatten(cs, Entries)
  }

  /** The names of the entries, each with its leading '/' trimmed; with `only`, only those whose
      running flag equals `only.value`. */
  function Trimmed(entries: seq<(string, bool)>, only: Option<bool>): seq<string> {
    if entries == [] then []
    else
      var e := entries[|entries| - 1];
      Trimmed(entries[..|entries| - 1], only) + (if only.None? || only.value == e.1 then [TrimPrefix(e.0, '/')] else [])
  }

  /** The loop of `ListContainer`: each name, decoded, goes to the running or the stopped list. */
  function Partition(entries: seq<(string, bool)>): Result<(seq<ContainerRef>, seq<ContainerRef>)> {
    if entries == [] then Ok(([], []))
    else
      var e := entries[|entries| - 1];
      match Partition(entries[..|entries| - 1])
      case Err(err) => Err(err)
      case Ok(lists) =>
        match ContainerNameToStruct(TrimPrefix(e.0, '/'))
        case Err(err) => Err(err)
        case Ok(c) => if e.1 then Ok((lists.0 + [c], lists.1)) else Ok((lists.0, lists.1 + [c]))
  }

  /** One more entry partitioned. */
  lemma PartitionStep(entries: seq<(string, bool)>, e: (string, bool))
    ensures Partition(entries + [e])
      == match Partition(entries)
         case Err(err) => Err(err)
         case Ok(lists) =>
           (match ContainerNameToStruct(TrimPrefix(e.0, '/'))
            case Err(err) => Err(err)
            case Ok(c) => if e.1 then Ok((lists.0 + [c], lists.1)) else Ok((lists.0, lists.1 + [c])))
  {
    assert (entries + [e])[..|entries + [e]| - 1] == entries;
  }

  /** The listing fails exactly when some name does not decode, and with the first such error. */
  lemma {:induction false} PartitionFails(entries: seq<(string, bool)>)
    ensures Partition(entries).Ok? <==> DecodeAll(Trimmed(entries, None), ContainerNameToStruct).Ok?
    ensures Partition(entries).Err? ==>
      Partition(entries).error == DecodeAll(Trimmed(entries, None), ContainerNameToStruct).error
  {
    if entries != [] {
      var init, e := entries[..|entries| - 1], entries[|entries| - 1];
      PartitionFails(init);
      DecodeAllStep(Trimmed(init, None), TrimPrefix(e.0, '/'), ContainerNameToStruct);
    }
  }

  /** Otherwise every name lands in exactly one list: the running list is the decoded names of the
      running containers and the stopped list those of all the others, each in order. */
  lemma PartitionLists(entries: seq<(string, bool)>)
    requires Partition(entries).Ok?
    ensures var (running, stopped) := Partition(entries).value;
      |running| + |stopped| == |entries|
      && DecodeAll(Trimmed(entries, Some(true)), ContainerNameToStruct) == Ok(running)
      && DecodeAll(Trimmed(entries, Some(false)), ContainerNameToStruct) == Ok(stopped)
  {
    PartitionSizes(entries);
    PartitionSide(entries, true);
    PartitionSide(entries, false);
  }

  /** The two lists together have one name per entry. */
  lemma {:induction false} PartitionSizes(entries: seq<(string, bool)>)
    requires Partition(entries).Ok?
    ensures |Partition(entries).value.0| + |Partition(entries).value.1| == |entries|
  {
    if entries != [] {
      PartitionLast(entries);
      PartitionSizes(entries[..|entries| - 1]);
    }
  }

  /** The list on one side is the decoded names of the entries whose running flag is `side`. */
  lemma {:induction false} PartitionSide(entries: seq<(string, bool)>, side: bool)
    requires Partition(entries).Ok?
    ensures DecodeAll(Trimmed(entries, Some(side)), ContainerNameToStruct)
      == Ok(if side then Partition(entries).value.0 else Partition(entries).value.1)
  {
    if entries != [] {
      var init, e := entries[..|entries| - 1], entries[|entries| - 1];
      PartitionLast(entries);
      PartitionSide(init, side);
      var names := Trimmed(init, Some(side));
      if e.1 == side {
        assert Trimmed(entries, Some(side)) == names + [TrimPrefix(e.0, '/')];
        DecodeAllStep(names, TrimPrefix(e.0, '/'), ContainerNameToStruct);
      } else {
        assert Trimmed(entries, Some(side)) == names + [];
        assert names + [] == names;
      }
    }
  }

  /** The last entry's decoded name joins the list its running flag picks. */
  lemma PartitionLast(entries: seq<(string, bool)>)
    requires entries != [] && Partition(entries).Ok?
    ensures var init, e := entries[..|entries| - 1], entries[|entries| - 1];
      var c := ContainerNameToStruct(TrimPrefix(e.0, '/'));
      Partition(init).Ok? && c.Ok?
      && Partition(entries).value
         == (if e.1 then (Partition(init).value.0 + [c.value], Partition(init).value.1)
             else (Partition(init).value.0, Partition(init).value.1 + [c.value]))
  {
  }

  /** Once a prefix fails, later names are not looked at. */
  lemma {:induction false} PartitionStops(a: seq<(string, bool)>, b: seq<(string, bool)>)
    requires Partition(a).Err?
    ensures Partition(a + b) == Partition(a)
    decreases |b|
  {
    if b == [] {
      assert a + b == a;
    } else {
      PartitionStops(a, b[..|b| - 1]);
      assert (a + b)[..|a + b| - 1] == a + b[..|b| - 1];
    }
  }

  /** The entries of all containers, cut after name `j` of container `k`. */
  lemma NameEntriesCut(listed: seq<ContainerSummary>, k: nat, j: nat)
    requires k < |listed| && j < |listed[k].names|
    ensures NameEntries(listed)
      == (NameEntries(listed[..k]) + Entries(listed[k])[..j + 1]) + (Entries(listed[k])[j + 1..] + NameEntries(listed[k + 1..]))
  {
    Around(listed, k);
    FlattenAppend(listed[..k], [listed[k]] + listed[k + 1..], Entries);
    FlattenAppend([listed[k]], listed[k + 1..], Entries);
    FlattenOne(listed[k], Entries);
    Regroup(NameEntries(listed[..k]), Entries(listed[k]), j + 1, NameEntries(listed[k + 1..]));
  }

  /** A name of container `k` that does not decode ends the whole listing. */
  lemma ListingStops(listed: seq<ContainerSummary>, k: nat, j: nat)
    requires k < |listed| && j < |listed[k].names|
    requires Partition(NameEntries(listed[..k]) + Entries(listed[k])[..j + 1]).Err?
    ensures Partition(NameEntries(listed)) == Partition(NameEntries(listed[..k]) + Entries(listed[k])[..j + 1])
  {
    NameEntriesCut(listed, k, j);
    PartitionStops(NameEntries(listed[..k]) + Entries(listed[k])[..j + 1], Entries(listed[k])[j + 1..] + NameEntries(listed[k + 1..]));
  }

  /** The tags of all images, cut after tag `j` of image `k`. */
  lemma TagsCut(listed: seq<ImageSummary>, k: nat, j: nat)
    requires k < |listed| && j < |listed[k].repoTags|
    ensures Tags(listed)
      == (Tags(listed[..k]) + listed[k].repoTags[..j + 1]) + (listed[k].repoTags[j + 1..] + Tags(listed[k + 1..]))
  {
    Around(listed, k);
    FlattenAppend(listed[..k], [listed[k]] + listed[k + 1..], RepoTags);
    FlattenAppend([listed[k]], listed[k + 1..], RepoTags);
    FlattenOne(listed[k], RepoTags);
    Regroup(Tags(listed[..k]), listed[k].repoTags, j + 1, Tags(listed[k + 1..]));
  }

  /** A tag of image `k` that does not decode ends the whole listing. */
  lemma TagsStop(listed: seq<ImageSummary>, k: nat, j: nat)
    requires k < |listed| && j < |listed[k].repoTags|
    requires DecodeAll(Tags(listed[..k]) + listed[k].repoTags[..j + 1], ImageToStruct).Err?
    ensures DecodeAll(Tags(listed), ImageToStruct) == DecodeAll(Tags(listed[..k]) + listed[k].repoTags[..j + 1], ImageToStruct)
  {
    TagsCut(listed, k, j);
    DecodeAllStops(Tags(listed[..k]) + listed[k].repoTags[..j + 1], listed[k].repoTags[j + 1..] + Tags(listed[k + 1..]), ImageToStruct);
  }

  /** `ListContainer`: the labelled containers' names split into running and stopped, or the
      first error. */
  function ContainerListing(queries: Query -> Outcome, d: Daemon): Result<(seq<ContainerRef>, seq<ContainerRef>)> {
    var q := queries(ContainerList);
    if q.Fail? then Err(q.error)
    else Partition(NameEntries(Filter(d.containers, DevContainer)))
  }

  function VolumeNames(vs: seq<VolumeSummary>): (names: seq<string>)
    ensures |names| == |vs|
    ensures forall i :: 0 <= i < |vs| ==> names[i] == vs[i].name
  {
    seq(|vs|, i requires 0 <= i < |vs| => vs[i].name)
  }

  /** `ListVolumes`: the labelled volumes' names decoded, or the first error. */
  function VolumeListing(queries: Query -> Outcome, d: Daemon): Result<seq<VolumeRef>> {
    var q := queries(VolumeList);
    if q.Fail? then Err(q.error)
    else DecodeAll(VolumeNames(Filter(d.volumes, DevVolume)), VolumeNameToStruct)
  }

  /** Go's zero image summary, where the search for the newest image starts. */
  const NoImage := ImageSummary([], 0, map[])

  /** The running maximum of `GetCoordinatorImage`: an image replaces the current one only when
      it was created strictly later. */
  function Latest(images: seq<ImageSummary>): ImageSummary {
    if images == [] then NoImage
    else
      var l := Latest(images[..|images| - 1]);
      if l.created < images[|images| - 1].created then images[|images| - 1] else l
  }

  /** Image `k` was created after time 0, no image later, and every image before it earlier. */
  predicate Newest(images: seq<ImageSummary>, k: nat)
    requires k < |images|
  {
    images[k].created > 0
    && (forall j :: 0 <= j < |images| ==> images[j].created <= images[k].created)
    && (forall j :: 0 <= j < k ==> images[j].created < images[k].created)
  }

  /** With no image created after time 0 the search keeps the zero summary. */
  lemma {:induction false} LatestZero(images: seq<ImageSummary>)
    requires forall j :: 0 <= j < |images| ==> images[j].created <= 0
    ensures Latest(images) == NoImage
  {
    if images != [] {
      var init := images[..|images| - 1];
      assert forall j :: 0 <= j < |init| ==> init[j] == images[j];
      LatestZero(init);
    }
  }

  /** Otherwise the search picks the first of the images created last. */
  lemma {:induction false} LatestSound(images: seq<ImageSummary>)
    requires exists j :: 0 <= j < |images| && images[j].created > 0
    ensures exists k :: 0 <= k < |images| && Newest(images, k) && Latest(images) == images[k]
  {
    var init, last := images[..|images| - 1], images[|images| - 1];
    assert images == init + [last];
    if exists j :: 0 <= j < |init| && init[j].created > 0 {
      LatestSound(init);
      var k :| 0 <= k < |init| && Newest(init, k) && Latest(init) == init[k];
      LatestNext(init, last, k);
    } else {
      LatestZero(init);
      assert Newest(images, |init|);
    }
  }

  /** One more image replaces the newest so far exactly when it was created strictly later. */
  lemma LatestNext(init: seq<ImageSummary>, last: ImageSummary, k: nat)
    requires k < |init| && Newest(init, k) && Latest(init) == init[k]
    ensures init[k].created < last.created ==> Newest(init + [last], |init|) && Latest(init + [last]) == last
    ensures last.created <= init[k].created ==> Newest(init + [last], k) && Latest(init + [last]) == init[k]
  {
    var images := init + [last];
    assert images[..|init|] == init;
  }

  /** `GetCoordinatorImage`: the first tag of the newest image labelled as the coordinator. */
  function CoordinatorImage(queries: Query -> Outcome, d: Daemon): Result<ImageRef> {
    var q := queries(ImageList(CoordinatorLabel, CoordinatorName));
    if q.Fail? then Err(q.error)
    else
      var latest := Latest(Filter(d.images, CoordinatorCandidate));
      if latest.repoTags == [] then Err(NoCoordinatorImage) else ImageToStruct(latest.repoTags[0])
  }

  // ----- Networks -----

  predicate HasNetwork(networks: seq<NetworkSummary>) {
    exists i :: 0 <= i < |networks| && networks[i].name == NetworkName
  }

  const CreateCyanNetwork := NetworkCreate(NetworkName, "bridge")

  /** The commands `EnforceNetwork` sends: the network is created only when the listing worked
      and found no network of that name. */
  function EnforceCommands(queries: Query -> Outcome, d: Daemon): seq<Command> {
    if queries(NetworkList).Pass? && !HasNetwork(d.networks) then [CreateCyanNetwork] else []
  }

  function EnforceOutcome(queries: Query -> Outcome, answer: Command -> Outcome, d: Daemon): Outcome {
    if queries(NetworkList).Fail? then queries(NetworkList)
    else if HasNetwork(d.networks) then Pass
    else answer(CreateCyanNetwork)
  }

  /** After a successful `EnforceNetwork` the network exists, and a second call creates nothing
      and succeeds; an existing network is never created again. */
  lemma EnforceNetworkSound(queries: Query -> Outcome, answer: Command -> Outcome, d: Daemon)
    ensures HasNetwork(d.networks) ==> EnforceCommands(queries, d) == []
    ensures var after := Replay(answer, d, EnforceCommands(queries, d));
      EnforceOutcome(queries, answer, d).Pass? ==> HasNetwork(after.networks)
    ensures var after := Replay(answer, d, EnforceCommands(queries, d));
      EnforceOutcome(queries, answer, d).Pass? ==>
        EnforceCommands(queries, after) == [] && EnforceOutcome(queries, answer, after) == Pass
  {
    if queries(NetworkList).Pass? && !HasNetwork(d.networks) && answer(CreateCyanNetwork).Pass? {
      var after := Replay(answer, d, [CreateCyanNetwork]);
      assert [CreateCyanNetwork][..0] == [];
      assert Replay(answer, d, []) == d;
      assert after == Effect(d, CreateCyanNetwork);
      assert after.networks == d.networks + [NetworkSummary(NetworkName, "bridge")];
      assert after.networks[|d.networks|].name == NetworkName;
    }
  }

  // ----- Worker containers -----

  /** The commands that create and start a labelled container on the cyanprint network. */
  function StartCommands(cc: ContainerRef, image: ImageRef, mounts: seq<Mount>): seq<Command> {
    var name := ContainerToString(cc);
    [ContainerCreate(name, ImageToString(image), DevLabels, NetworkName, mounts), ContainerStart(name)]
  }

  /** A processor, plugin or merger container: the template volume read-only and the work volume
      read-write. */
  function ReadWriteMounts(readVolume: VolumeRef, writeVolume: VolumeRef): seq<Mount> {
    [Mount(VolumeToString(readVolume), TemplateDir, true), Mount(VolumeToString(writeVolume), AreaDir, false)]
  }

  /** The container that unpacks a template into its volume: the volume read-write. */
  function VolumeMounts(v: VolumeRef): seq<Mount> {
    [Mount(VolumeToString(v), TemplateDir, false)]
  }

  function ContainerRemovals(refs: seq<ContainerRef>): (cs: seq<Command>)
    ensures |cs| == |refs|
    ensures forall i :: 0 <= i < |refs| ==> cs[i] == ContainerRemove(ContainerToString(refs[i]))
  {
    seq(|refs|, i requires 0 <= i < |refs| => ContainerRemove(ContainerToString(refs[i])))
  }

  function VolumeRemovals(refs: seq<VolumeRef>): (cs: seq<Command>)
    ensures |cs| == |refs|
    ensures forall i :: 0 <= i < |refs| ==> cs[i] == VolumeRemove(VolumeToString(refs[i]))
  {
    seq(|refs|, i requires 0 <= i < |refs| => VolumeRemove(VolumeToString(refs[i])))
  }

  function Pulls(images: seq<ImageRef>): (cs: seq<Command>)
    ensures |cs| == |images|
    ensures forall i :: 0 <= i < |images| ==> cs[i] == ImagePull(ImageToString(images[i]))
  {
    seq(|images|, i requires 0 <= i < |images| => ImagePull(ImageToString(images[i])))
  }

  /** Accepted container removals leave none of the removed containers and no new one, and touch
      no other part of the daemon. */
  lemma {:induction false} ContainerRemovalsClear(answer: Command -> Outcome, d: Daemon, refs: seq<ContainerRef>)
    requires AllAccepted(answer, ContainerRemovals(refs))
    ensures var after := Replay(answer, d, ContainerRemovals(refs));
      after.images == d.images && after.volumes == d.volumes && after.networks == d.networks
      && (forall c :: c in after.containers ==> c in d.containers)
      && (forall c, i :: c in after.containers && 0 <= i < |refs| ==> !Named(c, ContainerToString(refs[i])))
  {
    if refs != [] {
      var init, name := refs[..|refs| - 1], ContainerToString(refs[|refs| - 1]);
      var cs := ContainerRemovals(refs);
      assert cs[..|cs| - 1] == ContainerRemovals(init) && cs[|cs| - 1] == ContainerRemove(name);
      ContainerRemovalsClear(answer, d, init);
      var before := Replay(answer, d, ContainerRemovals(init));
      assert Replay(answer, d, cs) == Effect(before, ContainerRemove(name));
      ContainerRemoveEffect(before, name);
      NoneLeft(before.containers, Replay(answer, d, cs).containers, Named, ContainerToString, init, refs);
    }
  }

  /** One accepted container removal. */
  lemma ContainerRemoveEffect(d: Daemon, name: string)
    ensures var e := Effect(d, ContainerRemove(name));
      e.images == d.images && e.volumes == d.volumes && e.networks == d.networks
      && forall c :: c in e.containers ==> c in d.containers && !Named(c, name)
  {
  }

  predicate VolumeNamed(v: VolumeSummary, name: string) {
    v.name == name
  }

  /** Accepted volume removals leave none of the removed volumes and no new one, and touch no
      other part of the daemon. */
  lemma {:induction false} VolumeRemovalsClear(answer: Command -> Outcome, d: Daemon, refs: seq<VolumeRef>)
    requires AllAccepted(answer, VolumeRemovals(refs))
    ensures var after := Replay(answer, d, VolumeRemovals(refs));
      after.images == d.images && after.containers == d.containers && after.networks == d.networks
      && (forall v :: v in after.volumes ==> v in d.volumes)
      && (forall v, i :: v in after.volumes && 0 <= i < |refs| ==> !VolumeNamed(v, VolumeToString(refs[i])))
  {
    if refs != [] {
      var init, name := refs[..|refs| - 1], VolumeToString(refs[|refs| - 1]);
      var cs := VolumeRemovals(refs);
      assert cs[..|cs| - 1] == VolumeRemovals(init) && cs[|cs| - 1] == VolumeRemove(name);
      VolumeRemovalsClear(answer, d, init);
      var before := Replay(answer, d, VolumeRemovals(init));
      assert Replay(answer, d, cs) == Effect(before, VolumeRemove(name));
      VolumeRemoveEffect(before, name);
      NoneLeft(before.volumes, Replay(answer, d, cs).volumes, VolumeNamed, VolumeToString, init, refs);
    }
  }

  /** One accepted volume removal. */
  lemma VolumeRemoveEffect(d: Daemon, name: string)
    ensures var e := Effect(d, VolumeRemove(name));
      e.images == d.images && e.containers == d.containers && e.networks == d.networks
      && forall v :: v in e.volumes ==> v in d.volumes && !VolumeNamed(v, name)
  {
  }

  /** Removing what matches the last name from a list that matches none of the earlier names
      leaves a list that matches none of them. */
  lemma NoneLeft<T, R>(before: seq<T>, after: seq<T>, hit: (T, string) -> bool, nameOf: R -> string, init: seq<R>, refs: seq<R>)
    requires refs != [] && init == refs[..|refs| - 1]
    requires forall x :: x in after ==> x in before && !hit(x, nameOf(refs[|refs| - 1]))
    requires forall x, i :: x in before && 0 <= i < |init| ==> !hit(x, nameOf(init[i]))
    ensures forall x :: x in after ==> x in before
    ensures forall x, i :: x in after && 0 <= i < |refs| ==> !hit(x, nameOf(refs[i]))
  {
    forall x, i | x in after && 0 <= i < |refs|
      ensures !hit(x, nameOf(refs[i]))
    {
      if i < |refs| - 1 {
        assert init[i] == refs[i];
      }
    }
  }

  /** Each pull asks for the image's `reference:tag` string, which decodes back to the image. */
  lemma PullsDecode(images: seq<ImageRef>, i: nat)
    requires i < |images| && ':' !in images[i].reference && ':' !in images[i].tag
    ensures Pulls(images)[i].ImagePull? && ImageToStruct(Pulls(images)[i].image) == Ok(images[i])
  {
    ImageRoundTrip(images[i]);
  }

  /** `DockerClient`: the daemon as it is now, the oracles that decide each request, and the
      commands sent so far. */
  class DockerClient {
    const queries: Query -> Outcome
    const answer: Command -> Outcome
    var daemon: Daemon
    var log: seq<Command>

    constructor (queries: Query -> Outcome, answer: Command -> Outcome, initial: Daemon)
      ensures this.queries == queries && this.answer == answer
      ensures daemon == initial && log == []
    {
      this.queries := queries;
      this.answer := answer;
      daemon := initial;
      log := [];
    }

    /** One command: the daemon's answer, which takes effect only when it is a success. */
    method Send(c: Command) returns (r: Outcome)
      modifies this
      ensures r == answer(c)
      ensures log == old(log) + [c]
      ensures daemon == Replay(answer, old(daemon), [c])
    {
      assert [c][..0] == [];
      r := answer(c);
      log := log + [c];
      if r.Pass? {
        daemon := Effect(daemon, c);
      }
    }

    /** Every command, whatever the others' answers: the errors of those refused, in order. */
    method SendAll(cs: seq<Command>) returns (errs: seq<Error>)
      modifies this
      ensures errs == Failures(Answers(answer, cs))
      ensures log == old(log) + cs
      ensures daemon == Replay(answer, old(daemon), cs)
    {
      errs := [];
      for i := 0 to |cs|
        invariant errs == Failures(Answers(answer, cs[..i]))
        invariant log == old(log) + cs[..i]
        invariant daemon == Replay(answer, old(daemon), cs[..i])
      {
        var r := Send(cs[i]);
        ReplayAppend(answer, old(daemon), cs[..i], [cs[i]]);
        assert cs[..i + 1] == cs[..i] + [cs[i]];
        assert Answers(answer, cs[..i + 1])[..i] == Answers(answer, cs[..i]);
        if r.Fail? {
          errs := errs + [r.error];
        }
      }
      assert cs[..|cs|] == cs;
    }

    /** A step chain: the commands in order, stopping at the first the daemon refuses. */
    method RunChain(cs: seq<Command>) returns (r: Outcome)
      modifies this
      ensures r == Chain(answer, cs).0
      ensures log == old(log) + cs[..Chain(answer, cs).1]
      ensures daemon == Replay(answer, old(daemon), cs[..Chain(answer, cs).1])
    {
      r := Pass;
      var i := 0;
      while i < |cs| && r.Pass?
        invariant i <= |cs|
        invariant r.Pass? ==> forall j :: 0 <= j < i ==> answer(cs[j]).Pass?
        invariant r.Fail? ==> Chain(answer, cs) == (r, i)
        invariant log == old(log) + cs[..i]
        invariant daemon == Replay(answer, old(daemon), cs[..i])
      {
        r := Send(cs[i]);
        ReplayAppend(answer, old(daemon), cs[..i], [cs[i]]);
        AppendAssoc(old(log), cs[..i], [cs[i]]);
        PrefixSnoc(cs, i);
        if r.Fail? {
          ChainStops(answer, cs, i);
        }
        i := i + 1;
      }
      if r.Pass? {
        ChainPasses(answer, cs);
        assert cs[..|cs|] == cs;
      }
    }

    /** `ListImages`: every tag of every image labelled `cyanprint.dev=true`, in order. */
    method ListImages() returns (r: Result<seq<ImageRef>>)
      ensures r == ImageListing(queries, daemon)
    {
      var q := queries(ImageList(DevLabel, "true"));
      if q.Fail? {
        return Err(q.error);
      }
      var listed := Filter(daemon.images, DevImage);
      var names: seq<ImageRef> := [];
      for k := 0 to |listed|
        invariant DecodeAll(Tags(listed[..k]), ImageToStruct) == Ok(names)
      {
        var tags := listed[k].repoTags;
        ghost var before := Tags(listed[..k]);
        assert before + tags[..0] == before;
        for j := 0 to |tags|
          invariant DecodeAll(before + tags[..j], ImageToStruct) == Ok(names)
        {
          var s := ImageToStruct(tags[j]);
          DecodeAllStep(before + tags[..j], tags[j], ImageToStruct);
          Snoc(before, tags, j);
          if s.Err? {
            TagsStop(listed, k, j);
            return Err(s.error);
          }
          names := names + [s.value];
        }
        Around(listed, k);
        assert tags[..|tags|] == tags;
      }
      assert listed[..|listed|] == listed;
      r := Ok(names);
    }

    /** `ListContainer`: each name of each labelled container, without its leading '/', decoded
      and put in the running or the stopped list. */
    method ListContainer() returns (r: Result<(seq<ContainerRef>, seq<ContainerRef>)>)
      ensures r == ContainerListing(queries, daemon)
    {
      var q := queries(ContainerList);
      if q.Fail? {
        return Err(q.error);
      }
      var listed := Filter(daemon.containers, DevContainer);
      var running: seq<ContainerRef> := [];
      var stopped: seq<ContainerRef> := [];
      for k := 0 to |listed|
        invariant Partition(NameEntries(listed[..k])) == Ok((running, stopped))
      {
        var con := listed[k];
        ghost var before := NameEntries(listed[..k]);
        ghost var mine := Entries(con);
        assert before + mine[..0] == before;
        for j := 0 to |con.names|
          invariant Partition(before + mine[..j]) == Ok((running, stopped))
        {
          var c := ContainerNameToStruct(TrimPrefix(con.names[j], '/'));
          PartitionStep(before + mine[..j], mine[j]);
          Snoc(before, mine, j);
          if c.Err? {
            ListingStops(listed, k, j);
            return Err(c.error);
          }
          if con.state == "running" {
            running := running + [c.value];
          } else {
            stopped := stopped + [c.value];
          }
        }
        Around(listed, k);
        assert mine[..|con.names|] == mine;
      }
      assert listed[..|listed|] == listed;
      r := Ok((running, stopped));
    }

    /** `ListVolumes`: the name of each labelled volume, decoded. */
    method ListVolumes() returns (r: Result<seq<VolumeRef>>)
      ensures r == VolumeListing(queries, daemon)
    {
      var q := queries(VolumeList);
      if q.Fail? {
        return Err(q.error);
      }
      var listed := Filter(daemon.volumes, DevVolume);
      var names := VolumeNames(listed);
      var refs: seq<VolumeRef> := [];
      for k := 0 to |listed|
        invariant DecodeAll(names[..k], VolumeNameToStruct) == Ok(refs)
      {
        var v := VolumeNameToStruct(listed[k].name);
        DecodeAllStep(names[..k], names[k], VolumeNameToStruct);
        PrefixSnoc(names, k);
        if v.Err? {
          Around(names, k);
          DecodeAllStops(names[..k + 1], names[k + 1..], VolumeNameToStruct);
          return Err(v.error);
        }
        refs := refs + [v.value];
      }
      assert names[..|listed|] == names;
      r := Ok(refs);
    }

    /** `GetCoordinatorImage`: the newest coordinator image, by a running maximum from Go's zero
        summary, and its first tag. */
    method GetCoordinatorImage() returns (r: Result<ImageRef>)
      ensures r == CoordinatorImage(queries, daemon)
    {
      var q := queries(ImageList(CoordinatorLabel, CoordinatorName));
      if q.Fail? {
        return Err(q.error);
      }
      var listed := Filter(daemon.images, CoordinatorCandidate);
      var latest := NoImage;
      for k := 0 to |listed|
        invariant latest == Latest(listed[..k])
      {
        assert listed[..k + 1][..k] == listed[..k];
        if latest.created < listed[k].created {
          latest := listed[k];
        }
      }
      assert listed[..|listed|] == listed;
      if latest.repoTags == [] {
        return Err(NoCoordinatorImage);
      }
      r := ImageToStruct(latest.repoTags[0]);
    }

    /** `CyanPrintNetworkExist`: whether a network named cyanprint is listed. */
    method CyanPrintNetworkExist() returns (r: Result<bool>)
      ensures r == if queries(NetworkList).Fail? then Err(queries(NetworkList).error) else Ok(HasNetwork(daemon.networks))
    {
      var q := queries(NetworkList);
      if q.Fail? {
        return Err(q.error);
      }
      var networks := daemon.networks;
      for i := 0 to |networks|
        invariant forall j :: 0 <= j < i ==> networks[j].name != NetworkName
      {
        if networks[i].name == NetworkName {
          return Ok(true);
        }
      }
      r := Ok(false);
    }

    /** `EnforceNetwork`: creates the bridge network cyanprint when it is not there. */
    method EnforceNetwork() returns (r: Outcome)
      modifies this
      ensures r == EnforceOutcome(queries, answer, old(daemon))
      ensures log == old(log) + EnforceCommands(queries, old(daemon))
      ensures daemon == Replay(answer, old(daemon), EnforceCommands(queries, old(daemon)))
    {
      var exist := CyanPrintNetworkExist();
      if exist.Err? {
        return Fail(exist.error);
      }
      if !exist.value {
        r := Send(CreateCyanNetwork);
      } else {
        r := Pass;
      }
    }

    /** `CreateContainer`: a container without mounts. */
    method CreateContainer(cc: ContainerRef, image: ImageRef) returns (r: Outcome)
      modifies this
      ensures var cs := StartCommands(cc, image, []);
        r == Chain(answer, cs).0
        && log == old(log) + cs[..Chain(answer, cs).1]
        && daemon == Replay(answer, old(daemon), cs[..Chain(answer, cs).1])
    {
      r := RunChain(StartCommands(cc, image, []));
    }

    /** `CreateContainerWithVolume`: the volume mounted read-write at /workspace/cyanprint. */
    method CreateContainerWithVolume(cc: ContainerRef, v: VolumeRef, image: ImageRef) returns (r: Outcome)
      modifies this
      ensures var cs := StartCommands(cc, image, VolumeMounts(v));
        r == Chain(answer, cs).0
        && log == old(log) + cs[..Chain(answer, cs).1]
        && daemon == Replay(answer, old(daemon), cs[..Chain(answer, cs).1])
    {
      r := RunChain(StartCommands(cc, image, VolumeMounts(v)));
    }

    /** `CreateContainerWithReadWriteVolume`: the read volume mounted read-only at
        /workspace/cyanprint and the write volume read-write at /workspace/area. */
    method CreateContainerWithReadWriteVolume(cc: ContainerRef, readVolume: VolumeRef, writeVolume: VolumeRef, image: ImageRef)
      returns (r: Outcome)
      modifies this
      ensures var cs := StartCommands(cc, image, ReadWriteMounts(readVolume, writeVolume));
        r == Chain(answer, cs).0
        && log == old(log) + cs[..Chain(answer, cs).1]
        && daemon == Replay(answer, old(daemon), cs[..Chain(answer, cs).1])
    {
      r := RunChain(StartCommands(cc, image, ReadWriteMounts(readVolume, writeVolume)));
    }

    method WaitContainer(cc: ContainerRef) returns (r: Outcome)
      modifies this
      ensures r == answer(ContainerWait(ContainerToString(cc)))
      ensures log == old(log) + [ContainerWait(ContainerToString(cc))]
      ensures daemon == Replay(answer, old(daemon), [ContainerWait(ContainerToString(cc))])
    {
      r := Send(ContainerWait(ContainerToString(cc)));
    }

    /** `RemoveContainer`: a forced removal that keeps the container's volumes. */
    method RemoveContainer(cc: ContainerRef) returns (r: Outcome)
      modifies this
      ensures r == answer(ContainerRemove(ContainerToString(cc)))
      ensures log == old(log) + [ContainerRemove(ContainerToString(cc))]
      ensures daemon == Replay(answer, old(daemon), [ContainerRemove(ContainerToString(cc))])
    {
      r := Send(ContainerRemove(ContainerToString(cc)));
    }

    /** `RemoveAllContainers`: every container is removed; the errors of those that failed. */
    method RemoveAllContainers(refs: seq<ContainerRef>) returns (errs: seq<Error>)
      modifies this
      ensures errs == Failures(Answers(answer, ContainerRemovals(refs)))
      ensures log == old(log) + ContainerRemovals(refs)
      ensures daemon == Replay(answer, old(daemon), ContainerRemovals(refs))
    {
      errs := SendAll(ContainerRemovals(refs));
    }

    /** `CreateVolume`: a labelled volume. */
    method CreateVolume(v: VolumeRef) returns (r: Outcome)
      modifies this
      ensures r == answer(VolumeCreate(VolumeToString(v), DevLabels))
      ensures log == old(log) + [VolumeCreate(VolumeToString(v), DevLabels)]
      ensures daemon == Replay(answer, old(daemon), [VolumeCreate(VolumeToString(v), DevLabels)])
    {
      r := Send(VolumeCreate(VolumeToString(v), DevLabels));
    }

    /** `RemoveAllVolumes`: every volume is removed (forced); the errors of those that failed. */
    method RemoveAllVolumes(refs: seq<VolumeRef>) returns (errs: seq<Error>)
      modifies this
      ensures errs == Failures(Answers(answer, VolumeRemovals(refs)))
      ensures log == old(log) + VolumeRemovals(refs)
      ensures daemon == Replay(answer, old(daemon), VolumeRemovals(refs))
    {
      errs := SendAll(VolumeRemovals(refs));
    }

    /** `PullImages`: every image is pulled; the errors of those that failed. */
    method PullImages(images: seq<ImageRef>) returns (errs: seq<Error>)
      modifies this
      ensures errs == Failures(Answers(answer, Pulls(images)))
      ensures log == old(log) + Pulls(images)
      ensures daemon == Replay(answer, old(daemon), Pulls(images))
    {
      errs := SendAll(Pulls(images));
    }
  }
}
