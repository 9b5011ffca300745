/** The template executor (`TemplateExecutor`): makes sure a template version has its long-lived
    resources, namely the template container that serves it and the template volume filled from
    its blob image, and that the container answers its readiness poll. The concurrent branches of
    the source run here one after the other, in an arrival order given as a parameter. */
module TemplateWarmer {
  import opened Base
  import opened Strings
  import opened DomainModel
  import opened Models
  import opened Docker
  import opened Readiness

  function TemplateImage(p: TemplatePrincipal): ImageRef {
    ImageRef(p.templateDockerReference, p.templateDockerTag)
  }

  function BlobImage(p: TemplatePrincipal): ImageRef {
    ImageRef(p.blobDockerReference, p.blobDockerTag)
  }

  /** The container serving the template: shared by all sessions. */
  function TemplateContainer(p: TemplatePrincipal): ContainerRef {
    ContainerRef(p.id, "template", "")
  }

  /** The volume holding the unpacked template: shared by all sessions. */
  function TemplateVolume(p: TemplatePrincipal): VolumeRef {
    VolumeRef(p.id, "")
  }

  /** The short-lived container that unpacks the blob image into the template volume. */
  function UnzipContainer(p: TemplatePrincipal): ContainerRef {
    ContainerRef(p.id, "volume", "")
  }

  // ----- Presence tests -----

  predicate IsTemplateContainer(p: TemplatePrincipal, c: ContainerRef) {
    c.cyanType == "template" && c.cyanId == p.id
  }

  /** `missingTemplateContainer`: whether no listed container is the template's, and the
      container to create. */
  function MissingTemplateContainer(p: TemplatePrincipal, containers: seq<ContainerRef>): (r: (bool, ContainerRef))
    ensures r.1 == TemplateContainer(p)
    ensures r.0 <==> forall i :: 0 <= i < |containers| ==> !IsTemplateContainer(p, containers[i])
  {
    if containers == [] then (true, TemplateContainer(p))
    else if IsTemplateContainer(p, containers[0]) then (false, TemplateContainer(p))
    else MissingTemplateContainer(p, containers[1..])
  }

  /** `missingTemplateVolume`: whether no listed volume belongs to the template, whatever its
      session, and the volume to create. */
  function MissingTemplateVolume(p: TemplatePrincipal, volumes: seq<VolumeRef>): (r: (bool, VolumeRef))
    ensures r.1 == TemplateVolume(p)
    ensures r.0 <==> forall i :: 0 <= i < |volumes| ==> volumes[i].cyanId != p.id
  {
    if volumes == [] then (true, TemplateVolume(p))
    else if volumes[0].cyanId == p.id then (false, TemplateVolume(p))
    else MissingTemplateVolume(p, volumes[1..])
  }

  /** A listed image stands for the wanted one when its reference ends the wanted reference (the
      listing may omit a registry prefix) and the tags are equal. */
  predicate Matches(wanted: ImageRef, image: ImageRef) {
    HasSuffix(wanted.reference, image.reference) && image.tag == wanted.tag
  }

  /** `missingTemplateImages` and `missingTemplateVolumeImage`: whether no listed image stands
      for the wanted one, and the image to pull. */
  function MissingImage(wanted: ImageRef, images: seq<ImageRef>): (r: (bool, ImageRef))
    ensures r.1 == wanted
    ensures r.0 <==> forall i :: 0 <= i < |images| ==> !Matches(wanted, images[i])
  {
    if images == [] then (true, wanted)
    else if Matches(wanted, images[0]) then (false, wanted)
    else MissingImage(wanted, images[1..])
  }

  /** An image listed under its full reference is never missing; one listed without its
      registry prefix is not missing either. */
  lemma MatchesSuffix(prefix: string, image: ImageRef)
    ensures Matches(ImageRef(prefix + image.reference, image.tag), image)
    ensures MissingImage(ImageRef(prefix + image.reference, image.tag), [image]).0 == false
  {
    assert (prefix + image.reference)[|prefix + image.reference| - |image.reference|..] == image.reference;
  }

  // ----- Listing -----

  /** What the three listings found: the running containers, the images and the volumes. */
  datatype Inventory = Inventory(containers: seq<ContainerRef>, images: seq<ImageRef>, volumes: seq<VolumeRef>)

  /** The three listings the branches of `listContainersVolumesImages` make: the volumes, the
      containers (running and stopped) and the images. */
  datatype Listings = Listings(
    volumes: Result<seq<VolumeRef>>,
    containers: Result<(seq<ContainerRef>, seq<ContainerRef>)>,
    images: Result<seq<ImageRef>>)

  function TakeListings(queries: Query -> Outcome, d: Daemon): Listings {
    Listings(VolumeListing(queries, d), ContainerListing(queries, d), ImageListing(queries, d))
  }

  /** The errors of the three branches: 0 lists the volumes, 1 lists the containers and removes
      the stopped ones, 2 lists the images. */
  function BranchErrors(ls: Listings, answer: Command -> Outcome): (bs: seq<seq<Error>>)
    ensures |bs| == 3
    ensures bs[0] == [] <==> ls.volumes.Ok?
    ensures bs[1] == [] <==> ls.containers.Ok? && AllAccepted(answer, ContainerRemovals(ls.containers.value.1))
    ensures bs[2] == [] <==> ls.images.Ok?
  {
    [ if ls.volumes.Err? then [ls.volumes.error] else [],
      if ls.containers.Err? then [ls.containers.error]
      else
        var removals := ContainerRemovals(ls.containers.value.1);
        NoFailures(answer, removals);
        Failures(Answers(answer, removals)),
      if ls.images.Err? then [ls.images.error] else [] ]
  }

  /** The commands of the listing: the removal of the stopped containers, once they are known. */
  function ListingCommands(ls: Listings): seq<Command> {
    if ls.containers.Err? then [] else ContainerRemovals(ls.containers.value.1)
  }

  /** What the listing returns when no branch fails. */
  function Listed(ls: Listings): Inventory
    requires ls.volumes.Ok? && ls.containers.Ok? && ls.images.Ok?
  {
    Inventory(ls.containers.value.0, ls.images.value, ls.volumes.value)
  }

  /** The errors of the first branch, in arrival order, that reports any: the caller's `select`
      returns as soon as one error arrives. */
  function FirstErrors(branches: seq<seq<Error>>, order: seq<nat>): seq<Error>
    requires forall k :: 0 <= k < |order| ==> order[k] < |branches|
  {
    if order == [] then []
    else if branches[order[0]] != [] then branches[order[0]]
    else FirstErrors(branches, order[1..])
  }

  lemma {:induction false} FirstErrorsNone(branches: seq<seq<Error>>, order: seq<nat>)
    requires forall k :: 0 <= k < |order| ==> order[k] < |branches|
    ensures FirstErrors(branches, order) == [] <==> forall k :: 0 <= k < |order| ==> branches[order[k]] == []
    ensures FirstErrors(branches, order) != [] ==>
      exists k :: 0 <= k < |order| && FirstErrors(branches, order) == branches[order[k]]
  {
    if order != [] && branches[order[0]] == [] {
      FirstErrorsNone(branches, order[1..]);
      assert forall k :: 1 <= k < |order| ==> order[1..][k - 1] == order[k];
    }
  }

  /** Whatever the arrival order, the listing fails exactly when some branch reports an error,
      and then with the errors of one of the failing branches. */
  lemma FirstErrorsSound(branches: seq<seq<Error>>, order: seq<nat>)
    requires IsOrder(order, |branches|)
    ensures FirstErrors(branches, order) == [] <==> forall b :: 0 <= b < |branches| ==> branches[b] == []
    ensures FirstErrors(branches, order) != [] ==>
      exists b :: 0 <= b < |branches| && FirstErrors(branches, order) == branches[b] && branches[b] != []
  {
    FirstErrorsNone(branches, order);
    if forall k :: 0 <= k < |order| ==> branches[order[k]] == [] {
      forall b | 0 <= b < |branches| ensures branches[b] == [] {
        assert b in order;
      }
    }
  }

  // ----- Starting the container and the volume -----

  /** `startContainer`: the template container from the template image, without mounts. */
  function ContainerSteps(p: TemplatePrincipal): seq<Command> {
    StartCommands(TemplateContainer(p), TemplateImage(p), [])
  }

  /** The first step of `startVolume`: create the template volume. */
  function VolumeCreateStep(p: TemplatePrincipal): Command {
    VolumeCreate(VolumeToString(TemplateVolume(p)), DevLabels)
  }

  /** The unzip container, created from the blob image with the volume mounted, and started. */
  function UnzipStart(p: TemplatePrincipal): seq<Command> {
    StartCommands(UnzipContainer(p), BlobImage(p), VolumeMounts(TemplateVolume(p)))
  }

  /** `startVolume`: create the volume, create and start the unzip container, wait for it to
      finish, then remove it. */
  function VolumeSteps(p: TemplatePrincipal): seq<Command> {
    var unzip := ContainerToString(UnzipContainer(p));
    [VolumeCreateStep(p)] + UnzipStart(p) + [ContainerWait(unzip), ContainerRemove(unzip)]
  }

  /** The commands a step chain sends. */
  function Sent(answer: Command -> Outcome, cs: seq<Command>): seq<Command> {
    cs[..Chain(answer, cs).1]
  }

  /** The error a step chain reports, if any. */
  function ChainErrors(answer: Command -> Outcome, cs: seq<Command>): seq<Error> {
    var o := Chain(answer, cs).0;
    if o.Fail? then [o.error] else []
  }

  /** The commands of `startContainerAndVolume`: each branch that runs sends its chain, the
      branches in arrival order. */
  function StartBothCommands(answer: Command -> Outcome, p: TemplatePrincipal, conMissing: bool, volMissing: bool, containerFirst: bool): seq<Command> {
    var con := if conMissing then Sent(answer, ContainerSteps(p)) else [];
    var vol := if volMissing then Sent(answer, VolumeSteps(p)) else [];
    if containerFirst then con + vol else vol + con
  }

  /** The errors of `startContainerAndVolume`, in arrival order. */
  function StartBothErrors(answer: Command -> Outcome, p: TemplatePrincipal, conMissing: bool, volMissing: bool, containerFirst: bool): seq<Error> {
    var con := if conMissing then ChainErrors(answer, ContainerSteps(p)) else [];
    var vol := if volMissing then ChainErrors(answer, VolumeSteps(p)) else [];
    if containerFirst then con + vol else vol + con
  }

  /** A branch runs only when its resource is missing; there is at most one error per branch
      that runs, none when neither runs, and none exactly when every branch that runs has the
      daemon accept all its steps. */
  lemma StartBothSound(answer: Command -> Outcome, p: TemplatePrincipal, conMissing: bool, volMissing: bool, containerFirst: bool)
    ensures |StartBothErrors(answer, p, conMissing, volMissing, containerFirst)| <= (if conMissing then 1 else 0) + (if volMissing then 1 else 0)
    ensures !conMissing && !volMissing ==> StartBothCommands(answer, p, conMissing, volMissing, containerFirst) == []
    ensures !conMissing ==> StartBothCommands(answer, p, conMissing, volMissing, containerFirst) == (if volMissing then Sent(answer, VolumeSteps(p)) else [])
    ensures !volMissing ==> StartBothCommands(answer, p, conMissing, volMissing, containerFirst) == (if conMissing then Sent(answer, ContainerSteps(p)) else [])
    ensures StartBothErrors(answer, p, conMissing, volMissing, containerFirst) == [] <==>
      (conMissing ==> AllAccepted(answer, ContainerSteps(p))) && (volMissing ==> AllAccepted(answer, VolumeSteps(p)))
  {
    ChainSound(answer, ContainerSteps(p));
    ChainSound(answer, VolumeSteps(p));
    assert [] + Sent(answer, VolumeSteps(p)) == Sent(answer, VolumeSteps(p));
    assert Sent(answer, VolumeSteps(p)) + [] == Sent(answer, VolumeSteps(p));
    assert [] + Sent(answer, ContainerSteps(p)) == Sent(answer, ContainerSteps(p));
    assert Sent(answer, ContainerSteps(p)) + [] == Sent(answer, ContainerSteps(p));
  }

  /** Chains compose: running `a` then, if it went through, `b` is running `a + b`. */
  lemma {:induction false} ChainAppend(answer: Command -> Outcome, a: seq<Command>, b: seq<Command>)
    ensures Chain(answer, a + b)
      == if Chain(answer, a).0.Fail? then Chain(answer, a) else (Chain(answer, b).0, |a| + Chain(answer, b).1)
  {
    ChainSound(answer, a);
    if a != [] {
      ChainAppend(answer, a[1..], b);
      assert (a + b)[1..] == a[1..] + b;
      assert (a + b)[0] == a[0];
    } else {
      assert a + b == b;
    }
  }

  /** `startVolume` stops after a refused volume creation. */
  lemma VolumeStepsCreateFails(answer: Command -> Outcome, p: TemplatePrincipal)
    requires answer(VolumeCreateStep(p)).Fail?
    ensures Chain(answer, VolumeSteps(p)).0 == answer(VolumeCreateStep(p))
    ensures Sent(answer, VolumeSteps(p)) == [VolumeCreateStep(p)]
  {
    assert VolumeSteps(p)[0] == VolumeCreateStep(p);
  }

  /** `startVolume` stops where the creation or start of the unzip container is refused. */
  lemma VolumeStepsStartFails(answer: Command -> Outcome, p: TemplatePrincipal)
    requires answer(VolumeCreateStep(p)).Pass?
    requires Chain(answer, UnzipStart(p)).0.Fail?
    ensures Chain(answer, VolumeSteps(p)).0 == Chain(answer, UnzipStart(p)).0
    ensures Sent(answer, VolumeSteps(p)) == [VolumeCreateStep(p)] + Sent(answer, UnzipStart(p))
  {
    var create, start := [VolumeCreateStep(p)], UnzipStart(p);
    var finish := VolumeSteps(p)[|create + start|..];
    assert VolumeSteps(p) == create + start + finish;
    ChainAppend(answer, create, start);
    ChainAppend(answer, create + start, finish);
    var n := Chain(answer, start).1;
    assert (create + start + finish)[..1 + n] == create + start[..n];
  }

  /** Once the unzip container runs, `startVolume` waits for it and, if the wait went through,
      removes it. */
  lemma VolumeStepsStarted(answer: Command -> Outcome, p: TemplatePrincipal)
    requires answer(VolumeCreateStep(p)).Pass?
    requires Chain(answer, UnzipStart(p)).0.Pass?
    ensures var pre := [VolumeCreateStep(p)] + UnzipStart(p);
      var wait := ContainerWait(ContainerToString(UnzipContainer(p)));
      var remove := ContainerRemove(ContainerToString(UnzipContainer(p)));
      && (answer(wait).Fail? ==>
            Chain(answer, VolumeSteps(p)).0 == answer(wait) && Sent(answer, VolumeSteps(p)) == pre + [wait])
      && (answer(wait).Pass? ==>
            Chain(answer, VolumeSteps(p)).0 == answer(remove) && Sent(answer, VolumeSteps(p)) == (pre + [wait]) + [remove])
  {
    var pre := [VolumeCreateStep(p)] + UnzipStart(p);
    var wait := ContainerWait(ContainerToString(UnzipContainer(p)));
    var remove := ContainerRemove(ContainerToString(UnzipContainer(p)));
    ChainSound(answer, UnzipStart(p));
    ChainAppend(answer, [VolumeCreateStep(p)], UnzipStart(p));
    ChainAppend(answer, pre, [wait, remove]);
    assert VolumeSteps(p) == pre + [wait, remove];
    assert [wait, remove][1..] == [remove];
  }

  // ----- Warming the template -----

  /** The images `WarmTemplate` pulls: the template image, then the blob image, each only when
      missing. */
  function TemplatePulls(p: TemplatePrincipal, images: seq<ImageRef>): seq<ImageRef> {
    (if MissingImage(TemplateImage(p), images).0 then [TemplateImage(p)] else [])
      + (if MissingImage(BlobImage(p), images).0 then [BlobImage(p)] else [])
  }

  /** The pulls are the missing images among the template and blob images, the template image
      first, and nothing else. */
  lemma TemplatePullsSound(p: TemplatePrincipal, images: seq<ImageRef>)
    ensures var pulls := TemplatePulls(p, images);
      |pulls| <= 2
      && (forall x :: x in pulls ==> x == TemplateImage(p) || x == BlobImage(p))
      && ((forall i :: 0 <= i < |images| ==> !Matches(TemplateImage(p), images[i])) ==> pulls[0] == TemplateImage(p))
      && ((forall i :: 0 <= i < |images| ==> !Matches(BlobImage(p), images[i])) ==> pulls[|pulls| - 1] == BlobImage(p))
      && (((exists i :: 0 <= i < |images| && Matches(TemplateImage(p), images[i]))
           && (exists i :: 0 <= i < |images| && Matches(BlobImage(p), images[i])))
          ==> pulls == [])
    ensures var pulls := TemplatePulls(p, images);
      forall x :: x in pulls <==>
        (x == TemplateImage(p) && forall i :: 0 <= i < |images| ==> !Matches(TemplateImage(p), images[i]))
        || (x == BlobImage(p) && forall i :: 0 <= i < |images| ==> !Matches(BlobImage(p), images[i]))
    ensures var pulls := TemplatePulls(p, images);
      |pulls| == (if forall i :: 0 <= i < |images| ==> !Matches(TemplateImage(p), images[i]) then 1 else 0)
        + (if forall i :: 0 <= i < |images| ==> !Matches(BlobImage(p), images[i]) then 1 else 0)
  {
  }

  /** The readiness endpoint of the template container. */
  function ReadyEndpoint(p: TemplatePrincipal): string {
    "http://" + ContainerToString(TemplateContainer(p)) + ":5550/"
  }

  /** What follows a successful listing: the commands and the errors of the pulls and of the
      start of the missing resources, then the readiness poll. */
  function AfterListing(answer: Command -> Outcome, probe: (string, nat) -> ProbeReply, p: TemplatePrincipal, inv: Inventory, containerFirst: bool)
    : (seq<Command>, seq<Error>)
  {
    var pulls := Pulls(TemplatePulls(p, inv.images));
    var pullErrs := Failures(Answers(answer, pulls));
    if pullErrs != [] then (pulls, pullErrs)
    else
      var conMissing := MissingTemplateContainer(p, inv.containers).0;
      var volMissing := MissingTemplateVolume(p, inv.volumes).0;
      var rest := StartThenPoll(answer, probe, p, conMissing, volMissing, containerFirst);
      (pulls + rest.0, rest.1)
  }

  /** The start of the missing resources, then, if it went through, the readiness poll. */
  function StartThenPoll(answer: Command -> Outcome, probe: (string, nat) -> ProbeReply, p: TemplatePrincipal, conMissing: bool, volMissing: bool, containerFirst: bool)
    : (seq<Command>, seq<Error>)
  {
    var started := StartBothCommands(answer, p, conMissing, volMissing, containerFirst);
    var startErrs := StartBothErrors(answer, p, conMissing, volMissing, containerFirst);
    if startErrs != [] then (started, startErrs)
    else
      var ready := Readiness.Readiness(probe, ReadyEndpoint(p), 60);
      (started, if ready.Fail? then [ready.error] else [])
  }

  /** A refused pull starts nothing: the run ends with the pull errors. */
  lemma AfterListingPullFails(answer: Command -> Outcome, probe: (string, nat) -> ProbeReply, p: TemplatePrincipal, inv: Inventory, containerFirst: bool)
    requires !AllAccepted(answer, Pulls(TemplatePulls(p, inv.images)))
    ensures var pulls := Pulls(TemplatePulls(p, inv.images));
      AfterListing(answer, probe, p, inv, containerFirst) == (pulls, Failures(Answers(answer, pulls)))
      && Failures(Answers(answer, pulls)) != []
  {
    NoFailures(answer, Pulls(TemplatePulls(p, inv.images)));
  }

  /** The run succeeds exactly when every pull and every step of what it starts went through
      and the template container answered the poll within its 60 attempts. */
  lemma AfterListingSound(answer: Command -> Outcome, probe: (string, nat) -> ProbeReply, p: TemplatePrincipal, inv: Inventory, containerFirst: bool)
    ensures var conMissing := MissingTemplateContainer(p, inv.containers).0;
      var volMissing := MissingTemplateVolume(p, inv.volumes).0;
      AfterListing(answer, probe, p, inv, containerFirst).1 == [] <==>
        AllAccepted(answer, Pulls(TemplatePulls(p, inv.images)))
        && (conMissing ==> AllAccepted(answer, ContainerSteps(p)))
        && (volMissing ==> AllAccepted(answer, VolumeSteps(p)))
        && Readiness.Readiness(probe, ReadyEndpoint(p), 60).Pass?
  {
    NoFailures(answer, Pulls(TemplatePulls(p, inv.images)));
    StartBothSound(answer, p, MissingTemplateContainer(p, inv.containers).0, MissingTemplateVolume(p, inv.volumes).0, containerFirst);
  }

  /** With the container and the volume present, nothing is started: the run is the pulls and
      the poll. */
  lemma AfterListingNothingMissing(answer: Command -> Outcome, probe: (string, nat) -> ProbeReply, p: TemplatePrincipal, inv: Inventory, containerFirst: bool)
    requires exists i :: 0 <= i < |inv.containers| && IsTemplateContainer(p, inv.containers[i])
    requires exists i :: 0 <= i < |inv.volumes| && inv.volumes[i].cyanId == p.id
    ensures AfterListing(answer, probe, p, inv, containerFirst).0 == Pulls(TemplatePulls(p, inv.images))
  {
    var pulls := Pulls(TemplatePulls(p, inv.images));
    StartBothSound(answer, p, false, false, containerFirst);
    assert pulls + [] == pulls;
  }

  /** `WarmTemplate`: the commands it sends and the errors it returns. */
  function WarmTemplateRun(answer: Command -> Outcome, probe: (string, nat) -> ProbeReply, p: TemplatePrincipal, ls: Listings, order: seq<nat>, containerFirst: bool)
    : (seq<Command>, seq<Error>)
    requires IsOrder(order, 3)
  {
    var listErrs := FirstErrors(BranchErrors(ls, answer), order);
    if listErrs != [] then (ListingCommands(ls), listErrs)
    else
      FirstErrorsSound(BranchErrors(ls, answer), order);
      var rest := AfterListing(answer, probe, p, Listed(ls), containerFirst);
      (ListingCommands(ls) + rest.0, rest.1)
  }

  /** A listing error stops `WarmTemplate` before any pull or start, whatever the arrival order:
      the only commands are the removals of stopped containers, which the container branch
      sends as soon as it has its listing. */
  lemma WarmTemplateListingFails(answer: Command -> Outcome, probe: (string, nat) -> ProbeReply, p: TemplatePrincipal, ls: Listings, order: seq<nat>, containerFirst: bool)
    requires IsOrder(order, 3)
    requires ls.volumes.Err? || ls.containers.Err? || ls.images.Err?
    ensures WarmTemplateRun(answer, probe, p, ls, order, containerFirst).0 == ListingCommands(ls)
    ensures WarmTemplateRun(answer, probe, p, ls, order, containerFirst).1 != []
  {
    FirstErrorsSound(BranchErrors(ls, answer), order);
  }

  /** `TemplateExecutor`: the Docker client, the template version and the readiness probe. */
  class TemplateExecutor {
    const docker: DockerClient
    const principal: TemplatePrincipal
    const probe: (string, nat) -> ProbeReply

    constructor (docker: DockerClient, principal: TemplatePrincipal, probe: (string, nat) -> ProbeReply)
      ensures this.docker == docker && this.principal == principal && this.probe == probe
    {
      this.docker := docker;
      this.principal := principal;
      this.probe := probe;
    }

    /** `listContainersVolumesImages`: the three listings and the removal of the stopped
        containers; `order` is the order in which the three branches report. */
    method ListContainersVolumesImages(order: seq<nat>) returns (inv: Inventory, errs: seq<Error>)
      requires IsOrder(order, 3)
      modifies docker
      ensures var ls := TakeListings(docker.queries, old(docker.daemon));
        && errs == FirstErrors(BranchErrors(ls, docker.answer), order)
        && (errs == [] ==> ls.volumes.Ok? && ls.containers.Ok? && ls.images.Ok? && inv == Listed(ls))
        && docker.log == old(docker.log) + ListingCommands(ls)
        && docker.daemon == Replay(docker.answer, old(docker.daemon), ListingCommands(ls))
    {
      var volumes := docker.ListVolumes();
      var images := docker.ListImages();
      var containers := docker.ListContainer();
      ghost var ls := Listings(volumes, containers, images);
      var containerErrs: seq<Error>;
      if containers.Err? {
        containerErrs := [containers.error];
        assert docker.log == docker.log + [];
      } else {
        containerErrs := docker.RemoveAllContainers(containers.value.1);
      }
      var branches := [
        if volumes.Err? then [volumes.error] else [],
        containerErrs,
        if images.Err? then [images.error] else []];
      assert branches == BranchErrors(ls, docker.answer);
      FirstErrorsSound(branches, order);
      errs := FirstErrors(branches, order);
      if errs != [] {
        return Inventory([], [], []), errs;
      }
      assert branches[0] == [] && branches[1] == [] && branches[2] == [];
      inv := Inventory(containers.value.0, images.value, volumes.value);
    }

    /** `startContainer`: the template container from the template image. */
    method StartContainer() returns (r: Outcome)
      modifies docker
      ensures r == Chain(docker.answer, ContainerSteps(principal)).0
      ensures docker.log == old(docker.log) + Sent(docker.answer, ContainerSteps(principal))
      ensures docker.daemon == Replay(docker.answer, old(docker.daemon), Sent(docker.answer, ContainerSteps(principal)))
    {
      r := docker.CreateContainer(TemplateContainer(principal), TemplateImage(principal));
    }

    /** `startVolume`: the volume, then the unzip container (created and started), its wait and
        its removal, stopping at the first failure. */
    method StartVolume() returns (r: Outcome)
      modifies docker
      ensures r == Chain(docker.answer, VolumeSteps(principal)).0
      ensures docker.log == old(docker.log) + Sent(docker.answer, VolumeSteps(principal))
      ensures docker.daemon == Replay(docker.answer, old(docker.daemon), Sent(docker.answer, VolumeSteps(principal)))
    {
      var vol := TemplateVolume(principal);
      var unzip := UnzipContainer(principal);
      ghost var answer := docker.answer;
      ghost var log0 := docker.log;
      ghost var d0 := docker.daemon;
      ghost var create := [VolumeCreateStep(principal)];
      r := docker.CreateVolume(vol);
      if r.Fail? {
        VolumeStepsCreateFails(answer, principal);
        return;
      }
      r := docker.CreateContainerWithVolume(unzip, vol, BlobImage(principal));
      ghost var started := Sent(answer, UnzipStart(principal));
      AppendAssoc(log0, create, started);
      ReplayAppend(answer, d0, create, started);
      if r.Fail? {
        VolumeStepsStartFails(answer, principal);
        return;
      }
      VolumeStepsStarted(answer, principal);
      ChainSound(answer, UnzipStart(principal));
      assert started == UnzipStart(principal);
      ghost var pre := create + started;
      r := docker.WaitContainer(unzip);
      ghost var wait := [ContainerWait(ContainerToString(unzip))];
      AppendAssoc(log0, pre, wait);
      ReplayAppend(answer, d0, pre, wait);
      if r.Fail? {
        return;
      }
      r := docker.RemoveContainer(unzip);
      ghost var remove := [ContainerRemove(ContainerToString(unzip))];
      AppendAssoc(log0, pre + wait, remove);
      ReplayAppend(answer, d0, pre + wait, remove);
    }

    /** One branch of `startContainerAndVolume`: its commands and its error, if any. */
    method RunBranch(container: bool) returns (errs: seq<Error>)
      modifies docker
      ensures var steps := if container then ContainerSteps(principal) else VolumeSteps(principal);
        errs == ChainErrors(docker.answer, steps)
        && docker.log == old(docker.log) + Sent(docker.answer, steps)
        && docker.daemon == Replay(docker.answer, old(docker.daemon), Sent(docker.answer, steps))
    {
      var r;
      if container {
        r := StartContainer();
      } else {
        r := StartVolume();
      }
      errs := if r.Fail? then [r.error] else [];
    }

    /** `startContainerAndVolume`: the container branch only if the container is missing, the
        volume branch only if the volume is; the errors in the order the branches report. */
    method StartContainerAndVolume(conMissing: bool, volMissing: bool, containerFirst: bool) returns (errs: seq<Error>)
      modifies docker
      ensures errs == StartBothErrors(docker.answer, principal, conMissing, volMissing, containerFirst)
      ensures docker.log == old(docker.log) + StartBothCommands(docker.answer, principal, conMissing, volMissing, containerFirst)
      ensures docker.daemon == Replay(docker.answer, old(docker.daemon), StartBothCommands(docker.answer, principal, conMissing, volMissing, containerFirst))
    {
      ghost var answer := docker.answer;
      ghost var log0 := docker.log;
      ghost var d0 := docker.daemon;
      var firstRuns := if containerFirst then conMissing else volMissing;
      var secondRuns := if containerFirst then volMissing else conMissing;
      ghost var firstSteps := if containerFirst then ContainerSteps(principal) else VolumeSteps(principal);
      ghost var secondSteps := if containerFirst then VolumeSteps(principal) else ContainerSteps(principal);
      ghost var firstSent := if firstRuns then Sent(answer, firstSteps) else [];
      ghost var secondSent := if secondRuns then Sent(answer, secondSteps) else [];
      var first: seq<Error> := [];
      var second: seq<Error> := [];
      if firstRuns {
        first := RunBranch(containerFirst);
      } else {
        assert docker.log == log0 + [];
      }
      ghost var log1 := docker.log;
      if secondRuns {
        second := RunBranch(!containerFirst);
      } else {
        assert docker.log == log1 + [];
      }
      errs := first + second;
      AppendAssoc(log0, firstSent, secondSent);
      ReplayAppend(answer, d0, firstSent, secondSent);
      assert StartBothCommands(answer, principal, conMissing, volMissing, containerFirst) == firstSent + secondSent;
    }

    /** `WarmTemplate`: the listings, the pull of the missing images (always called, possibly
        with none), the start of the missing container and volume, and the readiness poll of the
        template container on port 5550. */
    method WarmTemplate(order: seq<nat>, containerFirst: bool) returns (errs: seq<Error>)
      requires IsOrder(order, 3)
      modifies docker
      ensures var run := WarmTemplateRun(docker.answer, probe, principal, TakeListings(docker.queries, old(docker.daemon)), order, containerFirst);
        errs == run.1
        && docker.log == old(docker.log) + run.0
        && docker.daemon == Replay(docker.answer, old(docker.daemon), run.0)
    {
      ghost var d0 := docker.daemon;
      ghost var log0 := docker.log;
      ghost var ls := TakeListings(docker.queries, d0);
      var inv;
      inv, errs := ListContainersVolumesImages(order);
      if errs != [] {
        return;
      }
      errs := WarmListed(inv, containerFirst);
      ghost var rest := AfterListing(docker.answer, probe, principal, inv, containerFirst);
      AppendAssoc(log0, ListingCommands(ls), rest.0);
      ReplayAppend(docker.answer, d0, ListingCommands(ls), rest.0);
    }

    /** `WarmTemplate` once the listings went through: pull, start, poll. */
    method WarmListed(inv: Inventory, containerFirst: bool) returns (errs: seq<Error>)
      modifies docker
      ensures var rest := AfterListing(docker.answer, probe, principal, inv, containerFirst);
        errs == rest.1
        && docker.log == old(docker.log) + rest.0
        && docker.daemon == Replay(docker.answer, old(docker.daemon), rest.0)
    {
      ghost var answer := docker.answer;
      ghost var log0 := docker.log;
      ghost var d0 := docker.daemon;
      var conMissing, container := MissingTemplateContainer(principal, inv.containers).0, MissingTemplateContainer(principal, inv.containers).1;
      var imageMissing, image := MissingImage(TemplateImage(principal), inv.images).0, MissingImage(TemplateImage(principal), inv.images).1;
      var volumeImageMissing, volumeImage := MissingImage(BlobImage(principal), inv.images).0, MissingImage(BlobImage(principal), inv.images).1;
      var volumeMissing := MissingTemplateVolume(principal, inv.volumes).0;
      var images: seq<ImageRef> := [];
      if imageMissing {
        images := images + [image];
      }
      if volumeImageMissing {
        images := images + [volumeImage];
      }
      assert images == TemplatePulls(principal, inv.images);
      ghost var pulls := Pulls(images);
      errs := docker.PullImages(images);
      if |errs| > 0 {
        return;
      }
      errs := StartAndPoll(conMissing, volumeMissing, container, containerFirst);
      ghost var rest := StartThenPoll(answer, probe, principal, conMissing, volumeMissing, containerFirst);
      AppendAssoc(log0, pulls, rest.0);
      ReplayAppend(answer, d0, pulls, rest.0);
    }

    /** The start of the missing container and volume, then the readiness poll of `container`,
        the template container, on port 5550. */
    method StartAndPoll(conMissing: bool, volMissing: bool, container: ContainerRef, containerFirst: bool) returns (errs: seq<Error>)
      requires container == TemplateContainer(principal)
      modifies docker
      ensures var rest := StartThenPoll(docker.answer, probe, principal, conMissing, volMissing, containerFirst);
        errs == rest.1
        && docker.log == old(docker.log) + rest.0
        && docker.daemon == Replay(docker.answer, old(docker.daemon), rest.0)
    {
      errs := StartContainerAndVolume(conMissing, volMissing, containerFirst);
      if |errs| > 0 {
        return;
      }
      var ready, polls := WaitReady(probe, "http://" + ContainerToString(container) + ":5550/", 60);
      errs := if ready.Fail? then [ready.error] else [];
    }
  }
}
