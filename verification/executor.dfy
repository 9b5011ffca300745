/** The session executor (`Executor`): warms a session by pulling the images the template's
    plugins and processors need and creating the session volume, cleans a session's containers
    and volumes, and starts the merger container. The concurrent branches of the source run here
    one after the other; where their order shows in the result, it is a parameter. */
module SessionExecutor {
  import opened Base
  import opened Strings
  import opened DomainModel
  import opened Models
  import opened Docker
  import opened Readiness

  // ----- Missing images -----

  /** The image a plugin or processor version runs. */
  function Wanted(e: TemplateEntry): ImageRef {
    ImageRef(e.dockerReference, e.dockerSha)
  }

  function Wants(entries: seq<TemplateEntry>): (ws: seq<ImageRef>)
    ensures |ws| == |entries|
    ensures forall i :: 0 <= i < |entries| ==> ws[i] == Wanted(entries[i])
  {
    seq(|entries|, i requires 0 <= i < |entries| => Wanted(entries[i]))
  }

  /** `missingPluginsImages` / `missingProcessorImages`: the wanted images, in template order,
      that no listed image equals. */
  function Missing(entries: seq<TemplateEntry>, images: seq<ImageRef>): seq<ImageRef> {
    if entries == [] then []
    else
      var w := Wanted(entries[|entries| - 1]);
      Missing(entries[..|entries| - 1], images) + (if w in images then [] else [w])
  }

  /** The missing images are the wanted ones, in order, filtered by absence from the listing. */
  lemma {:induction false} MissingIsFilter(entries: seq<TemplateEntry>, images: seq<ImageRef>)
    ensures Missing(entries, images) == Filter(Wants(entries), (x: ImageRef) => x !in images)
  {
    if entries != [] {
      MissingIsFilter(entries[..|entries| - 1], images);
      assert Wants(entries)[..|entries| - 1] == Wants(entries[..|entries| - 1]);
    }
  }

  /** An image is reported missing exactly when some entry wants it and it is not listed; with
      nothing listed, every entry's image is missing. */
  lemma MissingSound(entries: seq<TemplateEntry>, images: seq<ImageRef>)
    ensures |Missing(entries, images)| <= |entries|
    ensures forall x :: x in Missing(entries, images) <==> x !in images && x in Wants(entries)
    ensures images == [] ==> Missing(entries, images) == Wants(entries)
  {
    MissingIsFilter(entries, images);
    FilterKeeps(Wants(entries), (x: ImageRef) => x !in images);
    if images == [] {
      FilterAll(entries);
    }
  }

  /** With nothing listed, nothing is filtered out. */
  lemma {:induction false} FilterAll(entries: seq<TemplateEntry>)
    ensures Missing(entries, []) == Wants(entries)
  {
    if entries != [] {
      FilterAll(entries[..|entries| - 1]);
      assert Wants(entries) == Wants(entries[..|entries| - 1]) + [Wanted(entries[|entries| - 1])];
    }
  }

  /** The search loop: for each entry, a scan of the listing with a `found` flag. */
  method MissingImages(entries: seq<TemplateEntry>, images: seq<ImageRef>) returns (missing: seq<ImageRef>)
    ensures missing == Missing(entries, images)
  {
    missing := [];
    for k := 0 to |entries|
      invariant missing == Missing(entries[..k], images)
    {
      var entry := entries[k];
      var found := false;
      for j := 0 to |images|
        invariant !found ==> forall i :: 0 <= i < j ==> images[i] != Wanted(entry)
        invariant found ==> Wanted(entry) in images
      {
        if images[j].reference == entry.dockerReference && images[j].tag == entry.dockerSha {
          found := true;
          break;
        }
      }
      if !found {
        missing := missing + [Wanted(entry)];
      }
      assert entries[..k + 1][..k] == entries[..k];
    }
    assert entries[..|entries|] == entries;
  }

  // ----- Listing a session's resources -----

  datatype Listing = Listing(containers: seq<ContainerRef>, volumes: seq<VolumeRef>)

  /** `listContainersVolumes` as written. The volume branch, on an error, sends on the error
      channel before the volume channel, while the caller reads the volume channel first and the
      container branch waits to send on the error channel: all three block for ever (`None`). */
  function ContainersVolumesAsWritten(queries: Query -> Outcome, d: Daemon): Option<Result<Listing>> {
    var cl := ContainerListing(queries, d);
    var vl := VolumeListing(queries, d);
    if vl.Err? then None
    else if cl.Err? then Some(Err(cl.error))
    else Some(Ok(Listing(cl.value.0 + cl.value.1, vl.value)))
  }

  /** `listContainersVolumes` as intended: both listings, running containers before stopped ones,
      or the container listing's error, or else the volume listing's. */
  function ContainersVolumes(queries: Query -> Outcome, d: Daemon): Result<Listing> {
    var cl := ContainerListing(queries, d);
    var vl := VolumeListing(queries, d);
    if cl.Err? then Err(cl.error)
    else if vl.Err? then Err(vl.error)
    else Ok(Listing(cl.value.0 + cl.value.1, vl.value))
  }

  /** The listing succeeds exactly when both listings do; it then holds every container, running
      or stopped, and every volume. The source agrees with it except when the volume listing
      fails: then it never returns. */
  lemma ContainersVolumesSound(queries: Query -> Outcome, d: Daemon)
    ensures ContainersVolumes(queries, d).Ok? <==>
      ContainerListing(queries, d).Ok? && VolumeListing(queries, d).Ok?
    ensures ContainersVolumes(queries, d).Ok? ==>
      var l := ContainersVolumes(queries, d).value;
      l.containers == ContainerListing(queries, d).value.0 + ContainerListing(queries, d).value.1
      && l.volumes == VolumeListing(queries, d).value
    ensures VolumeListing(queries, d).Ok? ==>
      ContainersVolumesAsWritten(queries, d) == Some(ContainersVolumes(queries, d))
    ensures VolumeListing(queries, d).Err? ==>
      ContainersVolumesAsWritten(queries, d).None? && ContainersVolumes(queries, d).Err?
  {
  }

  /** A daemon that refuses to list volumes. */
  function VolumesDown(q: Query): Outcome {
    if q == VolumeList then Fail(Error.Daemon("volume list refused")) else Pass
  }

  /** With the volume listing refused, the source's `Clean` hangs where the intended listing
      returns that error. */
  lemma VolumeListingFailureHangs(d: Daemon)
    ensures ContainersVolumesAsWritten(VolumesDown, d).None?
    ensures ContainersVolumes(VolumesDown, d).Err?
  {
    ContainersVolumesSound(VolumesDown, d);
  }

  // ----- Clean -----

  /** The containers of one session. */
  function SessionContainers(cs: seq<ContainerRef>, session: string): seq<ContainerRef> {
    Filter(cs, (c: ContainerRef) => c.sessionId == session)
  }

  /** The volumes of one session. */
  function SessionVolumes(vs: seq<VolumeRef>, session: string): seq<VolumeRef> {
    Filter(vs, (v: VolumeRef) => v.sessionId == session)
  }

  /** `Clean` selects exactly the listed containers and volumes of the session. */
  lemma SessionSelection(cs: seq<ContainerRef>, vs: seq<VolumeRef>, session: string)
    ensures forall c :: c in SessionContainers(cs, session) <==> c in cs && c.sessionId == session
    ensures forall v :: v in SessionVolumes(vs, session) <==> v in vs && v.sessionId == session
  {
    FilterKeeps(cs, (c: ContainerRef) => c.sessionId == session);
    FilterKeeps(vs, (v: VolumeRef) => v.sessionId == session);
  }

  /** The commands `Clean` sends: the session's containers removed, then its volumes, but only
      when every container removal succeeded. */
  function CleanCommands(answer: Command -> Outcome, listing: Result<Listing>, session: string): seq<Command> {
    if listing.Err? then []
    else
      var removals := ContainerRemovals(SessionContainers(listing.value.containers, session));
      removals + (if Failures(Answers(answer, removals)) == [] then VolumeRemovals(SessionVolumes(listing.value.volumes, session)) else [])
  }

  /** The errors `Clean` returns: the listing error, else the container removal errors, else the
      volume removal errors. */
  function CleanErrors(answer: Command -> Outcome, listing: Result<Listing>, session: string): seq<Error> {
    if listing.Err? then [listing.error]
    else
      var removals := ContainerRemovals(SessionContainers(listing.value.containers, session));
      var errs := Failures(Answers(answer, removals));
      if errs != [] then errs
      else Failures(Answers(answer, VolumeRemovals(SessionVolumes(listing.value.volumes, session))))
  }

  /** A failed listing removes nothing and reports one error. Otherwise `Clean` reports no error
      exactly when the daemon accepted every removal it sent, and then it removed every container
      and every volume of the session; it never reports more errors than it sent removals. */
  lemma CleanSound(answer: Command -> Outcome, listing: Result<Listing>, session: string)
    ensures listing.Err? ==> CleanCommands(answer, listing, session) == [] && |CleanErrors(answer, listing, session)| == 1
    ensures listing.Ok? ==>
      (CleanErrors(answer, listing, session) == [] <==> AllAccepted(answer, CleanCommands(answer, listing, session)))
      && |CleanErrors(answer, listing, session)| <= |CleanCommands(answer, listing, session)|
    ensures listing.Ok? && CleanErrors(answer, listing, session) == [] ==>
      |CleanCommands(answer, listing, session)|
        == |SessionContainers(listing.value.containers, session)| + |SessionVolumes(listing.value.volumes, session)|
  {
    if listing.Ok? {
      var removals := ContainerRemovals(SessionContainers(listing.value.containers, session));
      var vols := VolumeRemovals(SessionVolumes(listing.value.volumes, session));
      var cmds, errs := CleanCommands(answer, listing, session), CleanErrors(answer, listing, session);
      NoFailures(answer, removals);
      if Failures(Answers(answer, removals)) == [] {
        assert cmds == removals + vols;
        assert errs == Failures(Answers(answer, vols));
        NoFailures(answer, vols);
        AcceptedAppend(answer, removals, vols);
      } else {
        assert cmds == removals;
        assert errs == Failures(Answers(answer, removals));
      }
    }
  }

  // ----- Warm -----

  /** The images `Warm` pulls: the plugins' missing images, then the processors'. */
  function WarmPulls(template: Template, images: seq<ImageRef>): seq<ImageRef> {
    Missing(template.plugins, images) + Missing(template.processors, images)
  }

  /** The session volume: named after the template and the session. */
  function SessionVolume(template: Template, session: string): VolumeRef {
    VolumeRef(template.principal.id, session)
  }

  function CreateSessionVolume(template: Template, session: string): Command {
    VolumeCreate(VolumeToString(SessionVolume(template, session)), DevLabels)
  }

  /** The commands of `Warm`'s two branches, in the order they reached the daemon: the pulls (none
      when nothing is missing) and the volume creation. */
  function WarmCommands(template: Template, session: string, images: seq<ImageRef>, pullsFirst: bool): seq<Command> {
    var pulls := Pulls(WarmPulls(template, images));
    var create := [CreateSessionVolume(template, session)];
    if pullsFirst then pulls + create else create + pulls
  }

  /** `Warm`'s errors: those of the branch that reported first, if any, else the other's. */
  function WarmErrors(answer: Command -> Outcome, template: Template, session: string, images: seq<ImageRef>, pullsFirst: bool): seq<Error> {
    var pullErrs := Failures(Answers(answer, Pulls(WarmPulls(template, images))));
    var create := answer(CreateSessionVolume(template, session));
    var volumeErrs := if create.Fail? then [create.error] else [];
    var (first, second) := if pullsFirst then (pullErrs, volumeErrs) else (volumeErrs, pullErrs);
    if |first| > 0 then first else second
  }

  /** `Warm` pulls exactly the wanted images, of plugins or processors, that are not listed. */
  lemma WarmPullsSound(template: Template, images: seq<ImageRef>)
    ensures forall x :: x in WarmPulls(template, images) <==>
      x !in images && (x in Wants(template.plugins) || x in Wants(template.processors))
    ensures images == [] ==> WarmPulls(template, images) == Wants(template.plugins) + Wants(template.processors)
  {
    MissingSound(template.plugins, images);
    MissingSound(template.processors, images);
  }

  /** `Warm` reports no error exactly when the daemon accepted every pull and the volume
      creation; otherwise it reports either the pull errors or the volume error alone. */
  lemma WarmErrorsSound(answer: Command -> Outcome, template: Template, session: string, images: seq<ImageRef>, pullsFirst: bool)
    ensures WarmErrors(answer, template, session, images, pullsFirst) == [] <==>
      AllAccepted(answer, WarmCommands(template, session, images, pullsFirst))
    ensures var errs := WarmErrors(answer, template, session, images, pullsFirst);
      errs == Failures(Answers(answer, Pulls(WarmPulls(template, images))))
      || errs == [answer(CreateSessionVolume(template, session)).error]
  {
    var pulls := Pulls(WarmPulls(template, images));
    var create := [CreateSessionVolume(template, session)];
    NoFailures(answer, pulls);
    assert AllAccepted(answer, create) <==> answer(create[0]).Pass?;
    if pullsFirst {
      AcceptedAppend(answer, pulls, create);
    } else {
      AcceptedAppend(answer, create, pulls);
    }
  }

  // ----- The merger -----

  /** The merger container of a session. */
  function MergerContainer(mergerId: string, session: string): ContainerRef {
    ContainerRef(mergerId, "merger", session)
  }

  /** What `startMerger` sends once the coordinator image is known. */
  function MergerCommands(image: ImageRef, mergerId: string, session: string, templateVolume: VolumeRef, workVolume: VolumeRef): seq<Command> {
    StartCommands(MergerContainer(mergerId, session), image, ReadWriteMounts(templateVolume, workVolume))
  }

  /** `startMerger`'s result: the coordinator lookup's error, or the create-and-start chain's
      outcome. The readiness poll that follows does not enter it. */
  function MergerOutcome(queries: Query -> Outcome, answer: Command -> Outcome, d: Daemon, mergerId: string, session: string, templateVolume: VolumeRef, workVolume: VolumeRef): Outcome {
    var image := CoordinatorImage(queries, d);
    if image.Err? then Fail(image.error)
    else Chain(answer, MergerCommands(image.value, mergerId, session, templateVolume, workVolume)).0
  }

  /** The merger starts exactly when the coordinator image is found and the daemon accepts both
      the creation and the start; a failure carries the lookup's or the refused command's error. */
  lemma MergerOutcomeSound(queries: Query -> Outcome, answer: Command -> Outcome, d: Daemon, mergerId: string, session: string, templateVolume: VolumeRef, workVolume: VolumeRef)
    ensures var image := CoordinatorImage(queries, d);
      MergerOutcome(queries, answer, d, mergerId, session, templateVolume, workVolume).Pass? <==>
        image.Ok? && forall k :: 0 <= k < 2 ==> answer(MergerCommands(image.value, mergerId, session, templateVolume, workVolume)[k]).Pass?
    ensures var image := CoordinatorImage(queries, d);
      var r := MergerOutcome(queries, answer, d, mergerId, session, templateVolume, workVolume);
      r.Fail? ==>
        ((image.Err? && r.error == image.error)
         || (image.Ok? && exists k :: 0 <= k < 2 && answer(MergerCommands(image.value, mergerId, session, templateVolume, workVolume)[k]) == r))
  {
    var image := CoordinatorImage(queries, d);
    if image.Ok? {
      var cs := MergerCommands(image.value, mergerId, session, templateVolume, workVolume);
      ChainSound(answer, cs);
    }
  }

  /** `Clean`'s first loop: the listed containers of the session, in order. */
  method SelectContainers(containers: seq<ContainerRef>, session: string) returns (selected: seq<ContainerRef>)
    ensures selected == SessionContainers(containers, session)
  {
    selected := [];
    for k := 0 to |containers|
      invariant selected == SessionContainers(containers[..k], session)
    {
      assert containers[..k + 1][..k] == containers[..k];
      if containers[k].sessionId == session {
        selected := selected + [containers[k]];
      }
    }
    assert containers[..|containers|] == containers;
  }

  /** `Clean`'s second loop: the listed volumes of the session, in order. */
  method SelectVolumes(volumes: seq<VolumeRef>, session: string) returns (selected: seq<VolumeRef>)
    ensures selected == SessionVolumes(volumes, session)
  {
    selected := [];
    for k := 0 to |volumes|
      invariant selected == SessionVolumes(volumes[..k], session)
    {
      assert volumes[..k + 1][..k] == volumes[..k];
      if volumes[k].sessionId == session {
        selected := selected + [volumes[k]];
      }
    }
    assert volumes[..|volumes|] == volumes;
  }

  /** `Executor`: the Docker client, the template version of the session and the readiness probe. */
  class Executor {
    const docker: DockerClient
    const template: Template
    const probe: (string, nat) -> ProbeReply

    constructor (docker: DockerClient, template: Template, probe: (string, nat) -> ProbeReply)
      ensures this.docker == docker && this.template == template && this.probe == probe
    {
      this.docker := docker;
      this.template := template;
      this.probe := probe;
    }

    method MissingPluginsImages(images: seq<ImageRef>) returns (missing: seq<ImageRef>)
      ensures missing == Missing(template.plugins, images)
    {
      missing := MissingImages(template.plugins, images);
    }

    method MissingProcessorImages(images: seq<ImageRef>) returns (missing: seq<ImageRef>)
      ensures missing == Missing(template.processors, images)
    {
      missing := MissingImages(template.processors, images);
    }

    /** The two listings of `Clean`, as intended. */
    method ListContainersVolumes() returns (r: Result<Listing>)
      ensures r == ContainersVolumes(docker.queries, docker.daemon)
    {
      var containers := docker.ListContainer();
      var volumes := docker.ListVolumes();
      if containers.Err? {
        return Err(containers.error);
      }
      if volumes.Err? {
        return Err(volumes.error);
      }
      r := Ok(Listing(containers.value.0 + containers.value.1, volumes.value));
    }

    /** `Clean`: removes the session's containers, then, if that went through, its volumes. */
    method Clean(session: string) returns (errs: seq<Error>)
      modifies docker
      ensures var listing := ContainersVolumes(docker.queries, old(docker.daemon));
        errs == CleanErrors(docker.answer, listing, session)
        && docker.log == old(docker.log) + CleanCommands(docker.answer, listing, session)
        && docker.daemon == Replay(docker.answer, old(docker.daemon), CleanCommands(docker.answer, listing, session))
    {
      var listing := ListContainersVolumes();
      if listing.Err? {
        return [listing.error];
      }
      errs := CleanListed(listing.value, session);
    }

    /** The removals of `Clean` once both listings are in. */
    method CleanListed(l: Listing, session: string) returns (errs: seq<Error>)
      modifies docker
      ensures errs == CleanErrors(docker.answer, Ok(l), session)
      ensures docker.log == old(docker.log) + CleanCommands(docker.answer, Ok(l), session)
      ensures docker.daemon == Replay(docker.answer, old(docker.daemon), CleanCommands(docker.answer, Ok(l), session))
    {
      var sessionContainers := SelectContainers(l.containers, session);
      var sessionVolumes := SelectVolumes(l.volumes, session);
      ghost var removals := ContainerRemovals(sessionContainers);
      ghost var vols := VolumeRemovals(sessionVolumes);
      ghost var start, startLog := docker.daemon, docker.log;
      errs := docker.RemoveAllContainers(sessionContainers);
      if |errs| > 0 {
        assert CleanCommands(docker.answer, Ok(l), session) == removals;
        return;
      }
      assert CleanCommands(docker.answer, Ok(l), session) == removals + vols;
      errs := docker.RemoveAllVolumes(sessionVolumes);
      ReplayAppend(docker.answer, start, removals, vols);
      AppendAssoc(startLog, removals, vols);
    }

    /** `Warm`: lists the images, then pulls the missing ones (only if there are any) and creates
        the session volume; `pullsFirst` says which of the two branches reached the daemon and
        reported first. */
    method Warm(session: string, pullsFirst: bool) returns (s: string, v: VolumeRef, errs: seq<Error>)
      modifies docker
      ensures s == session
      ensures var listed := ImageListing(docker.queries, old(docker.daemon));
        listed.Err? ==>
          v == VolumeRef("", "") && errs == [listed.error]
          && docker.log == old(docker.log) && docker.daemon == old(docker.daemon)
      ensures var listed := ImageListing(docker.queries, old(docker.daemon));
        listed.Ok? ==>
          var cmds := WarmCommands(template, session, listed.value, pullsFirst);
          v == SessionVolume(template, session)
          && errs == WarmErrors(docker.answer, template, session, listed.value, pullsFirst)
          && docker.log == old(docker.log) + cmds
          && docker.daemon == Replay(docker.answer, old(docker.daemon), cmds)
    {
      s := session;
      var listed := docker.ListImages();
      if listed.Err? {
        return session, VolumeRef("", ""), [listed.error];
      }
      var images := listed.value;
      var pluginMisses := MissingPluginsImages(images);
      var processorMisses := MissingProcessorImages(images);
      var missing := pluginMisses + processorMisses;
      v := SessionVolume(template, session);
      ghost var pulls := Pulls(missing);
      ghost var create := [CreateSessionVolume(template, session)];
      ghost var log0 := docker.log;
      ghost var start := docker.daemon;
      var pullErrs: seq<Error>;
      var volumeErrs: seq<Error>;
      if pullsFirst {
        pullErrs := PullMissing(missing);
        volumeErrs := CreateVolume(v);
        AppendAssoc(log0, pulls, create);
        ReplayAppend(docker.answer, start, pulls, create);
        errs := if |pullErrs| > 0 then pullErrs else volumeErrs;
      } else {
        volumeErrs := CreateVolume(v);
        pullErrs := PullMissing(missing);
        AppendAssoc(log0, create, pulls);
        ReplayAppend(docker.answer, start, create, pulls);
        errs := if |volumeErrs| > 0 then volumeErrs else pullErrs;
      }
    }

    /** Warm's pull branch: the pulls, only when some image is missing. */
    method PullMissing(missing: seq<ImageRef>) returns (errs: seq<Error>)
      modifies docker
      ensures errs == Failures(Answers(docker.answer, Pulls(missing)))
      ensures docker.log == old(docker.log) + Pulls(missing)
      ensures docker.daemon == Replay(docker.answer, old(docker.daemon), Pulls(missing))
    {
      if |missing| > 0 {
        errs := docker.PullImages(missing);
      } else {
        assert Pulls(missing) == [];
        assert docker.log + [] == docker.log;
        errs := [];
      }
    }

    /** Warm's volume branch: the session volume, and its error if the daemon refused it. */
    method CreateVolume(v: VolumeRef) returns (errs: seq<Error>)
      modifies docker
      ensures var create := VolumeCreate(VolumeToString(v), DevLabels);
        errs == (if docker.answer(create).Fail? then [docker.answer(create).error] else [])
        && docker.log == old(docker.log) + [create]
        && docker.daemon == Replay(docker.answer, old(docker.daemon), [create])
    {
      var created := docker.CreateVolume(v);
      errs := if created.Fail? then [created.error] else [];
    }

    /** `startMerger`: the coordinator image, the merger container on both volumes, then the
        readiness poll of port 9000, whose result is only logged. */
    method StartMerger(session: string, templateVolume: VolumeRef, workVolume: VolumeRef, mergerId: string)
      returns (r: Outcome)
      modifies docker
      ensures r == MergerOutcome(docker.queries, docker.answer, old(docker.daemon), mergerId, session, templateVolume, workVolume)
      ensures var image := CoordinatorImage(docker.queries, old(docker.daemon));
        var cmds := if image.Err? then [] else
          var cs := MergerCommands(image.value, mergerId, session, templateVolume, workVolume);
          cs[..Chain(docker.answer, cs).1];
        docker.log == old(docker.log) + cmds && docker.daemon == Replay(docker.answer, old(docker.daemon), cmds)
    {
      var image := docker.GetCoordinatorImage();
      if image.Err? {
        assert Replay(docker.answer, docker.daemon, []) == docker.daemon;
        assert docker.log == docker.log + [];
        return Fail(image.error);
      }
      var c := MergerContainer(mergerId, session);
      r := docker.CreateContainerWithReadWriteVolume(c, templateVolume, workVolume, image.value);
      if r.Fail? {
        return;
      }
      var ready, polls := WaitReady(probe, "http://" + ContainerToString(c) + ":9000", 60);
    }
  }
}
