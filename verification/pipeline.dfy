/** The coordinator's build pipeline (`Merger.Merge`): run every processor, merge their outputs,
    then apply every plugin to the merged directory, stopping at the first stage that fails. */
module Pipeline {
  import opened Base
  import opened Models
  import opened DomainModel
  import opened Registry
  import opened Strings

  /** The request sent to a processor container. */
  datatype IsoProcessorReq = IsoProcessorReq(readDir: string, writeDir: string, globs: seq<CyanGlob>, config: Config)
  /** The request sent to a plugin container. */
  datatype IsoPluginReq = IsoPluginReq(directory: string, config: Config)
  /** The request sent to the merger container. */
  datatype MergeReq = MergeReq(fromDirs: seq<string>, toDir: string, template: Template)

  /** `Merger`: the registry it resolves references with, the template and the session. */
  datatype Merger = Merger(registry: RegistryClient, template: Template, sessionId: string)

  /** What the pipeline calls into, as parameters: the UUID generator of the `k`-th processor
      goroutine and of the merge directory, and the JSON POSTs to the worker containers. */
  datatype MergerEnv = MergerEnv(
    writeUuid: nat -> Result<string>,
    mergeUuid: Result<string>,
    postProcess: (Endpoint, IsoProcessorReq) -> Result<string>,
    postMerge: (Endpoint, MergeReq) -> Outcome,
    postPlug: (Endpoint, IsoPluginReq) -> Outcome)

  /** A worker container's HTTP endpoint, `http://<container name>:<port><path>`. */
  datatype Endpoint = Endpoint(container: ContainerRef, port: nat, path: string)

  function Url(e: Endpoint): string {
    "http://" + ContainerToString(e.container) + ":" + NatToString(e.port) + e.path
  }

  /** A POST the pipeline makes after the processors: to the merger, then to the plugins. */
  datatype Call = MergeCall(endpoint: Endpoint, mergeReq: MergeReq) | PlugCall(endpoint: Endpoint, plugReq: IsoPluginReq)

  function ProcessorEndpoint(m: Merger, id: string): Endpoint {
    Endpoint(ContainerRef(id, "processor", m.sessionId), 5551, "/api/process")
  }

  function PluginEndpoint(m: Merger, id: string): Endpoint {
    Endpoint(ContainerRef(id, "plugin", m.sessionId), 5552, "/api/plug")
  }

  function MergerEndpoint(m: Merger, mergerId: string): Endpoint {
    Endpoint(ContainerRef(mergerId, "merger", m.sessionId), 9000, "/merge/" + m.sessionId)
  }

  const WorkArea := "/workspace/area/"

  // ----- Processors -----

  /** One processor goroutine of `execProcessors`: a write directory, the resolved processor, the
      check that the template lists it, and the POST; the output directory or the first error. */
  function ProcessorRun(m: Merger, env: MergerEnv, p: CyanProcessorReq, k: nat): Result<string>
  {
    match env.writeUuid(k)
    case Err(e) => Err(e)
    case Ok(writeId) =>
      match ResolveProcessor(m.registry, p, m.template.processors)
      case Err(e) => Err(e)
      case Ok(pp) =>
        if !Allows(m.template.processors, pp.id) then Err(NotInTemplate(pp.id, m.template.principal.id))
        else env.postProcess(ProcessorEndpoint(m, pp.id),
               IsoProcessorReq("/workspace/cyanprint", WorkArea + writeId, pp.files, pp.config))
  }

  /** The template check never stops a processor named without a version: the scanned version
      is one the template allows, so once resolved it is always posted. */
  lemma UnversionedAlwaysPosted(m: Merger, env: MergerEnv, p: CyanProcessorReq, k: nat)
    requires Unversioned(p.name)
    requires env.writeUuid(k).Ok?
    requires ResolveProcessor(m.registry, p, m.template.processors).Ok?
    ensures var pp := ResolveProcessor(m.registry, p, m.template.processors).value;
      ProcessorRun(m, env, p, k)
        == env.postProcess(ProcessorEndpoint(m, pp.id),
             IsoProcessorReq("/workspace/cyanprint", WorkArea + env.writeUuid(k).value, pp.files, pp.config))
  {
    ResolveProcessorSound(m.registry, p, m.template.processors);
  }

  function ProcessorRuns(m: Merger, env: MergerEnv, ps: seq<CyanProcessorReq>): (rs: seq<Result<string>>)
    ensures |rs| == |ps|
    ensures forall k :: 0 <= k < |ps| ==> rs[k] == ProcessorRun(m, env, ps[k], k)
  {
    seq(|ps|, k requires 0 <= k < |ps| => ProcessorRun(m, env, ps[k], k))
  }

  /** The directory a processor reports: its output, or "" when it failed. */
  function DirOf(r: Result<string>): string {
    if r.Ok? then r.value else ""
  }

  /** `execProcessors`: the write directories and the errors in the order `order` in which the
      processors report back; one directory per processor, "" for a failed one. */
  method ExecProcessors(m: Merger, env: MergerEnv, ps: seq<CyanProcessorReq>, order: seq<nat>)
    returns (writeDirs: seq<string>, errs: seq<Error>)
    requires IsOrder(order, |ps|)
    ensures writeDirs == Dirs(ProcessorRuns(m, env, ps), order)
    ensures errs == Errors(Arrived(ProcessorRuns(m, env, ps), order))
    ensures errs == [] <==> forall k :: 0 <= k < |ps| ==> ProcessorRuns(m, env, ps)[k].Ok?
  {
    var runs := RunProcessors(m, env, ps);
    writeDirs, errs := CollectDirs(runs, order);
    ArrivedErrors(runs, order);
  }

  /** The processor goroutines, each run to completion. */
  method RunProcessors(m: Merger, env: MergerEnv, ps: seq<CyanProcessorReq>) returns (runs: seq<Result<string>>)
    ensures runs == ProcessorRuns(m, env, ps)
  {
    ghost var all := ProcessorRuns(m, env, ps);
    runs := [];
    for k := 0 to |ps|
      invariant runs == all[..k]
    {
      var r := RunProcessor(m, env, ps[k], k);
      PrefixSnoc(all, k);
      runs := runs + [r];
    }
    assert all[..|ps|] == all;
  }

  /** The receiving loop of `execProcessors`: directories and errors as they arrive. */
  method CollectDirs(runs: seq<Result<string>>, order: seq<nat>) returns (writeDirs: seq<string>, errs: seq<Error>)
    requires forall k :: 0 <= k < |order| ==> order[k] < |runs|
    ensures writeDirs == Dirs(runs, order)
    ensures errs == Errors(Arrived(runs, order))
  {
    writeDirs, errs := [], [];
    for i := 0 to |order|
      invariant writeDirs == Map(Arrived(runs, order[..i]), DirOf)
      invariant errs == Errors(Arrived(runs, order[..i]))
    {
      var r := runs[order[i]];
      writeDirs := writeDirs + [DirOf(r)];
      ArrivedSnoc(runs, order, i);
      MapSnoc(Arrived(runs, order[..i]), r, DirOf);
      ErrorsSnoc(Arrived(runs, order[..i]), r);
      if r.Err? {
        errs := errs + [r.error];
      }
    }
    assert order[..|order|] == order;
  }

  /** The directories in arrival order, "" for a failed processor. */
  function Dirs(runs: seq<Result<string>>, order: seq<nat>): (ds: seq<string>)
    requires forall k :: 0 <= k < |order| ==> order[k] < |runs|
    ensures |ds| == |order|
    ensures forall i :: 0 <= i < |order| ==> ds[i] == DirOf(runs[order[i]])
  {
    Map(Arrived(runs, order), DirOf)
  }

  /** One processor goroutine, calling the registry client. */
  method RunProcessor(m: Merger, env: MergerEnv, p: CyanProcessorReq, k: nat) returns (r: Result<string>)
    ensures r == ProcessorRun(m, env, p, k)
  {
    var writeId := env.writeUuid(k);
    if writeId.Err? {
      return Err(writeId.error);
    }
    var pp, _ := ConvertProcessor(m.registry, p, m.template.processors);
    if pp.Err? {
      return Err(pp.error);
    }
    var exist := FindAllowed(m.template.processors, pp.value.id);
    if !exist {
      return Err(NotInTemplate(pp.value.id, m.template.principal.id));
    }
    r := env.postProcess(ProcessorEndpoint(m, pp.value.id),
      IsoProcessorReq("/workspace/cyanprint", WorkArea + writeId.value, pp.value.files, pp.value.config));
  }

  // ----- Plugins -----

  function PluginRuns(m: Merger, ps: seq<CyanPluginReq>): (rs: seq<Result<CyanPlugin>>)
    ensures |rs| == |ps|
    ensures forall k :: 0 <= k < |ps| ==> rs[k] == ResolvePlugin(m.registry, ps[k], m.template.plugins)
  {
    seq(|ps|, k requires 0 <= k < |ps| => ResolvePlugin(m.registry, ps[k], m.template.plugins))
  }

  function PluginOf(r: Result<CyanPlugin>): CyanPlugin {
    if r.Ok? then r.value else NoPlugin
  }

  function PlugCallOf(m: Merger, mergePath: string, p: CyanPlugin): Call {
    PlugCall(PluginEndpoint(m, p.id), IsoPluginReq(mergePath, p.config))
  }

  /** What the POST of one plugin gives back. */
  function PlugOutcome(m: Merger, env: MergerEnv, mergePath: string, p: CyanPlugin): Outcome {
    env.postPlug(PluginEndpoint(m, p.id), IsoPluginReq(mergePath, p.config))
  }

  /** The POSTs of the plugins, in order, up to and including the first that fails. */
  function PostPlugins(m: Merger, env: MergerEnv, mergePath: string, ps: seq<CyanPlugin>): (seq<Call>, Option<Error>)
  {
    if ps == [] then ([], None)
    else
      var prev := PostPlugins(m, env, mergePath, ps[..|ps| - 1]);
      if prev.1.Some? then prev
      else
        var c := PlugCallOf(m, mergePath, ps[|ps| - 1]);
        match PlugOutcome(m, env, mergePath, ps[|ps| - 1])
        case Pass => (prev.0 + [c], None)
        case Fail(e) => (prev.0 + [c], Some(e))
  }

  /** The POSTs made are those of a prefix of the plugins, in order; no error means every plugin
      was posted and passed; an error is the last POST's, and every earlier one passed. */
  lemma {:induction false} PostPluginsSound(m: Merger, env: MergerEnv, mergePath: string, ps: seq<CyanPlugin>)
    ensures var run := PostPlugins(m, env, mergePath, ps);
      |run.0| <= |ps|
    ensures var run := PostPlugins(m, env, mergePath, ps);
      forall i :: 0 <= i < |run.0| ==> run.0[i] == PlugCallOf(m, mergePath, ps[i])
    ensures var run := PostPlugins(m, env, mergePath, ps);
      run.1.None? <==> |run.0| == |ps| && forall i :: 0 <= i < |ps| ==> PlugOutcome(m, env, mergePath, ps[i]).Pass?
    ensures var run := PostPlugins(m, env, mergePath, ps);
      run.1.Some? ==>
      1 <= |run.0|
      && PlugOutcome(m, env, mergePath, ps[|run.0| - 1]) == Fail(run.1.value)
      && forall i :: 0 <= i < |run.0| - 1 ==> PlugOutcome(m, env, mergePath, ps[i]).Pass?
    decreases |ps|
  {
    if ps != [] {
      var init := ps[..|ps| - 1];
      PostPluginsSound(m, env, mergePath, init);
      assert forall i :: 0 <= i < |ps| - 1 ==> init[i] == ps[i];
    }
  }

  /** Once a POST has failed, later plugins are not posted. */
  lemma {:induction false} PostPluginsStops(m: Merger, env: MergerEnv, mergePath: string, ps: seq<CyanPlugin>, i: nat)
    requires i <= |ps|
    requires PostPlugins(m, env, mergePath, ps[..i]).1.Some?
    ensures PostPlugins(m, env, mergePath, ps) == PostPlugins(m, env, mergePath, ps[..i])
    decreases |ps|
  {
    if i < |ps| {
      assert ps[..|ps| - 1][..i] == ps[..i];
      PostPluginsStops(m, env, mergePath, ps[..|ps| - 1], i);
    } else {
      assert ps[..i] == ps;
    }
  }

  /** `execPlugins`: resolves every plugin (reported back in the order `order`); any failure
      returns all the resolution errors and posts nothing; otherwise posts the resolved plugins
      one at a time in that order and returns the first POST error alone. */
  method ExecPlugins(m: Merger, env: MergerEnv, mergePath: string, ps: seq<CyanPluginReq>, order: seq<nat>)
    returns (errs: seq<Error>, calls: seq<Call>)
    requires IsOrder(order, |ps|)
    ensures PluginsOutcome(m, env, mergePath, ps, order) == (calls, errs)
  {
    var runs := RunPlugins(m, ps);
    var converted;
    converted, errs := CollectPlugins(runs, order);
    if |errs| > 0 {
      return errs, [];
    }
    var failure;
    calls, failure := PostAll(m, env, mergePath, converted);
    errs := if failure.Some? then [failure.value] else [];
  }

  /** The plugin goroutines of `execPlugins`, each resolving one plugin. */
  method RunPlugins(m: Merger, ps: seq<CyanPluginReq>) returns (runs: seq<Result<CyanPlugin>>)
    ensures runs == PluginRuns(m, ps)
  {
    ghost var all := PluginRuns(m, ps);
    runs := [];
    for k := 0 to |ps|
      invariant runs == all[..k]
    {
      var r, _ := ConvertPlugin(m.registry, ps[k], m.template.plugins);
      PrefixSnoc(all, k);
      runs := runs + [r];
    }
    assert all[..|ps|] == all;
  }

  /** The sequential POST loop of `execPlugins`: one plugin at a time, stopping at the first failure. */
  method PostAll(m: Merger, env: MergerEnv, mergePath: string, converted: seq<CyanPlugin>)
    returns (calls: seq<Call>, failure: Option<Error>)
    ensures PostPlugins(m, env, mergePath, converted) == (calls, failure)
  {
    calls := [];
    for i := 0 to |converted|
      invariant PostPlugins(m, env, mergePath, converted[..i]) == (calls, None)
    {
      var c := PlugCallOf(m, mergePath, converted[i]);
      var out := env.postPlug(c.endpoint, c.plugReq);
      assert out == PlugOutcome(m, env, mergePath, converted[i]);
      calls := calls + [c];
      assert converted[..i + 1][..i] == converted[..i];
      if out.Fail? {
        PostPluginsStops(m, env, mergePath, converted, i + 1);
        return calls, Some(out.error);
      }
    }
    assert converted[..|converted|] == converted;
    failure := None;
  }

  /** The receiving loop of `execPlugins`: resolved plugins and errors as they arrive. */
  method CollectPlugins(runs: seq<Result<CyanPlugin>>, order: seq<nat>) returns (converted: seq<CyanPlugin>, errs: seq<Error>)
    requires forall k :: 0 <= k < |order| ==> order[k] < |runs|
    ensures converted == Converted(runs, order)
    ensures errs == Errors(Arrived(runs, order))
  {
    converted, errs := [], [];
    for i := 0 to |order|
      invariant converted == Map(Arrived(runs, order[..i]), PluginOf)
      invariant errs == Errors(Arrived(runs, order[..i]))
    {
      var r := runs[order[i]];
      converted := converted + [PluginOf(r)];
      ArrivedSnoc(runs, order, i);
      MapSnoc(Arrived(runs, order[..i]), r, PluginOf);
      ErrorsSnoc(Arrived(runs, order[..i]), r);
      if r.Err? {
        errs := errs + [r.error];
      }
    }
    assert order[..|order|] == order;
  }

  /** The resolved plugins in arrival order, Go's zero plugin for a failed one. */
  function Converted(runs: seq<Result<CyanPlugin>>, order: seq<nat>): (cs: seq<CyanPlugin>)
    requires forall k :: 0 <= k < |order| ==> order[k] < |runs|
    ensures |cs| == |order|
    ensures forall i :: 0 <= i < |order| ==> cs[i] == PluginOf(runs[order[i]])
  {
    Map(Arrived(runs, order), PluginOf)
  }

  /** The POSTs `execPlugins` makes and the errors it returns. */
  function PluginsOutcome(m: Merger, env: MergerEnv, mergePath: string, ps: seq<CyanPluginReq>, order: seq<nat>): (seq<Call>, seq<Error>)
    requires IsOrder(order, |ps|)
  {
    var runs := PluginRuns(m, ps);
    var errs := Errors(Arrived(runs, order));
    if errs != [] then ([], errs)
    else
      var run := PostPlugins(m, env, mergePath, Converted(runs, order));
      (run.0, if run.1.Some? then [run.1.value] else [])
  }

  /** The plugin stage when a resolution fails: nothing is posted, and every resolution error is
      returned. */
  lemma PluginsResolveFails(m: Merger, env: MergerEnv, mergePath: string, ps: seq<CyanPluginReq>, order: seq<nat>)
    requires IsOrder(order, |ps|)
    requires exists k :: 0 <= k < |ps| && ResolvePlugin(m.registry, ps[k], m.template.plugins).Err?
    ensures var (calls, errs) := PluginsOutcome(m, env, mergePath, ps, order);
      calls == [] && errs != [] && |errs| <= |ps|
  {
    ArrivedErrors(PluginRuns(m, ps), order);
  }

  /** The plugin stage when every plugin resolves: the resolved plugins (`Converted`, in arrival
      order) are posted one at a time until one fails, and that single error is returned; no
      error means every plugin was posted and passed. */
  lemma PluginsPosted(m: Merger, env: MergerEnv, mergePath: string, ps: seq<CyanPluginReq>, order: seq<nat>)
    requires IsOrder(order, |ps|)
    requires forall k :: 0 <= k < |ps| ==> PluginRuns(m, ps)[k].Ok?
    ensures var (calls, errs) := PluginsOutcome(m, env, mergePath, ps, order);
      var cs := Converted(PluginRuns(m, ps), order);
      |errs| <= 1 && |calls| <= |ps|
      && (forall i :: 0 <= i < |calls| ==> calls[i] == PlugCallOf(m, mergePath, cs[i]))
      && (errs == [] <==> |calls| == |ps| && forall i :: 0 <= i < |ps| ==> PlugOutcome(m, env, mergePath, cs[i]).Pass?)
  {
    var runs := PluginRuns(m, ps);
    ArrivedErrors(runs, order);
    PostPluginsSound(m, env, mergePath, Converted(runs, order));
  }

  /** The plugin stage makes only plugin POSTs, one per plugin when it returns no error. */
  lemma PluginsOutcomeCalls(m: Merger, env: MergerEnv, mergePath: string, ps: seq<CyanPluginReq>, order: seq<nat>)
    requires IsOrder(order, |ps|)
    ensures var (calls, errs) := PluginsOutcome(m, env, mergePath, ps, order);
      (forall i :: 0 <= i < |calls| ==> calls[i].PlugCall?) && (errs == [] ==> |calls| == |ps|)
  {
    var runs := PluginRuns(m, ps);
    if Errors(Arrived(runs, order)) == [] {
      PostPluginsSound(m, env, mergePath, Converted(runs, order));
    }
  }

  // ----- Merge -----

  /** The outcome of `Merge`: the merged directory ("" on failure), the errors, and the POSTs made
      after the processors. */
  datatype MergeOutcome = MergeOutcome(path: string, errs: seq<Error>, calls: seq<Call>)

  function MergeSpec(m: Merger, env: MergerEnv, req: BuildReq, procOrder: seq<nat>, plugOrder: seq<nat>): MergeOutcome
    requires IsOrder(procOrder, |req.processors|) && IsOrder(plugOrder, |req.plugins|)
  {
    var runs := ProcessorRuns(m, env, req.processors);
    var errs := Errors(Arrived(runs, procOrder));
    if errs != [] then MergeOutcome("", errs, [])
    else match env.mergeUuid
      case Err(e) => MergeOutcome("", [e], [])
      case Ok(id) =>
        var path := WorkArea + id;
        var mc := MergeCall(MergerEndpoint(m, req.mergerId), MergeReq(Dirs(runs, procOrder), path, m.template));
        AfterMerge(m, env, req.plugins, plugOrder, path, mc)
  }

  /** What follows the processors: the merger POST, then, if it succeeded, the plugins. */
  function AfterMerge(m: Merger, env: MergerEnv, plugins: seq<CyanPluginReq>, plugOrder: seq<nat>, path: string, mc: Call): MergeOutcome
    requires IsOrder(plugOrder, |plugins|) && mc.MergeCall?
  {
    match env.postMerge(mc.endpoint, mc.mergeReq)
    case Fail(e) => MergeOutcome("", [e], [mc])
    case Pass =>
      var (pcalls, perrs) := PluginsOutcome(m, env, path, plugins, plugOrder);
      if perrs != [] then MergeOutcome("", perrs, [mc] + pcalls)
      else MergeOutcome(path, [], [mc] + pcalls)
  }

  /** `Merge`: the processors, then the merge of their outputs in arrival order, then the plugins;
      each stage runs only if the previous one succeeded. */
  method Merge(m: Merger, env: MergerEnv, req: BuildReq, procOrder: seq<nat>, plugOrder: seq<nat>)
    returns (path: string, errs: seq<Error>, calls: seq<Call>)
    requires IsOrder(procOrder, |req.processors|) && IsOrder(plugOrder, |req.plugins|)
    ensures MergeSpec(m, env, req, procOrder, plugOrder) == MergeOutcome(path, errs, calls)
  {
    var dirs;
    dirs, errs := ExecProcessors(m, env, req.processors, procOrder);
    if |errs| > 0 {
      return "", errs, [];
    }
    var mergeDir := env.mergeUuid;
    if mergeDir.Err? {
      return "", [mergeDir.error], [];
    }
    var mc := MergeCall(MergerEndpoint(m, req.mergerId), MergeReq(dirs, WorkArea + mergeDir.value, m.template));
    path, errs, calls := MergeAndPlug(m, env, req.plugins, plugOrder, WorkArea + mergeDir.value, mc);
  }

  /** The merger POST and the plugin stage of `Merge`. */
  method MergeAndPlug(m: Merger, env: MergerEnv, plugins: seq<CyanPluginReq>, plugOrder: seq<nat>, mergePath: string, mc: Call)
    returns (path: string, errs: seq<Error>, calls: seq<Call>)
    requires IsOrder(plugOrder, |plugins|) && mc.MergeCall?
    ensures AfterMerge(m, env, plugins, plugOrder, mergePath, mc) == MergeOutcome(path, errs, calls)
  {
    var out := env.postMerge(mc.endpoint, mc.mergeReq);
    if out.Fail? {
      return "", [out.error], [mc];
    }
    var pcalls;
    errs, pcalls := ExecPlugins(m, env, mergePath, plugins, plugOrder);
    calls := [mc] + pcalls;
    path := if |errs| > 0 then "" else mergePath;
  }

  /** A failed processor stops `Merge` before the merger and the plugins are called: the result is
      "" with the processor errors, at most one per processor. */
  lemma MergeProcessorFailure(m: Merger, env: MergerEnv, req: BuildReq, procOrder: seq<nat>, plugOrder: seq<nat>)
    requires IsOrder(procOrder, |req.processors|) && IsOrder(plugOrder, |req.plugins|)
    requires exists k :: 0 <= k < |req.processors| && ProcessorRun(m, env, req.processors[k], k).Err?
    ensures var o := MergeSpec(m, env, req, procOrder, plugOrder);
      o.path == "" && o.calls == [] && o.errs != [] && |o.errs| <= |req.processors|
  {
    ArrivedErrors(ProcessorRuns(m, env, req.processors), procOrder);
  }

  /** `Merge` returns a directory exactly when it returns no error, and that directory is the
      fresh one under the work area. */
  lemma MergePath(m: Merger, env: MergerEnv, req: BuildReq, procOrder: seq<nat>, plugOrder: seq<nat>)
    requires IsOrder(procOrder, |req.processors|) && IsOrder(plugOrder, |req.plugins|)
    ensures var o := MergeSpec(m, env, req, procOrder, plugOrder);
      o.errs != [] ==> o.path == ""
    ensures var o := MergeSpec(m, env, req, procOrder, plugOrder);
      o.errs == [] ==> env.mergeUuid.Ok? && o.path == WorkArea + env.mergeUuid.value
  {
  }

  /** The merger is called first and alone, then the plugins; a success has called every plugin. */
  lemma MergeCalls(m: Merger, env: MergerEnv, req: BuildReq, procOrder: seq<nat>, plugOrder: seq<nat>)
    requires IsOrder(procOrder, |req.processors|) && IsOrder(plugOrder, |req.plugins|)
    ensures var o := MergeSpec(m, env, req, procOrder, plugOrder);
      |o.calls| >= 1 ==> o.calls[0].MergeCall? && forall i :: 1 <= i < |o.calls| ==> o.calls[i].PlugCall?
    ensures var o := MergeSpec(m, env, req, procOrder, plugOrder);
      o.errs == [] ==> |o.calls| == 1 + |req.plugins|
  {
    var runs := ProcessorRuns(m, env, req.processors);
    if Errors(Arrived(runs, procOrder)) == [] && env.mergeUuid.Ok? {
      var path := WorkArea + env.mergeUuid.value;
      var mc := MergeCall(MergerEndpoint(m, req.mergerId), MergeReq(Dirs(runs, procOrder), path, m.template));
      AfterMergeCalls(m, env, req.plugins, plugOrder, path, mc);
    }
  }

  /** After the processors: the merger call alone, then only plugin calls, all of them on success. */
  lemma AfterMergeCalls(m: Merger, env: MergerEnv, plugins: seq<CyanPluginReq>, plugOrder: seq<nat>, path: string, mc: Call)
    requires IsOrder(plugOrder, |plugins|) && mc.MergeCall?
    ensures var o := AfterMerge(m, env, plugins, plugOrder, path, mc);
      |o.calls| >= 1 && o.calls[0] == mc && forall i :: 1 <= i < |o.calls| ==> o.calls[i].PlugCall?
    ensures var o := AfterMerge(m, env, plugins, plugOrder, path, mc);
      o.errs == [] ==> |o.calls| == 1 + |plugins|
  {
    if env.postMerge(mc.endpoint, mc.mergeReq).Pass? {
      var pcalls := PluginsOutcome(m, env, path, plugins, plugOrder).0;
      PluginsOutcomeCalls(m, env, path, plugins, plugOrder);
      forall i | 1 <= i < |[mc] + pcalls|
        ensures ([mc] + pcalls)[i].PlugCall?
      {
        ConsAt(mc, pcalls, i);
      }
    }
  }
}
