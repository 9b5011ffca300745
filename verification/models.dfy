/** The records the orchestrator exchanges with the registry, the coordinator's callers and
    the worker containers, reduced to the fields the modelled code reads. */
module Models {

  /** A plugin or processor version the template allows (`PluginRes`, `ProcessorRes`). */
  datatype TemplateEntry = TemplateEntry(id: string, dockerReference: string, dockerSha: string)

  /** The template version (`TemplateVersionPrincipalRes`): its id and the two images it runs,
      the blob image that fills the template volume and the template image that serves it. */
  datatype TemplatePrincipal = TemplatePrincipal(
    id: string,
    blobDockerReference: string, blobDockerTag: string,
    templateDockerReference: string, templateDockerTag: string)

  /** A template version with the plugin and processor versions it allows (`TemplateVersionRes`). */
  datatype Template = Template(principal: TemplatePrincipal, plugins: seq<TemplateEntry>, processors: seq<TemplateEntry>)

  /** A free-form JSON configuration, passed through untouched; `Null` is Go's nil interface. */
  datatype Config = Null | Json(text: string)

  datatype CyanGlob = CyanGlob(glob: string, exclude: seq<string>, globType: string)

  /** A processor or plugin as the caller names it: a `user/name[:version]` reference. */
  datatype CyanProcessorReq = CyanProcessorReq(name: string, config: Config, files: seq<CyanGlob>)
  datatype CyanPluginReq = CyanPluginReq(name: string, config: Config)

  /** A resolved processor or plugin: the registry id of the chosen version. */
  datatype CyanProcessor = CyanProcessor(
    id: string, reference: string, username: string, name: string, version: int,
    config: Config, files: seq<CyanGlob>)
  datatype CyanPlugin = CyanPlugin(
    id: string, reference: string, username: string, name: string, version: int, config: Config)

  /** Go's zero values of the two resolved records. */
  const NoProcessor := CyanProcessor("", "", "", "", 0, Null, [])
  const NoPlugin := CyanPlugin("", "", "", "", 0, Null)

  /** The caller's build request: processors, plugins and the merger container to use. */
  datatype BuildReq = BuildReq(processors: seq<CyanProcessorReq>, plugins: seq<CyanPluginReq>, mergerId: string)
}
