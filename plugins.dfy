/**
 * A generated plugin as the generator sees it. The Java object's behaviour that the generator
 * only invokes (`extraImports`, `pluginSuperclass`, `needsReplacement`,
 * `isWithExceptionReplacement`) is recorded here as the values those calls produce; its
 * `generate` and `register` text is left abstract.
 */
module Plugins {
  import opened Elements

  datatype GeneratedPlugin = GeneratedPlugin(
    intrinsicMethod: Element,
    pluginName: string,
    pluginSuperclass: string,
    extraImports: seq<string>,
    needsReplacement: bool,
    isWithExceptionReplacement: bool)

  /** The sort key of `disambiguateWith`: `GeneratedPlugin::getPluginName`. */
  function PluginName(p: GeneratedPlugin): string {
    p.pluginName
  }

  /** The grouping key of `addPlugin`. */
  function Owner(p: GeneratedPlugin): Element {
    TopLevel(p.intrinsicMethod)
  }
}
