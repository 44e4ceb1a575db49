/**
 * `createPluginFactory`: the factory class generated for one top-level class. Its name, the
 * architecture it declares, the source it writes and the provider entry it registers.
 *
 * The source is modelled as its sequence of lines. Fixed text is kept as text. The blocks that
 * `GeneratedPlugin.generate` and `GeneratedPlugin.register` print stay abstract, as a line naming
 * the plugin.
 */
module PluginFactory {
  import opened Wrappers
  import opened Strings
  import opened Elements
  import opened Plugins
  import opened Imports

  /** Architecture name as it appears in a package name, mapped to `Architecture.getName()`. */
  const SupportedArchitectures: map<string, string> :=
    map["amd64" := "AMD64", "aarch64" := "aarch64", "riscv64" := "riscv64"]

  const FactoryPrefix := "PluginFactory_"

  /** The service the generated class is registered for. */
  const ProviderContract := "jdk.graal.compiler.nodes.graphbuilderconf.GeneratedPluginFactory"

  /** `PackageElement.getSimpleName()`: the last segment of the qualified name. */
  function PackageSimpleName(qualified: string): (r: string)
    ensures '.' !in r
    ensures |r| <= |qualified| && r == qualified[|qualified| - |r|..]
    ensures |r| < |qualified| ==> qualified[|qualified| - |r| - 1] == '.'
    ensures '.' !in qualified ==> r == qualified
  {
    AfterLast(qualified, '.')
  }

  /** The architecture a package's factory declares, looked up by the package's simple name. */
  function Architecture(pkg: Element): Option<string> {
    var simple := PackageSimpleName(pkg.name);
    if simple in SupportedArchitectures then Some(SupportedArchitectures[simple]) else None
  }

  /** `"PluginFactory_" + topLevelClass.getSimpleName()`. */
  function FactoryClassName(topLevelClass: Element): string {
    FactoryPrefix + topLevelClass.name
  }

  /** The name the source file is created under and the provider is registered with. */
  function QualifiedFactoryName(pkg: Element, topLevelClass: Element): string {
    pkg.name + "." + FactoryClassName(topLevelClass)
  }

  // ---------------------------------------------------------------------------------------------
  // The generated source

  /** The lines whose text never varies. */
  datatype FixedLine =
    | StopHeaderCheck | StopLineLengthCheck | GeneratedContent | Generators
    | Blank | Override | GetArchitectureHead | CloseMethod | RegisterPluginsHead | CloseClass

  datatype Line =
    | Fixed(fixed: FixedLine)
    | PackageDecl(pkg: string)
    | ImportLine(name: string)
      /** What `plugin.generate` prints: the plugin's own class. */
    | PluginBlock(plugin: GeneratedPlugin)
      /** The opening of the factory class, `ArchitectureSpecific` or not. */
    | ClassHead(className: string, architectureSpecific: bool)
    | ReturnArchitecture(arch: string)
      /** What `plugin.register` prints: the statement registering the plugin. */
    | Registration(plugin: GeneratedPlugin)

  /** The text of a line; the blocks the plugins print themselves are not part of this model. */
  function Render(line: Line): Option<string> {
    match line
    case Fixed(StopHeaderCheck) => Some("// CheckStyle: stop header check")
    case Fixed(StopLineLengthCheck) => Some("// CheckStyle: stop line length check")
    case Fixed(GeneratedContent) => Some("// GENERATED CONTENT - DO NOT EDIT")
    case Fixed(Generators) => Some("// GENERATORS: jdk.graal.compiler.replacements.processor.ReplacementsAnnotationProcessor, jdk.graal.compiler.replacements.processor.PluginGenerator")
    case Fixed(Blank) => Some("")
    case Fixed(Override) => Some("    @Override")
    case Fixed(GetArchitectureHead) => Some("    public String getArchitecture() {")
    case Fixed(CloseMethod) => Some("    }")
    case Fixed(RegisterPluginsHead) => Some("    public void registerPlugins(InvocationPlugins plugins, GeneratedPluginInjectionProvider injection) {")
    case Fixed(CloseClass) => Some("}")
    case PackageDecl(pkg) => Some("package " + pkg + ";")
    case ImportLine(name) => Some("import " + name + ";")
    case ClassHead(className, architectureSpecific) => Some("public class " + className + ClassHeadTail(architectureSpecific))
    case ReturnArchitecture(arch) => Some("        return \"" + arch + "\";")
    case PluginBlock(_) => None
    case Registration(_) => None
  }

  const PlainTail := "implements GeneratedPluginFactory {"
  const SpecificTail := "implements GeneratedPluginFactory, jdk.graal.compiler.core.ArchitectureSpecific {"

  /** What follows the class name in the class head. */
  function ClassHeadTail(architectureSpecific: bool): (r: string)
    ensures |r| > 0 && r[0] == ' '
  {
    [' '] + if architectureSpecific then SpecificTail else PlainTail
  }

  /** When one split of `c + s` is shorter, the longer name carries the space that starts `s`. */
  lemma SpaceAtSplit(c1: string, s1: string, c2: string, s2: string)
    requires |s1| > 0 && s1[0] == ' ' && c1 + s1 == c2 + s2 && |c1| < |c2|
    ensures c2[|c1|] == ' '
  {
    var t := c1 + s1;
    assert t[|c1|] == s1[0];
    assert t[|c1|] == c2[|c1|];
  }

  /** A space-free name followed by text starting with a space splits in only one way. */
  lemma SplitAtSpace(c1: string, s1: string, c2: string, s2: string)
    requires ' ' !in c1 && ' ' !in c2
    requires |s1| > 0 && s1[0] == ' ' && |s2| > 0 && s2[0] == ' '
    requires c1 + s1 == c2 + s2
    ensures c1 == c2 && s1 == s2
  {
    var t := c1 + s1;
    if |c1| < |c2| {
      SpaceAtSplit(c1, s1, c2, s2);
      assert false;
    } else if |c2| < |c1| {
      SpaceAtSplit(c2, s2, c1, s1);
      assert false;
    } else {
      assert c1 == t[..|c1|] && c2 == t[..|c2|];
      assert s1 == t[|c1|..] && s2 == t[|c2|..];
    }
  }

  /**
   * The printed class head gives back the class name and whether the class is
   * `ArchitectureSpecific`, since a Java class name contains no space.
   */
  lemma RenderedClassHeadInjective(c1: string, b1: bool, c2: string, b2: bool)
    requires ' ' !in c1 && ' ' !in c2
    requires Render(ClassHead(c1, b1)) == Render(ClassHead(c2, b2))
    ensures c1 == c2 && b1 == b2
  {
    var head := "public class ";
    var t1, t2 := c1 + ClassHeadTail(b1), c2 + ClassHeadTail(b2);
    assert head + c1 + ClassHeadTail(b1) == head + t1;
    assert head + c2 + ClassHeadTail(b2) == head + t2;
    assert t1 == (head + t1)[|head|..] && t2 == (head + t2)[|head|..];
    SplitAtSpace(c1, ClassHeadTail(b1), c2, ClassHeadTail(b2));
    assert |PlainTail| != |SpecificTail|;
  }

  /** What `createImports` prints: a blank line, then one line per import. */
  function ImportSection(imports: seq<string>): (r: seq<Line>)
    ensures |r| == |imports| + 1 && r[0] == Fixed(Blank)
    ensures forall k :: 0 <= k < |imports| ==> r[k + 1] == ImportLine(imports[k])
  {
    if imports == [] then [Fixed(Blank)]
    else ImportSection(imports[..|imports| - 1]) + [ImportLine(imports[|imports| - 1])]
  }

  /** Each plugin's class followed by a blank line. */
  function PluginBlocks(ps: seq<GeneratedPlugin>): (r: seq<Line>)
    ensures |r| == 2 * |ps|
    ensures forall k :: 0 <= k < |r| ==> r[k].PluginBlock? || r[k] == Fixed(Blank)
  {
    if ps == [] then []
    else PluginBlocks(ps[..|ps| - 1]) + [PluginBlock(ps[|ps| - 1]), Fixed(Blank)]
  }

  /** The class declaration, with `getArchitecture` when the package names an architecture. */
  function ClassDeclaration(className: string, arch: Option<string>): seq<Line> {
    match arch
    case Some(a) =>
      [ClassHead(className, true), Fixed(Override), Fixed(GetArchitectureHead), ReturnArchitecture(a), Fixed(CloseMethod)]
    case None =>
      [ClassHead(className, false)]
  }

  function Registrations(ps: seq<GeneratedPlugin>): (r: seq<Line>)
    ensures |r| == |ps|
    ensures forall k :: 0 <= k < |ps| ==> r[k] == Registration(ps[k])
  {
    if ps == [] then [] else Registrations(ps[..|ps| - 1]) + [Registration(ps[|ps| - 1])]
  }

  /** What `createPluginFactoryMethod` prints: `registerPlugins` registering every plugin. */
  function FactoryMethod(ps: seq<GeneratedPlugin>): seq<Line> {
    [Fixed(Override), Fixed(RegisterPluginsHead)] + Registrations(ps) + [Fixed(CloseMethod)]
  }

  /** The source of a factory, given the pieces that vary. */
  function SourceOf(pkgName: string, className: string, imports: seq<string>, arch: Option<string>,
                    plugins: seq<GeneratedPlugin>): seq<Line>
  {
    [Fixed(StopHeaderCheck), Fixed(StopLineLengthCheck), Fixed(GeneratedContent), Fixed(Generators),
     PackageDecl(pkgName), Fixed(Blank)]
    + ImportSection(imports)
    + [Fixed(Blank)] + PluginBlocks(plugins)
    + ClassDeclaration(className, arch)
    + FactoryMethod(plugins)
    + [Fixed(CloseClass)]
  }

  /** The whole source of the factory for `topLevelClass` in package `pkg`. */
  function FactorySource(pkg: Element, topLevelClass: Element, plugins: seq<GeneratedPlugin>): seq<Line> {
    SourceOf(pkg.name, FactoryClassName(topLevelClass), Emitted(plugins, pkg.name), Architecture(pkg), plugins)
  }

  /** `createProviderFile(name, contract, originatingElement)`. */
  datatype ProviderEntry = ProviderEntry(name: string, contract: string, origin: Element)

  /** The effects of one `createPluginFactory`: the source written (if any) and the provider entry. */
  datatype FactoryOutput = FactoryOutput(source: Option<seq<Line>>, provider: ProviderEntry)

  /**
   * The effects of `createPluginFactory`: the source when the file could be opened, and in every
   * case the provider entry for the qualified factory name.
   */
  function FactoryOutputOf(topLevelClass: Element, plugins: seq<GeneratedPlugin>, sourceFileOpened: bool): FactoryOutput
    requires topLevelClass.enclosing.Some?
  {
    var pkg := topLevelClass.enclosing.value;
    FactoryOutput(if sourceFileOpened then Some(FactorySource(pkg, topLevelClass, plugins)) else None,
                  ProviderEntry(QualifiedFactoryName(pkg, topLevelClass), ProviderContract, topLevelClass))
  }

  /**
   * `createPluginFactory`. Whether the filer could create and open the source file is an input;
   * when it could not, the error is reported, nothing is written, and the provider is still
   * registered.
   */
  method CreatePluginFactory(topLevelClass: Element, plugins: seq<GeneratedPlugin>, sourceFileOpened: bool)
    returns (output: FactoryOutput)
    requires topLevelClass.enclosing.Some? && topLevelClass.enclosing.value.kind == PackageKind
    ensures output == FactoryOutputOf(topLevelClass, plugins, sourceFileOpened)
  {
    var pkg := topLevelClass.enclosing.value;
    var genClassName := FactoryPrefix + topLevelClass.name;
    var arch := Architecture(pkg);
    var qualifiedGenClassName := pkg.name + "." + genClassName;
    var source := None;
    if sourceFileOpened {
      var out := [Fixed(StopHeaderCheck), Fixed(StopLineLengthCheck), Fixed(GeneratedContent), Fixed(Generators),
                  PackageDecl(pkg.name), Fixed(Blank)];
      var imports := PrintImports(plugins, pkg.name);
      out := out + imports + [Fixed(Blank)];
      var blocks := PrintPluginBlocks(plugins);
      out := out + blocks + ClassDeclaration(genClassName, arch);
      var method_ := CreatePluginFactoryMethod(plugins);
      out := out + method_ + [Fixed(CloseClass)];
      source := Some(out);
    }
    output := FactoryOutput(source, ProviderEntry(qualifiedGenClassName, ProviderContract, topLevelClass));
  }

  /** The lines `createImports` prints. */
  method PrintImports(plugins: seq<GeneratedPlugin>, importingPackage: string) returns (out: seq<Line>)
    ensures out == ImportSection(Emitted(plugins, importingPackage))
  {
    var imports := CreateImports(plugins, importingPackage);
    out := PrintImportLines(imports);
  }

  /** The printing loop of `createImports`: a blank line, then one `import` line per import. */
  method PrintImportLines(imports: seq<string>) returns (out: seq<Line>)
    ensures out == ImportSection(imports)
  {
    out := [Fixed(Blank)];
    for k := 0 to |imports|
      invariant out == ImportSection(imports[..k])
    {
      out := out + [ImportLine(imports[k])];
      assert imports[..k + 1][..k] == imports[..k];
    }
    assert imports[..|imports|] == imports;
  }

  /** The loop calling `plugin.generate` for every plugin, a blank line after each. */
  method PrintPluginBlocks(plugins: seq<GeneratedPlugin>) returns (out: seq<Line>)
    ensures out == PluginBlocks(plugins)
  {
    out := [];
    for i := 0 to |plugins|
      invariant out == PluginBlocks(plugins[..i])
    {
      out := out + [PluginBlock(plugins[i])];
      out := out + [Fixed(Blank)];
      assert plugins[..i + 1][..i] == plugins[..i];
    }
    assert plugins[..|plugins|] == plugins;
  }

  /** `createPluginFactoryMethod`. */
  method CreatePluginFactoryMethod(plugins: seq<GeneratedPlugin>) returns (out: seq<Line>)
    ensures out == FactoryMethod(plugins)
  {
    out := [Fixed(Override), Fixed(RegisterPluginsHead)];
    for i := 0 to |plugins|
      invariant out == [Fixed(Override), Fixed(RegisterPluginsHead)] + Registrations(plugins[..i])
    {
      out := out + [Registration(plugins[i])];
      assert plugins[..i + 1][..i] == plugins[..i];
    }
    assert plugins[..|plugins|] == plugins;
    out := out + [Fixed(CloseMethod)];
  }

  // ---------------------------------------------------------------------------------------------
  // Reading the source back

  /** The values `pick` finds in `lines`, in order. */
  function Picked<U>(lines: seq<Line>, pick: Line -> Option<U>): seq<U> {
    if lines == [] then []
    else Picked(lines[..|lines| - 1], pick) + (match pick(lines[|lines| - 1]) case Some(u) => [u] case None => [])
  }

  function BlockPlugin(line: Line): Option<GeneratedPlugin> {
    if line.PluginBlock? then Some(line.plugin) else None
  }

  function RegisteredPlugin(line: Line): Option<GeneratedPlugin> {
    if line.Registration? then Some(line.plugin) else None
  }

  function ImportedName(line: Line): Option<string> {
    if line.ImportLine? then Some(line.name) else None
  }

  /** The plugins whose classes a source contains, in order. */
  function BlocksOf(lines: seq<Line>): seq<GeneratedPlugin> {
    Picked(lines, BlockPlugin)
  }

  /** The plugins a source registers, in order. */
  function RegisteredOf(lines: seq<Line>): seq<GeneratedPlugin> {
    Picked(lines, RegisteredPlugin)
  }

  /** The names a source imports, in order. */
  function ImportsOf(lines: seq<Line>): seq<string> {
    Picked(lines, ImportedName)
  }

  lemma {:induction false} PickedAppend<U>(a: seq<Line>, b: seq<Line>, pick: Line -> Option<U>)
    ensures Picked(a + b, pick) == Picked(a, pick) + Picked(b, pick)
    decreases |b|
  {
    if b == [] {
      assert a + b == a;
    } else {
      assert (a + b)[..|a + b| - 1] == a + b[..|b| - 1];
      PickedAppend(a, b[..|b| - 1], pick);
    }
  }

  /** Reading back the three kinds of content distributes over concatenation. */
  lemma ReadBackAppend(a: seq<Line>, b: seq<Line>)
    ensures BlocksOf(a + b) == BlocksOf(a) + BlocksOf(b)
    ensures RegisteredOf(a + b) == RegisteredOf(a) + RegisteredOf(b)
    ensures ImportsOf(a + b) == ImportsOf(a) + ImportsOf(b)
  {
    PickedAppend(a, b, BlockPlugin);
    PickedAppend(a, b, RegisteredPlugin);
    PickedAppend(a, b, ImportedName);
  }

  /** Lines other than plugin blocks, registrations and imports carry no plugin and no import. */
  lemma {:induction false} TextOnly(lines: seq<Line>)
    requires forall k :: 0 <= k < |lines| ==> !lines[k].PluginBlock? && !lines[k].Registration? && !lines[k].ImportLine?
    ensures BlocksOf(lines) == [] && RegisteredOf(lines) == [] && ImportsOf(lines) == []
    decreases |lines|
  {
    if lines != [] {
      TextOnly(lines[..|lines| - 1]);
    }
  }

  lemma {:induction false} ImportSectionReadBack(imports: seq<string>)
    ensures ImportsOf(ImportSection(imports)) == imports
    ensures BlocksOf(ImportSection(imports)) == [] && RegisteredOf(ImportSection(imports)) == []
  {
    if imports == [] {
      TextOnly([Fixed(Blank)]);
    } else {
      var front := imports[..|imports| - 1];
      ImportSectionReadBack(front);
      var last := [ImportLine(imports[|imports| - 1])];
      ReadBackAppend(ImportSection(front), last);
      assert [ImportLine(imports[|imports| - 1])][..0] == [];
    }
  }

  lemma {:induction false} PluginBlocksReadBack(ps: seq<GeneratedPlugin>)
    ensures BlocksOf(PluginBlocks(ps)) == ps
    ensures RegisteredOf(PluginBlocks(ps)) == [] && ImportsOf(PluginBlocks(ps)) == []
  {
    if ps != [] {
      var front := ps[..|ps| - 1];
      PluginBlocksReadBack(front);
      var block := [PluginBlock(ps[|ps| - 1])];
      assert PluginBlocks(ps) == PluginBlocks(front) + block + [Fixed(Blank)];
      assert block[..0] == [] && [Fixed(Blank)][..0] == [];
      ReadBackAppend(PluginBlocks(front), block);
      ReadBackAppend(PluginBlocks(front) + block, [Fixed(Blank)]);
    }
  }

  lemma {:induction false} RegistrationsReadBack(ps: seq<GeneratedPlugin>)
    ensures RegisteredOf(Registrations(ps)) == ps
    ensures BlocksOf(Registrations(ps)) == [] && ImportsOf(Registrations(ps)) == []
  {
    if ps != [] {
      var front := ps[..|ps| - 1];
      RegistrationsReadBack(front);
      var last := [Registration(ps[|ps| - 1])];
      ReadBackAppend(Registrations(front), last);
      assert [Registration(ps[|ps| - 1])][..0] == [];
    }
  }

  lemma FactoryMethodReadBack(ps: seq<GeneratedPlugin>)
    ensures RegisteredOf(FactoryMethod(ps)) == ps
    ensures BlocksOf(FactoryMethod(ps)) == [] && ImportsOf(FactoryMethod(ps)) == []
  {
    var head := [Fixed(Override), Fixed(RegisterPluginsHead)];
    TextOnly(head);
    TextOnly([Fixed(CloseMethod)]);
    RegistrationsReadBack(ps);
    var regs := Registrations(ps);
    ReadBackAppend(head, regs);
    ReadBackAppend(head + regs, [Fixed(CloseMethod)]);
  }

  /** The source split into the part before the plugin classes, the classes, and the rest. */
  lemma SourceOfParts(pkgName: string, className: string, imports: seq<string>, arch: Option<string>,
                      plugins: seq<GeneratedPlugin>)
    ensures var pre := [Fixed(StopHeaderCheck), Fixed(StopLineLengthCheck), Fixed(GeneratedContent), Fixed(Generators),
                        PackageDecl(pkgName), Fixed(Blank)];
            var tail := ClassDeclaration(className, arch) + FactoryMethod(plugins) + [Fixed(CloseClass)];
            SourceOf(pkgName, className, imports, arch, plugins)
            == (pre + ImportSection(imports) + [Fixed(Blank)]) + PluginBlocks(plugins) + tail
  {
  }

  lemma SourceOfReadBack(pkgName: string, className: string, imports: seq<string>, arch: Option<string>,
                         plugins: seq<GeneratedPlugin>)
    ensures BlocksOf(SourceOf(pkgName, className, imports, arch, plugins)) == plugins
    ensures RegisteredOf(SourceOf(pkgName, className, imports, arch, plugins)) == plugins
    ensures ImportsOf(SourceOf(pkgName, className, imports, arch, plugins)) == imports
  {
    var pre := [Fixed(StopHeaderCheck), Fixed(StopLineLengthCheck), Fixed(GeneratedContent), Fixed(Generators),
                PackageDecl(pkgName), Fixed(Blank)];
    var decl := ClassDeclaration(className, arch);
    var head := pre + ImportSection(imports) + [Fixed(Blank)];
    var tail := decl + FactoryMethod(plugins) + [Fixed(CloseClass)];
    SourceOfParts(pkgName, className, imports, arch, plugins);
    HeadReadBack(pre, imports);
    TailReadBack(decl, plugins);
    PluginBlocksReadBack(plugins);
    ReadBackAppend(head, PluginBlocks(plugins));
    ReadBackAppend(head + PluginBlocks(plugins), tail);
  }

  /** Everything before the plugin classes: its only content is the imports. */
  lemma HeadReadBack(pre: seq<Line>, imports: seq<string>)
    requires forall k :: 0 <= k < |pre| ==> pre[k].Fixed? || pre[k].PackageDecl?
    ensures var head := pre + ImportSection(imports) + [Fixed(Blank)];
            BlocksOf(head) == [] && RegisteredOf(head) == [] && ImportsOf(head) == imports
  {
    TextOnly(pre);
    TextOnly([Fixed(Blank)]);
    ImportSectionReadBack(imports);
    var imp := ImportSection(imports);
    ReadBackAppend(pre, imp);
    ReadBackAppend(pre + imp, [Fixed(Blank)]);
  }

  /** Everything after the plugin classes: its only content is the registrations. */
  lemma TailReadBack(decl: seq<Line>, plugins: seq<GeneratedPlugin>)
    requires forall k :: 0 <= k < |decl| ==> decl[k].Fixed? || decl[k].ClassHead? || decl[k].ReturnArchitecture?
    ensures var tail := decl + FactoryMethod(plugins) + [Fixed(CloseClass)];
            BlocksOf(tail) == [] && RegisteredOf(tail) == plugins && ImportsOf(tail) == []
  {
    TextOnly(decl);
    TextOnly([Fixed(CloseClass)]);
    FactoryMethodReadBack(plugins);
    var meth := FactoryMethod(plugins);
    ReadBackAppend(decl, meth);
    ReadBackAppend(decl + meth, [Fixed(CloseClass)]);
  }

  /**
   * The source declares one class per plugin and registers one plugin per plugin, both in list
   * order, and its import lines are exactly what `createImports` computes.
   */
  lemma FactorySourceReadBack(pkg: Element, topLevelClass: Element, plugins: seq<GeneratedPlugin>)
    ensures BlocksOf(FactorySource(pkg, topLevelClass, plugins)) == plugins
    ensures RegisteredOf(FactorySource(pkg, topLevelClass, plugins)) == plugins
    ensures ImportsOf(FactorySource(pkg, topLevelClass, plugins)) == Emitted(plugins, pkg.name)
  {
    SourceOfReadBack(pkg.name, FactoryClassName(topLevelClass), Emitted(plugins, pkg.name), Architecture(pkg), plugins);
  }

  /** The lines only the class declaration prints: its head and the body of `getArchitecture`. */
  predicate DeclarationLine(line: Line) {
    line.ClassHead? || line.ReturnArchitecture?
  }

  /** The import section, the plugin classes and `registerPlugins` print no declaration line. */
  lemma NoDeclarationLineOutside(imports: seq<string>, plugins: seq<GeneratedPlugin>)
    ensures forall line :: line in ImportSection(imports) ==> !DeclarationLine(line)
    ensures forall line :: line in PluginBlocks(plugins) ==> !DeclarationLine(line)
    ensures forall line :: line in FactoryMethod(plugins) ==> !DeclarationLine(line)
  {
    var imp := ImportSection(imports);
    var regs := Registrations(plugins);
    forall k | 0 <= k < |imp|
      ensures !DeclarationLine(imp[k])
    {
      if k > 0 {
        assert imp[k] == ImportLine(imports[k - 1]);
      }
    }
    forall k | 0 <= k < |regs|
      ensures !DeclarationLine(regs[k])
    {
      assert regs[k] == Registration(plugins[k]);
    }
  }

  /**
   * The source has exactly one class head, for `className`, and it is `ArchitectureSpecific`
   * exactly when there is an architecture; `getArchitecture` returns `a` exactly when the
   * architecture is `a`.
   */
  lemma SourceOfArchitecture(pkgName: string, className: string, imports: seq<string>, arch: Option<string>,
                             plugins: seq<GeneratedPlugin>)
    ensures forall c, b :: ClassHead(c, b) in SourceOf(pkgName, className, imports, arch, plugins)
                           <==> c == className && b == arch.Some?
    ensures forall a :: ReturnArchitecture(a) in SourceOf(pkgName, className, imports, arch, plugins) <==> arch == Some(a)
  {
    var decl := ClassDeclaration(className, arch);
    var src := SourceOf(pkgName, className, imports, arch, plugins);
    SourceOfParts(pkgName, className, imports, arch, plugins);
    NoDeclarationLineOutside(imports, plugins);
    forall line | DeclarationLine(line)
      ensures line in src <==> line in decl
    {
      assert !DeclarationLine(Fixed(Blank)) && !DeclarationLine(Fixed(CloseClass));
    }
    forall c, b
      ensures ClassHead(c, b) in src <==> c == className && b == arch.Some?
    {
      assert DeclarationLine(ClassHead(c, b));
    }
    forall a
      ensures ReturnArchitecture(a) in src <==> arch == Some(a)
    {
      assert DeclarationLine(ReturnArchitecture(a));
    }
  }

  /**
   * The factory class is `ArchitectureSpecific` exactly when the package names a supported
   * architecture, and then `getArchitecture` returns that architecture's name.
   */
  lemma ArchitectureInSource(pkg: Element, topLevelClass: Element, plugins: seq<GeneratedPlugin>)
    ensures forall c, b :: ClassHead(c, b) in FactorySource(pkg, topLevelClass, plugins)
                           <==> c == FactoryClassName(topLevelClass) && b == Architecture(pkg).Some?
    ensures Architecture(pkg).None? ==> forall c :: ClassHead(c, true) !in FactorySource(pkg, topLevelClass, plugins)
    ensures forall a :: ReturnArchitecture(a) in FactorySource(pkg, topLevelClass, plugins) <==> Architecture(pkg) == Some(a)
  {
    SourceOfArchitecture(pkg.name, FactoryClassName(topLevelClass), Emitted(plugins, pkg.name), Architecture(pkg), plugins);
  }

  // ---------------------------------------------------------------------------------------------
  // Names and architectures

  /** The architecture is decided by the package's last segment alone. */
  lemma ArchitectureBySimpleName(prefix: string, segment: string, enclosing: Option<Element>)
    requires '.' !in segment
    ensures Architecture(Element(PackageKind, prefix + "." + segment, enclosing))
         == if segment in SupportedArchitectures then Some(SupportedArchitectures[segment]) else None
  {
    AfterLastOfJoin(prefix, '.', segment);
    assert prefix + "." + segment == prefix + ['.'] + segment;
  }

  /** A package such as `...amd64` declares `AMD64`. */
  lemma Amd64Package(parent: string, enclosing: Option<Element>)
    ensures Architecture(Element(PackageKind, parent + ".amd64", enclosing)) == Some("AMD64")
  {
    assert parent + "." + "amd64" == parent + ".amd64";
    ArchitectureOfSegment(parent, "amd64", enclosing, Some("AMD64"));
  }

  /** A package such as `...replacements` declares no architecture. */
  lemma ReplacementsPackage(parent: string, enclosing: Option<Element>)
    ensures Architecture(Element(PackageKind, parent + ".replacements", enclosing)) == None
  {
    assert parent + "." + "replacements" == parent + ".replacements";
    ArchitectureOfSegment(parent, "replacements", enclosing, None);
  }

  lemma ArchitectureOfSegment(parent: string, segment: string, enclosing: Option<Element>, expected: Option<string>)
    requires '.' !in segment
    requires expected == if segment in SupportedArchitectures then Some(SupportedArchitectures[segment]) else None
    ensures Architecture(Element(PackageKind, parent + "." + segment, enclosing)) == expected
  {
    ArchitectureBySimpleName(parent, segment, enclosing);
  }

  /**
   * Distinct owners get distinct factories: the qualified factory name gives back both the
   * package and the top-level class, since a simple name contains no dot.
   */
  lemma QualifiedFactoryNameInjective(pkg1: Element, c1: Element, pkg2: Element, c2: Element)
    requires '.' !in c1.name && '.' !in c2.name
    requires QualifiedFactoryName(pkg1, c1) == QualifiedFactoryName(pkg2, c2)
    ensures pkg1.name == pkg2.name && c1.name == c2.name
  {
    var x1 := FactoryClassName(c1);
    var x2 := FactoryClassName(c2);
    assert '.' !in x1 by {
      assert forall k :: 0 <= k < |x1| ==> x1[k] == (if k < |FactoryPrefix| then FactoryPrefix[k] else c1.name[k - |FactoryPrefix|]);
    }
    assert '.' !in x2 by {
      assert forall k :: 0 <= k < |x2| ==> x2[k] == (if k < |FactoryPrefix| then FactoryPrefix[k] else c2.name[k - |FactoryPrefix|]);
    }
    assert pkg1.name + ['.'] + x1 == pkg2.name + ['.'] + x2;
    SplitAtLast(pkg1.name, x1, pkg2.name, x2, '.');
    assert c1.name == x1[|FactoryPrefix|..] && c2.name == x2[|FactoryPrefix|..];
  }
}
