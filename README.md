# PluginGenerator and IntArrayBuilder, modelled in Dafny

This project models two pieces of the Graal compiler.

**`PluginGenerator`** is the part of the replacements annotation processor that writes one
`PluginFactory_<Class>` source file per top-level class declaring invocation plugins. The model covers:

- **Grouping.** `addPlugin` files each plugin under the top-level class of its intrinsic method.
  The keys keep their first-registration order, like a `LinkedHashMap`.
- **The top-level walk.** `getTopLevelClass` climbs the enclosing-element chain.
- **Renaming.** `disambiguateNames` sorts a group by plugin name. One scan then renames every
  member of a run of equal names to `name__k`, with a single counter for the whole group.
- **Imports.** `createImports` starts from seven fixed imports and adds each plugin's imports, in
  insertion order, like a `LinkedHashSet`. It sorts them and drops those that name a top-level
  class of the importing package.
- **The factory.** `createPluginFactory` looks up the architecture by the package's simple name
  and names the class. It writes the source, modelled as a sequence of lines, and registers the
  provider entry.
- **`generateAll`** ties these together.

**`IntArrayBuilder`** is a growable `int` buffer: an array and a size. Its backing array grows
to twice the highest power of two not above the requested index.

Modules and files:

- `wrappers.dfy`: `Option`.
- `strings.dfy`: `String.compareTo` order, and the text after the last occurrence of a character.
- `decimal.dfy`: printing the counter in decimal and parsing it back.
- `sorting.dfy`: the stable sort behind `List.sort`.
- `elements.dfy`: the element model and `getTopLevelClass`.
- `plugins.dfy`: the plugin record.
- `disambiguation.dfy`, `imports.dfy`, `plugin_factory.dfy` and `generator.dfy`: the generator.
- `int_array_builder.dfy`: the buffer.

In the tables below, `PluginGenerator.java` stands for
`compiler/src/jdk.graal.compiler.processor/src/jdk/graal/compiler/replacements/processor/PluginGenerator.java`
and `IntArrayBuilder.java` stands for
`compiler/src/jdk.graal.compiler/src/jdk/graal/compiler/util/IntArrayBuilder.java`. The table
itself uses the full paths.

## Model

| member | source | states |
|---|---|---|
| Elements.TopLevel | compiler/src/jdk.graal.compiler.processor/src/jdk/graal/compiler/replacements/processor/PluginGenerator.java:76-84 | the element the walk returns is enclosed by a package or by nothing, and lies on the chain from the start element upward |
| Elements.TopLevelIsLowest | compiler/src/jdk.graal.compiler.processor/src/jdk/graal/compiler/replacements/processor/PluginGenerator.java:79-82 | the walk stops at the first such element: any top-level element on the chain is the result or lies above it |
| Elements.TopLevelAlongChain | compiler/src/jdk.graal.compiler.processor/src/jdk/graal/compiler/replacements/processor/PluginGenerator.java:76-84 | every element between a start element and its result has the same result |
| Elements.OnChainAntisymmetric | compiler/src/jdk.graal.compiler.processor/src/jdk/graal/compiler/replacements/processor/PluginGenerator.java:79-82 | the enclosing chain has no cycles: two elements each on the other's chain are the same element, so the walk ends |
| Elements.GetTopLevelClass | compiler/src/jdk.graal.compiler.processor/src/jdk/graal/compiler/replacements/processor/PluginGenerator.java:76-84 | the loop returns exactly the top-level element of the chain, which is top-level and on the chain |
| Strings.LeqReflexive | compiler/src/jdk.graal.compiler.processor/src/jdk/graal/compiler/replacements/processor/PluginGenerator.java:87 | the name order compares every name as not greater than itself |
| Strings.LeqAntisymmetric | compiler/src/jdk.graal.compiler.processor/src/jdk/graal/compiler/replacements/processor/PluginGenerator.java:87 | two names each not greater than the other are equal |
| Strings.LeqTransitive | compiler/src/jdk.graal.compiler.processor/src/jdk/graal/compiler/replacements/processor/PluginGenerator.java:87 | the name order is transitive |
| Strings.LeqTotal | compiler/src/jdk.graal.compiler.processor/src/jdk/graal/compiler/replacements/processor/PluginGenerator.java:87 | any two names are comparable, so the comparator is a total order |
| Strings.AfterLast | compiler/src/jdk.graal.compiler.processor/src/jdk/graal/compiler/replacements/processor/PluginGenerator.java:133 | the result is a separator-free suffix of the input, and the character just before it is the separator; so it is the text after the last separator, or the whole input when there is none |
| Strings.AfterLastOfJoin | compiler/src/jdk.graal.compiler.processor/src/jdk/graal/compiler/replacements/processor/PluginGenerator.java:133 | for `a + "." + x` with no dot in `x`, the simple name is `x` |
| Decimal.NatToString | compiler/src/jdk.graal.compiler.processor/src/jdk/graal/compiler/replacements/processor/PluginGenerator.java:112 | the printed counter is a non-empty digit string without a leading zero |
| Decimal.ParseNatToString | compiler/src/jdk.graal.compiler.processor/src/jdk/graal/compiler/replacements/processor/PluginGenerator.java:112 | reading the printed counter back gives the counter |
| Decimal.NatToStringInjective | compiler/src/jdk.graal.compiler.processor/src/jdk/graal/compiler/replacements/processor/PluginGenerator.java:112 | different counter values print differently |
| Sorting.SortBy | compiler/src/jdk.graal.compiler.processor/src/jdk/graal/compiler/replacements/processor/PluginGenerator.java:87 | the sorted list is a permutation of the input |
| Sorting.SortByStable | compiler/src/jdk.graal.compiler.processor/src/jdk/graal/compiler/replacements/processor/PluginGenerator.java:87 | the sort is stable: for every name, the elements carrying it keep their input order |
| Sorting.SortBySorted | compiler/src/jdk.graal.compiler.processor/src/jdk/graal/compiler/replacements/processor/PluginGenerator.java:87 | the sorted list is ordered by the key |
| Sorting.SortByKeyCount | compiler/src/jdk.graal.compiler.processor/src/jdk/graal/compiler/replacements/processor/PluginGenerator.java:87 | sorting keeps how often each name occurs |
| Sorting.KeyCountAtLeastTwo | compiler/src/jdk.graal.compiler.processor/src/jdk/graal/compiler/replacements/processor/PluginGenerator.java:94 | a name occurs twice or more exactly when another position carries it |
| Disambiguation.DisambiguateNames | compiler/src/jdk.graal.compiler.processor/src/jdk/graal/compiler/replacements/processor/PluginGenerator.java:86-113 | the sort followed by the scan, with its `current`, `currentName` and counter variables, yields the renamed sorted group for every non-empty group |
| Disambiguation.StepNewName | compiler/src/jdk.graal.compiler.processor/src/jdk/graal/compiler/replacements/processor/PluginGenerator.java:100-103 | a new name starts a new run: nothing is renamed, the counter is unchanged and the scan invariant holds one position further |
| Disambiguation.StepRunHead | compiler/src/jdk.graal.compiler.processor/src/jdk/graal/compiler/replacements/processor/PluginGenerator.java:94-99 | the second member of a run renames the head and itself with two consecutive counter values |
| Disambiguation.StepRunTail | compiler/src/jdk.graal.compiler.processor/src/jdk/graal/compiler/replacements/processor/PluginGenerator.java:94-99 | later members of a run are renamed with the next counter value, and the head is not renamed again |
| Disambiguation.DisambiguatedIsSortedPermutation | compiler/src/jdk.graal.compiler.processor/src/jdk/graal/compiler/replacements/processor/PluginGenerator.java:87-104 | the result is a permutation of the input, ordered by the names before renaming, with the same length; each plugin differs from its sorted counterpart in its name only |
| Disambiguation.DupWithinIffRepeated | compiler/src/jdk.graal.compiler.processor/src/jdk/graal/compiler/replacements/processor/PluginGenerator.java:92-104 | in a sorted group, the scan's test of a plugin's neighbours holds exactly when its name occurs elsewhere in the group |
| Disambiguation.RenamedExactlyWhenRepeated | compiler/src/jdk.graal.compiler.processor/src/jdk/graal/compiler/replacements/processor/PluginGenerator.java:92-104 | a name that occurs once is kept; a plugin whose name occurs twice or more is renamed once, to `name__k` with `k` the counter's value at its position, the head of the run included |
| Disambiguation.SuffixesCountUp | compiler/src/jdk.graal.compiler.processor/src/jdk/graal/compiler/replacements/processor/PluginGenerator.java:111-112 | the counter values given out increase in scan order and are exactly 0 to the number of renamed plugins minus one; the counter is never reset between runs |
| Disambiguation.RenamedBeforeIncreases | compiler/src/jdk.graal.compiler.processor/src/jdk/graal/compiler/replacements/processor/PluginGenerator.java:111-112 | a renamed plugin's counter value is below that of every later position |
| Disambiguation.GenNameSuffix | compiler/src/jdk.graal.compiler.processor/src/jdk/graal/compiler/replacements/processor/PluginGenerator.java:112 | the text after the last `_` of a generated name is the printed counter, and the name contains `__` |
| Disambiguation.GenNameDistinct | compiler/src/jdk.graal.compiler.processor/src/jdk/graal/compiler/replacements/processor/PluginGenerator.java:112 | generated names with different counter values differ, whatever names they extend |
| Disambiguation.DisambiguatedNamesDistinct | compiler/src/jdk.graal.compiler.processor/src/jdk/graal/compiler/replacements/processor/PluginGenerator.java:86-113 | when no original name contains `__`, the names after renaming are pairwise distinct |
| Disambiguation.TwoFoos | compiler/src/jdk.graal.compiler.processor/src/jdk/graal/compiler/replacements/processor/PluginGenerator.java:86-113 | `[foo, foo, baz]` becomes `baz, foo__0, foo__1` |
| Disambiguation.RenamedTwoRuns | compiler/src/jdk.graal.compiler.processor/src/jdk/graal/compiler/replacements/processor/PluginGenerator.java:111-112 | in `a, a, b, b` the second run goes on from the first run's counter: `a__0, a__1, b__2, b__3` |
| Disambiguation.MarkerInNameCollides | compiler/src/jdk.graal.compiler.processor/src/jdk/graal/compiler/replacements/processor/PluginGenerator.java:86-113 | an original name shaped like a generated one can collide: `[foo, foo, foo__0]` becomes `foo__0, foo__1, foo__0` |
| Imports.Add | compiler/src/jdk.graal.compiler.processor/src/jdk/graal/compiler/replacements/processor/PluginGenerator.java:170-178 | `LinkedHashSet.add`: the element is present afterwards, nothing else is added, no duplicate appears and earlier elements keep their order |
| Imports.AddAll | compiler/src/jdk.graal.compiler.processor/src/jdk/graal/compiler/replacements/processor/PluginGenerator.java:181-182 | adding a list has the same three properties for every element of the list |
| Imports.AddAllConcat | compiler/src/jdk.graal.compiler.processor/src/jdk/graal/compiler/replacements/processor/PluginGenerator.java:180-191 | adding two lists one after the other equals adding their concatenation |
| Imports.BaselineDistinct | compiler/src/jdk.graal.compiler.processor/src/jdk/graal/compiler/replacements/processor/PluginGenerator.java:172-178 | the seven fixed imports are distinct |
| Imports.CollectedFrom | compiler/src/jdk.graal.compiler.processor/src/jdk/graal/compiler/replacements/processor/PluginGenerator.java:180-191 | the per-plugin loop keeps the set free of duplicates and the earlier entries in place |
| Imports.Collected | compiler/src/jdk.graal.compiler.processor/src/jdk/graal/compiler/replacements/processor/PluginGenerator.java:170-191 | the collected set has no duplicates and begins with the seven fixed imports in order |
| Imports.CollectedMembership | compiler/src/jdk.graal.compiler.processor/src/jdk/graal/compiler/replacements/processor/PluginGenerator.java:170-191 | a name is collected exactly when it is a fixed import or some plugin contributes it |
| Imports.CollectedIsBaselineIff | compiler/src/jdk.graal.compiler.processor/src/jdk/graal/compiler/replacements/processor/PluginGenerator.java:169-191 | the collected set is exactly the seven fixed imports when, and only when, every name the plugins add is already one of them |
| Imports.PluginReplacementImports | compiler/src/jdk.graal.compiler.processor/src/jdk/graal/compiler/replacements/processor/PluginGenerator.java:181-190 | one plugin contributes `ExcludeFromJacocoGeneratedReport` exactly when it needs a replacement; it contributes `PluginReplacementWithExceptionNode` exactly when it needs one with an exception edge and `PluginReplacementNode` exactly when it needs one without (each also when its own extra imports name it) |
| Imports.ReplacementChoice | compiler/src/jdk.graal.compiler.processor/src/jdk/graal/compiler/replacements/processor/PluginGenerator.java:183-190 | a plugin that needs a replacement contributes `ExcludeFromJacocoGeneratedReport` and exactly one of the two node classes, chosen by `isWithExceptionReplacement` |
| Imports.ExcludeImportedIff | compiler/src/jdk.graal.compiler.processor/src/jdk/graal/compiler/replacements/processor/PluginGenerator.java:183-184 | the group imports `ExcludeFromJacocoGeneratedReport` exactly when some plugin needs a replacement or asks for it |
| Imports.WithExceptionImportedIff | compiler/src/jdk.graal.compiler.processor/src/jdk/graal/compiler/replacements/processor/PluginGenerator.java:185-186 | the group imports `PluginReplacementWithExceptionNode` exactly when some plugin needs a replacement with an exception edge or asks for it |
| Imports.ReplacementNodeImportedIff | compiler/src/jdk.graal.compiler.processor/src/jdk/graal/compiler/replacements/processor/PluginGenerator.java:187-188 | the group imports `PluginReplacementNode` exactly when some plugin needs a replacement without an exception edge or asks for it |
| Imports.FindBoundary | compiler/src/jdk.graal.compiler.processor/src/jdk/graal/compiler/replacements/processor/PluginGenerator.java:192-198 | `find()` of `\.([A-Z])`: the leftmost position with a dot followed by an upper-case letter, or none when there is no such position |
| Imports.Kept | compiler/src/jdk.graal.compiler.processor/src/jdk/graal/compiler/replacements/processor/PluginGenerator.java:196-207 | an import is printed exactly when it is not elided |
| Imports.ElidedIff | compiler/src/jdk.graal.compiler.processor/src/jdk/graal/compiler/replacements/processor/PluginGenerator.java:197-204 | an import is left out exactly when it has a first boundary, the text before it is the importing package, and the text after the dot has no dot |
| Imports.NoBoundaryKept | compiler/src/jdk.graal.compiler.processor/src/jdk/graal/compiler/replacements/processor/PluginGenerator.java:198 | an import without a boundary is always printed |
| Imports.BoundaryAfterPackage | compiler/src/jdk.graal.compiler.processor/src/jdk/graal/compiler/replacements/processor/PluginGenerator.java:197-200 | in `p.C...`, with `p` free of boundaries and `C` upper case, the first boundary is the dot after `p` |
| Imports.ElidedQualified | compiler/src/jdk.graal.compiler.processor/src/jdk/graal/compiler/replacements/processor/PluginGenerator.java:199-203 | `p.C...` is left out exactly when `p` is the importing package and the class part has no dot |
| Imports.ElidesOwnPackageClass | compiler/src/jdk.graal.compiler.processor/src/jdk/graal/compiler/replacements/processor/PluginGenerator.java:201-203 | `a.b.Outer` is not imported into package `a.b` |
| Imports.KeepsNestedClass | compiler/src/jdk.graal.compiler.processor/src/jdk/graal/compiler/replacements/processor/PluginGenerator.java:201 | `a.b.Outer.Inner` is imported into package `a.b` |
| Imports.KeepsOtherPackageClass | compiler/src/jdk.graal.compiler.processor/src/jdk/graal/compiler/replacements/processor/PluginGenerator.java:201 | `a.c.Outer` is imported into package `a.b` |
| Imports.KeepsSubpackageClass | compiler/src/jdk.graal.compiler.processor/src/jdk/graal/compiler/replacements/processor/PluginGenerator.java:201 | `a.b.c.Outer` is imported into package `a.b` |
| Imports.EmittedStrictlySorted | compiler/src/jdk.graal.compiler.processor/src/jdk/graal/compiler/replacements/processor/PluginGenerator.java:194-207 | the printed imports are strictly increasing in `String` order, so they are sorted and have no duplicates |
| Imports.EmittedMembership | compiler/src/jdk.graal.compiler.processor/src/jdk/graal/compiler/replacements/processor/PluginGenerator.java:169-207 | a name is printed exactly when it is a fixed import or contributed by a plugin, and is not elided |
| Imports.BaselineEmitted | compiler/src/jdk.graal.compiler.processor/src/jdk/graal/compiler/replacements/processor/PluginGenerator.java:172-178 | each of the seven fixed imports is printed unless the elision rule removes it |
| Imports.AddPluginImports | compiler/src/jdk.graal.compiler.processor/src/jdk/graal/compiler/replacements/processor/PluginGenerator.java:181-190 | one iteration adds the plugin's extra imports, its superclass and the replacement imports, in that order |
| Imports.AddEachPlugin | compiler/src/jdk.graal.compiler.processor/src/jdk/graal/compiler/replacements/processor/PluginGenerator.java:180-191 | the loop over the plugins builds the collected set |
| Imports.KeepImports | compiler/src/jdk.graal.compiler.processor/src/jdk/graal/compiler/replacements/processor/PluginGenerator.java:196-207 | the printing loop keeps exactly the imports that are not elided, in order |
| Imports.CreateImports | compiler/src/jdk.graal.compiler.processor/src/jdk/graal/compiler/replacements/processor/PluginGenerator.java:169-208 | the method yields the collected imports, sorted, without the elided ones |
| PluginFactory.PackageSimpleName | compiler/src/jdk.graal.compiler.processor/src/jdk/graal/compiler/replacements/processor/PluginGenerator.java:133 | a package's simple name is the dot-free suffix preceded by a dot, or the whole name when the name has no dot |
| PluginFactory.ArchitectureBySimpleName | compiler/src/jdk.graal.compiler.processor/src/jdk/graal/compiler/replacements/processor/PluginGenerator.java:119-133 | the architecture of package `prefix.segment` is the table's entry for `segment`, or none when the table has no entry |
| PluginFactory.Amd64Package | compiler/src/jdk.graal.compiler.processor/src/jdk/graal/compiler/replacements/processor/PluginGenerator.java:123 | a package ending in `.amd64` declares `AMD64`; the other table entries follow the same way from `ArchitectureBySimpleName` |
| PluginFactory.ReplacementsPackage | compiler/src/jdk.graal.compiler.processor/src/jdk/graal/compiler/replacements/processor/PluginGenerator.java:133 | a package ending in `.replacements` declares no architecture |
| PluginFactory.QualifiedFactoryNameInjective | compiler/src/jdk.graal.compiler.processor/src/jdk/graal/compiler/replacements/processor/PluginGenerator.java:132-135 | the qualified factory name determines the package and the class it is generated for |
| PluginFactory.ImportSection | compiler/src/jdk.graal.compiler.processor/src/jdk/graal/compiler/replacements/processor/PluginGenerator.java:193-207 | the import section is a blank line followed by one import line per import, in order |
| PluginFactory.PluginBlocks | compiler/src/jdk.graal.compiler.processor/src/jdk/graal/compiler/replacements/processor/PluginGenerator.java:147-150 | two lines per plugin, each a plugin's block or a blank line |
| PluginFactory.Registrations | compiler/src/jdk.graal.compiler.processor/src/jdk/graal/compiler/replacements/processor/PluginGenerator.java:213-215 | one registration line per plugin, in order |
| PluginFactory.PrintImports | compiler/src/jdk.graal.compiler.processor/src/jdk/graal/compiler/replacements/processor/PluginGenerator.java:169-208 | `createImports` prints the import section of the imports it computes |
| PluginFactory.PrintImportLines | compiler/src/jdk.graal.compiler.processor/src/jdk/graal/compiler/replacements/processor/PluginGenerator.java:193-207 | the printing loop writes the import section of the list it is given |
| PluginFactory.PrintPluginBlocks | compiler/src/jdk.graal.compiler.processor/src/jdk/graal/compiler/replacements/processor/PluginGenerator.java:147-150 | the loop writes each plugin's block and a blank line |
| PluginFactory.CreatePluginFactoryMethod | compiler/src/jdk.graal.compiler.processor/src/jdk/graal/compiler/replacements/processor/PluginGenerator.java:210-217 | `registerPlugins` registers every plugin, in order, between its head and its closing line |
| PluginFactory.ImportSectionReadBack | compiler/src/jdk.graal.compiler.processor/src/jdk/graal/compiler/replacements/processor/PluginGenerator.java:193-207 | reading the import lines of the section gives back the import list; it holds no blocks or registrations |
| PluginFactory.PluginBlocksReadBack | compiler/src/jdk.graal.compiler.processor/src/jdk/graal/compiler/replacements/processor/PluginGenerator.java:147-150 | reading the blocks back gives the plugin list |
| PluginFactory.RegistrationsReadBack | compiler/src/jdk.graal.compiler.processor/src/jdk/graal/compiler/replacements/processor/PluginGenerator.java:213-215 | reading the registrations back gives the plugin list |
| PluginFactory.FactoryMethodReadBack | compiler/src/jdk.graal.compiler.processor/src/jdk/graal/compiler/replacements/processor/PluginGenerator.java:210-217 | `registerPlugins` registers exactly the plugins, in order |
| PluginFactory.SourceOfReadBack | compiler/src/jdk.graal.compiler.processor/src/jdk/graal/compiler/replacements/processor/PluginGenerator.java:139-161 | a factory source declares exactly the given plugins, registers exactly them in the same order, and imports exactly the given imports |
| PluginFactory.FactorySourceReadBack | compiler/src/jdk.graal.compiler.processor/src/jdk/graal/compiler/replacements/processor/PluginGenerator.java:129-161 | the source for a class declares and registers exactly its plugins, in order, and imports exactly what `createImports` computes for its package |
| PluginFactory.SourceOfArchitecture | compiler/src/jdk.graal.compiler.processor/src/jdk/graal/compiler/replacements/processor/PluginGenerator.java:151-159 | the source has exactly one class head, for the given class name, and it is `ArchitectureSpecific` exactly when there is an architecture; `getArchitecture` returns `a` exactly when the architecture is `a` |
| PluginFactory.RenderedClassHeadInjective | compiler/src/jdk.graal.compiler.processor/src/jdk/graal/compiler/replacements/processor/PluginGenerator.java:151-159 | the printed class head determines the class name and whether the class is `ArchitectureSpecific`, for class names without spaces |
| PluginFactory.ArchitectureInSource | compiler/src/jdk.graal.compiler.processor/src/jdk/graal/compiler/replacements/processor/PluginGenerator.java:129-159 | the same for the factory of a class: its one class head is `ArchitectureSpecific` exactly when the package's simple name is in the table, so a package outside the table gets no such clause, and `getArchitecture` returns the table's entry |
| PluginFactory.CreatePluginFactory | compiler/src/jdk.graal.compiler.processor/src/jdk/graal/compiler/replacements/processor/PluginGenerator.java:129-167 | the source is written only when the file could be opened; the provider entry for `package.PluginFactory_Class` is registered in both cases |
| Generator.Owners | compiler/src/jdk.graal.compiler.processor/src/jdk/graal/compiler/replacements/processor/PluginGenerator.java:59-67 | the map's keys are distinct, include every added plugin's top-level class, and include nothing else |
| Generator.OwnedBy | compiler/src/jdk.graal.compiler.processor/src/jdk/graal/compiler/replacements/processor/PluginGenerator.java:61-66 | a key's list holds only added plugins of that key |
| Generator.OwnedByNonEmpty | compiler/src/jdk.graal.compiler.processor/src/jdk/graal/compiler/replacements/processor/PluginGenerator.java:61-66 | a class has a non-empty list exactly when it is a key |
| Generator.OwnedByComplete | compiler/src/jdk.graal.compiler.processor/src/jdk/graal/compiler/replacements/processor/PluginGenerator.java:59-66 | every added plugin is in its key's list |
| Generator.OwnedByPartition | compiler/src/jdk.graal.compiler.processor/src/jdk/graal/compiler/replacements/processor/PluginGenerator.java:59-67 | the list lengths add up to the number of plugins added: each plugin is filed once |
| Generator.SameClassSameOwner | compiler/src/jdk.graal.compiler.processor/src/jdk/graal/compiler/replacements/processor/PluginGenerator.java:59-60 | plugins whose intrinsic methods lie in the same class below their top-level classes share a key |
| Generator.OwnersTopLevel | compiler/src/jdk.graal.compiler.processor/src/jdk/graal/compiler/replacements/processor/PluginGenerator.java:59-60 | every key is a top-level element |
| Generator.GroupedStep | compiler/src/jdk.graal.compiler.processor/src/jdk/graal/compiler/replacements/processor/PluginGenerator.java:59-67 | one `addPlugin` keeps the map equal to the grouping of all plugins added so far |
| Generator.GroupAt | compiler/src/jdk.graal.compiler.processor/src/jdk/graal/compiler/replacements/processor/PluginGenerator.java:70-72 | each key in order has a non-empty list: its plugins, and the key is top-level |
| Generator.PluginGenerator.constructor | compiler/src/jdk.graal.compiler.processor/src/jdk/graal/compiler/replacements/processor/PluginGenerator.java:55-57 | a new generator has no keys and no plugins |
| Generator.PluginGenerator.AddPlugin | compiler/src/jdk.graal.compiler.processor/src/jdk/graal/compiler/replacements/processor/PluginGenerator.java:59-67 | the plugin is appended to its key's list and every other list is unchanged; a new key goes after all existing keys |
| Generator.GenerateFactory | compiler/src/jdk.graal.compiler.processor/src/jdk/graal/compiler/replacements/processor/PluginGenerator.java:71-72 | one iteration renames the group, then creates its factory from the renamed group |
| Generator.PluginGenerator.GenerateAll | compiler/src/jdk.graal.compiler.processor/src/jdk/graal/compiler/replacements/processor/PluginGenerator.java:69-74 | one factory per key, in key order, each built from that key's group sorted and renamed |
| Generator.PluginGenerator.GeneratedContents | compiler/src/jdk.graal.compiler.processor/src/jdk/graal/compiler/replacements/processor/PluginGenerator.java:69-74 | a written factory declares and registers exactly its class's plugins, sorted and renamed; the group is non-empty and holds every plugin added for that class |
| IntArrays.HighestOneBit | compiler/src/jdk.graal.compiler/src/jdk/graal/compiler/util/IntArrayBuilder.java:45 | `Integer.highestOneBit(e)` is 0 for 0, and otherwise a power of two `r` with `r <= e < 2r` |
| IntArrays.Placed | compiler/src/jdk.graal.compiler/src/jdk/graal/compiler/util/IntArrayBuilder.java:52-56 | after a set, the slot holds the value, the other old elements are unchanged and a gap past the old end reads as zero |
| IntArrays.PlacedAtEnd | compiler/src/jdk.graal.compiler/src/jdk/graal/compiler/util/IntArrayBuilder.java:58-62 | setting at the current size appends |
| IntArrays.PlacedTwice | compiler/src/jdk.graal.compiler/src/jdk/graal/compiler/util/IntArrayBuilder.java:52-56 | setting one slot twice leaves only the second value |
| IntArrays.CopyPrefix | compiler/src/jdk.graal.compiler/src/jdk/graal/compiler/util/IntArrayBuilder.java:46-47 | the new array holds the copied prefix followed by zeros |
| IntArrays.IntArrayBuilder.constructor | compiler/src/jdk.graal.compiler/src/jdk/graal/compiler/util/IntArrayBuilder.java:38-41 | a new builder is empty and has a backing array of length 1 |
| IntArrays.IntArrayBuilder.EnsureCapacity | compiler/src/jdk.graal.compiler/src/jdk/graal/compiler/util/IntArrayBuilder.java:43-50 | afterwards the array has room at index `e` for `e >= 0`. It is kept when `e` already fits; otherwise it is a new array of length `2 * highestOneBit(e)`, a power of two. The contents and the size are preserved |
| IntArrays.IntArrayBuilder.Set | compiler/src/jdk.graal.compiler/src/jdk/graal/compiler/util/IntArrayBuilder.java:52-56 | the backing array is kept when `index` fits and is otherwise a new array of length `2 * highestOneBit(index)`, the old array left as it was; the size becomes `max(size, index + 1)` and the contents become the old contents with the value placed at `index` |
| IntArrays.IntArrayBuilder.Add | compiler/src/jdk.graal.compiler/src/jdk/graal/compiler/util/IntArrayBuilder.java:58-62 | the backing array is kept when the size fits and is otherwise a new array of length `2 * highestOneBit(size)`, the old array left as it was; the size grows by one and the contents are the old contents followed by the value |
| IntArrays.IntArrayBuilder.ToArray | compiler/src/jdk.graal.compiler/src/jdk/graal/compiler/util/IntArrayBuilder.java:64-75 | the result holds exactly the contents; it is the backing array exactly when that is full, and a new array otherwise |

## Behaviour taken from the code

The model follows the code on these points, where a reader might expect otherwise:

- **Architecture lookup.** The table is consulted with the package's simple name, which is the
  last segment of its qualified name (`PluginGenerator.java` line 133).
- **Order of the blocks.** The plugin blocks and registrations appear in sorted order. The group
  is sorted in place by `disambiguateWith` before `createPluginFactory` prints it.
- **Provider registration.** The provider entry is registered even when the source file could not
  be created or written (line 166 runs after the `catch`).
- **The import set.** Each plugin adds its superclass import (line 182) and its extra imports. The
  set is exactly the seven fixed imports only when every name the plugins add is already among
  them (Imports.CollectedIsBaselineIff), for example a plugin whose superclass is
  `InvocationPlugin` with no extra imports and no replacement.

## Left out

- **File output.** Creating files through the `Filer`, the `PrintWriter` and the `Messager` error
  report are not modelled. Whether a factory's source file could be opened is an input, a boolean
  per factory. The source is modelled as a sequence of lines. Only the lines the generator prints
  itself have their text (`PluginFactory.Render`).
- **`GeneratedPlugin`.** The text that `generate` and `register` print is abstract: a line naming
  the plugin. The results of `extraImports`, `pluginSuperclass`, `needsReplacement` and
  `isWithExceptionReplacement` are fields of the plugin record. `extraImports` is the list of
  names it adds to the set.
- **Renaming in place.** `setPluginName` changes the plugin objects in place, and the map's
  lists share those objects. The model returns renamed copies.
  - Generator.PluginGenerator.GenerateAll returns the factories it creates. It does not rewrite
    the generator's lists, and nothing reads them after `generateAll`.
- **Element identity.** `javax.lang.model` elements are reduced to a kind, a name and the
  enclosing element. They are compared as values, not by object identity.
- **The regular expression.** `java.util.regex` is replaced by a scan for the first dot followed
  by an upper-case ASCII letter. That is what `\.([A-Z])` matches.
- **String comparison.** `String.compareTo` compares UTF-16 code units. Strings.Leq compares
  Dafny characters, which are Unicode scalar values. The two orders agree on text within the Basic
  Multilingual Plane.
- **The five-name example.** `[foo, bar, foo, foo, baz]` is not worked out. Other members cover
  what it shows:
  - Disambiguation.TwoFoos works out `[foo, foo, baz]`.
  - Disambiguation.RenamedTwoRuns shows the counter continuing across runs.
  - Disambiguation.SuffixesCountUp proves the general statement.
- Disambiguation.DisambiguateNames requires a non-empty group. On an empty list `plugins.get(0)`
  would throw, and `generateAll` only passes non-empty groups.
- Disambiguation.DisambiguatedNamesDistinct holds only for groups whose original names do not
  contain `__`. Disambiguation.MarkerInNameCollides shows a collision otherwise.
- Generator.PluginGenerator.GenerateAll requires every key to have an enclosing element. For a
  class outside any package, the cast at line 130 yields null and line 133 throws.
- Imports.ReplacementChoice states "exactly one node class" only for plugins whose own extra
  imports name neither node class. Imports.PluginReplacementImports states the general case.
- IntArrays.IntArrayBuilder.Set requires `0 <= index < 2^30`.
  - A negative index makes Java throw `ArrayIndexOutOfBoundsException`. That is not modelled.
  - Indices from 2^30 upward overflow `highestOneBit(e) << 1`. Java `int` wrap-around is not
    modelled.
- IntArrays.IntArrayBuilder.Add requires `size < 2^30`, for the same overflow reason.
- IntArrays.IntArrayBuilder.EnsureCapacity requires `expectedSize < 2^30`, for the same overflow
  reason.
- IntArrays.IntArrayBuilder.ToArray returns a new empty array when the size is 0. The source
  returns a shared empty array, and sharing one array between builders is not modelled.
- **`TestGarbageCollectionEvents.java`.** It is not part of this model. It is a runtime test of
  garbage-collection events, with no logic of the generator or the buffer in it.
