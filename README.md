# Output plugin registry

A Dafny model of Benthos's output plugin registry (`lib/output/plugin.go`): the
process-wide table `pluginSpecs` from a type tag to a plugin spec (constructor,
config constructor, config sanitiser, description), the calls that update it
(`RegisterPlugin`, `DocumentPlugin`), the read-only queries
(`GetDeprecatedPlugin`, `PluginCount`) and the markdown document
`PluginDescriptions` that lists every plugin in tag order.

Files:

- `wrappers.dfy` — `Option`, standing for Go's nil-able function values and byte slices.
- `strings.dfy` — module `Strings`: the lexicographic order Go's `sort.Strings` uses
  (`Below`, with reflexivity, antisymmetry, transitivity and totality), an in-place
  insertion sort on an array (`SortStrings`), the canonical ascending listing of a set
  of tags (`SortedKeys`) with its uniqueness, and `%v` formatting of a number (`NatToString`).
- `plugin.dfy` — module `OutputPlugin`: the spec record, the pure table updates
  `Registered` and `Documented` that specify the two registration calls, the class
  `Registry` holding the table as a `map` field, and the document as functions
  (`Document`, `Render`) that the imperative `PluginDescriptions` is proved to build.

Modelling choices:

- A Go map read of an absent key yields the zero value; `Spec(m, tag)` returns
  `ZeroSpec` (all nil, empty description) in that case, so both registration calls
  are the read-modify-write of the source.
- Function values are opaque tokens (`PluginCtor`, `ConfigCtor`, `ConfigSanitiser`).
  `RegisterPlugin` stores a new closure around the user's constructor, so the stored
  constructor `Some(FromPlugin(plugin))` is non-nil even when `plugin` is `None`.
- The YAML of a plugin's example config comes from foreign code (`NewConfig`,
  `SanitiseConfig`, `config.MarshalYAML`). It is the parameter `marshal` of
  `PluginDescriptions`, a total function of the tag, config constructor and sanitiser;
  `None` means sanitising or marshalling gave no bytes. It is only consulted when the
  config constructor is non-nil, as in the source.
- Strings are sequences of code points. Comparing code points lexicographically is the
  same order as Go's byte-wise comparison of their UTF-8 encodings.
- The map iteration `for name := range pluginSpecs` has no fixed order; `CollectNames`
  picks the keys in an arbitrary order, and only its multiset is specified. Because
  the subsequent sort has a unique result (`SortedUnique`), the document does not
  depend on that order.

Where the code and a broader description of the registry differ, the model follows
the code:

- Re-registering a tag does not replace the whole entry: the description and the
  sanitiser set by `DocumentPlugin` survive (line 73 starts from the existing entry).
- `DocumentPlugin` on a tag that was never registered inserts an entry with nil
  constructors. `GetDeprecatedPlugin` then reports that tag as found with a nil
  constructor, and `PluginCount` counts it, although its comment speaks of
  "registered plugins".

## Model

| member | source | states |
|---|---|---|
| `OutputPlugin.Registered` | lib/output/plugin.go:73-83 | after RegisterPlugin the tag is present with the new wrapped constructor and config constructor, its sanitiser and description are those it had before (zero if absent), and every other tag's entry is unchanged |
| `OutputPlugin.Documented` | lib/output/plugin.go:94-97 | after DocumentPlugin the tag is present with the new description and sanitiser, its constructor and config constructor are those it had before, and every other tag's entry is unchanged |
| `OutputPlugin.Registry.constructor` | lib/output/plugin.go:53 | the table starts empty |
| `OutputPlugin.Registry.RegisterPlugin` | lib/output/plugin.go:68-85 | the new table is `Registered` of the old one; afterwards the tag is found with the new constructor, and the count grew by one exactly when the tag was absent |
| `OutputPlugin.Registry.DocumentPlugin` | lib/output/plugin.go:90-98 | the new table is `Documented` of the old one; afterwards the tag is found with its previous (possibly nil) constructor, and the count grew by one exactly when the tag was absent |
| `OutputPlugin.Registry.GetDeprecatedPlugin` | lib/output/plugin.go:56-62 | found exactly when the tag is in the table, then with its stored constructor; nil and not found otherwise |
| `OutputPlugin.Registry.PluginCount` | lib/output/plugin.go:102-104 | the number of tags equals the number of entries of the sorted tag listing |
| `OutputPlugin.RegisteredCount` | lib/output/plugin.go:73-83 | registering grows the table by one exactly when the tag was absent, otherwise keeps its size |
| `OutputPlugin.DocumentedCount` | lib/output/plugin.go:94-97 | documenting grows the table by one exactly when the tag was absent, otherwise keeps its size |
| `OutputPlugin.RegisterLastWriteWins` | lib/output/plugin.go:73-83 | registering twice under one tag equals registering only the second time |
| `OutputPlugin.DocumentLastWriteWins` | lib/output/plugin.go:94-97 | documenting twice under one tag equals documenting only the second time |
| `OutputPlugin.RegisterDocumentCommute` | lib/output/plugin.go:73-97 | registering and documenting a tag give the same table in either order |
| `OutputPlugin.Registry.CollectNames` | lib/output/plugin.go:117-120 | the collected names are the table's tags, each exactly once |
| `Strings.SortStrings` | lib/output/plugin.go:121 | the array ends sorted and is a permutation of its initial contents |
| `Strings.Insert` | lib/output/plugin.go:121 | one insertion step extends the sorted prefix by one element and keeps a permutation |
| `Strings.BelowReflexive` | lib/output/plugin.go:121 | every string is ordered before or equal to itself |
| `Strings.BelowAntisymmetric` | lib/output/plugin.go:121 | two strings ordered both ways are equal |
| `Strings.BelowTransitive` | lib/output/plugin.go:121 | the string order is transitive |
| `Strings.BelowTotal` | lib/output/plugin.go:121 | any two strings are ordered one way or the other |
| `Strings.LeastExists` | lib/output/plugin.go:121 | every non-empty set of tags has a least tag |
| `Strings.SortedKeysSpec` | lib/output/plugin.go:117-121 | the ascending listing of a set holds each member exactly once, strictly increasing, and as many entries as the set |
| `Strings.SortedUnique` | lib/output/plugin.go:121 | two sorted sequences with the same multiset of names are equal, so the sorted order of the tags is unique |
| `Strings.MultisetOfSetRemove` | lib/output/plugin.go:118-120 | taking one tag out of the remaining keys moves exactly one occurrence |
| `OutputPlugin.Registry.SortedNames` | lib/output/plugin.go:116-121 | the names that are listed are exactly the ascending listing of the table's tags |
| `Strings.NatToString` | lib/output/plugin.go:132 | the contents number is a non-empty string of decimal digits with no leading zero |
| `Strings.NatToStringRoundTrip` | lib/output/plugin.go:132 | reading the printed digits back yields the number |
| `OutputPlugin.Repeat` | lib/output/plugin.go:125 | the underline is n copies of the character |
| `OutputPlugin.ConfBytes` | lib/output/plugin.go:143-152 | no config bytes are produced for a plugin without config constructor |
| `OutputPlugin.Registry.WriteSection` | lib/output/plugin.go:143-169 | one section: heading, YAML block only with config bytes, description block only when non-empty, blank separator unless last |
| `OutputPlugin.Registry.PluginDescriptions` | lib/output/plugin.go:115-172 | the buffer built by the two loops equals the document of the table's tags in ascending order |
| `OutputPlugin.RenderLayout` | lib/output/plugin.go:115-172 | the document is banner, contents list, contents end and sections over the tags, each tag exactly once and in ascending order, as many as the table holds |
| `OutputPlugin.RenderStartsWithBanner` | lib/output/plugin.go:124-130 | the document always starts with the title, fourteen `=`, a blank line, the fixed header and the contents heading |
| `OutputPlugin.RenderEmpty` | lib/output/plugin.go:135-136 | with an empty table the document is the banner followed by "There are no plugins loaded." and nothing else |
| `OutputPlugin.RenderNonEmpty` | lib/output/plugin.go:137-139 | with a non-empty table the contents list is followed by one blank line and then the sections |
| `OutputPlugin.ContentsInOrder` | lib/output/plugin.go:131-133 | contents line j+1 for the j-th name comes right after the first j lines |
| `OutputPlugin.SectionsInOrder` | lib/output/plugin.go:142-170 | the section of the j-th name comes right after the first j sections |
| `OutputPlugin.RenderEndsWithLastSection` | lib/output/plugin.go:167-169 | the document ends with the last tag's section without a separating blank line |
| `OutputPlugin.SectionsAgree` | lib/output/plugin.go:142-170 | sections depend only on each tag's config constructor, sanitiser and description |
| `OutputPlugin.RenderIgnoresConstructors` | lib/output/plugin.go:141-170 | two tables with the same tags and the same documentation fields give the same document |
| `OutputPlugin.ReRegisterKeepsDocument` | lib/output/plugin.go:73-83 | re-registering a present tag with the same config constructor leaves the document unchanged |

## Left out

- `plugins.Add(typeString, "output")` (line 84): a side table in another package; not part of this model.
- Invoking the constructors (`fromSimpleConstructor`, the manager, logger and metrics arguments): opaque runtime objects, represented by tokens.
- `NewConfig`, `SanitiseConfig` and `config.MarshalYAML`: foreign code, abstracted into the `marshal` parameter; a sanitise error is `None` (no YAML block).
- Concurrency: the table has no locking in the source; the model is sequential and claims nothing about thread safety.
- Integer width: the contents counter `i+1` is an unbounded `nat`; a table large enough to overflow Go's `int` is not modelled.
- The configuration assembly pipeline (reference expansion, `${NAME:default}` interpolation, resource merging, stage construction) exercised by `lib/service/test/processors_provider_test.go`: its implementation is not part of this model.
