/**
 * The output plugin registry: a table from type tag to plugin spec, the two
 * registration calls that update it, the two read-only queries, and the
 * markdown document that lists every registered plugin.
 */
module OutputPlugin {
  import opened Wrappers
  import opened Strings

  /** Opaque handle for a user-supplied `PluginConstructor` function. */
  datatype PluginCtor = PluginCtor(id: nat)

  /** Opaque handle for a `PluginConfigConstructor` function. */
  datatype ConfigCtor = ConfigCtor(id: nat)

  /** Opaque handle for a `PluginConfigSanitiser` function. */
  datatype ConfigSanitiser = ConfigSanitiser(id: nat)

  /**
   * The output constructor kept in the table. RegisterPlugin always stores a
   * fresh closure that forwards to the user's constructor, so the stored value
   * is never nil even when the user's constructor is.
   */
  datatype OutputCtor = FromPlugin(plugin: Option<PluginCtor>)

  /** One entry of the table; None stands for a nil function value. */
  datatype PluginSpec = PluginSpec(
    ctor: Option<OutputCtor>,
    confCtor: Option<ConfigCtor>,
    confSanitiser: Option<ConfigSanitiser>,
    description: string)

  /** Go's zero value of the spec record: what reading an absent tag yields. */
  const ZeroSpec := PluginSpec(None, None, None, "")

  type Table = map<string, PluginSpec>

  /** `pluginSpecs[tag]`: the stored spec, or the zero spec for an absent tag. */
  function Spec(m: Table, tag: string): PluginSpec
  {
    if tag in m then m[tag] else ZeroSpec
  }

  /** The table after RegisterPlugin(tag, confCtor, plugin). */
  function Registered(m: Table, tag: string, confCtor: Option<ConfigCtor>, plugin: Option<PluginCtor>): (r: Table)
    ensures r.Keys == m.Keys + {tag}
    ensures r[tag].ctor == Some(FromPlugin(plugin)) && r[tag].confCtor == confCtor
    ensures r[tag].confSanitiser == Spec(m, tag).confSanitiser
    ensures r[tag].description == Spec(m, tag).description
    ensures forall t :: t in m && t != tag ==> r[t] == m[t]
  {
    m[tag := Spec(m, tag).(ctor := Some(FromPlugin(plugin)), confCtor := confCtor)]
  }

  /** The table after DocumentPlugin(tag, description, sanitiser). */
  function Documented(m: Table, tag: string, description: string, sanitiser: Option<ConfigSanitiser>): (r: Table)
    ensures r.Keys == m.Keys + {tag}
    ensures r[tag].description == description && r[tag].confSanitiser == sanitiser
    ensures r[tag].ctor == Spec(m, tag).ctor
    ensures r[tag].confCtor == Spec(m, tag).confCtor
    ensures forall t :: t in m && t != tag ==> r[t] == m[t]
  {
    m[tag := Spec(m, tag).(description := description, confSanitiser := sanitiser)]
  }

  /**
   * The YAML of a plugin's example configuration, which the source obtains by
   * running the config constructor, the sanitiser and a YAML marshaller (all
   * outside this model). None stands for a sanitising or marshalling failure.
   */
  type Marshal = (string, ConfigCtor, Option<ConfigSanitiser>) -> Option<string>

  /** The config bytes of one plugin: none at all without a config constructor. */
  function ConfBytes(m: Table, name: string, marshal: Marshal): (r: Option<string>)
    ensures Spec(m, name).confCtor == None ==> r == None
  {
    var spec := Spec(m, name);
    if spec.confCtor.Some? then marshal(name, spec.confCtor.value, spec.confSanitiser) else None
  }

  const PluginHeader: string :=
    "This document was generated with `benthos --list-output-plugins`.\n\n"
    + "This document lists any output plugins that this flavour of Benthos offers\n"
    + "beyond the standard set."

  function Repeat(c: char, n: nat): (r: string)
    ensures |r| == n && forall i :: 0 <= i < n ==> r[i] == c
  {
    if n == 0 then [] else [c] + Repeat(c, n - 1)
  }

  /** Everything the document holds before its contents list. */
  function Banner(): string
  {
    "Output Plugins\n" + Repeat('=', 14) + "\n\n" + PluginHeader + "\n\n" + "### Contents\n\n"
  }

  /** The contents line of the n-th plugin, a markdown link to its section. */
  function ContentsLine(n: nat, name: string): string
  {
    NatToString(n) + ". [`" + name + "`](#" + name + ")\n"
  }

  /** The contents lines of the first k names, numbered from 1. */
  function ContentsList(names: seq<string>, k: nat): string
    requires k <= |names|
  {
    if k == 0 then "" else ContentsList(names, k - 1) + ContentsLine(k, names[k - 1])
  }

  /** What follows the contents list. */
  function ContentsEnd(names: seq<string>): string
  {
    if |names| == 0 then "There are no plugins loaded." else "\n"
  }

  /** The heading, optional YAML block and optional description of one plugin. */
  function SectionBody(name: string, conf: Option<string>, description: string): string
  {
    "## " + "`" + name + "`" + "\n"
    + (if conf.Some? then "\n``` yaml\n" + conf.value + "```\n" else "")
    + (if |description| > 0 then "\n" + description + "\n" else "")
  }

  /** A plugin's section; every section but the last is followed by a blank line. */
  function Section(m: Table, name: string, marshal: Marshal, last: bool): string
  {
    SectionBody(name, ConfBytes(m, name, marshal), Spec(m, name).description) + (if last then "" else "\n")
  }

  /** The sections of the first k names. */
  function Sections(names: seq<string>, m: Table, marshal: Marshal, k: nat): string
    requires k <= |names|
  {
    if k == 0 then "" else Sections(names, m, marshal, k - 1) + Section(m, names[k - 1], marshal, k == |names|)
  }

  /** The document for a given order of the names. */
  function Document(names: seq<string>, m: Table, marshal: Marshal): string
  {
    Banner() + ContentsList(names, |names|) + ContentsEnd(names) + Sections(names, m, marshal, |names|)
  }

  /** The document PluginDescriptions produces for a table: names in ascending order. */
  ghost function Render(m: Table, marshal: Marshal): string
  {
    Document(SortedKeys(m.Keys), m, marshal)
  }

  /** The process-wide table `pluginSpecs`. */
  class Registry {
    var specs: Table

    /** The table starts empty. */
    constructor ()
      ensures specs == map[]
    {
      specs := map[];
    }

    /**
     * The stored constructor of a tag, and whether the tag is in the table. A
     * tag that was documented but never registered is found, with a nil
     * constructor.
     */
    function GetDeprecatedPlugin(name: string): (r: (Option<OutputCtor>, bool))
      reads this
      ensures r.1 <==> name in specs
      ensures r.1 ==> r.0 == specs[name].ctor
      ensures !r.1 ==> r.0 == None
    {
      if name !in specs then (None, false) else (specs[name].ctor, true)
    }

    /** The number of tags in the table: also the number of contents lines. */
    function PluginCount(): (n: nat)
      reads this
      ensures n == |SortedKeys(specs.Keys)|
    {
      SortedKeysSpec(specs.Keys);
      |specs|
    }

    /**
     * Stores a wrapper around the constructor and the config constructor under
     * the tag, keeping the entry's description and sanitiser.
     */
    method RegisterPlugin(typeString: string, configConstructor: Option<ConfigCtor>, plugin: Option<PluginCtor>)
      modifies this
      ensures specs == Registered(old(specs), typeString, configConstructor, plugin)
      ensures GetDeprecatedPlugin(typeString) == (Some(FromPlugin(plugin)), true)
      ensures PluginCount() == old(PluginCount()) + (if typeString in old(specs) then 0 else 1)
    {
      var spec := Spec(specs, typeString);
      spec := spec.(ctor := Some(FromPlugin(plugin)), confCtor := configConstructor);
      specs := specs[typeString := spec];
      RegisteredCount(old(specs), typeString, configConstructor, plugin);
    }

    /**
     * Stores the description and sanitiser under the tag, keeping the entry's
     * constructors; an absent tag gets an entry with nil constructors.
     */
    method DocumentPlugin(typeString: string, description: string, configSanitiser: Option<ConfigSanitiser>)
      modifies this
      ensures specs == Documented(old(specs), typeString, description, configSanitiser)
      ensures GetDeprecatedPlugin(typeString) == (Spec(old(specs), typeString).ctor, true)
      ensures PluginCount() == old(PluginCount()) + (if typeString in old(specs) then 0 else 1)
    {
      var spec := Spec(specs, typeString);
      spec := spec.(description := description, confSanitiser := configSanitiser);
      specs := specs[typeString := spec];
      DocumentedCount(old(specs), typeString, description, configSanitiser);
    }

    /** The table's tags, each once, in the map's (unspecified) iteration order. */
    method CollectNames() returns (names: seq<string>)
      ensures multiset(names) == multiset(specs.Keys)
    {
      names := [];
      var rest := specs.Keys;
      while rest != {}
        invariant rest <= specs.Keys
        invariant multiset(names) + multiset(rest) == multiset(specs.Keys)
        decreases rest
      {
        var name :| name in rest;
        MultisetOfSetRemove(rest, name);
        names := names + [name];
        rest := rest - {name};
      }
    }

    /** The table's tags in ascending order, as the source sorts them. */
    method SortedNames() returns (names: seq<string>)
      ensures names == SortedKeys(specs.Keys)
    {
      var collected := CollectNames();
      var a := new string[|collected|](i => if 0 <= i < |collected| then collected[i] else "");
      assert a[..] == collected;
      SortStrings(a);
      names := a[..];
      SortedKeysSpec(specs.Keys);
      SortedUnique(names, SortedKeys(specs.Keys));
    }

    /** One plugin's section of the document. */
    method WriteSection(name: string, marshal: Marshal, last: bool) returns (section: string)
      ensures section == Section(specs, name, marshal, last)
    {
      var spec := Spec(specs, name);
      var confBytes: Option<string> := None;
      if spec.confCtor.Some? {
        confBytes := marshal(name, spec.confCtor.value, spec.confSanitiser);
      }
      section := "## " + "`" + name + "`" + "\n";
      if confBytes.Some? {
        section := section + "\n``` yaml\n" + confBytes.value + "```\n";
      }
      if |spec.description| > 0 {
        section := section + "\n" + spec.description + "\n";
      }
      if !last {
        section := section + "\n";
      }
    }

    /** Builds the markdown listing of all plugins, sorted by tag. */
    method PluginDescriptions(marshal: Marshal) returns (out: string)
      ensures out == Render(specs, marshal)
    {
      var names := SortedNames();

      var buf := "Output Plugins\n";
      buf := buf + Repeat('=', 14);
      buf := buf + "\n\n";
      buf := buf + PluginHeader;
      buf := buf + "\n\n";
      buf := buf + "### Contents\n\n";
      var i := 0;
      while i < |names|
        invariant i <= |names|
        invariant buf == Banner() + ContentsList(names, i)
      {
        AppendAssoc(Banner(), ContentsList(names, i), ContentsLine(i + 1, names[i]));
        buf := buf + ContentsLine(i + 1, names[i]);
        i := i + 1;
      }
      if |names| == 0 {
        buf := buf + "There are no plugins loaded.";
      } else {
        buf := buf + "\n";
      }

      ghost var front := buf;
      assert front == Banner() + ContentsList(names, |names|) + ContentsEnd(names);
      i := 0;
      while i < |names|
        invariant i <= |names|
        invariant buf == front + Sections(names, specs, marshal, i)
      {
        var section := WriteSection(names[i], marshal, i == |names| - 1);
        AppendAssoc(front, Sections(names, specs, marshal, i), section);
        buf := buf + section;
        i := i + 1;
      }
      out := buf;
    }
  }

  lemma AppendAssoc(a: string, b: string, c: string)
    ensures a + (b + c) == (a + b) + c
  {
  }

  /** Registering grows the table by one exactly when the tag was absent. */
  lemma RegisteredCount(m: Table, tag: string, confCtor: Option<ConfigCtor>, plugin: Option<PluginCtor>)
    ensures |Registered(m, tag, confCtor, plugin)| == if tag in m then |m| else |m| + 1
  {
  }

  /** Documenting grows the table by one exactly when the tag was absent. */
  lemma DocumentedCount(m: Table, tag: string, description: string, sanitiser: Option<ConfigSanitiser>)
    ensures |Documented(m, tag, description, sanitiser)| == if tag in m then |m| else |m| + 1
  {
  }

  /** A second registration under a tag replaces the first one without a trace. */
  lemma RegisterLastWriteWins(m: Table, tag: string, c1: Option<ConfigCtor>, p1: Option<PluginCtor>,
                              c2: Option<ConfigCtor>, p2: Option<PluginCtor>)
    ensures Registered(Registered(m, tag, c1, p1), tag, c2, p2) == Registered(m, tag, c2, p2)
  {
  }

  /** A second documentation call under a tag replaces the first one without a trace. */
  lemma DocumentLastWriteWins(m: Table, tag: string, d1: string, s1: Option<ConfigSanitiser>,
                              d2: string, s2: Option<ConfigSanitiser>)
    ensures Documented(Documented(m, tag, d1, s1), tag, d2, s2) == Documented(m, tag, d2, s2)
  {
  }

  /**
   * RegisterPlugin and DocumentPlugin write disjoint fields, so a plugin may be
   * documented before or after it is registered with the same outcome.
   */
  lemma RegisterDocumentCommute(m: Table, tag: string, confCtor: Option<ConfigCtor>, plugin: Option<PluginCtor>,
                                description: string, sanitiser: Option<ConfigSanitiser>)
    ensures Registered(Documented(m, tag, description, sanitiser), tag, confCtor, plugin)
         == Documented(Registered(m, tag, confCtor, plugin), tag, description, sanitiser)
  {
  }

  /**
   * The overall layout: banner, one numbered contents line per tag, the end of
   * the contents, then one section per tag; the tags are listed each exactly
   * once and in ascending order, and there are as many as PluginCount says.
   */
  lemma {:induction false} RenderLayout(m: Table, marshal: Marshal)
    ensures var names := SortedKeys(m.Keys);
      && StrictlySorted(names)
      && |names| == |m|
      && (forall t :: t in names <==> t in m)
      && Render(m, marshal) == Banner() + ContentsList(names, |names|) + ContentsEnd(names)
                               + Sections(names, m, marshal, |names|)
  {
    SortedKeysSpec(m.Keys);
  }

  /** The document always opens with the title, its underline and the fixed header. */
  lemma RenderStartsWithBanner(m: Table, marshal: Marshal)
    ensures Render(m, marshal)[..|Banner()|] == Banner()
    ensures Banner() == "Output Plugins\n" + Repeat('=', 14) + "\n\n" + PluginHeader + "\n\n" + "### Contents\n\n"
  {
  }

  /** With no plugin registered the document says so and holds no section. */
  lemma RenderEmpty(m: Table, marshal: Marshal)
    requires m == map[]
    ensures Render(m, marshal) == Banner() + "There are no plugins loaded."
  {
  }

  /** With at least one plugin the contents list is followed by one blank line instead. */
  lemma RenderNonEmpty(m: Table, marshal: Marshal)
    requires m != map[]
    ensures var names := SortedKeys(m.Keys);
      Render(m, marshal) == Banner() + ContentsList(names, |names|) + "\n" + Sections(names, m, marshal, |names|)
  {
  }

  /** Sections depend only on each tag's config constructor, sanitiser and description. */
  lemma {:induction false} SectionsAgree(names: seq<string>, m1: Table, m2: Table, marshal: Marshal, k: nat)
    requires k <= |names|
    requires forall t :: t in names ==> SameDocs(Spec(m1, t), Spec(m2, t))
    ensures Sections(names, m1, marshal, k) == Sections(names, m2, marshal, k)
  {
    if k > 0 {
      SectionsAgree(names, m1, m2, marshal, k - 1);
      assert SameDocs(Spec(m1, names[k - 1]), Spec(m2, names[k - 1]));
    }
  }

  /** Two specs that document the same way. */
  predicate SameDocs(a: PluginSpec, b: PluginSpec)
  {
    a.confCtor == b.confCtor && a.confSanitiser == b.confSanitiser && a.description == b.description
  }

  /**
   * The document depends only on which tags are present and on their config
   * constructors, sanitisers and descriptions, never on the constructors.
   */
  lemma {:induction false} RenderIgnoresConstructors(m1: Table, m2: Table, marshal: Marshal)
    requires m1.Keys == m2.Keys
    requires forall t :: t in m1 ==> SameDocs(m1[t], m2[t])
    ensures Render(m1, marshal) == Render(m2, marshal)
  {
    var names := SortedKeys(m1.Keys);
    SortedKeysSpec(m1.Keys);
    SectionsAgree(names, m1, m2, marshal, |names|);
  }

  /**
   * Re-registering a plugin that is already in the table, with the same config
   * constructor, leaves the generated document unchanged.
   */
  lemma ReRegisterKeepsDocument(m: Table, tag: string, confCtor: Option<ConfigCtor>, plugin: Option<PluginCtor>,
                                marshal: Marshal)
    requires tag in m && m[tag].confCtor == confCtor
    ensures Render(Registered(m, tag, confCtor, plugin), marshal) == Render(m, marshal)
  {
    RenderIgnoresConstructors(Registered(m, tag, confCtor, plugin), m, marshal);
  }

  /** The contents lines come in the order of the names: line j+1 follows the first j lines. */
  lemma {:induction false} ContentsInOrder(names: seq<string>, j: nat, k: nat)
    requires j < k <= |names|
    ensures ContentsList(names, j) + ContentsLine(j + 1, names[j]) <= ContentsList(names, k)
    decreases k
  {
    if j + 1 < k {
      ContentsInOrder(names, j, k - 1);
    }
  }

  /** The sections come in the order of the names: section j follows the first j sections. */
  lemma {:induction false} SectionsInOrder(names: seq<string>, m: Table, marshal: Marshal, j: nat, k: nat)
    requires j < k <= |names|
    ensures Sections(names, m, marshal, j) + Section(m, names[j], marshal, j == |names| - 1)
            <= Sections(names, m, marshal, k)
    decreases k
  {
    if j + 1 < k {
      SectionsInOrder(names, m, marshal, j, k - 1);
    }
  }

  /** The last section is not followed by the blank line that separates the others. */
  lemma RenderEndsWithLastSection(m: Table, marshal: Marshal)
    requires m != map[]
    ensures var names := SortedKeys(m.Keys);
      |names| > 0
      && var last := names[|names| - 1];
      var body := SectionBody(last, ConfBytes(m, last, marshal), Spec(m, last).description);
      |body| <= |Render(m, marshal)|
      && Render(m, marshal)[|Render(m, marshal)| - |body|..] == body
  {
  }
}
