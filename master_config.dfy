/** How the master server reads its configuration document: a document
    with front matter is read through its YAML body (capability bullet
    lists and a bracketed trigger list), any other document through its
    structured sections; whatever cannot be read falls back to a fixed
    configuration. The regular expressions that find the sections are
    not modelled: each document arrives as the pieces they extract. */
module MasterConfig {
  import opened Text
  import opened Values

  datatype Config = Config(
    name: string,
    description: string,
    capabilities: seq<string>,
    triggers: seq<string>,
    tools: seq<string>,
    version: string)

  const Description := "An AI agent that optimizes task execution through intelligent planning, parallelization, and execution in subtasks or delegation to existing agents in system"

  /** `getHardcodedConfig`. */
  function HardcodedConfig(): (c: Config)
    ensures c.name == "master" && c.version == "0.9.10"
    ensures |c.capabilities| == 25 && |c.triggers| == 12
    ensures c.tools == ["dynamic_agent_discovery"]
  {
    Config("master", Description,
      ["unified-task-orchestration", "automatic-delegation", "agent-selection", "mcp-integration",
       "fallback-handling", "intelligent-task-planning", "advanced-parallel-execution",
       "dependency-resolution", "dynamic-scheduling", "deadlock-avoidance", "resource-optimization",
       "real-time-adaptation", "configuration-management", "agent-discovery", "resource-management",
       "performance-monitoring", "system-validation", "task-execution", "tool-selection",
       "mandatory-tool-enforcement", "automatic-tool-selection", "compliance-monitoring",
       "execution-authorization", "tool-decision-matrix", "intelligent-workflow-routing"],
      ["orchestrate", "delegate", "analyze", "plan", "coordinate", "manage",
       "parallel", "team", "multiple-agents", "clarify", "search", "research"],
      ["dynamic_agent_discovery"],
      "0.9.10")
  }

  /** `getDefaultCapabilities`: used when the YAML body lists none. */
  function DefaultCapabilities(): (caps: seq<string>)
    ensures |caps| == 7
    ensures forall c :: c in caps ==> c != []
  {
    ["configuration-parsing", "capability-provisioning", "yaml-frontmatter-processing",
     "structured-content-extraction", "mcp-server-interface", "capability-validation",
     "basic-tool-simulation"]
  }

  lemma DefaultCapabilitiesDistinct()
    ensures Distinct(DefaultCapabilities())
  {
    var d := DefaultCapabilities();
    assert d[0][0] == 'c' && d[1][1] == 'a' && d[2][0] == 'y' && d[3][0] == 's';
    assert d[4][0] == 'm' && d[5][1] == 'a' && d[6][0] == 'b';
    assert d[0][1] == 'o' && d[5][0] == 'c' && d[1][0] == 'c';
  }

  // ---------------------------------------------------------------------
  // Capability bullets
  // ---------------------------------------------------------------------

  /** `s.indexOf(c)`, as an index. */
  function FirstIndexOf(s: string, c: char): (r: Option<nat>)
    ensures r.None? ==> c !in s
    ensures r.Some? ==> r.value < |s| && s[r.value] == c && c !in s[..r.value]
  {
    if s == [] then None
    else if s[0] == c then Some(0)
    else
      match FirstIndexOf(s[1..], c)
      case None => None
      case Some(k) =>
        assert s[..k + 1] == [s[0]] + s[1..][..k];
        Some(k + 1)
  }

  // `line.replace(...)` with the pattern blanks, dash, blanks: the first
  // dash goes, with the blanks on both sides of it.
  function RemoveBullet(line: string): string {
    match FirstIndexOf(line, '-')
    case None => line
    case Some(k) => TrimEnd(line[..k]) + TrimStart(line[k + 1..])
  }

  /** The capability named by one extracted `- item` line. */
  function CapabilityName(line: string): (r: string)
    ensures r == [] || (!IsSpace(r[0]) && !IsSpace(r[|r| - 1]))
  {
    Trim(RemoveBullet(line))
  }

  /** A blank string has no dash in it. */
  lemma BlankHasNoDash(s: string)
    requires IsBlank(s)
    ensures '-' !in s
  {
    forall i | 0 <= i < |s|
      ensures s[i] != '-'
    {
      assert IsSpace(s[i]);
    }
  }

  /** Trimming the front of blanks followed by a string trims the string. */
  lemma {:induction false} TrimStartBlankPrefix(ws: string, t: string)
    requires IsBlank(ws)
    ensures TrimStart(ws + t) == TrimStart(t)
  {
    if ws != [] {
      assert (ws + t)[1..] == ws[1..] + t;
      assert IsSpace(ws[0]);
      TrimStartBlankPrefix(ws[1..], t);
    } else {
      assert ws + t == t;
    }
  }

  /** A blank string trims to nothing from the end. */
  lemma {:induction false} TrimEndBlank(ws: string)
    requires IsBlank(ws)
    ensures TrimEnd(ws) == []
  {
    if ws != [] {
      assert IsSpace(ws[|ws| - 1]);
      TrimEndBlank(ws[..|ws| - 1]);
    }
  }

  /** Trimming after trimming the front is trimming. */
  lemma TrimAfterTrimStart(s: string)
    ensures Trim(TrimStart(s)) == Trim(s)
  {
    var t := TrimStart(s);
    assert t == [] || !IsSpace(t[0]);
    assert TrimStart(t) == t;
  }

  /** The first dash of blanks, a dash and more is that dash. */
  lemma FirstDashAfterBlanks(ws: string, rest: string)
    requires IsBlank(ws)
    ensures FirstIndexOf(ws + ['-'] + rest, '-') == Some(|ws|)
  {
    var s := ws + ['-'] + rest;
    assert s[|ws|] == '-';
    forall j | 0 <= j < |ws|
      ensures s[j] != '-'
    {
      assert s[j] == ws[j] && IsSpace(ws[j]);
    }
    var k := FirstIndexOf(s, '-').value;
    forall j | 0 <= j < k
      ensures s[j] != '-'
    {
      assert s[j] == s[..k][j];
    }
  }

  /** The text before and after a character placed between two strings. */
  lemma AroundChar(a: string, c: char, b: string)
    ensures (a + [c] + b)[..|a|] == a
    ensures (a + [c] + b)[|a| + 1..] == b
  {
  }

  /** Removing the bullet of `<blanks>-<rest>` trims the front of `rest`. */
  lemma RemoveBulletAfterBlanks(ws: string, rest: string)
    requires IsBlank(ws)
    ensures RemoveBullet(ws + ['-'] + rest) == TrimStart(rest)
  {
    FirstDashAfterBlanks(ws, rest);
    AroundChar(ws, '-', rest);
    TrimEndBlank(ws);
  }

  /** A bullet line `<blanks>-<blanks><item>` names the trimmed item. */
  lemma BulletLine(ws1: string, ws2: string, item: string)
    requires IsBlank(ws1) && IsBlank(ws2)
    ensures CapabilityName(ws1 + "-" + ws2 + item) == Trim(item)
  {
    assert ws1 + "-" + ws2 + item == ws1 + ['-'] + (ws2 + item);
    RemoveBulletAfterBlanks(ws1, ws2 + item);
    assert RemoveBullet(ws1 + ['-'] + (ws2 + item)) == TrimStart(ws2 + item);
    TrimStartBlankPrefix(ws2, item);
    TrimAfterTrimStart(item);
  }

  /** `if (cap && !config.capabilities.includes(cap)) push(cap)`. */
  function Add(caps: seq<string>, cap: string): (r: seq<string>)
    ensures Distinct(caps) ==> Distinct(r)
  {
    if cap != [] && cap !in caps then caps + [cap] else caps
  }

  /** The capability list after the bullet loop has seen the lines
      naming `names`, starting from `acc`. */
  function GatherInto(acc: seq<string>, names: seq<string>): seq<string>
  {
    if names == [] then acc
    else Add(GatherInto(acc, names[..|names| - 1]), names[|names| - 1])
  }

  /** The names the lines carry, in order. */
  function Names(lines: seq<string>): (r: seq<string>)
    ensures |r| == |lines|
    ensures forall i :: 0 <= i < |lines| ==> r[i] == CapabilityName(lines[i])
  {
    seq(|lines|, i requires 0 <= i < |lines| => CapabilityName(lines[i]))
  }

  lemma {:induction false} NamesAppend(xs: seq<string>, ys: seq<string>)
    ensures Names(xs + ys) == Names(xs) + Names(ys)
  {
    var l := Names(xs + ys);
    var r := Names(xs) + Names(ys);
    forall i | 0 <= i < |l|
      ensures l[i] == r[i]
    {
      if i < |xs| {
        assert (xs + ys)[i] == xs[i];
      } else {
        assert (xs + ys)[i] == ys[i - |xs|];
      }
    }
  }

  /** Gathering continues across consecutive runs of lines. */
  lemma {:induction false} GatherIntoAppend(acc: seq<string>, xs: seq<string>, ys: seq<string>)
    ensures GatherInto(acc, xs + ys) == GatherInto(GatherInto(acc, xs), ys)
  {
    if ys == [] {
      assert xs + ys == xs;
    } else {
      var init := ys[..|ys| - 1];
      var last := ys[|ys| - 1];
      GatherIntoAppend(acc, xs, init);
      assert xs + ys == (xs + init) + [last];
      assert ((xs + init) + [last])[..|xs + init|] == xs + init;
    }
  }

  /** Name `a` appears in the lines before name `b` first does. */
  predicate AppearsBefore(names: seq<string>, a: string, b: string) {
    exists p :: 0 <= p < |names| && names[p] == a && b !in names[..p]
  }

  /** Of any two gathered names, the earlier one appears in the lines
      before the later one first does. */
  predicate FirstAppearanceOrder(names: seq<string>, r: seq<string>) {
    forall i, j :: 0 <= i < j < |r| ==> AppearsBefore(names, r[i], r[j])
  }

  /** More lines after the ones seen keep every first appearance. */
  lemma OrderMoreLines(names: seq<string>, x: string, r: seq<string>)
    requires FirstAppearanceOrder(names, r)
    ensures FirstAppearanceOrder(names + [x], r)
  {
    var longer := names + [x];
    forall i, j | 0 <= i < j < |r|
      ensures AppearsBefore(longer, r[i], r[j])
    {
      var p :| 0 <= p < |names| && names[p] == r[i] && r[j] !in names[..p];
      assert longer[..p] == names[..p] && longer[p] == names[p];
      assert AppearsBefore(longer, r[i], r[j]);
    }
  }

  /** A name absent from the lines seen may follow every gathered name. */
  lemma OrderNewName(names: seq<string>, r: seq<string>, x: string)
    requires FirstAppearanceOrder(names, r)
    requires forall c :: c in r ==> c in names
    requires x !in names
    ensures FirstAppearanceOrder(names, r + [x])
  {
    var r' := r + [x];
    forall i, j | 0 <= i < j < |r'|
      ensures AppearsBefore(names, r'[i], r'[j])
    {
      assert r'[i] == r[i];
      if j < |r| {
        assert r'[j] == r[j];
      } else {
        assert r'[j] == x && r[i] in r;
        var p :| 0 <= p < |names| && names[p] == r[i];
        assert x !in names[..p];
        assert AppearsBefore(names, r'[i], r'[j]);
      }
    }
  }

  /** One more line keeps the order of first appearance. */
  lemma GatheredOrderStep(init: seq<string>, x: string)
    requires FirstAppearanceOrder(init, GatherInto([], init))
    requires forall c :: c in GatherInto([], init) <==> c != [] && c in init
    ensures FirstAppearanceOrder(init + [x], GatherInto([], init + [x]))
  {
    var r0 := GatherInto([], init);
    assert (init + [x])[..|init|] == init;
    if x != [] && x !in r0 {
      OrderNewName(init, r0, x);
      OrderMoreLines(init, x, r0 + [x]);
    } else {
      OrderMoreLines(init, x, r0);
    }
  }

  /** The gathered list holds each non-empty name of the lines exactly
      once, and nothing else, in the order the names first appear. */
  lemma {:induction false} GatheredSpec(names: seq<string>)
    ensures Distinct(GatherInto([], names))
    ensures forall c :: c in GatherInto([], names) <==> c != [] && c in names
    ensures FirstAppearanceOrder(names, GatherInto([], names))
  {
    if names != [] {
      var init := names[..|names| - 1];
      GatheredSpec(init);
      assert names == init + [names[|names| - 1]];
      GatheredOrderStep(init, names[|names| - 1]);
    }
  }

  /** The lines of every matched block, block after block. */
  function Flatten(blocks: seq<seq<string>>): seq<string>
  {
    if blocks == [] then [] else Flatten(blocks[..|blocks| - 1]) + blocks[|blocks| - 1]
  }

  // ---------------------------------------------------------------------
  // Triggers
  // ---------------------------------------------------------------------

  /** Every character of a piece comes from the split text. */
  lemma {:induction false} SplitChars(s: string, sep: char, p: string, x: char)
    requires p in SplitOn(s, sep) && x in p
    ensures x in s
  {
    if s != [] {
      if s[0] == sep {
        if p != "" {
          SplitChars(s[1..], sep, p, x);
        }
      } else {
        var rest := SplitOn(s[1..], sep);
        if p == [s[0]] + rest[0] {
          if x != s[0] {
            assert x in rest[0];
            SplitChars(s[1..], sep, rest[0], x);
          }
        } else {
          assert p in rest[1..];
          SplitChars(s[1..], sep, p, x);
        }
      }
    }
  }

  lemma TrimChars(s: string, x: char)
    requires x in Trim(s)
    ensures x in s
  {
    var t := TrimStart(s);
    assert Trim(s) == t[..|Trim(s)|];
    assert t == s[|s| - |t|..];
  }

  /** The trigger list: quotes removed, split on commas, trimmed, empty
      entries dropped. */
  function TriggerList(section: string): seq<string> {
    NonEmpty(MapTrim(SplitOn(StripQuotes(section), ',')))
  }

  /** Every trigger is non-empty, trimmed, and free of quotes and commas,
      and there are at most as many triggers as comma-separated parts. */
  lemma TriggerListSpec(section: string)
    ensures |TriggerList(section)| <= |SplitOn(StripQuotes(section), ',')|
    ensures forall t :: t in TriggerList(section) ==>
      (&& t != []
       && !IsSpace(t[0]) && !IsSpace(t[|t| - 1])
       && '"' !in t && '\'' !in t && ',' !in t)
  {
    var stripped := StripQuotes(section);
    var pieces := SplitOn(stripped, ',');
    SplitPieces(stripped, ',');
    forall t | t in TriggerList(section)
      ensures t != [] && !IsSpace(t[0]) && !IsSpace(t[|t| - 1])
      ensures '"' !in t && '\'' !in t && ',' !in t
    {
      assert t in MapTrim(pieces);
      var i :| 0 <= i < |pieces| && MapTrim(pieces)[i] == t;
      assert t == Trim(pieces[i]);
      assert pieces[i] in pieces;
      forall x | x in t ensures x != '"' && x != '\'' && x != ',' {
        TrimChars(pieces[i], x);
        SplitChars(stripped, ',', pieces[i], x);
      }
    }
  }

  // ---------------------------------------------------------------------
  // Reading the document
  // ---------------------------------------------------------------------

  /** What the regular expressions find in a YAML body: the `- item` lines
      of each `capabilities:` block, and the text inside
      `triggers: [...]`, if any. */
  datatype YamlBody = YamlBody(capabilityBlocks: seq<seq<string>>, triggerSection: Option<string>)

  /** The document: front matter followed by a body, or structured text
      with the `name: "..."` of a `component:` section and the text inside
      `capabilities: [...]`, each if present. */
  datatype MasterDocument =
    | WithFrontMatter(body: YamlBody)
    | Structured(componentName: Option<string>, capabilitiesSection: Option<string>)

  /** `parseYamlConfiguration`. */
  function YamlConfig(body: YamlBody): Config {
    var caps := GatherInto([], Names(Flatten(body.capabilityBlocks)));
    Config("master", Description,
      if caps == [] then DefaultCapabilities() else caps,
      match body.triggerSection case Some(s) => TriggerList(s) case None => [],
      ["dynamic_agent_discovery"],
      "0.9.10")
  }

  lemma GatherStep(caps: seq<string>, lines: seq<string>, j: nat)
    requires j < |lines|
    ensures GatherInto(caps, Names(lines[..j + 1])) == Add(GatherInto(caps, Names(lines[..j])), CapabilityName(lines[j]))
  {
    assert lines[..j + 1] == lines[..j] + [lines[j]];
    NamesAppend(lines[..j], [lines[j]]);
    var ns := Names(lines[..j + 1]);
    assert ns[..|ns| - 1] == Names(lines[..j]);
  }

  /** The bullet loop of `parseYamlConfiguration` over one block. */
  method CollectBlock(caps: seq<string>, lines: seq<string>) returns (r: seq<string>)
    ensures r == GatherInto(caps, Names(lines))
  {
    r := caps;
    var j := 0;
    while j < |lines|
      invariant 0 <= j <= |lines|
      invariant r == GatherInto(caps, Names(lines[..j]))
    {
      GatherStep(caps, lines, j);
      var cap := CapabilityName(lines[j]);
      if cap != [] && cap !in r {
        r := r + [cap];
      }
      j := j + 1;
    }
    assert lines[..|lines|] == lines;
  }

  method ParseYamlConfiguration(body: YamlBody) returns (config: Config)
    ensures config == YamlConfig(body)
  {
    var blocks := body.capabilityBlocks;
    var caps: seq<string> := [];
    var i := 0;
    while i < |blocks|
      invariant 0 <= i <= |blocks|
      invariant caps == GatherInto([], Names(Flatten(blocks[..i])))
    {
      assert blocks[..i + 1][..i] == blocks[..i];
      NamesAppend(Flatten(blocks[..i]), blocks[i]);
      GatherIntoAppend([], Names(Flatten(blocks[..i])), Names(blocks[i]));
      caps := CollectBlock(caps, blocks[i]);
      i := i + 1;
    }
    assert blocks[..|blocks|] == blocks;
    var triggers := match body.triggerSection case Some(s) => TriggerList(s) case None => [];
    if caps == [] {
      caps := DefaultCapabilities();
    }
    config := Config("master", Description, caps, triggers, ["dynamic_agent_discovery"], "0.9.10");
  }

  /** Capability tokens of a bracketed list: `match(/[^\s,]+/g)`. */
  predicate IsCapabilityDelimiter(c: char) {
    IsSpace(c) || c == ','
  }

  /** `parseStructuredContent`, from the fixed configuration `base`: take
      the component name, and take the tokens of the capability list; a
      list with no token makes the match `null`, and reading `.filter` of
      it raises. (Every token is non-empty, so the filter keeps them all.) */
  function ReadStructured(base: Config, componentName: Option<string>, capabilitiesSection: Option<string>): (r: Result<Config, string>)
  {
    var named := match componentName case Some(n) => base.(name := n) case None => base;
    match capabilitiesSection
    case None => Ok(named)
    case Some(s) =>
      var caps := Tokens(s, IsCapabilityDelimiter);
      if caps == [] then Err("TypeError: Cannot read properties of null (reading 'filter')")
      else Ok(named.(capabilities := caps))
  }

  /** `parseMasterMd` with `fallback` for `getHardcodedConfig()`: front
      matter selects the YAML reading; otherwise the structured reading,
      and anything it raises gives the fallback. */
  function ReadDocument(doc: MasterDocument, fallback: Config): Config {
    match doc
    case WithFrontMatter(body) => YamlConfig(body)
    case Structured(name, section) => StructuredOrFallback(fallback, name, section)
  }

  /** The structured reading inside the `try` of `parseMasterMd`. */
  function StructuredOrFallback(fallback: Config, name: Option<string>, section: Option<string>): Config {
    match ReadStructured(fallback, name, section)
    case Ok(c) => c
    case Err(_) => fallback
  }

  function ParseMasterMd(doc: MasterDocument): Config {
    ReadDocument(doc, HardcodedConfig())
  }

  /** The YAML reading: the fixed name and version, the distinct non-empty
      bullet names in order of first appearance or else the default list,
      and the trigger list when present. */
  lemma YamlConfigSpec(body: YamlBody)
    ensures var c := YamlConfig(body);
      && c.name == "master" && c.version == "0.9.10"
      && c.capabilities != []
      && Distinct(c.capabilities)
      && (forall cap :: cap in c.capabilities ==> cap != [])
      && (GatherInto([], Names(Flatten(body.capabilityBlocks))) != [] ==>
            forall cap :: cap in c.capabilities <==> cap != [] && cap in Names(Flatten(body.capabilityBlocks)))
      && (forall cap :: cap in Names(Flatten(body.capabilityBlocks)) && cap != [] ==> cap in c.capabilities)
      && (GatherInto([], Names(Flatten(body.capabilityBlocks))) == [] ==> c.capabilities == DefaultCapabilities())
      && (GatherInto([], Names(Flatten(body.capabilityBlocks))) != [] ==>
            && c.capabilities == GatherInto([], Names(Flatten(body.capabilityBlocks)))
            && FirstAppearanceOrder(Names(Flatten(body.capabilityBlocks)), c.capabilities))
      && (body.triggerSection.Some? ==> c.triggers == TriggerList(body.triggerSection.value))
      && (body.triggerSection.None? ==> c.triggers == [])
  {
    GatheredSpec(Names(Flatten(body.capabilityBlocks)));
    DefaultCapabilitiesDistinct();
  }

  /** The structured reading: it raises exactly when the capability list
      is present without tokens; otherwise it keeps the base except for
      the component name, when given, and the tokens, when present. */
  lemma ReadStructuredSpec(base: Config, name: Option<string>, section: Option<string>)
    ensures ReadStructured(base, name, section).Err? <==>
      section.Some? && Tokens(section.value, IsCapabilityDelimiter) == []
    ensures ReadStructured(base, name, section).Ok? ==>
      var c := ReadStructured(base, name, section).value;
      && c.name == (if name.Some? then name.value else base.name)
      && c.capabilities == (if section.Some? then Tokens(section.value, IsCapabilityDelimiter) else base.capabilities)
      && c.triggers == base.triggers && c.version == base.version && c.tools == base.tools
  {
  }

  /** With front matter the YAML reading applies, and it always yields
      capabilities. */
  lemma ReadDocumentYaml(body: YamlBody, fallback: Config)
    ensures ReadDocument(WithFrontMatter(body), fallback) == YamlConfig(body)
    ensures ReadDocument(WithFrontMatter(body), fallback).capabilities != []
  {
    YamlConfigSpec(body);
  }

  /** Without front matter the fallback is taken exactly when the
      structured reading raises, and capabilities are never empty when
      the fallback has some. */
  lemma ReadDocumentStructured(name: Option<string>, section: Option<string>, fallback: Config)
    ensures ReadStructured(fallback, name, section).Err? ==>
      StructuredOrFallback(fallback, name, section) == fallback
    ensures ReadStructured(fallback, name, section).Ok? ==>
      StructuredOrFallback(fallback, name, section) == ReadStructured(fallback, name, section).value
    ensures fallback.capabilities != [] ==> StructuredOrFallback(fallback, name, section).capabilities != []
  {
    ReadStructuredSpec(fallback, name, section);
  }

  /** The configuration the server reads always has capabilities. */
  lemma ParseMasterMdHasCapabilities(doc: MasterDocument)
    ensures ParseMasterMd(doc).capabilities != []
  {
    match doc
    case WithFrontMatter(body) => ReadDocumentYaml(body, HardcodedConfig());
    case Structured(name, section) => ReadDocumentStructured(name, section, HardcodedConfig());
  }
}
