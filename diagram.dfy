/**
 * The pathway-diagram builder (pdpbiogen/pdpbiogen.py): loading the YAML
 * configuration, turning a validated configuration into Graphviz node and
 * edge statements, and the legacy two-argument entry point.
 */
module Diagram {
  import opened Wrappers
  import opened Text
  import opened PyValue
  import opened PathwayValidator

  // ------------------------------------------------------------ loading

  /** What opening and parsing the YAML file produced (the file system and parser are not modelled). */
  datatype ReadOutcome =
    | Parsed(doc: Value)            // yaml.safe_load returned a document (None for an empty file)
    | YamlError(detail: string)     // yaml.YAMLError, with str(e)
    | FileNotFound
    | PermissionDenied
    | OtherReadError(e: Exception)  // anything else open() or the parser raises

  /** `load_configuration`. */
  function LoadConfiguration(inputFile: string, read: ReadOutcome): Result<Value, Exception> {
    match read
    case Parsed(doc) =>
      if doc == NoneValue then Failure(ConfigurationError("YAML file '" + inputFile + "' is empty or invalid"))
      else Success(doc)
    case YamlError(detail) => Failure(ConfigurationError("Invalid YAML in " + inputFile + ": " + detail))
    case FileNotFound => Failure(ConfigurationError("Input file not found: " + inputFile))
    case PermissionDenied => Failure(ConfigurationError("Permission denied reading: " + inputFile))
    case OtherReadError(e) => Failure(e)
  }

  /**
   * Loading succeeds exactly for a parsed, non-empty document, which is
   * returned as is; an empty document, a parse error, a missing file and an
   * unreadable file each become a ConfigurationError.
   */
  lemma LoadConfigurationOutcomes(f: string, read: ReadOutcome)
    ensures LoadConfiguration(f, read).Success? <==> read.Parsed? && read.doc != NoneValue
    ensures LoadConfiguration(f, read).Success? ==> LoadConfiguration(f, read).value == read.doc
    ensures !read.OtherReadError? && LoadConfiguration(f, read).Failure? ==>
              LoadConfiguration(f, read).error.ConfigurationError?
  {
    match read
    case Parsed(doc) =>
    case YamlError(_) =>
    case FileNotFound =>
    case PermissionDenied =>
    case OtherReadError(_) =>
  }

  /** The four ConfigurationError messages of `load_configuration` differ from one another. */
  lemma LoadMessagesDistinct(f: string, detail: string)
    ensures var msgs := [Message(LoadConfiguration(f, Parsed(NoneValue)).error),
                         Message(LoadConfiguration(f, YamlError(detail)).error),
                         Message(LoadConfiguration(f, FileNotFound).error),
                         Message(LoadConfiguration(f, PermissionDenied).error)];
            forall i, j :: 0 <= i < j < 4 ==> msgs[i] != msgs[j]
  {
    var m0 := Message(LoadConfiguration(f, Parsed(NoneValue)).error);
    var m1 := Message(LoadConfiguration(f, YamlError(detail)).error);
    var m2 := Message(LoadConfiguration(f, FileNotFound).error);
    var m3 := Message(LoadConfiguration(f, PermissionDenied).error);
    assert m0 == "YAML file '" + f + "' is empty or invalid";
    assert m1 == "Invalid YAML in " + f + ": " + detail;
    assert m2 == "Input file not found: " + f;
    assert m3 == "Permission denied reading: " + f;
    assert m0[0] == 'Y' && m1[0] == 'I' && m2[0] == 'I' && m3[0] == 'P';
    assert m1[2] == 'v' && m2[2] == 'p';
  }

  // ------------------------------------------------------------ the graph

  /** `dot.node(name, **attrs)`. */
  datatype NodeStmt = NodeStmt(name: string, attrs: Entries)

  /** `dot.edge(tail, head, **attrs)`. */
  datatype EdgeStmt = EdgeStmt(tail: string, head: string, attrs: Entries)

  /** What a built graph hands to Graphviz: its comment, rank direction and statements. */
  datatype Drawing = Drawing(comment: string, rankdir: string, nodes: seq<NodeStmt>, edges: seq<EdgeStmt>)

  /** The statements a `graphviz.Digraph` accumulates. */
  class Digraph {
    const comment: string
    var rankdir: string
    var nodes: seq<NodeStmt>
    var edges: seq<EdgeStmt>

    constructor(comment: string)
      ensures this.comment == comment && rankdir == "" && nodes == [] && edges == []
    {
      this.comment := comment;
      rankdir := "";
      nodes := [];
      edges := [];
    }

    /** The graph as it stands, which is what `dot.render` draws. */
    function Snapshot(): Drawing
      reads this
    {
      Drawing(comment, rankdir, nodes, edges)
    }

    /** `dot.attr(rankdir=r)`. */
    method SetRankdir(r: string)
      modifies this
      ensures rankdir == r && nodes == old(nodes) && edges == old(edges)
    {
      rankdir := r;
    }

    /** `dot.node(...)`: statements are kept in the order they are issued. */
    method Node(n: NodeStmt)
      modifies this
      ensures nodes == old(nodes) + [n] && edges == old(edges) && rankdir == old(rankdir)
    {
      nodes := nodes + [n];
    }

    /** `dot.edge(...)`. */
    method Edge(e: EdgeStmt)
      modifies this
      ensures edges == old(edges) + [e] && nodes == old(nodes) && rankdir == old(rankdir)
    {
      edges := edges + [e];
    }
  }

  // ---------------------------------------------------- node attributes

  const LabelKey: Value := Str("label")
  const TypeKey: Value := Str("type")
  const StyleKey: Value := Str("style")
  const ShapeKey: Value := Str("shape")

  /** The fill colour a molecule type gets when the molecule has no colour of its own. */
  function TypeColor(nodeType: Value): string {
    if nodeType == Str("input") then "lightblue"
    else if nodeType == Str("output") then "lightcoral"
    else "lightgreen"
  }

  /** Inputs and outputs are ellipses, everything else a box. */
  function TypeShape(nodeType: Value): string {
    if nodeType == Str("input") || nodeType == Str("output") then "ellipse" else "box"
  }

  /** The `node_attrs` dict, built the way the loop body builds it: label, type styling, colour override. */
  function NodeAttrs(id: string, config: Entries): Entries {
    var labelValue := GetOr(config, LabelKey, Str(id));
    var nodeType := GetOr(config, TypeKey, Str("default"));
    var base := [(LabelKey, labelValue)];
    var styled :=
      if nodeType == Str("input") then
        Update(base, [(ColorKey, Str("lightblue")), (StyleKey, Str("filled")), (ShapeKey, Str("ellipse"))])
      else if nodeType == Str("output") then
        Update(base, [(ColorKey, Str("lightcoral")), (StyleKey, Str("filled")), (ShapeKey, Str("ellipse"))])
      else
        Update(base, [(ColorKey, Str("lightgreen")), (StyleKey, Str("filled")), (ShapeKey, Str("box"))]);
    if HasKey(config, ColorKey) then Set(styled, ColorKey, Get(config, ColorKey).value) else styled
  }

  /**
   * Every node carries a label (the molecule id unless one is given), a
   * colour, `style=filled` and a shape, in that order. The shape follows the
   * type alone; the colour follows the type unless the molecule gives its own.
   */
  lemma NodeStyling(id: string, config: Entries)
    ensures var nodeType := GetOr(config, TypeKey, Str("default"));
            var color := if HasKey(config, ColorKey) then Get(config, ColorKey).value else Str(TypeColor(nodeType));
            NodeAttrs(id, config) ==
              [(LabelKey, GetOr(config, LabelKey, Str(id))), (ColorKey, color),
               (StyleKey, Str("filled")), (ShapeKey, Str(TypeShape(nodeType)))]
  {
    var labelValue := GetOr(config, LabelKey, Str(id));
    var nodeType := GetOr(config, TypeKey, Str("default"));
    var tc := Str(TypeColor(nodeType));
    var ts := Str(TypeShape(nodeType));
    TypeStyling(labelValue, tc, ts);
    var styled := [(LabelKey, labelValue), (ColorKey, tc), (StyleKey, Str("filled")), (ShapeKey, ts)];
    if HasKey(config, ColorKey) {
      assert IndexOf(styled, ColorKey) == Some(1) by {
        assert styled[0].0 != ColorKey by { assert LabelKey.s[0] != ColorKey.s[0]; }
        IndexOfFirst(styled, ColorKey, 1);
      }
    }
  }

  /** `node_attrs.update({...})` on the one-entry label dict adds three new keys in order. */
  lemma TypeStyling(labelValue: Value, tc: Value, ts: Value)
    ensures Update([(LabelKey, labelValue)], [(ColorKey, tc), (StyleKey, Str("filled")), (ShapeKey, ts)])
            == [(LabelKey, labelValue), (ColorKey, tc), (StyleKey, Str("filled")), (ShapeKey, ts)]
  {
    var extra := [(ColorKey, tc), (StyleKey, Str("filled")), (ShapeKey, ts)];
    var s0 := [(LabelKey, labelValue)];
    var s1 := s0 + [(ColorKey, tc)];
    var s2 := s1 + [(StyleKey, Str("filled"))];
    var s3 := s2 + [(ShapeKey, ts)];
    assert Set(s0, ColorKey, tc) == s1 by {
      assert LabelKey.s[0] != ColorKey.s[0];
    }
    assert Set(s1, StyleKey, Str("filled")) == s2 by {
      assert LabelKey.s[0] != StyleKey.s[0];
      assert ColorKey.s[0] != StyleKey.s[0];
      assert IndexOf(s1, StyleKey).None?;
    }
    assert Set(s2, ShapeKey, ts) == s3 by {
      assert LabelKey.s[0] != ShapeKey.s[0];
      assert ColorKey.s[0] != ShapeKey.s[0];
      assert StyleKey.s[1] != ShapeKey.s[1];
      assert IndexOf(s2, ShapeKey).None?;
    }
    assert Update(s0, extra) == Update(s1, extra[1..]);
    assert Update(s1, extra[1..]) == Update(s2, extra[2..]);
    assert Update(s2, extra[2..]) == Update(s3, []);
  }

  /** The `edge_attrs` dict: the label (empty unless given), then the colour only when the interaction has one. */
  function EdgeAttrs(interaction: Entries): Entries {
    var base := [(LabelKey, GetOr(interaction, LabelKey, Str("")))];
    if HasKey(interaction, ColorKey) then Set(base, ColorKey, Get(interaction, ColorKey).value) else base
  }

  lemma EdgeStyling(interaction: Entries)
    ensures EdgeAttrs(interaction) ==
      [(LabelKey, GetOr(interaction, LabelKey, Str("")))]
      + (if HasKey(interaction, ColorKey) then [(ColorKey, Get(interaction, ColorKey).value)] else [])
  {
    assert LabelKey.s[0] != ColorKey.s[0];
  }

  // ----------------------------------------------------- create_diagram

  /** A molecule entry as the validator leaves it: a string id and a dict config. */
  predicate MoleculeReady(e: (Value, Value)) {
    e.0.Str? && e.1.Dict?
  }

  function NodeFor(e: (Value, Value)): NodeStmt
    requires MoleculeReady(e)
  {
    NodeStmt(e.0.s, NodeAttrs(e.0.s, e.1.entries))
  }

  /** An interaction as the validator leaves it: a dict whose `from` and `to` are molecule ids. */
  predicate InteractionReady(x: Value) {
    && x.Dict?
    && HasKey(x.entries, FromKey) && HasKey(x.entries, ToKey)
    && Get(x.entries, FromKey).value.Str? && Get(x.entries, ToKey).value.Str?
  }

  function EdgeFor(x: Value): EdgeStmt
    requires InteractionReady(x)
  {
    EdgeStmt(Get(x.entries, FromKey).value.s, Get(x.entries, ToKey).value.s, EdgeAttrs(x.entries))
  }

  /** `data.get('interactions', [])`. */
  function InteractionsOf(data: Value): Value
    requires data.Dict?
  {
    GetOr(data.entries, InteractionsKey, List([]))
  }

  /** Any exception inside `create_diagram` is re-raised as a GraphvizError. */
  function CreateFailed(e: Exception): Exception {
    GraphvizError("Failed to create diagram: " + Message(e))
  }

  /**
   * How `create_diagram` fails, if it does: validation first; then iterating
   * the interactions, which fails for a falsy non-iterable value (an empty
   * `interactions:` key loads as None and passes validation).
   */
  function DiagramFailure(data: Value): Option<Exception> {
    var check := ValidateConfiguration(data);
    if check.Fail? then Some(CreateFailed(check.error))
    else
      var interactions := InteractionsOf(data);
      if Iterate(interactions).None? then Some(CreateFailed(NotIterable(interactions))) else None
  }

  /** Every failure of `create_diagram` is a GraphvizError; a validation failure never escapes as itself. */
  lemma DiagramFailureIsGraphvizError(data: Value)
    ensures DiagramFailure(data).Some? ==> DiagramFailure(data).value.GraphvizError?
    ensures ValidateConfiguration(data).Fail? ==>
              DiagramFailure(data) == Some(CreateFailed(ValidateConfiguration(data).error))
    ensures DiagramFailure(data).None? <==>
              ValidConfiguration(data) && Iterate(InteractionsOf(data)).Some?
  {
    ValidateConfigurationIff(data);
  }

  /**
   * A configuration whose `interactions:` key is empty (it loads as None)
   * passes validation, which only warns, yet cannot be drawn.
   */
  lemma NoneInteractionsNotDrawable(data: Value)
    requires ValidateConfiguration(data).Pass?
    requires data.Dict? && HasKey(data.entries, InteractionsKey)
    requires Get(data.entries, InteractionsKey).value == NoneValue
    ensures DiagramFailure(data) == Some(CreateFailed(NotIterable(NoneValue)))
  {
    assert InteractionsOf(data) == NoneValue;
  }

  function MoleculesOf(data: Value): Entries
    requires ValidConfiguration(data)
  {
    Get(data.entries, MoleculesKey).value.entries
  }

  /** One node per molecule, in the molecules map's order. */
  ghost predicate NodesMatch(nodes: seq<NodeStmt>, es: Entries) {
    |nodes| == |es| && forall i :: 0 <= i < |es| ==> MoleculeReady(es[i]) && nodes[i] == NodeFor(es[i])
  }

  /** One edge per interaction, in order. */
  ghost predicate EdgesMatch(edges: seq<EdgeStmt>, items: seq<Value>) {
    |edges| == |items| && forall i :: 0 <= i < |items| ==> InteractionReady(items[i]) && edges[i] == EdgeFor(items[i])
  }

  /** An edge's ends are defined molecules, hence strings. */
  lemma InteractionReadyFromValid(x: Value, molecules: Value)
    requires ValidMolecules(molecules) && ValidInteraction(x, molecules)
    ensures InteractionReady(x)
  {
    var i := IndexOf(molecules.entries, Get(x.entries, FromKey).value).value;
    assert ValidMolecule(molecules.entries[i]);
    var j := IndexOf(molecules.entries, Get(x.entries, ToKey).value).value;
    assert ValidMolecule(molecules.entries[j]);
  }

  /** What validation guarantees about the molecules and interactions the builder walks over. */
  lemma ReadyFromValid(data: Value)
    requires ValidConfiguration(data)
    ensures forall i :: 0 <= i < |MoleculesOf(data)| ==> MoleculeReady(MoleculesOf(data)[i])
    ensures Iterate(InteractionsOf(data)).Some? ==>
              forall k :: 0 <= k < |Iterate(InteractionsOf(data)).value| ==>
                InteractionReady(Iterate(InteractionsOf(data)).value[k])
  {
    var molecules := Get(data.entries, MoleculesKey).value;
    var interactions := InteractionsOf(data);
    assert forall i :: 0 <= i < |MoleculesOf(data)| ==> ValidMolecule(MoleculesOf(data)[i]);
    if Iterate(interactions).Some? {
      var items := Iterate(interactions).value;
      if !Truthy(interactions) {
        FalsyIterableIsEmpty(interactions);
      } else {
        forall k | 0 <= k < |items| ensures InteractionReady(items[k]) {
          InteractionReadyFromValid(items[k], molecules);
        }
      }
    }
  }

  /** The graph `create_diagram` builds from a configuration it accepts. */
  function DrawingOf(data: Value): Drawing
    requires DiagramFailure(data).None?
  {
    DiagramFailureIsGraphvizError(data);
    ReadyFromValid(data);
    var es := MoleculesOf(data);
    var items := Iterate(InteractionsOf(data)).value;
    Drawing("Biological Pathway", "TB",
            seq(|es|, i requires 0 <= i < |es| => NodeFor(es[i])),
            seq(|items|, k requires 0 <= k < |items| => EdgeFor(items[k])))
  }

  /** The loop over `molecules.items()`. */
  method AddNodes(dot: Digraph, es: Entries)
    requires dot.nodes == []
    requires forall i :: 0 <= i < |es| ==> MoleculeReady(es[i])
    modifies dot
    ensures NodesMatch(dot.nodes, es)
    ensures dot.edges == old(dot.edges) && dot.rankdir == old(dot.rankdir)
  {
    var i := 0;
    while i < |es|
      invariant 0 <= i <= |es|
      invariant dot.edges == old(dot.edges) && dot.rankdir == old(dot.rankdir)
      invariant NodesMatch(dot.nodes, es[..i])
    {
      dot.Node(NodeFor(es[i]));
      assert es[..i + 1] == es[..i] + [es[i]];
      i := i + 1;
    }
    assert es[..i] == es;
  }

  /** The loop over `interactions`. */
  method AddEdges(dot: Digraph, items: seq<Value>)
    requires dot.edges == []
    requires forall k :: 0 <= k < |items| ==> InteractionReady(items[k])
    modifies dot
    ensures EdgesMatch(dot.edges, items)
    ensures dot.nodes == old(dot.nodes) && dot.rankdir == old(dot.rankdir)
  {
    var k := 0;
    while k < |items|
      invariant 0 <= k <= |items|
      invariant dot.nodes == old(dot.nodes) && dot.rankdir == old(dot.rankdir)
      invariant EdgesMatch(dot.edges, items[..k])
    {
      dot.Edge(EdgeFor(items[k]));
      assert items[..k + 1] == items[..k] + [items[k]];
      k := k + 1;
    }
    assert items[..k] == items;
  }

  /**
   * `create_diagram`: validate, then emit one node per molecule and one edge
   * per interaction, top-to-bottom.
   */
  method CreateDiagram(data: Value) returns (r: Result<Digraph, Exception>)
    ensures r.Failure? <==> DiagramFailure(data).Some?
    ensures r.Failure? ==> r.error == DiagramFailure(data).value
    ensures r.Success? ==>
              && fresh(r.value)
              && ValidConfiguration(data)
              && r.value.comment == "Biological Pathway" && r.value.rankdir == "TB"
              && NodesMatch(r.value.nodes, MoleculesOf(data))
              && EdgesMatch(r.value.edges, Iterate(InteractionsOf(data)).value)
    ensures r.Success? ==> r.value.Snapshot() == DrawingOf(data)
  {
    var check := ValidateConfiguration(data);
    if check.Fail? {
      return Failure(CreateFailed(check.error));
    }
    ValidateConfigurationIff(data);
    ReadyFromValid(data);
    var dot := new Digraph("Biological Pathway");
    dot.SetRankdir("TB");
    AddNodes(dot, MoleculesOf(data));
    var interactions := InteractionsOf(data);
    var items := Iterate(interactions);
    if items.None? {
      return Failure(CreateFailed(NotIterable(interactions)));
    }
    AddEdges(dot, items.value);
    assert dot.nodes == DrawingOf(data).nodes;
    assert dot.edges == DrawingOf(data).edges;
    return Success(dot);
  }

  // ------------------------------------------------------------- main

  /** An observable step of the legacy entry point. */
  datatype Effect = ReadConfig(path: string) | Render(drawing: Drawing, basename: string, format: string)

  datatype LegacyExit = Finished | Exit(code: int) | Raised(e: Exception)

  const LegacyFormats: seq<string> := ["png", "svg", "pdf"]

  /** `dot.render(basename, format=...)` on the graph `dot` stands for: None when it returns normally. */
  type FormatRenderer = (Drawing, string, string) -> Option<Exception>

  /** The render effects for `formats`, in order. */
  function RenderEffects(d: Drawing, basename: string, formats: seq<string>): (r: seq<Effect>)
    ensures |r| == |formats| && forall i :: 0 <= i < |formats| ==> r[i] == Render(d, basename, formats[i])
  {
    if formats == [] then [] else [Render(d, basename, formats[0])] + RenderEffects(d, basename, formats[1..])
  }

  /** The index of the first format whose render raises, or the number of formats when none does. */
  function FirstFailing(d: Drawing, basename: string, formats: seq<string>, render: FormatRenderer): (k: nat)
    ensures k <= |formats|
    ensures forall j :: 0 <= j < k ==> render(d, basename, formats[j]).None?
    ensures k < |formats| ==> render(d, basename, formats[k]).Some?
  {
    if formats == [] then 0
    else if render(d, basename, formats[0]).Some? then 0
    else
      var k := FirstFailing(d, basename, formats[1..], render);
      assert forall j :: 1 <= j < k + 1 ==> formats[j] == formats[1..][j - 1];
      1 + k
  }

  /** Renders each format in turn, stopping at the first one that raises. */
  method RenderFormats(d: Drawing, basename: string, formats: seq<string>, render: FormatRenderer)
    returns (done: seq<Effect>, err: Option<Exception>)
    ensures err.None? <==> forall i :: 0 <= i < |formats| ==> render(d, basename, formats[i]).None?
    ensures err.None? ==> done == RenderEffects(d, basename, formats)
    ensures err.Some? ==>
              var k := FirstFailing(d, basename, formats, render);
              && k < |formats|
              && err == render(d, basename, formats[k])
              && done == RenderEffects(d, basename, formats[..k + 1])
  {
    done := [];
    err := None;
    var i := 0;
    ghost var k := FirstFailing(d, basename, formats, render);
    while i < |formats| && err.None?
      invariant 0 <= i <= |formats|
      invariant done == RenderEffects(d, basename, formats[..i])
      invariant err.None? <==> forall j :: 0 <= j < i ==> render(d, basename, formats[j]).None?
      invariant err.None? ==> i <= k
      invariant err.Some? ==> i == k + 1 && err == render(d, basename, formats[k])
    {
      done := done + [Render(d, basename, formats[i])];
      err := render(d, basename, formats[i]);
      i := i + 1;
    }
    if err.None? {
      assert formats[..i] == formats;
    }
  }

  /** The exception that escapes the `try` block of the legacy `main`, if any. */
  function LegacyFailure(path: string, basename: string, read: ReadOutcome, render: FormatRenderer): Option<Exception> {
    match LoadConfiguration(path, read)
    case Failure(e) => Some(e)
    case Success(data) =>
      if DiagramFailure(data).Some? then DiagramFailure(data)
      else
        var d := DrawingOf(data);
        var k := FirstFailing(d, basename, LegacyFormats, render);
        if k < |LegacyFormats| then render(d, basename, LegacyFormats[k]) else None
  }

  /**
   * `main` of pdpbiogen/pdpbiogen.py, with `argv` standing for `sys.argv`,
   * `read` for opening and parsing the file and `render` for
   * `dot.render(basename, format=...)`. A wrong argument count exits 1 at
   * once; otherwise the configuration is read, and the built graph is
   * rendered to png, svg and pdf until one render raises. A package error
   * exits 1, any other exception propagates.
   */
  method LegacyMain(argv: seq<string>, read: ReadOutcome, render: FormatRenderer)
    returns (trace: seq<Effect>, exit: LegacyExit)
    ensures |argv| != 3 ==> trace == [] && exit == Exit(1)
    ensures |argv| == 3 ==>
              var failure := LegacyFailure(argv[1], argv[2], read, render);
              && (exit == Finished <==> failure.None?)
              && (failure.Some? && IsPdpError(failure.value) ==> exit == Exit(1))
              && (failure.Some? && !IsPdpError(failure.value) ==> exit == Raised(failure.value))
    ensures exit == Finished <==>
              && |argv| == 3
              && LoadConfiguration(argv[1], read).Success?
              && DiagramFailure(LoadConfiguration(argv[1], read).value).None?
              && forall i :: 0 <= i < |LegacyFormats| ==>
                   render(DrawingOf(LoadConfiguration(argv[1], read).value), argv[2], LegacyFormats[i]).None?
    ensures |argv| == 3 && (LoadConfiguration(argv[1], read).Failure? ||
                            DiagramFailure(LoadConfiguration(argv[1], read).value).Some?) ==>
              trace == [ReadConfig(argv[1])]
    ensures |argv| == 3 && LoadConfiguration(argv[1], read).Success? &&
            DiagramFailure(LoadConfiguration(argv[1], read).value).None? ==>
              var d := DrawingOf(LoadConfiguration(argv[1], read).value);
              var k := FirstFailing(d, argv[2], LegacyFormats, render);
              trace == [ReadConfig(argv[1])] +
                       RenderEffects(d, argv[2], if k < |LegacyFormats| then LegacyFormats[..k + 1] else LegacyFormats)
  {
    if |argv| != 3 {
      return [], Exit(1);
    }
    var err: Option<Exception>;
    var loaded := LoadConfiguration(argv[1], read);
    if loaded.Failure? {
      trace := [ReadConfig(argv[1])];
      err := Some(loaded.error);
    } else {
      var dot := CreateDiagram(loaded.value);
      if dot.Failure? {
        trace := [ReadConfig(argv[1])];
        err := Some(dot.error);
      } else {
        var done;
        done, err := RenderFormats(dot.value.Snapshot(), argv[2], LegacyFormats, render);
        trace := [ReadConfig(argv[1])] + done;
      }
    }
    assert err == LegacyFailure(argv[1], argv[2], read, render);
    if err.None? {
      exit := Finished;
    } else if IsPdpError(err.value) {
      exit := Exit(1);
    } else {
      exit := Raised(err.value);
    }
  }
}
