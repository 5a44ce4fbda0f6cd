/** The knowledge-graph builder and its converters (src/utils/knowledgeGraph.js): a tree of
    nodes with sequential ids rooted at the project, technologies bucketed into layers by
    keyword, and the D3, Cytoscape and simple HTML renderings of a graph. */
module KnowledgeGraph {
  import opened JsText

  // ---------------------------------------------------------------------------
  // Data model
  // ---------------------------------------------------------------------------

  /** The fields of an analysis the builder reads; an absent or empty text is "". */
  datatype KgInput = KgInput(
    projectName: string,
    summary: string,
    features: seq<string>,
    techStack: seq<string>,
    architectureType: string)

  datatype Kind =
    | ProjectKind | RequirementsKind | FeaturesKind | FeatureKind
    | TechStackKind | LayerKind | ArchitectureKind | DeploymentKind

  /** The `type` text of a node. */
  function TypeName(k: Kind): string {
    match k
    case ProjectKind => "project"
    case RequirementsKind => "requirements"
    case FeaturesKind => "features"
    case FeatureKind => "feature"
    case TechStackKind => "techstack"
    case LayerKind => "layer"
    case ArchitectureKind => "architecture"
    case DeploymentKind => "deployment"
  }

  datatype Node = Node(
    id: nat,
    caption: string,
    kind: Kind,
    level: nat,
    description: Option<string>,
    technologies: Option<seq<string>>)

  datatype Edge = Edge(from: nat, to: nat, caption: string)

  /** The `metadata` object; `generatedAt` is a clock reading and is not modelled. */
  datatype Metadata = Metadata(totalNodes: nat, totalEdges: nat, maxLevel: nat)

  datatype Graph = Graph(nodes: seq<Node>, edges: seq<Edge>, metadata: Metadata)

  // ---------------------------------------------------------------------------
  // Technology buckets
  // ---------------------------------------------------------------------------

  datatype Category = Frontend | Backend | DatabaseLayer | OtherTech

  const FrontendWords: seq<string> := ["react", "vue", "angular", "html", "css"]
  const BackendWords: seq<string> := ["node", "express", "django", "flask", "api"]
  const DatabaseWords: seq<string> := ["sql", "mongo", "redis", "database"]

  predicate ContainsAny(s: string, words: seq<string>)
    decreases |words|
  {
    |words| > 0 && (Contains(s, words[0]) || ContainsAny(s, words[1..]))
  }

  /** The first keyword group the lower-cased name matches, else the other tools. */
  function CategoryOf(tech: string): Category {
    var lower := ToLower(tech);
    if ContainsAny(lower, FrontendWords) then Frontend
    else if ContainsAny(lower, BackendWords) then Backend
    else if ContainsAny(lower, DatabaseWords) then DatabaseLayer
    else OtherTech
  }

  /** The four arrays `frontend`, `backend`, `database` and `other` the stack is sorted into. */
  datatype Groups = Groups(frontend: seq<string>, backend: seq<string>, database: seq<string>, other: seq<string>)

  /** The array of one category. */
  function Pick(g: Groups, c: Category): seq<string> {
    match c
    case Frontend => g.frontend
    case Backend => g.backend
    case DatabaseLayer => g.database
    case OtherTech => g.other
  }

  /** `tech` pushed onto the array its keywords choose. */
  function Place(g: Groups, tech: string): Groups {
    PlaceIn(g, CategoryOf(tech), tech)
  }

  /** `tech` pushed onto the array of category `c`. */
  function PlaceIn(g: Groups, c: Category, tech: string): Groups {
    match c
    case Frontend => g.(frontend := g.frontend + [tech])
    case Backend => g.(backend := g.backend + [tech])
    case DatabaseLayer => g.(database := g.database + [tech])
    case OtherTech => g.(other := g.other + [tech])
  }

  /** The arrays after the `forEach` over the stack. */
  function Grouped(stack: seq<string>): Groups
    decreases |stack|
  {
    if |stack| == 0 then Groups([], [], [], [])
    else Place(Grouped(Init(stack)), Last(stack))
  }

  // ---------------------------------------------------------------------------
  // The graph as a specification
  // ---------------------------------------------------------------------------

  /** A node to be pushed after the root, with the parent its edge comes from. */
  datatype Draft = Draft(
    caption: string,
    kind: Kind,
    level: nat,
    description: Option<string>,
    technologies: Option<seq<string>>,
    parent: nat,
    edgeLabel: string)

  const MaxFeatures: nat := 5
  const LabelWidth: nat := 30

  /** `features.slice(0, 5)` */
  function Take(s: seq<string>, n: nat): seq<string> {
    if |s| <= n then s else s[..n]
  }

  /** `feature.substring(0, 30) + (feature.length > 30 ? '...' : '')` */
  function Truncate(feature: string): string {
    if |feature| > LabelWidth then feature[..LabelWidth] + "..." else feature
  }

  function RootNode(a: KgInput): Node {
    Node(0, if a.projectName != "" then a.projectName else "Project", ProjectKind, 0, None, None)
  }

  /** A top-level node with a description, present when the text is non-empty. */
  function Described(caption: string, kind: Kind, text: string, edgeLabel: string): seq<Draft> {
    if text != "" then [Draft(caption, kind, 1, Some(text), None, 0, edgeLabel)] else []
  }

  const RequirementsCaption: string := "Requirements"
  const RequirementsEdge: string := "defines"
  const ArchitectureCaption: string := "Architecture"
  const ArchitectureEdge: string := "follows"

  function RequirementsDrafts(a: KgInput): seq<Draft> {
    Described(RequirementsCaption, RequirementsKind, a.summary, RequirementsEdge)
  }

  const FeaturesDraft: Draft := Draft("Features", FeaturesKind, 1, None, None, 0, "includes")

  function FeatureDraft(feature: string, index: nat, parent: nat): Draft {
    Draft(Truncate(feature), FeatureKind, 2, Some(feature), None, parent, "feature " + NatToString(index + 1))
  }

  /** One node per feature shown, each under the `Features` node `parent`. */
  function FeatureDrafts(shown: seq<string>, parent: nat): seq<Draft>
    decreases |shown|
  {
    if |shown| == 0 then []
    else FeatureDrafts(Init(shown), parent) + [FeatureDraft(Last(shown), |shown| - 1, parent)]
  }

  /** The `Features` node and its feature nodes, when there are features. */
  function FeatureSection(features: seq<string>, parent: nat): seq<Draft> {
    if |features| > 0 then [FeaturesDraft] + FeatureDrafts(Take(features, MaxFeatures), parent) else []
  }

  const TechStackDraft: Draft := Draft("Tech Stack", TechStackKind, 1, None, None, 0, UsesEdge)

  const FrontendCaption: string := "Frontend"
  const BackendCaption: string := "Backend"
  const DatabaseCaption: string := "Database"
  const ToolsCaption: string := "Tools & Services"
  const LayerEdge: string := "layer"
  const UsesEdge: string := "uses"

  /** A layer node for a non-empty bucket. */
  function LayerDraft(caption: string, techs: seq<string>, parent: nat, edgeLabel: string): seq<Draft> {
    if |techs| > 0 then [Draft(caption, LayerKind, 2, None, Some(techs), parent, edgeLabel)] else []
  }

  /** The four layer nodes in the order they are pushed; an empty array adds none. */
  function LayerDrafts(g: Groups, parent: nat): seq<Draft> {
    LayerDraft(FrontendCaption, g.frontend, parent, LayerEdge) + LayerDraft(BackendCaption, g.backend, parent, LayerEdge)
    + LayerDraft(DatabaseCaption, g.database, parent, LayerEdge) + LayerDraft(ToolsCaption, g.other, parent, UsesEdge)
  }

  /** The `Tech Stack` node and its layer nodes, when there is a stack. */
  function TechSection(stack: seq<string>, parent: nat): seq<Draft> {
    if |stack| > 0 then [TechStackDraft] + LayerDrafts(Grouped(stack), parent) else []
  }

  function ArchitectureDrafts(a: KgInput): seq<Draft> {
    Described(ArchitectureCaption, ArchitectureKind, a.architectureType, ArchitectureEdge)
  }

  const DeploymentDraft: Draft := Draft("Deployment", DeploymentKind, 1, None, None, 0, "deploys to")

  /** Every node after the root, in push order: the sections, each numbered from the node
      after the previous one. */
  function Drafts(a: KgInput): seq<Draft> {
    var req := RequirementsDrafts(a);
    var feat := FeatureSection(a.features, 1 + |req|);
    var tech := TechSection(a.techStack, 1 + |req| + |feat|);
    Assemble(req, feat, tech, ArchitectureDrafts(a))
  }

  /** The sections in push order, closed by the deployment node. */
  function Assemble(req: seq<Draft>, feat: seq<Draft>, tech: seq<Draft>, arch: seq<Draft>): seq<Draft> {
    req + feat + tech + arch + [DeploymentDraft]
  }

  function NodeOf(id: nat, d: Draft): Node {
    Node(id, d.caption, d.kind, d.level, d.description, d.technologies)
  }

  function EdgeOf(id: nat, d: Draft): Edge {
    Edge(d.parent, id, d.edgeLabel)
  }

  /** The root, then one node per draft, pushed in order with ids counting up from 1. */
  function Nodes(root: Node, ds: seq<Draft>): (ns: seq<Node>)
    ensures |ns| == |ds| + 1 && ns[0] == root
    decreases |ds|
  {
    if |ds| == 0 then [root] else Nodes(root, Init(ds)) + [NodeOf(|ds|, Last(ds))]
  }

  /** One edge per draft, leading to its node from its parent. */
  function Edges(ds: seq<Draft>): (es: seq<Edge>)
    ensures |es| == |ds|
    decreases |ds|
  {
    if |ds| == 0 then [] else Edges(Init(ds)) + [EdgeOf(|ds|, Last(ds))]
  }

  /** Node `i` is the root for `i == 0` and draft `i - 1` otherwise; edge `j` comes from draft `j`
      and leads to node `j + 1`. */
  lemma {:induction false} NodesShape(root: Node, ds: seq<Draft>)
    ensures |Nodes(root, ds)| == |ds| + 1 && Nodes(root, ds)[0] == root
    ensures forall i :: 0 < i <= |ds| ==> Nodes(root, ds)[i] == NodeOf(i, ds[i - 1])
    ensures |Edges(ds)| == |ds|
    ensures forall j :: 0 <= j < |ds| ==> Edges(ds)[j] == EdgeOf(j + 1, ds[j])
    decreases |ds|
  {
    if |ds| > 0 {
      NodesShape(root, Init(ds));
    }
  }

  /** `Math.max(...nodes.map(n => n.level))` */
  function MaxLevel(nodes: seq<Node>): nat
    requires |nodes| > 0
    decreases |nodes|
  {
    if |nodes| == 1 then nodes[0].level
    else
      var m := MaxLevel(Init(nodes));
      if Last(nodes).level > m then Last(nodes).level else m
  }

  function KnowledgeGraph(a: KgInput): Graph {
    var ds := Drafts(a);
    var ns := Nodes(RootNode(a), ds);
    var es := Edges(ds);
    Graph(ns, es, Metadata(|ns|, |es|, MaxLevel(ns)))
  }

  // ---------------------------------------------------------------------------
  // The builder
  // ---------------------------------------------------------------------------

  /** The builder's `nodes`, `edges` and `nodeId` after pushing the drafts `done`. */
  ghost predicate Built(root: Node, nodes: seq<Node>, edges: seq<Edge>, nodeId: nat, done: seq<Draft>) {
    nodes == Nodes(root, done) && edges == Edges(done) && nodeId == |done| + 1
  }

  /** `nodes.push(node); edges.push(edge)` with `id: nodeId++`. */
  method Push(ghost root: Node, nodes: seq<Node>, edges: seq<Edge>, nodeId: nat, ghost done: seq<Draft>, d: Draft)
    returns (nodes': seq<Node>, edges': seq<Edge>, nodeId': nat, ghost done': seq<Draft>)
    requires Built(root, nodes, edges, nodeId, done)
    ensures nodes' == nodes + [NodeOf(nodeId, d)] && edges' == edges + [EdgeOf(nodeId, d)]
    ensures nodeId' == nodeId + 1 && done' == done + [d]
    ensures Built(root, nodes', edges', nodeId', done')
  {
    nodes' := nodes + [NodeOf(nodeId, d)];
    edges' := edges + [EdgeOf(nodeId, d)];
    nodeId' := nodeId + 1;
    done' := done + [d];
    assert Init(done') == done && Last(done') == d;
  }

  /** The `Features` node and one node per feature among the first five, when there are
      features. */
  method AddFeatures(ghost root: Node, nodes: seq<Node>, edges: seq<Edge>, nodeId: nat, ghost done: seq<Draft>, features: seq<string>)
    returns (nodes': seq<Node>, edges': seq<Edge>, nodeId': nat, ghost done': seq<Draft>)
    requires Built(root, nodes, edges, nodeId, done)
    ensures Built(root, nodes', edges', nodeId', done')
    ensures done' == done + FeatureSection(features, nodeId)
  {
    nodes', edges', nodeId', done' := nodes, edges, nodeId, done;
    if |features| > 0 {
      var featuresId := nodeId;
      nodes', edges', nodeId', done' := Push(root, nodes, edges, nodeId, done, FeaturesDraft);
      var shown := Take(features, MaxFeatures);
      for index := 0 to |shown|
        invariant Built(root, nodes', edges', nodeId', done')
        invariant done' == done + [FeaturesDraft] + FeatureDrafts(shown[..index], featuresId)
      {
        assert Init(shown[..index + 1]) == shown[..index] && Last(shown[..index + 1]) == shown[index];
        var feature := shown[index];
        ghost var prev := FeatureDrafts(shown[..index], featuresId);
        nodes', edges', nodeId', done' := Push(root, nodes', edges', nodeId', done',
          Draft(Truncate(feature), FeatureKind, 2, Some(feature), None, featuresId, "feature " + NatToString(index + 1)));
        ConcatAssoc(done + [FeaturesDraft], prev, [FeatureDraft(feature, index, featuresId)]);
      }
      assert shown[..|shown|] == shown;
      ConcatAssoc(done, [FeaturesDraft], FeatureDrafts(shown, featuresId));
    } else {
      assert done' == done + [];
    }
  }

  /** The `forEach` that sorts the stack into the four buckets. */
  method Categorize(stack: seq<string>) returns (frontend: seq<string>, backend: seq<string>, database: seq<string>, other: seq<string>)
    ensures Groups(frontend, backend, database, other) == Grouped(stack)
  {
    frontend, backend, database, other := [], [], [], [];
    for i := 0 to |stack|
      invariant Groups(frontend, backend, database, other) == Grouped(stack[..i])
    {
      assert Init(stack[..i + 1]) == stack[..i] && Last(stack[..i + 1]) == stack[i];
      var tech := stack[i];
      var techLower := ToLower(tech);
      if ContainsAny(techLower, FrontendWords) {
        frontend := frontend + [tech];
      } else if ContainsAny(techLower, BackendWords) {
        backend := backend + [tech];
      } else if ContainsAny(techLower, DatabaseWords) {
        database := database + [tech];
      } else {
        other := other + [tech];
      }
    }
    assert stack[..|stack|] == stack;
  }

  /** A layer node for a non-empty bucket. */
  method AddLayer(ghost root: Node, nodes: seq<Node>, edges: seq<Edge>, nodeId: nat, ghost done: seq<Draft>,
      caption: string, techs: seq<string>, parent: nat, edgeLabel: string)
    returns (nodes': seq<Node>, edges': seq<Edge>, nodeId': nat, ghost done': seq<Draft>)
    requires Built(root, nodes, edges, nodeId, done)
    ensures Built(root, nodes', edges', nodeId', done')
    ensures done' == done + LayerDraft(caption, techs, parent, edgeLabel)
  {
    if |techs| > 0 {
      nodes', edges', nodeId', done' := Push(root, nodes, edges, nodeId, done,
        Draft(caption, LayerKind, 2, None, Some(techs), parent, edgeLabel));
    } else {
      nodes', edges', nodeId', done' := nodes, edges, nodeId, done;
      assert done' == done + [];
    }
  }

  /** The `Tech Stack` node and a layer node per non-empty bucket, when there is a stack. */
  method AddTechStack(ghost root: Node, nodes: seq<Node>, edges: seq<Edge>, nodeId: nat, ghost done: seq<Draft>, stack: seq<string>)
    returns (nodes': seq<Node>, edges': seq<Edge>, nodeId': nat, ghost done': seq<Draft>)
    requires Built(root, nodes, edges, nodeId, done)
    ensures Built(root, nodes', edges', nodeId', done')
    ensures done' == done + TechSection(stack, nodeId)
  {
    nodes', edges', nodeId', done' := nodes, edges, nodeId, done;
    if |stack| > 0 {
      var techStackId := nodeId;
      nodes', edges', nodeId', done' := Push(root, nodes, edges, nodeId, done, TechStackDraft);
      ghost var l0 := done';
      var frontend, backend, database, other := Categorize(stack);
      nodes', edges', nodeId', done' := AddLayer(root, nodes', edges', nodeId', done', FrontendCaption, frontend, techStackId, LayerEdge);
      nodes', edges', nodeId', done' := AddLayer(root, nodes', edges', nodeId', done', BackendCaption, backend, techStackId, LayerEdge);
      nodes', edges', nodeId', done' := AddLayer(root, nodes', edges', nodeId', done', DatabaseCaption, database, techStackId, LayerEdge);
      nodes', edges', nodeId', done' := AddLayer(root, nodes', edges', nodeId', done', ToolsCaption, other, techStackId, UsesEdge);
      ghost var f := LayerDraft(FrontendCaption, frontend, techStackId, LayerEdge);
      ghost var b := LayerDraft(BackendCaption, backend, techStackId, LayerEdge);
      ghost var d := LayerDraft(DatabaseCaption, database, techStackId, LayerEdge);
      ghost var o := LayerDraft(ToolsCaption, other, techStackId, UsesEdge);
      assert done' == l0 + f + b + d + o;
      ConcatAssoc(l0, f, b);
      ConcatAssoc(l0, f + b, d);
      ConcatAssoc(l0, f + b + d, o);
      ghost var layers := LayerDrafts(Grouped(stack), techStackId);
      assert done' == l0 + layers;
      ConcatAssoc(done, [TechStackDraft], layers);
    } else {
      assert done' == done + [];
    }
  }

  /** A top-level node with a description, when the text is present. */
  method AddDescribed(ghost root: Node, nodes: seq<Node>, edges: seq<Edge>, nodeId: nat, ghost done: seq<Draft>,
      caption: string, kind: Kind, text: string, edgeLabel: string)
    returns (nodes': seq<Node>, edges': seq<Edge>, nodeId': nat, ghost done': seq<Draft>)
    requires Built(root, nodes, edges, nodeId, done)
    ensures Built(root, nodes', edges', nodeId', done')
    ensures done' == done + Described(caption, kind, text, edgeLabel)
  {
    if text != "" {
      nodes', edges', nodeId', done' := Push(root, nodes, edges, nodeId, done,
        Draft(caption, kind, 1, Some(text), None, 0, edgeLabel));
    } else {
      nodes', edges', nodeId', done' := nodes, edges, nodeId, done;
      assert done' == done + [];
    }
  }

  /** `generateKnowledgeGraph` */
  method GenerateKnowledgeGraph(a: KgInput) returns (g: Graph)
    ensures g == KnowledgeGraph(a)
  {
    var nodeId: nat := 0;
    var root := Node(nodeId, if a.projectName != "" then a.projectName else "Project", ProjectKind, 0, None, None);
    nodeId := nodeId + 1;
    var nodes := [root];
    var edges: seq<Edge> := [];
    ghost var done: seq<Draft> := [];
    nodes, edges, nodeId, done := AddDescribed(root, nodes, edges, nodeId, done, RequirementsCaption, RequirementsKind, a.summary, RequirementsEdge);
    ghost var req := RequirementsDrafts(a);
    assert done == req;
    nodes, edges, nodeId, done := AddFeatures(root, nodes, edges, nodeId, done, a.features);
    ghost var feat := FeatureSection(a.features, 1 + |req|);
    assert done == req + feat;
    nodes, edges, nodeId, done := AddTechStack(root, nodes, edges, nodeId, done, a.techStack);
    ghost var tech := TechSection(a.techStack, 1 + |req| + |feat|);
    assert done == req + feat + tech;
    nodes, edges, nodeId, done := AddDescribed(root, nodes, edges, nodeId, done, ArchitectureCaption, ArchitectureKind, a.architectureType, ArchitectureEdge);
    assert done == req + feat + tech + ArchitectureDrafts(a);
    nodes, edges, nodeId, done := Push(root, nodes, edges, nodeId, done, DeploymentDraft);
    assert done == Drafts(a);
    assert root == RootNode(a);
    g := Graph(nodes, edges, Metadata(|nodes|, |edges|, MaxLevel(nodes)));
  }

  // ---------------------------------------------------------------------------
  // Properties of the graph
  // ---------------------------------------------------------------------------

  lemma {:induction false} FeatureDraftsShape(shown: seq<string>, parent: nat)
    ensures |FeatureDrafts(shown, parent)| == |shown|
    ensures forall k :: 0 <= k < |shown| ==> FeatureDrafts(shown, parent)[k] == FeatureDraft(shown[k], k, parent)
    decreases |shown|
  {
    if |shown| > 0 {
      FeatureDraftsShape(Init(shown), parent);
    }
  }

  /** The four arrays together, as a multiset. */
  function AllGroups(g: Groups): multiset<string> {
    multiset(g.frontend) + multiset(g.backend) + multiset(g.database) + multiset(g.other)
  }

  /** Placing a technology appends it to the array of its category and leaves the others alone. */
  lemma PlaceAppends(g: Groups, tech: string)
    ensures AllGroups(Place(g, tech)) == AllGroups(g) + multiset{tech}
    ensures forall c :: Pick(Place(g, tech), c) == Pick(g, c) + (if CategoryOf(tech) == c then [tech] else [])
  {
    PlaceInAppends(g, CategoryOf(tech), tech);
  }

  lemma PlaceInAppends(g: Groups, c: Category, tech: string)
    ensures AllGroups(PlaceIn(g, c, tech)) == AllGroups(g) + multiset{tech}
    ensures forall c' :: Pick(PlaceIn(g, c, tech), c') == Pick(g, c') + (if c == c' then [tech] else [])
  {
    forall c' ensures Pick(PlaceIn(g, c, tech), c') == Pick(g, c') + (if c == c' then [tech] else []) {
      PickAfterPlaceIn(g, c, c', tech);
    }
    PlaceInMultiset(g, c, tech);
  }

  lemma PickAfterPlaceIn(g: Groups, c: Category, c': Category, tech: string)
    ensures Pick(PlaceIn(g, c, tech), c') == Pick(g, c') + (if c == c' then [tech] else [])
  {
  }

  lemma PlaceInMultiset(g: Groups, c: Category, tech: string)
    ensures AllGroups(PlaceIn(g, c, tech)) == AllGroups(g) + multiset{tech}
  {
    assert multiset(Pick(g, c) + [tech]) == multiset(Pick(g, c)) + multiset{tech};
  }

  /** Every technology lands in exactly one array: the four arrays together hold the stack. */
  lemma {:induction false} GroupedPartition(stack: seq<string>)
    ensures AllGroups(Grouped(stack)) == multiset(stack)
    decreases |stack|
  {
    if |stack| > 0 {
      var init, t := Init(stack), Last(stack);
      GroupedPartition(init);
      InitLast(stack);
      PlaceAppends(Grouped(init), t);
    }
  }

  /** An array holds only technologies of the stack whose keywords choose it. */
  lemma {:induction false} GroupedMembers(stack: seq<string>, c: Category)
    ensures forall k :: 0 <= k < |Pick(Grouped(stack), c)| ==>
      CategoryOf(Pick(Grouped(stack), c)[k]) == c && Pick(Grouped(stack), c)[k] in stack
    decreases |stack|
  {
    if |stack| > 0 {
      var init, t := Init(stack), Last(stack);
      GroupedMembers(init, c);
      PlaceAppends(Grouped(init), t);
      InitLast(stack);
    }
  }

  /** A layer node under `parent`, carrying a non-empty array. */
  predicate IsLayerUnder(d: Draft, parent: nat) {
    d.kind == LayerKind && d.level == 2 && d.parent == parent
    && d.technologies.Some? && |d.technologies.value| > 0
  }

  predicate LayersUnder(section: seq<Draft>, parent: nat) {
    forall k :: 0 <= k < |section| ==> IsLayerUnder(section[k], parent)
  }

  lemma LayersUnderAppend(s: seq<Draft>, t: seq<Draft>, parent: nat)
    requires LayersUnder(s, parent) && LayersUnder(t, parent)
    ensures LayersUnder(s + t, parent)
  {
    forall k | 0 <= k < |s + t| ensures IsLayerUnder((s + t)[k], parent) {
      if k < |s| { assert (s + t)[k] == s[k]; } else { assert (s + t)[k] == t[k - |s|]; }
    }
  }

  /** The layer nodes hang under `parent` at level 2, one per non-empty array, so there is at
      least one exactly when some array is non-empty. */
  lemma LayerNodes(g: Groups, parent: nat)
    ensures LayersUnder(LayerDrafts(g, parent), parent)
    ensures |LayerDrafts(g, parent)| > 0 <==> AllGroups(g) != multiset{}
  {
    var f := LayerDraft(FrontendCaption, g.frontend, parent, LayerEdge);
    var b := LayerDraft(BackendCaption, g.backend, parent, LayerEdge);
    var d := LayerDraft(DatabaseCaption, g.database, parent, LayerEdge);
    var o := LayerDraft(ToolsCaption, g.other, parent, UsesEdge);
    LayersUnderAppend(f, b, parent);
    LayersUnderAppend(f + b, d, parent);
    LayersUnderAppend(f + b + d, o, parent);
  }

  /** A non-empty stack yields at least one layer node. */
  lemma StackLayers(stack: seq<string>, parent: nat)
    ensures LayersUnder(LayerDrafts(Grouped(stack), parent), parent)
    ensures |stack| > 0 <==> |LayerDrafts(Grouped(stack), parent)| > 0
  {
    LayerNodes(Grouped(stack), parent);
    GroupedPartition(stack);
    if |stack| > 0 {
      assert stack[0] in multiset(stack);
    }
  }

  /** The level of node `p`: the root's is 0, node `i + 1`'s is that of draft `i`. */
  function NodeLevel(ds: seq<Draft>, p: nat): nat
    requires p <= |ds|
  {
    if p == 0 then 0 else ds[p - 1].level
  }

  /** Draft `i`'s parent is an earlier node, one level up. */
  predicate ParentAbove(ds: seq<Draft>, i: nat)
    requires i < |ds|
  {
    ds[i].parent <= i && NodeLevel(ds, ds[i].parent) + 1 == ds[i].level
  }

  /** Each draft's parent is an earlier node, one level up: stated draft by draft, from the
      last one back. */
  predicate WellFormed(ds: seq<Draft>)
    decreases |ds|
  {
    |ds| == 0 || (WellFormed(Init(ds)) && ParentAbove(ds, |ds| - 1))
  }

  lemma {:induction false} WellFormedAt(ds: seq<Draft>, i: nat)
    requires WellFormed(ds) && i < |ds|
    ensures ParentAbove(ds, i)
    decreases |ds|
  {
    if i < |ds| - 1 {
      WellFormedAt(Init(ds), i);
      assert Init(ds)[i] == ds[i];
      NodeLevelPrefix(Init(ds), [Last(ds)], ds[i].parent);
      assert Init(ds) + [Last(ds)] == ds;
    }
  }

  /** Drafts hung under node `p`, one level below it. */
  predicate ChildrenOf(section: seq<Draft>, p: nat, level: nat) {
    forall k :: 0 <= k < |section| ==> section[k].parent == p && section[k].level == level + 1
  }

  lemma NodeLevelPrefix(ds: seq<Draft>, section: seq<Draft>, q: nat)
    requires q <= |ds|
    ensures NodeLevel(ds + section, q) == NodeLevel(ds, q)
  {
    if q > 0 {
      assert (ds + section)[q - 1] == ds[q - 1];
    }
  }

  /** Appending children of an existing node keeps the drafts a tree. */
  lemma {:induction false} AppendChildren(ds: seq<Draft>, section: seq<Draft>, p: nat)
    requires WellFormed(ds) && p <= |ds| && ChildrenOf(section, p, NodeLevel(ds, p))
    ensures WellFormed(ds + section)
    decreases |section|
  {
    if |section| == 0 {
      assert ds + section == ds;
    } else {
      var init := Init(section);
      assert ChildrenOf(init, p, NodeLevel(ds, p)) by {
        forall k | 0 <= k < |init| ensures init[k].parent == p && init[k].level == NodeLevel(ds, p) + 1 {
          assert init[k] == section[k];
        }
      }
      AppendChildren(ds, init, p);
      var all := ds + section;
      assert Init(all) == ds + init;
      NodeLevelPrefix(ds, section, p);
      assert all[|all| - 1] == section[|section| - 1];
    }
  }

  /** A head node under the root, then children hung under that head, keep the drafts a
      tree. */
  lemma HeadedSectionWellFormed(ds: seq<Draft>, head: Draft, children: seq<Draft>)
    requires WellFormed(ds) && head.parent == 0 && head.level == 1
    requires ChildrenOf(children, |ds| + 1, 1)
    ensures WellFormed(ds + ([head] + children))
  {
    AppendChildren(ds, [head], 0);
    var ds1 := ds + [head];
    assert NodeLevel(ds1, |ds1|) == 1;
    AppendChildren(ds1, children, |ds1|);
    ConcatAssoc(ds, [head], children);
  }

  lemma FeatureSectionWellFormed(ds: seq<Draft>, features: seq<string>)
    requires WellFormed(ds)
    ensures WellFormed(ds + FeatureSection(features, 1 + |ds|))
  {
    if |features| > 0 {
      FeatureDraftsShape(Take(features, MaxFeatures), 1 + |ds|);
      HeadedSectionWellFormed(ds, FeaturesDraft, FeatureDrafts(Take(features, MaxFeatures), 1 + |ds|));
    } else {
      assert ds + FeatureSection(features, 1 + |ds|) == ds;
    }
  }

  lemma TechSectionWellFormed(ds: seq<Draft>, stack: seq<string>)
    requires WellFormed(ds)
    ensures WellFormed(ds + TechSection(stack, 1 + |ds|))
  {
    if |stack| > 0 {
      LayerNodes(Grouped(stack), 1 + |ds|);
      LayersAreChildren(LayerDrafts(Grouped(stack), 1 + |ds|), 1 + |ds|);
      HeadedSectionWellFormed(ds, TechStackDraft, LayerDrafts(Grouped(stack), 1 + |ds|));
    } else {
      assert ds + TechSection(stack, 1 + |ds|) == ds;
    }
  }

  lemma LayersAreChildren(layers: seq<Draft>, parent: nat)
    requires LayersUnder(layers, parent)
    ensures ChildrenOf(layers, parent, 1)
  {
  }

  lemma DescribedChildren(caption: string, kind: Kind, text: string, edgeLabel: string)
    ensures ChildrenOf(Described(caption, kind, text, edgeLabel), 0, 0)
  {
  }

  /** The sections of `Drafts`, each appended as a subtree of an existing node. */
  lemma AssembledWellFormed(a: KgInput)
    ensures var req := RequirementsDrafts(a);
      var feat := FeatureSection(a.features, 1 + |req|);
      var tech := TechSection(a.techStack, 1 + |req| + |feat|);
      WellFormed(Assemble(req, feat, tech, ArchitectureDrafts(a)))
  {
    var req := RequirementsDrafts(a);
    var feat := FeatureSection(a.features, 1 + |req|);
    var tech := TechSection(a.techStack, 1 + |req| + |feat|);
    var arch := ArchitectureDrafts(a);
    var x := req + feat + tech;
    assert WellFormed(x) by {
      DescribedChildren(RequirementsCaption, RequirementsKind, a.summary, RequirementsEdge);
      AppendChildren([], req, 0);
      assert [] + req == req;
      FeatureSectionWellFormed(req, a.features);
      TechSectionWellFormed(req + feat, a.techStack);
    }
    assert WellFormed(x + arch + [DeploymentDraft]) by {
      DescribedChildren(ArchitectureCaption, ArchitectureKind, a.architectureType, ArchitectureEdge);
      AppendChildren(x, arch, 0);
      AppendChildren(x + arch, [DeploymentDraft], 0);
    }
  }

  lemma DraftsWellFormed(a: KgInput)
    ensures WellFormed(Drafts(a))
  {
    AssembledWellFormed(a);
  }

  /** Under a root with id 0 at level 0, a well-formed draft list gives a tree: node ids are
      the indices, edge `j` runs from an earlier node to node `j + 1`, one level down, so each
      node but the root has exactly one incoming edge. */
  lemma TreeShape(root: Node, ds: seq<Draft>)
    requires root.id == 0 && root.level == 0 && WellFormed(ds)
    ensures var nodes, edges := Nodes(root, ds), Edges(ds);
      |edges| == |nodes| - 1
      && (forall i :: 0 <= i < |nodes| ==> nodes[i].id == i)
      && (forall j :: 0 <= j < |edges| ==>
            edges[j].to == j + 1 && edges[j].from < edges[j].to
            && nodes[edges[j].from].level + 1 == nodes[edges[j].to].level)
      && (forall j, k :: 0 <= j < k < |edges| ==> edges[j].to != edges[k].to)
  {
    NodesShape(root, ds);
    EdgesShape(root, ds);
  }

  lemma EdgesShape(root: Node, ds: seq<Draft>)
    requires root.level == 0 && WellFormed(ds)
    ensures forall j :: 0 <= j < |Edges(ds)| ==>
      Edges(ds)[j].to == j + 1 && Edges(ds)[j].from < Edges(ds)[j].to && Edges(ds)[j].from <= |ds|
      && Nodes(root, ds)[Edges(ds)[j].from].level + 1 == Nodes(root, ds)[Edges(ds)[j].to].level
  {
    forall j | 0 <= j < |Edges(ds)|
      ensures Edges(ds)[j].to == j + 1 && Edges(ds)[j].from < Edges(ds)[j].to && Edges(ds)[j].from <= |ds|
      ensures Nodes(root, ds)[Edges(ds)[j].from].level + 1 == Nodes(root, ds)[Edges(ds)[j].to].level
    {
      EdgeShape(root, ds, j);
    }
  }

  /** Edge `j` leads from an earlier node to node `j + 1`, one level down. */
  lemma EdgeShape(root: Node, ds: seq<Draft>, j: nat)
    requires root.level == 0 && WellFormed(ds) && j < |ds|
    ensures var e := Edges(ds)[j];
      e.to == j + 1 && e.from < e.to && e.from <= |ds|
      && Nodes(root, ds)[e.from].level + 1 == Nodes(root, ds)[e.to].level
  {
    NodesShape(root, ds);
    WellFormedAt(ds, j);
    var p := ds[j].parent;
    assert Edges(ds)[j] == EdgeOf(j + 1, ds[j]);
    assert Nodes(root, ds)[j + 1] == NodeOf(j + 1, ds[j]);
    if p > 0 {
      assert Nodes(root, ds)[p] == NodeOf(p, ds[p - 1]);
    }
  }

  /** The generated graph is such a tree, with the project at its root. */
  lemma GraphIsTree(a: KgInput)
    ensures var g := KnowledgeGraph(a);
      |g.nodes| >= 2 && |g.edges| == |g.nodes| - 1
      && (forall i :: 0 <= i < |g.nodes| ==> g.nodes[i].id == i)
      && (forall j :: 0 <= j < |g.edges| ==>
            g.edges[j].to == j + 1 && g.edges[j].from < g.edges[j].to
            && g.nodes[g.edges[j].from].level + 1 == g.nodes[g.edges[j].to].level)
      && (forall j, k :: 0 <= j < k < |g.edges| ==> g.edges[j].to != g.edges[k].to)
  {
    DraftsWellFormed(a);
    TreeShape(RootNode(a), Drafts(a));
  }

  /** The project node comes first at level 0, labelled with the project name or `Project`;
      the deployment node is always present, last, at level 1, under the root. */
  lemma RootAndDeployment(a: KgInput)
    ensures var g := KnowledgeGraph(a);
      |g.nodes| >= 2 && |g.edges| >= 1
      && g.nodes[0] == Node(0, if a.projectName != "" then a.projectName else "Project", ProjectKind, 0, None, None)
      && Last(g.nodes) == Node(|g.nodes| - 1, "Deployment", DeploymentKind, 1, None, None)
      && Last(g.edges) == Edge(0, |g.nodes| - 1, "deploys to")
  {
    var ds := Drafts(a);
    assert |ds| > 0 && Last(ds) == DeploymentDraft by {
      }
  }

  /** No draft of the section is a feature. */
  predicate NoFeatures(section: seq<Draft>) {
    forall k :: 0 <= k < |section| ==> section[k].kind != FeatureKind
  }

  /** The drafts of the features `shown` sit right after draft `r`, in order, and no other
      draft is a feature. */
  predicate FeaturesPlaced(ds: seq<Draft>, r: nat, shown: seq<string>) {
    r + |shown| < |ds|
    && (forall k :: 0 <= k < |shown| ==> ds[r + 1 + k] == FeatureDraft(shown[k], k, 1 + r))
    && (forall d :: 0 <= d < |ds| ==> (ds[d].kind == FeatureKind <==> r < d <= r + |shown|))
  }

  /** Feature drafts sit right after the `Features` draft, in order, and nowhere else. */
  lemma FeaturesBetween(req: seq<Draft>, feat: seq<Draft>, rest: seq<Draft>, features: seq<string>)
    requires NoFeatures(req) && NoFeatures(rest) && |rest| > 0
    requires feat == FeatureSection(features, 1 + |req|)
    ensures FeaturesPlaced(req + feat + rest, |req|, Take(features, MaxFeatures))
  {
    var ds, r, shown := req + feat + rest, |req|, Take(features, MaxFeatures);
    FeatureDraftsShape(shown, 1 + r);
    assert |features| == 0 ==> feat == [] && shown == [];
    forall d | 0 <= d < |ds|
      ensures ds[d].kind == FeatureKind <==> r < d <= r + |shown|
    {
      if d < r {
        assert ds[d] == req[d];
      } else if d < r + |feat| {
        assert ds[d] == feat[d - r];
      } else {
        assert ds[d] == rest[d - r - |feat|];
      }
    }
    forall k | 0 <= k < |shown|
      ensures ds[r + 1 + k] == FeatureDraft(shown[k], k, 1 + r)
    {
      assert ds[r + 1 + k] == feat[1 + k];
    }
  }

  /** The drafts after the feature section. */
  function AfterFeatures(a: KgInput): seq<Draft> {
    var req := RequirementsDrafts(a);
    TechTail(a.techStack, 1 + |req| + |FeatureSection(a.features, 1 + |req|)|, ArchitectureDrafts(a))
  }

  function TechTail(stack: seq<string>, parent: nat, arch: seq<Draft>): seq<Draft> {
    TechSection(stack, parent) + arch + [DeploymentDraft]
  }

  lemma DraftsAroundFeatures(a: KgInput)
    ensures Drafts(a) == RequirementsDrafts(a) + FeatureSection(a.features, 1 + |RequirementsDrafts(a)|) + AfterFeatures(a)
  {
    var req := RequirementsDrafts(a);
    var feat := FeatureSection(a.features, 1 + |req|);
    var tech := TechSection(a.techStack, 1 + |req| + |feat|);
    var arch := ArchitectureDrafts(a);
    ConcatAssoc(req + feat, tech + arch, [DeploymentDraft]);
    ConcatAssoc(req + feat, tech, arch);
  }

  lemma RestHasNoFeatures(a: KgInput)
    ensures NoFeatures(AfterFeatures(a))
  {
    var req := RequirementsDrafts(a);
    var parent := 1 + |req| + |FeatureSection(a.features, 1 + |req|)|;
    assert AfterFeatures(a) == TechTail(a.techStack, parent, ArchitectureDrafts(a));
    DescribedHasNoFeatures(ArchitectureCaption, ArchitectureKind, a.architectureType, ArchitectureEdge);
    TechTailHasNoFeatures(a.techStack, parent, ArchitectureDrafts(a));
  }

  lemma TechTailHasNoFeatures(stack: seq<string>, parent: nat, arch: seq<Draft>)
    requires NoFeatures(arch)
    ensures NoFeatures(TechTail(stack, parent, arch))
  {
    var tech := TechSection(stack, parent);
    var rest := TechTail(stack, parent, arch);
    StackLayers(stack, parent);
    forall k | 0 <= k < |rest| ensures rest[k].kind != FeatureKind {
      if k < |tech| {
        assert rest[k] == tech[k];
        if k > 0 {
          assert tech[k] == LayerDrafts(Grouped(stack), parent)[k - 1];
        }
      } else if k < |tech| + |arch| {
        assert rest[k] == arch[k - |tech|];
      }
    }
  }

  lemma FeatureDraftsAt(a: KgInput)
    ensures FeaturesPlaced(Drafts(a), |RequirementsDrafts(a)|, Take(a.features, MaxFeatures))
  {
    var req := RequirementsDrafts(a);
    DraftsAroundFeatures(a);
    RestHasNoFeatures(a);
    DescribedHasNoFeatures(RequirementsCaption, RequirementsKind, a.summary, RequirementsEdge);
    FeaturesBetween(req, FeatureSection(a.features, 1 + |req|), AfterFeatures(a), a.features);
  }

  lemma DescribedHasNoFeatures(caption: string, kind: Kind, text: string, edgeLabel: string)
    requires kind != FeatureKind
    ensures NoFeatures(Described(caption, kind, text, edgeLabel))
  {
  }

  /** The feature nodes are exactly the nodes after the `Features` node `base`, one per feature
      shown, in order: labelled with the truncated feature, described by the whole feature, with
      edges from `base` labelled `feature 1`, `feature 2`, ... */
  predicate FeatureNodesPlaced(nodes: seq<Node>, edges: seq<Edge>, base: nat, shown: seq<string>) {
    base + |shown| < |nodes| && base + |shown| <= |edges|
    && (forall i :: 0 <= i < |nodes| ==> (nodes[i].kind == FeatureKind <==> base < i <= base + |shown|))
    && (forall k :: 0 <= k < |shown| ==>
          nodes[base + 1 + k] == Node(base + 1 + k, Truncate(shown[k]), FeatureKind, 2, Some(shown[k]), None)
          && edges[base + k] == Edge(base, base + 1 + k, "feature " + NatToString(k + 1)))
  }

  /** The feature nodes are exactly the nodes after `Features`, one per feature among the
      first five, in order: labelled with the truncated feature, described by the whole
      feature, with edges from `Features` labelled `feature 1`, `feature 2`, ... */
  lemma FeatureNodes(a: KgInput)
    ensures var g := KnowledgeGraph(a);
      FeatureNodesPlaced(g.nodes, g.edges, 1 + |RequirementsDrafts(a)|, Take(a.features, MaxFeatures))
  {
    FeatureDraftsAt(a);
    FeatureNodesOf(RootNode(a), Drafts(a), |RequirementsDrafts(a)|, Take(a.features, MaxFeatures));
  }

  /** The features shown are the first five, or all of them when there are fewer. */
  lemma TakeFeatures(features: seq<string>)
    ensures var shown := Take(features, MaxFeatures);
      |shown| == (if |features| < MaxFeatures then |features| else MaxFeatures)
      && forall k :: 0 <= k < |shown| ==> shown[k] == features[k]
  {
  }

  /** Drafts with the features right after draft `r` and nowhere else give feature nodes and
      edges at the matching positions. */
  lemma FeatureNodesOf(root: Node, ds: seq<Draft>, r: nat, shown: seq<string>)
    requires root.kind != FeatureKind && FeaturesPlaced(ds, r, shown)
    ensures FeatureNodesPlaced(Nodes(root, ds), Edges(ds), 1 + r, shown)
  {
    NodesShape(root, ds);
  }

  /** A label is the feature itself when it has at most 30 characters; otherwise its first
      30 characters followed by `...`, 33 characters in all. */
  lemma TruncateSpec(feature: string)
    ensures |feature| <= LabelWidth ==> Truncate(feature) == feature
    ensures |feature| > LabelWidth ==>
      |Truncate(feature)| == LabelWidth + 3 && EndsWith(Truncate(feature), "...")
      && StartsWith(Truncate(feature), feature[..LabelWidth])
  {
    if |feature| > LabelWidth {
      var t := Truncate(feature);
      assert t[..LabelWidth] == feature[..LabelWidth];
      assert t[|t| - 3..] == "...";
    }
  }

  lemma {:induction false} MaxLevelBounds(nodes: seq<Node>)
    requires |nodes| > 0
    ensures forall i :: 0 <= i < |nodes| ==> nodes[i].level <= MaxLevel(nodes)
    ensures exists i :: 0 <= i < |nodes| && nodes[i].level == MaxLevel(nodes)
    decreases |nodes|
  {
    if |nodes| > 1 {
      MaxLevelBounds(Init(nodes));
      var i :| 0 <= i < |Init(nodes)| && Init(nodes)[i].level == MaxLevel(Init(nodes));
      assert nodes[i] == Init(nodes)[i];
      assert Last(nodes) == nodes[|nodes| - 1];
      assert forall k :: 0 <= k < |nodes| - 1 ==> nodes[k] == Init(nodes)[k];
    } else {
      assert nodes[0].level == MaxLevel(nodes);
    }
  }

  /** Every draft is at level 1 or 2. */
  predicate LevelsInRange(ds: seq<Draft>)
    decreases |ds|
  {
    |ds| == 0 || (LevelsInRange(Init(ds)) && 1 <= Last(ds).level <= 2)
  }

  /** Some draft is at level 2. */
  predicate HasSecondLevel(ds: seq<Draft>)
    decreases |ds|
  {
    |ds| > 0 && (HasSecondLevel(Init(ds)) || Last(ds).level == 2)
  }

  /** Every draft is at level 1 or 2, and some draft is at level 2 exactly when `deep`. */
  predicate TwoLevels(ds: seq<Draft>, deep: bool) {
    LevelsInRange(ds) && (HasSecondLevel(ds) <==> deep)
  }

  lemma {:induction false} LevelsAt(ds: seq<Draft>)
    ensures LevelsInRange(ds) <==> forall d :: 0 <= d < |ds| ==> 1 <= ds[d].level <= 2
    ensures HasSecondLevel(ds) <==> exists d :: 0 <= d < |ds| && ds[d].level == 2
    decreases |ds|
  {
    if |ds| > 0 {
      var init := Init(ds);
      LevelsAt(init);
      assert forall d :: 0 <= d < |init| ==> init[d] == ds[d];
      if exists d :: 0 <= d < |ds| && ds[d].level == 2 {
        var d :| 0 <= d < |ds| && ds[d].level == 2;
        if d < |init| {
          assert init[d].level == 2;
        }
      }
    }
  }

  lemma {:induction false} ConcatLevels(s: seq<Draft>, t: seq<Draft>)
    ensures LevelsInRange(s + t) <==> LevelsInRange(s) && LevelsInRange(t)
    ensures HasSecondLevel(s + t) <==> HasSecondLevel(s) || HasSecondLevel(t)
    decreases |t|
  {
    if |t| == 0 {
      assert s + t == s;
    } else {
      ConcatLevels(s, Init(t));
      assert Init(s + t) == s + Init(t);
    }
  }

  /** Drafts all at one level, 1 or 2. */
  lemma {:induction false} UniformLevel(ds: seq<Draft>, level: nat)
    requires 1 <= level <= 2 && forall d :: 0 <= d < |ds| ==> ds[d].level == level
    ensures LevelsInRange(ds) && (HasSecondLevel(ds) <==> level == 2 && |ds| > 0)
    decreases |ds|
  {
    if |ds| > 0 {
      UniformLevel(Init(ds), level);
    }
  }

  lemma FeatureSectionLevels(features: seq<string>, parent: nat)
    ensures TwoLevels(FeatureSection(features, parent), |features| > 0)
  {
    if |features| > 0 {
      var shown := Take(features, MaxFeatures);
      FeatureDraftsShape(shown, parent);
      UniformLevel([FeaturesDraft], 1);
      UniformLevel(FeatureDrafts(shown, parent), 2);
      ConcatLevels([FeaturesDraft], FeatureDrafts(shown, parent));
    }
  }

  lemma TechSectionLevels(stack: seq<string>, parent: nat)
    ensures TwoLevels(TechSection(stack, parent), |stack| > 0)
  {
    if |stack| > 0 {
      var layers := LayerDrafts(Grouped(stack), parent);
      StackLayers(stack, parent);
      UniformLevel([TechStackDraft], 1);
      UniformLevel(layers, 2);
      ConcatLevels([TechStackDraft], layers);
    }
  }

  /** A top-level node sits at level 1. */
  lemma DescribedLevels(caption: string, kind: Kind, text: string, edgeLabel: string)
    ensures TwoLevels(Described(caption, kind, text, edgeLabel), false)
  {
    UniformLevel(Described(caption, kind, text, edgeLabel), 1);
  }

  predicate SectionsLevels(req: seq<Draft>, feat: seq<Draft>, tech: seq<Draft>, arch: seq<Draft>, hasFeatures: bool, hasStack: bool) {
    TwoLevels(req, false) && TwoLevels(feat, hasFeatures) && TwoLevels(tech, hasStack) && TwoLevels(arch, false)
  }

  /** Assembling sections at levels 1 and 2, where only the feature and tech-stack sections
      reach level 2, gives drafts at levels 1 and 2 that reach level 2 when one of those does. */
  lemma AssembledLevels(req: seq<Draft>, feat: seq<Draft>, tech: seq<Draft>, arch: seq<Draft>, hasFeatures: bool, hasStack: bool)
    requires SectionsLevels(req, feat, tech, arch, hasFeatures, hasStack)
    ensures TwoLevels(Assemble(req, feat, tech, arch), hasFeatures || hasStack)
  {
    UniformLevel([DeploymentDraft], 1);
    ConcatLevels(req, feat);
    ConcatLevels(req + feat, tech);
    ConcatLevels(req + feat + tech, arch);
    ConcatLevels(req + feat + tech + arch, [DeploymentDraft]);
  }

  /** Every level after the root is 1 or 2, and some draft is at level 2 exactly when there is
      a feature or a technology. */
  lemma DraftLevels(a: KgInput)
    ensures TwoLevels(Drafts(a), |a.features| > 0 || |a.techStack| > 0)
  {
    SectionLevelsOf(a, 1 + |RequirementsDrafts(a)|,
      1 + |RequirementsDrafts(a)| + |FeatureSection(a.features, 1 + |RequirementsDrafts(a)|)|);
    AssembledLevels(RequirementsDrafts(a), FeatureSection(a.features, 1 + |RequirementsDrafts(a)|),
      TechSection(a.techStack, 1 + |RequirementsDrafts(a)| + |FeatureSection(a.features, 1 + |RequirementsDrafts(a)|)|),
      ArchitectureDrafts(a), |a.features| > 0, |a.techStack| > 0);
  }

  lemma SectionLevelsOf(a: KgInput, featuresParent: nat, stackParent: nat)
    ensures SectionsLevels(RequirementsDrafts(a), FeatureSection(a.features, featuresParent),
      TechSection(a.techStack, stackParent), ArchitectureDrafts(a), |a.features| > 0, |a.techStack| > 0)
  {
    DescribedLevels(RequirementsCaption, RequirementsKind, a.summary, RequirementsEdge);
    DescribedLevels(ArchitectureCaption, ArchitectureKind, a.architectureType, ArchitectureEdge);
    FeatureSectionLevels(a.features, featuresParent);
    TechSectionLevels(a.techStack, stackParent);
    SectionsLevelsIntro(RequirementsDrafts(a), FeatureSection(a.features, featuresParent),
      TechSection(a.techStack, stackParent), ArchitectureDrafts(a), |a.features| > 0, |a.techStack| > 0);
  }

  lemma SectionsLevelsIntro(req: seq<Draft>, feat: seq<Draft>, tech: seq<Draft>, arch: seq<Draft>, hasFeatures: bool, hasStack: bool)
    requires TwoLevels(req, false) && TwoLevels(feat, hasFeatures) && TwoLevels(tech, hasStack) && TwoLevels(arch, false)
    ensures SectionsLevels(req, feat, tech, arch, hasFeatures, hasStack)
  {
  }

  lemma MetadataCounts(a: KgInput)
    ensures var g := KnowledgeGraph(a);
      g.metadata.totalNodes == |g.nodes| && g.metadata.totalEdges == |g.edges|
      && (forall i :: 0 <= i < |g.nodes| ==> g.nodes[i].level <= g.metadata.maxLevel)
      && g.metadata.maxLevel == (if |a.features| > 0 || |a.techStack| > 0 then 2 else 1)
  {
    DraftLevels(a);
    NodesMaxLevel(RootNode(a), Drafts(a), |a.features| > 0 || |a.techStack| > 0);
  }

  /** Under a level-0 root, drafts at levels 1 and 2 give a deepest level of 2 when some draft
      is at level 2, else 1. */
  lemma NodesMaxLevel(root: Node, ds: seq<Draft>, deep: bool)
    requires root.level == 0 && |ds| > 0 && TwoLevels(ds, deep)
    ensures var nodes := Nodes(root, ds);
      (forall i :: 0 <= i < |nodes| ==> nodes[i].level <= MaxLevel(nodes))
      && MaxLevel(nodes) == if deep then 2 else 1
  {
    var nodes := Nodes(root, ds);
    MaxLevelBounds(nodes);
    NodesShape(root, ds);
    LevelsAt(ds);
    if HasSecondLevel(ds) {
      var d :| 0 <= d < |ds| && ds[d].level == 2;
      assert nodes[d + 1].level == 2;
    } else {
      assert nodes[|ds|].level == ds[|ds| - 1].level;
    }
  }

  // ---------------------------------------------------------------------------
  // D3 format
  // ---------------------------------------------------------------------------

  datatype D3Node = D3Node(id: nat, name: string, group: string, level: nat,
    description: Option<string>, technologies: Option<seq<string>>)
  datatype D3Link = D3Link(source: nat, target: nat, caption: string)
  datatype D3Graph = D3Graph(nodes: seq<D3Node>, links: seq<D3Link>)

  function ToD3Node(n: Node): D3Node {
    D3Node(n.id, n.caption, TypeName(n.kind), n.level, n.description, n.technologies)
  }

  /** `toD3Format`: the nodes and edges renamed, in the same order. */
  function ToD3Format(gr: Graph): (r: D3Graph)
    ensures |r.nodes| == |gr.nodes| && |r.links| == |gr.edges|
  {
    D3Graph(
      seq(|gr.nodes|, i requires 0 <= i < |gr.nodes| => ToD3Node(gr.nodes[i])),
      seq(|gr.edges|, j requires 0 <= j < |gr.edges| => D3Link(gr.edges[j].from, gr.edges[j].to, gr.edges[j].caption)))
  }

  /** For a generated graph every link's source and target is the id of the D3 node at that
      index, and the links are in node order. */
  lemma D3LinksResolve(a: KgInput)
    ensures var d := ToD3Format(KnowledgeGraph(a));
      forall j :: 0 <= j < |d.links| ==>
        d.links[j].source < |d.nodes| && d.nodes[d.links[j].source].id == d.links[j].source
        && d.links[j].target < |d.nodes| && d.nodes[d.links[j].target].id == d.links[j].target
        && d.links[j].target == j + 1
  {
    GraphIsTree(a);
  }

  // ---------------------------------------------------------------------------
  // Cytoscape format
  // ---------------------------------------------------------------------------

  datatype Element =
    | NodeElement(id: string, caption: string, typeName: string, level: nat,
        description: Option<string>, technologies: Option<seq<string>>)
    | EdgeElement(id: string, source: string, target: string, caption: string)

  function NodeRef(id: nat): string {
    "node-" + NatToString(id)
  }

  function EdgeRef(index: nat): string {
    "edge-" + NatToString(index)
  }

  function CyNode(n: Node): Element {
    NodeElement(NodeRef(n.id), n.caption, TypeName(n.kind), n.level, n.description, n.technologies)
  }

  function CyEdge(index: nat, e: Edge): Element {
    EdgeElement(EdgeRef(index), NodeRef(e.from), NodeRef(e.to), e.caption)
  }

  /** `toCytoscapeFormat`: all node elements in node order, then all edge elements in edge
      order, the edge ids numbered by position. */
  method ToCytoscapeFormat(gr: Graph) returns (elements: seq<Element>)
    ensures |elements| == |gr.nodes| + |gr.edges|
    ensures forall i :: 0 <= i < |gr.nodes| ==> elements[i] == CyNode(gr.nodes[i])
    ensures forall j :: |gr.nodes| <= j < |elements| ==> elements[j] == CyEdge(j - |gr.nodes|, gr.edges[j - |gr.nodes|])
  {
    elements := [];
    for i := 0 to |gr.nodes|
      invariant |elements| == i
      invariant forall k :: 0 <= k < i ==> elements[k] == CyNode(gr.nodes[k])
    {
      elements := elements + [CyNode(gr.nodes[i])];
    }
    for j := 0 to |gr.edges|
      invariant |elements| == |gr.nodes| + j
      invariant forall k :: 0 <= k < |gr.nodes| ==> elements[k] == CyNode(gr.nodes[k])
      invariant forall k :: |gr.nodes| <= k < |elements| ==> elements[k] == CyEdge(k - |gr.nodes|, gr.edges[k - |gr.nodes|])
    {
      elements := elements + [CyEdge(j, gr.edges[j])];
    }
  }

  lemma RefsDistinct(p: string, q: string, a: nat, b: nat)
    requires |p| == |q| && (p != q || a != b)
    ensures p + NatToString(a) != q + NatToString(b)
  {
    if p + NatToString(a) == q + NatToString(b) {
      assert (p + NatToString(a))[..|p|] == p;
      assert (q + NatToString(b))[..|q|] == q;
      assert NatToString(a) == (p + NatToString(a))[|p|..];
      NatToStringInjective(a, b);
    }
  }

  /** Node ids are the indices and every edge joins two nodes of the graph. */
  predicate Linked(gr: Graph) {
    (forall i :: 0 <= i < |gr.nodes| ==> gr.nodes[i].id == i)
    && (forall j :: 0 <= j < |gr.edges| ==> gr.edges[j].from < |gr.nodes| && gr.edges[j].to < |gr.nodes|)
  }

  lemma GeneratedGraphLinked(a: KgInput)
    ensures Linked(KnowledgeGraph(a))
  {
    GraphIsTree(a);
  }

  /** On a linked graph the element ids are pairwise distinct, and every edge element's source
      and target is the id of a node element. */
  lemma CytoscapeIdsResolve(gr: Graph, elements: seq<Element>)
    requires Linked(gr)
    requires |elements| == |gr.nodes| + |gr.edges|
    requires forall i :: 0 <= i < |gr.nodes| ==> elements[i] == CyNode(gr.nodes[i])
    requires forall j :: |gr.nodes| <= j < |elements| ==> elements[j] == CyEdge(j - |gr.nodes|, gr.edges[j - |gr.nodes|])
    ensures forall i, j :: 0 <= i < j < |elements| ==> elements[i].id != elements[j].id
    ensures forall j :: 0 <= j < |elements| && elements[j].EdgeElement? ==>
      (exists i :: 0 <= i < |elements| && elements[i].NodeElement? && elements[i].id == elements[j].source)
      && (exists i :: 0 <= i < |elements| && elements[i].NodeElement? && elements[i].id == elements[j].target)
  {
    var n := |gr.nodes|;
    forall i, j | 0 <= i < j < |elements|
      ensures elements[i].id != elements[j].id
    {
      if j < n {
        assert elements[i].id == NodeRef(i) && elements[j].id == NodeRef(j);
        RefsDistinct("node-", "node-", i, j);
      } else if i < n {
        assert elements[i].id == NodeRef(i) && elements[j].id == EdgeRef(j - n);
        RefsDistinct("node-", "edge-", i, j - n);
      } else {
        assert elements[i].id == EdgeRef(i - n) && elements[j].id == EdgeRef(j - n);
        RefsDistinct("edge-", "edge-", i - n, j - n);
      }
    }
    forall j | 0 <= j < |elements| && elements[j].EdgeElement?
      ensures (exists i :: 0 <= i < |elements| && elements[i].NodeElement? && elements[i].id == elements[j].source)
      ensures (exists i :: 0 <= i < |elements| && elements[i].NodeElement? && elements[i].id == elements[j].target)
    {
      if j >= n {
        var e := gr.edges[j - n];
        assert elements[j] == CyEdge(j - n, e);
        assert elements[e.from] == CyNode(gr.nodes[e.from]);
        assert elements[e.to] == CyNode(gr.nodes[e.to]);
      }
    }
  }

  // ---------------------------------------------------------------------------
  // Simple HTML
  // ---------------------------------------------------------------------------

  /** The parts of the `toHTML` markup: a level block opens, one card per node, the block
      closes, and a connector may follow. The literal markup around them is constant. */
  datatype HtmlPart =
    | LevelOpen(level: nat)
    | Card(typeName: string, id: nat, caption: string, description: Option<string>, technologies: Option<string>)
    | LevelClose
    | Connector

  /** One node card; the description and the technologies (joined with `, `) appear only
      when present and non-empty text. */
  function CardOf(n: Node): HtmlPart {
    Card(TypeName(n.kind), n.id, n.caption,
      if n.description.Some? && n.description.value != "" then n.description else None,
      if n.technologies.Some? then Some(Join(n.technologies.value, ", ")) else None)
  }

  /** The nodes of one level, in graph order. */
  function AtLevel(nodes: seq<Node>, level: nat): seq<Node>
    decreases |nodes|
  {
    if |nodes| == 0 then []
    else AtLevel(Init(nodes), level) + (if Last(nodes).level == level then [Last(nodes)] else [])
  }

  /** The `nodesByLevel` object built by the first `forEach`. */
  function GroupByLevel(nodes: seq<Node>): map<nat, seq<Node>>
    decreases |nodes|
  {
    if |nodes| == 0 then map[]
    else
      var m := GroupByLevel(Init(nodes));
      var l := Last(nodes).level;
      m[l := (if l in m then m[l] else []) + [Last(nodes)]]
  }

  /** The keys below `bound`, ascending. */
  function KeysBelow(keys: set<nat>, bound: nat): seq<nat>
    decreases bound
  {
    if bound == 0 then [] else KeysBelow(keys, bound - 1) + (if bound - 1 in keys then [bound - 1] else [])
  }

  /** The levels present, ascending; none for a graph without nodes. */
  function SortedLevels(nodes: seq<Node>): seq<nat> {
    if |nodes| == 0 then [] else KeysBelow(GroupByLevel(nodes).Keys, MaxLevel(nodes) + 1)
  }

  /** The parts of one level block and the connector after it. */
  function LevelParts(level: nat, group: seq<Node>, levelCount: nat): seq<HtmlPart> {
    [LevelOpen(level)] + seq(|group|, k requires 0 <= k < |group| => CardOf(group[k])) + [LevelClose]
    + (if level < levelCount - 1 then [Connector] else [])
  }

  /** The first `forEach` of `toHTML`: `nodesByLevel`, built in place. */
  method GroupNodes(nodes: seq<Node>) returns (nodesByLevel: map<nat, seq<Node>>)
    ensures nodesByLevel == GroupByLevel(nodes)
  {
    nodesByLevel := map[];
    for i := 0 to |nodes|
      invariant nodesByLevel == GroupByLevel(nodes[..i])
    {
      assert Init(nodes[..i + 1]) == nodes[..i] && Last(nodes[..i + 1]) == nodes[i];
      var node := nodes[i];
      if node.level !in nodesByLevel {
        nodesByLevel := nodesByLevel[node.level := []];
      }
      nodesByLevel := nodesByLevel[node.level := nodesByLevel[node.level] + [node]];
    }
    assert nodes[..|nodes|] == nodes;
  }

  /** One level block: its cards in order, the closing tag and, unless the level number has
      reached the count of levels less one, a connector. */
  method AppendLevel(html: seq<HtmlPart>, level: nat, group: seq<Node>, levelCount: nat) returns (html': seq<HtmlPart>)
    ensures html' == html + LevelParts(level, group, levelCount)
  {
    html' := html + [LevelOpen(level)];
    for c := 0 to |group|
      invariant html' == html + [LevelOpen(level)] + seq(c, m requires 0 <= m < c => CardOf(group[m]))
    {
      html' := html' + [CardOf(group[c])];
    }
    html' := html' + [LevelClose];
    if level < levelCount - 1 {
      html' := html' + [Connector];
    }
  }

  /** `toHTML`: the level blocks in ascending level order. */
  method ToHtml(gr: Graph) returns (html: seq<HtmlPart>)
    ensures html == Render(gr.nodes, SortedLevels(gr.nodes), |SortedLevels(gr.nodes)|)
  {
    var nodesByLevel := GroupNodes(gr.nodes);
    var levels := SortedLevels(gr.nodes);
    LevelsAreKeys(gr.nodes);
    html := [];
    for k := 0 to |levels|
      invariant html == Render(gr.nodes, levels[..k], |levels|)
    {
      var level := levels[k];
      GroupIsAtLevel(gr.nodes, level);
      html := AppendLevel(html, level, nodesByLevel[level], |levels|);
      PrefixStep(levels, k);
    }
    assert levels[..|levels|] == levels;
  }

  /** The blocks of the given levels, in order. */
  function Render(nodes: seq<Node>, levels: seq<nat>, levelCount: nat): seq<HtmlPart>
    decreases |levels|
  {
    if |levels| == 0 then []
    else Render(nodes, Init(levels), levelCount) + LevelParts(Last(levels), AtLevel(nodes, Last(levels)), levelCount)
  }

  lemma {:induction false} GroupIsAtLevel(nodes: seq<Node>, level: nat)
    ensures level in GroupByLevel(nodes) <==> |AtLevel(nodes, level)| > 0
    ensures level in GroupByLevel(nodes) ==> GroupByLevel(nodes)[level] == AtLevel(nodes, level)
    decreases |nodes|
  {
    if |nodes| > 0 {
      GroupIsAtLevel(Init(nodes), level);
    }
  }

  lemma {:induction false} KeysBelowSpec(keys: set<nat>, bound: nat)
    ensures forall i, j :: 0 <= i < j < |KeysBelow(keys, bound)| ==> KeysBelow(keys, bound)[i] < KeysBelow(keys, bound)[j]
    ensures forall l :: l in KeysBelow(keys, bound) <==> l in keys && l < bound
    decreases bound
  {
    if bound > 0 {
      KeysBelowSpec(keys, bound - 1);
      var prev, all := KeysBelow(keys, bound - 1), KeysBelow(keys, bound);
      forall i, j | 0 <= i < j < |all| ensures all[i] < all[j] {
        assert all[i] == prev[i] && prev[i] in prev;
        if j < |prev| {
          assert all[j] == prev[j];
        }
      }
    }
  }

  lemma {:induction false} AtLevelSpec(nodes: seq<Node>, level: nat)
    ensures |AtLevel(nodes, level)| > 0 <==> exists i :: 0 <= i < |nodes| && nodes[i].level == level
    ensures forall k :: 0 <= k < |AtLevel(nodes, level)| ==> AtLevel(nodes, level)[k].level == level
    decreases |nodes|
  {
    if |nodes| > 0 {
      AtLevelSpec(Init(nodes), level);
      if exists i :: 0 <= i < |nodes| && nodes[i].level == level {
        var i :| 0 <= i < |nodes| && nodes[i].level == level;
        if i < |nodes| - 1 {
          assert Init(nodes)[i] == nodes[i];
        }
      }
      if exists i :: 0 <= i < |Init(nodes)| && Init(nodes)[i].level == level {
        var i :| 0 <= i < |Init(nodes)| && Init(nodes)[i].level == level;
        assert nodes[i] == Init(nodes)[i];
      }
    }
  }

  /** The levels rendered are exactly the node levels, each once, ascending. */
  lemma LevelsAreKeys(nodes: seq<Node>)
    ensures forall i, j :: 0 <= i < j < |SortedLevels(nodes)| ==> SortedLevels(nodes)[i] < SortedLevels(nodes)[j]
    ensures forall l :: l in SortedLevels(nodes) <==> l in GroupByLevel(nodes)
    ensures forall l :: l in SortedLevels(nodes) <==> exists i :: 0 <= i < |nodes| && nodes[i].level == l
  {
    if |nodes| == 0 {
      return;
    }
    var keys := GroupByLevel(nodes).Keys;
    KeysBelowSpec(keys, MaxLevel(nodes) + 1);
    MaxLevelBounds(nodes);
    forall l
      ensures l in GroupByLevel(nodes) <==> exists i :: 0 <= i < |nodes| && nodes[i].level == l
    {
      GroupIsAtLevel(nodes, l);
      AtLevelSpec(nodes, l);
    }
  }

  /** For a generated graph the levels are 0, 1 and, with features or technologies, 2; so a
      connector follows every level block but the last. */
  lemma GeneratedLevels(a: KgInput)
    ensures var gr := KnowledgeGraph(a);
      SortedLevels(gr.nodes) == if |a.features| > 0 || |a.techStack| > 0 then [0, 1, 2] else [0, 1]
  {
    GeneratedLevelShape(a);
    ShapedLevels(KnowledgeGraph(a).nodes, |a.features| > 0 || |a.techStack| > 0);
  }

  /** Root at level 0 first, a level-1 node last, and every level up to the deepest, 1 or 2. */
  predicate LevelShape(nodes: seq<Node>, deep: bool) {
    |nodes| >= 2 && nodes[0].level == 0 && Last(nodes).level == 1
    && (forall i :: 0 <= i < |nodes| ==> nodes[i].level <= MaxLevel(nodes))
    && MaxLevel(nodes) == if deep then 2 else 1
  }

  lemma GeneratedLevelShape(a: KgInput)
    ensures LevelShape(KnowledgeGraph(a).nodes, |a.features| > 0 || |a.techStack| > 0)
  {
    MetadataCounts(a);
    RootAndDeployment(a);
  }

  lemma ShapedLevels(nodes: seq<Node>, deep: bool)
    requires LevelShape(nodes, deep)
    ensures SortedLevels(nodes) == if deep then [0, 1, 2] else [0, 1]
  {
    var keys := GroupByLevel(nodes).Keys;
    LevelsAreKeys(nodes);
    MaxLevelBounds(nodes);
    assert 0 in keys && 1 in keys;
    assert KeysBelow(keys, 1) == [0];
    assert KeysBelow(keys, 2) == [0, 1];
    if deep {
      assert 2 in keys;
      assert KeysBelow(keys, 3) == [0, 1, 2];
    }
  }
}
