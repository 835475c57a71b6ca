# PDPBioGen core, modelled in Dafny

This project models the deterministic core of PDPBioGen, a collection of
Python tools around biological pathway diagrams, protein-domain plots and
"quantum-inspired" multi-domain healing simulations. The model covers:

- the pathway configuration validator;
- the diagram builder and both command-line entry points of the diagram tool;
- the protein-domain filtering, grouping, colouring and naming logic;
- the entanglement mapper that synchronises agent states;
- the CSV initial-state loader;
- the workspace temp-file manager;
- the domain-dispatch integrator, with its three mappers and its output validator;
- the biological critic;
- the multi-agent collaboration;
- the gene-delta bound scaling and flux report of the healing simulation;
- the biography prompt generator.

Python values that travel through dynamic code are modelled by one datatype
(`PyValue.Value`). A dict is an ordered list of entries with distinct keys,
so insertion order and in-place overwriting are explicit. Python floats are
`real`. Everything the code receives from outside is a parameter of the model:

- the YAML reader, Graphviz rendering and the agent system;
- the critic's checkers and correctors, and the collaboration's agents and resolver;
- the flux solver and the OpenAI client;
- Python's `float()`.

One module per component:

| file | module | component |
|---|---|---|
| wrappers.dfy | Wrappers | Option / Result / Outcome |
| text.dfy | Text | `str.strip`, `str.replace`, substring search, decimal formatting |
| pyvalue.dfy | PyValue | Python values, dicts, exceptions, `len`, `in`, indexing |
| validator.dfy | PathwayValidator | pdpbiogen/validator.py |
| diagram.dfy | Diagram | pdpbiogen/pdpbiogen.py |
| cli.dfy | Cli | pdpbiogen/cli.py |
| domain_plot.dfy | DomainPlot | pdpbiogen.py |
| quantum_mapper.dfy | QuantumMapper | dpbiogen/quantum/mapper.py |
| state_loader.dfy | StateLoader | dpbiogen/quantum/utils.py |
| workspace.dfy | Workspace | deepseek_python_20251121_c6bb2e.py |
| domain_mappers.dfy | DomainMappers | the three `modules/*_mapper.py` |
| domain_manager.dfy | DomainManagement | pdpbiogen/core/domain_manager.py |
| pipeline_validation.dfy | PipelineValidation | pdpbiogen/validation/validators.py |
| integrator.dfy | Integration | pdpbiogen/core/integrator.py |
| critic.dfy | Critic | the biological critic |
| collaboration.dfy | Collaboration | the multi-agent collaboration |
| healing_sim.dfy | HealingSim | quantum/healing_sim.py |
| bio_prompt.dfy | BioPrompt | pdp_biogen/generator.py |

Where the code and its tests or comments disagree, the model follows the code:

- With no baseline solution, `run_fba_and_report` optimises the current model twice. It compares that solution with itself, so every reported flux change is 0 (`HealingSim.NoBaselineNoChange`). The "before = 0.0" branch is unreachable.
- tests/test_pdpbiogen.py expects a `ValidationError` from `create_diagram`. The code wraps every failure into a `GraphvizError` (`Diagram.DiagramFailureIsGraphvizError`).
- The molecule-id pattern ends in `$`, so one trailing newline is accepted (`PathwayValidator.TrailingNewlineAccepted`).
- An `interactions: null` entry passes validation, which only checks truthiness. The diagram builder then fails to iterate it (`Diagram.NoneInteractionsNotDrawable`).
- The apply-gene-delta comment promises a factor in 0.5..1.5. That holds only when every fold change lies in [-0.5, 0.5] (`HealingSim.BoundedScoresFactor`). Otherwise the clip to [0.2, 2.0] decides (`HealingSim.FactorRange`).
- The apply-gene-delta loop assigns the upper bound before the lower one. With a positive lower bound and a factor below 1, the scaled upper bound can fall below the old lower bound, and COBRA's setter then raises and stops the loop (`HealingSim.OrderedRescaleFailsIff`, `HealingSim.ShrinkingUpperBoundRaises`), although the scaled pair would be ordered (`HealingSim.ScalingKeepsFeasibility`).

## Model

| member | source | states |
|---|---|---|
| PathwayValidator.MatchesIdPatternIff | pdpbiogen/validator.py:14 | `re.match('^[a-zA-Z_][a-zA-Z0-9_]*$')` accepts exactly an identifier, optionally followed by one newline |
| PathwayValidator.MatchesIdPattern | pdpbiogen/validator.py:14 | the identifier regex as a predicate on the id; its exact language is stated by MatchesIdPatternIff |
| PathwayValidator.ValidateMoleculeId | pdpbiogen/validator.py:9-18 | passes iff the id is a string matching the pattern; every failure is a ValidationError |
| PathwayValidator.NonStringIdRejected | pdpbiogen/validator.py:11-12 | a non-string id fails with a message starting "Molecule ID must be string" |
| PathwayValidator.TrailingNewlineAccepted | pdpbiogen/validator.py:14 | "A\n" is accepted and "A\n\n" rejected |
| PathwayValidator.ValidateColor | pdpbiogen/validator.py:21-28 | passes iff the colour is a non-empty string; failures are ValidationErrors |
| PathwayValidator.CheckMolecule | pdpbiogen/validator.py:36-43 | one molecule entry passes iff its id is valid, its config a dict, and its colour (when present) valid |
| PathwayValidator.EmptyMoleculesRejected | pdpbiogen/validator.py:33-34 | a falsy molecules section fails with "No molecules defined in configuration" |
| PathwayValidator.CheckMoleculesIff | pdpbiogen/validator.py:36-43 | the loop passes iff every entry is valid |
| PathwayValidator.ValidateMoleculesIff | pdpbiogen/validator.py:31-43 | the section passes iff it is a non-empty dict of valid entries |
| PathwayValidator.ValidateMolecules | pdpbiogen/validator.py:31-43 | `validate_molecules`: the falsy check, the `.items()` call and the per-entry loop; characterised by ValidateMoleculesIff |
| PathwayValidator.CheckInteraction | pdpbiogen/validator.py:52-69 | one interaction passes iff it is a dict with `from` and `to` naming defined molecules and a valid colour when present |
| PathwayValidator.CheckInteractionsIff | pdpbiogen/validator.py:52-69 | the loop from index i passes iff every interaction from i is valid |
| PathwayValidator.ValidateInteractionsIff | pdpbiogen/validator.py:46-69 | the interactions pass iff they are falsy or all valid |
| PathwayValidator.ValidateInteractions | pdpbiogen/validator.py:46-69 | `validate_interactions`: falsy interactions pass, otherwise the loop over every interaction; characterised by ValidateInteractionsIff and FirstFailingInteraction |
| PathwayValidator.FirstFailingInteraction | pdpbiogen/validator.py:52-69 | the error reported is that of the first failing interaction |
| PathwayValidator.SourceReportedBeforeTarget | pdpbiogen/validator.py:62-66 | with both ends undefined, the source is the one reported |
| PathwayValidator.ValidateConfigurationIff | pdpbiogen/validator.py:72-83 | the configuration passes iff it is a dict with valid molecules and valid interactions when present |
| PathwayValidator.ValidateConfiguration | pdpbiogen/validator.py:72-83 | `validate_configuration`: dict check, `molecules` key, molecules, then interactions when the key exists; characterised by ValidateConfigurationIff |
| PathwayValidator.MissingMoleculesRejected | pdpbiogen/validator.py:77-78 | a dict without `molecules` fails with the "molecules section" message |
| Diagram.LoadConfigurationOutcomes | pdpbiogen/pdpbiogen.py:12-29 | loading succeeds iff a non-None document was parsed and returns it; every read failure except an unexpected exception becomes a ConfigurationError |
| Diagram.LoadConfiguration | pdpbiogen/pdpbiogen.py:12-29 | `load_configuration`: the parsed document, or the ConfigurationError for each way reading fails; outcomes stated by LoadConfigurationOutcomes |
| Diagram.LoadMessagesDistinct | pdpbiogen/pdpbiogen.py:19-27 | the empty-file, YAML, missing-file and permission messages differ from one another |
| Diagram.Digraph.constructor | pdpbiogen/pdpbiogen.py:38 | a new graph has its comment and no rankdir, nodes or edges |
| Diagram.Digraph.SetRankdir | pdpbiogen/pdpbiogen.py:39 | sets the rank direction and nothing else |
| Diagram.Digraph.Node | pdpbiogen/pdpbiogen.py:64 | appends one node statement and nothing else |
| Diagram.Digraph.Edge | pdpbiogen/pdpbiogen.py:78 | appends one edge statement and nothing else |
| Diagram.NodeStyling | pdpbiogen/pdpbiogen.py:46-62 | node attributes are the label (default: the id), then type colour/style/shape, with a custom colour overriding the type colour |
| Diagram.NodeAttrs | pdpbiogen/pdpbiogen.py:46-62 | the keyword arguments of one `dot.node` call, built in the source's order; stated in closed form by NodeStyling |
| Diagram.TypeStyling | pdpbiogen/pdpbiogen.py:50-58 | `update` on the label dict appends colour, style and shape in that order |
| Diagram.EdgeStyling | pdpbiogen/pdpbiogen.py:71-76 | edge attributes are the label (default "") and the colour only when given |
| Diagram.EdgeAttrs | pdpbiogen/pdpbiogen.py:71-76 | the keyword arguments of one `dot.edge` call; stated by EdgeStyling |
| Diagram.DiagramFailureIsGraphvizError | pdpbiogen/pdpbiogen.py:33-87 | every failure of `create_diagram` is a GraphvizError, a validation failure included; it fails iff validation fails or the interactions are not iterable |
| Diagram.DiagramFailure | pdpbiogen/pdpbiogen.py:33-87 | the exception `create_diagram` raises, if any: a wrapped validation error, or a wrapped error from iterating the interactions; classified by DiagramFailureIsGraphvizError |
| Diagram.NoneInteractionsNotDrawable | pdpbiogen/pdpbiogen.py:41-68 | a validated configuration with `interactions: None` fails when iterated |
| Diagram.InteractionReadyFromValid | pdpbiogen/pdpbiogen.py:69-70 | a valid interaction's ends are string molecule ids |
| Diagram.ReadyFromValid | pdpbiogen/pdpbiogen.py:41-42 | validation guarantees every molecule and interaction the builder walks over is well-formed |
| Diagram.AddNodes | pdpbiogen/pdpbiogen.py:45-65 | one node per molecule, in dict order, with its derived attributes |
| Diagram.AddEdges | pdpbiogen/pdpbiogen.py:68-79 | one edge per interaction, in order, with its derived attributes |
| Diagram.CreateDiagram | pdpbiogen/pdpbiogen.py:31-87 | fails exactly as `DiagramFailure` says; on success a fresh top-to-bottom graph with one node per molecule and one edge per interaction, equal to `DrawingOf` |
| Diagram.DrawingOf | pdpbiogen/pdpbiogen.py:37-79 | the graph `create_diagram` returns for an accepted configuration: its comment, TB rank direction, one node per molecule and one edge per interaction; CreateDiagram returns a graph equal to it |
| Diagram.RenderEffects | pdpbiogen/pdpbiogen.py:103-104 | one render per format, in order |
| Diagram.FirstFailing | pdpbiogen/pdpbiogen.py:103-105 | the first format whose render raises: every earlier render returns normally and that one raises, or no render raises |
| Diagram.RenderFormats | pdpbiogen/pdpbiogen.py:103-105 | renders each format in turn; succeeds iff every render does, else returns the error of the first failing format, having attempted exactly the formats up to it |
| Diagram.LegacyFailure | pdpbiogen/pdpbiogen.py:98-105 | the exception escaping the `try` of the legacy `main`: the load error, the diagram error, or the first failing render's error on the built graph |
| Diagram.LegacyMain | pdpbiogen/pdpbiogen.py:89-109 | a wrong argument count exits 1 with no effects; otherwise it reads, builds and renders the built graph to png, svg and pdf up to the first failure; finishes iff `LegacyFailure` is None, a package error exits 1, any other error is raised as itself; the trace is the read plus the attempted renders |
| Cli.ExpandFormatsProperties | pdpbiogen/cli.py:74-76 | `all` expands to png, svg and pdf, other lists are kept, expansion is idempotent and yields only concrete formats |
| Cli.ExpandFormats | pdpbiogen/cli.py:74-76 | the `all` expansion of the format list; stated by ExpandFormatsProperties |
| Cli.DefaultFormatsUnexpanded | pdpbiogen/cli.py:39 | the default formats are png and svg |
| Cli.ExitCodeClasses | pdpbiogen/cli.py:93-112 | package errors give 1, an interrupt 130, anything else 2; never 0 |
| Cli.ExitCode | pdpbiogen/cli.py:93-112 | the `except` ladder as a map from exception to code; classified by ExitCodeClasses |
| Cli.Run | pdpbiogen/cli.py:57-112 | returns `ExitStatus`; `--version` enters no stage; otherwise load, create and render of the built graph run in order up to the first failure |
| Cli.MainFailure | pdpbiogen/cli.py:72-91 | the exception escaping the `try` of `main`: load, create, then render of the built graph, first failure wins |
| Cli.ExitStatus | pdpbiogen/cli.py:57-112 | the code `main` returns; Run returns it, MainSucceedsIff says when it is 0 |
| Cli.MainSucceedsIff | pdpbiogen/cli.py:63-91 | the code `main` returns is 0 iff `--version` is set or loading, creating and rendering the built graph all succeed; every escaping exception gives a non-zero code |
| Cli.LoadFailureExitsOne | pdpbiogen/cli.py:82-95 | a failing load is the escaping exception and `main` returns 1 |
| Cli.InvalidConfigurationExitsOne | pdpbiogen/cli.py:85-101 | an invalid configuration surfaces as a GraphvizError, and `main` returns 1 |
| DomainPlot.FilterExact | pdpbiogen.py:61 | a mask selection keeps exactly the passing rows, in order |
| DomainPlot.Filter | pdpbiogen.py:61 | boolean-mask row selection as a generic filter; FilterExact states it is the subsequence of exactly the kept rows |
| DomainPlot.KeepDomainDatabasesExact | pdpbiogen.py:60-61 | exactly the rows from the six domain databases survive, in order |
| DomainPlot.KeepDomainDatabases | pdpbiogen.py:60-61 | the rows whose database is one of the six; stated by KeepDomainDatabasesExact |
| DomainPlot.FilterByLengthExact | pdpbiogen.py:77-81 | no filtering for a non-positive minimum; otherwise exactly the rows with `end - start >= min_length`, in order |
| DomainPlot.FilterByLength | pdpbiogen.py:77-81 | the length filter, applied only for a positive minimum; stated by FilterByLengthExact |
| DomainPlot.SortByStart | pdpbiogen.py:88 | sorted by start and a permutation of the rows |
| DomainPlot.RunEnd | pdpbiogen.py:97-100 | a run is maximal: it extends while the name repeats and the gap is below 50 |
| DomainPlot.GroupedPartition | pdpbiogen.py:92-112 | the runs partition the rows: each is non-empty and their sizes add up to the row count |
| DomainPlot.Grouped | pdpbiogen.py:92-112 | the grouping of maximal runs from index i; its partition, order and fixed-point properties are GroupedPartition, GroupedSorted and GroupedWithoutRepeats |
| DomainPlot.MergeFields | pdpbiogen.py:102-106 | a merged row keeps the first row's fields, takes the last row's end and is named "name (xN)" |
| DomainPlot.Merge | pdpbiogen.py:102-106 | the merged row for a run of length k; stated by MergeFields |
| DomainPlot.GroupedSorted | pdpbiogen.py:88-112 | grouping sorted rows keeps them sorted by start |
| DomainPlot.GroupedWithoutRepeats | pdpbiogen.py:97-112 | without neighbouring repeats nothing is merged |
| DomainPlot.GroupRuns | pdpbiogen.py:92-112 | the outer loop emits exactly the grouped rows |
| DomainPlot.EmitRun | pdpbiogen.py:102-106 | the appended row is the run's merged row: the first row, with the last end and an "(xN)" name when the run repeats |
| DomainPlot.CountRun | pdpbiogen.py:94-100 | the inner loop counts the maximal run |
| DomainPlot.FilterDomains | pdpbiogen.py:70-116 | length filter, then grouping of the sorted rows when asked for and more than one row is left |
| DomainPlot.DefaultHeight | pdpbiogen.py:125 | the height is at least 400 and at least 30 per row plus 150, and equals one of the two |
| DomainPlot.FigureHeight | pdpbiogen.py:124-125 | the figure height: the given one, or the default for n rows; compared with the export height by HeightsAgree |
| DomainPlot.ExportHeight | pdpbiogen.py:285 | the export height: the given one when truthy, otherwise the default; compared by HeightsAgree |
| DomainPlot.HeightsAgree | pdpbiogen.py:285 | figure and export heights agree except for an explicit height of 0 |
| DomainPlot.Unique | pdpbiogen.py:136 | each name once, exactly the names present |
| DomainPlot.UniqueFirstAppearance | pdpbiogen.py:136 | names come out in order of first appearance |
| DomainPlot.ColorMapping | pdpbiogen.py:137-139 | every name gets a colour, the k-th distinct name gets palette colour k mod 24 |
| DomainPlot.PaletteDistinct | pdpbiogen.py:128-133 | the 24 palette colours are distinct |
| DomainPlot.DistinctNamesDistinctColors | pdpbiogen.py:137-139 | with at most 24 names, different names get different colours |
| DomainPlot.CsvNameReplacesEach | pdpbiogen.py:289 | every `.html` is replaced left to right; a name without one is kept |
| DomainPlot.CsvName | pdpbiogen.py:289 | the CSV file name by `replace('.html', '_domains.csv')`; stated by CsvNameReplacesEach and CsvNameOfHtmlFile |
| DomainPlot.CsvNameOfHtmlFile | pdpbiogen.py:289 | `stem.html` becomes `stem_domains.csv` |
| QuantumMapper.Agent.constructor | dpbiogen/quantum/mapper.py:16-19 | a new agent holds its name, state and neural flag |
| QuantumMapper.StatesOf | dpbiogen/quantum/mapper.py:18 | the state snapshot covers exactly the given agents |
| QuantumMapper.CollapseGroup | dpbiogen/quantum/mapper.py:38-55 | one group's collapse changes no agent outside the snapshot |
| QuantumMapper.WeightedSum | dpbiogen/quantum/mapper.py:42-47 | Σ w·state over a group, w the multiplier for neural agents and 1 otherwise; bounded by WeightedSumBounds |
| QuantumMapper.TotalWeight | dpbiogen/quantum/mapper.py:42-47 | Σ w over a group; the divisor of the collapsed state |
| QuantumMapper.CollapseAll | dpbiogen/quantum/mapper.py:38-55 | the whole collapse changes no agent outside the snapshot |
| QuantumMapper.Entangler.constructor | dpbiogen/quantum/mapper.py:27-29 | no groups, the given weight multiplier |
| QuantumMapper.Entangler.Members | dpbiogen/quantum/mapper.py:28 | every agent listed in some group is a member |
| QuantumMapper.Entangler.Entangle | dpbiogen/quantum/mapper.py:31-34 | a group is registered iff it has more than one agent |
| QuantumMapper.Entangler.CollapseSymmetry | dpbiogen/quantum/mapper.py:36-55 | every member ends in the state the group-by-group weighted collapse gives |
| QuantumMapper.Entangler.Accumulate | dpbiogen/quantum/mapper.py:42-47 | the loop computes the weighted sum and the total weight |
| QuantumMapper.BioDeviationOf | dpbiogen/quantum/mapper.py:80-81 | the bio deviation is never negative |
| QuantumMapper.Mapper.constructor | dpbiogen/quantum/mapper.py:60-62 | no agents and a fresh entangler with the multiplier |
| QuantumMapper.Mapper.AddAgent | dpbiogen/quantum/mapper.py:64-67 | a fresh agent with the given fields is appended and returned |
| QuantumMapper.Mapper.EntangleGroup | dpbiogen/quantum/mapper.py:69-70 | delegates to `entangle` |
| QuantumMapper.Mapper.Collapse | dpbiogen/quantum/mapper.py:72-74 | grouped agents take their collapsed state, others keep theirs |
| QuantumMapper.BioDeviationZeroIff | dpbiogen/quantum/mapper.py:80-81 | the deviation is 0 iff every non-neural agent is at 0.0 |
| QuantumMapper.GroupSynchronized | dpbiogen/quantum/mapper.py:52-55 | after a group collapses all its members share one state |
| QuantumMapper.GroupLeavesOthers | dpbiogen/quantum/mapper.py:38-55 | a small or weightless group changes nothing; agents outside the group are untouched |
| QuantumMapper.WeightedSumBounds | dpbiogen/quantum/mapper.py:42-47 | with positive weights, the weighted sum lies between lo and hi times the total weight |
| QuantumMapper.CollapsedBetween | dpbiogen/quantum/mapper.py:52 | the collapsed state lies between the smallest and largest member state |
| QuantumMapper.CollapseGroupIdempotent | dpbiogen/quantum/mapper.py:36-55 | collapsing a group twice changes nothing more |
| QuantumMapper.UngroupedUnchanged | dpbiogen/quantum/mapper.py:38 | an agent in no group keeps its state |
| QuantumMapper.GroupEndsSynchronized | dpbiogen/quantum/mapper.py:38-55 | a collapsed group whose members no later group lists ends synchronised |
| StateLoader.LoadInitialStates | dpbiogen/quantum/utils.py:21-31 | the loop's states and warnings are those of the row specification |
| StateLoader.StatesSource | dpbiogen/quantum/utils.py:24-28 | every name in the result comes from the last row that sets it, with that row's parsed value |
| StateLoader.StatesCover | dpbiogen/quantum/utils.py:25-28 | every two-field row with a parsable value contributes its stripped name |
| StateLoader.StatesKeys | dpbiogen/quantum/utils.py:24-28 | a name is present iff some two-field row with a parsable value has that stripped name |
| StateLoader.LastRowWins | dpbiogen/quantum/utils.py:28 | a later row with the same name overwrites an earlier one |
| StateLoader.StatesNamesStripped | dpbiogen/quantum/utils.py:28 | every name in the result is stripped |
| StateLoader.IgnoredRow | dpbiogen/quantum/utils.py:25-30 | rows with another field count or an unparsable value leave the states unchanged; a wrong field count warns of nothing |
| Workspace.FileSystem.Exists | deepseek_python_20251121_c6bb2e.py:13 | true iff the path exists |
| Workspace.FileSystem.Remove | deepseek_python_20251121_c6bb2e.py:14 | removes exactly that path |
| Workspace.RemovedExactly | deepseek_python_20251121_c6bb2e.py:12-14 | after removal a path exists iff it existed and was not registered |
| Workspace.Removed | deepseek_python_20251121_c6bb2e.py:12-14 | the paths left after removing every registered path that exists; stated by RemovedExactly |
| Workspace.CleanupIdempotent | deepseek_python_20251121_c6bb2e.py:10-14 | cleaning up twice leaves what cleaning up once left |
| Workspace.AfterCleanupProperties | deepseek_python_20251121_c6bb2e.py:10-14 | kept intermediates change nothing; otherwise no registered path remains and other paths are unchanged |
| Workspace.AfterCleanup | deepseek_python_20251121_c6bb2e.py:10-14 | the file system after `cleanup`, honouring `keep_intermediates`; stated by AfterCleanupProperties and CleanupIdempotent |
| Workspace.WorkspaceManager.constructor | deepseek_python_20251121_c6bb2e.py:3-5 | the keep flag is stored and nothing is registered |
| Workspace.WorkspaceManager.RegisterTempFile | deepseek_python_20251121_c6bb2e.py:7-8 | the path is appended |
| Workspace.WorkspaceManager.Cleanup | deepseek_python_20251121_c6bb2e.py:10-14 | the file system ends as the cleanup specification says |
| DomainMappers.PayloadGet | pdpbiogen/modules/neural/neural_mapper.py:6 | `payload.get` works iff the payload is a dict and gives the default for a missing key |
| DomainMappers.Length | pdpbiogen/modules/neural/neural_mapper.py:7 | `len` succeeds iff the value is iterable and counts its items |
| DomainMappers.TotalLength | pdpbiogen/modules/neural/neural_mapper.py:7 | the sum of lengths succeeds iff every item has a length; failures are TypeErrors |
| DomainMappers.TotalLengthBounds | pdpbiogen/modules/neural/neural_mapper.py:7 | lengths within [lo, hi] sum to within lo and hi times the count |
| DomainMappers.NeuralSummary | pdpbiogen/modules/neural/neural_mapper.py:6-7 | the count is the number of signals; the mean is int 0 for none, else the float total length over the count, which lies between the shortest and longest length |
| DomainMappers.NeuralMissingSignals | pdpbiogen/modules/neural/neural_mapper.py:6-7 | without signals both fields are 0 |
| DomainMappers.NeuralMap | pdpbiogen/modules/neural/neural_mapper.py:4-7 | `NeuralMapper.map`; its result is stated by NeuralSummary and NeuralMissingSignals |
| DomainMappers.GenomicSummary | pdpbiogen/modules/genomic/genomic_mapper.py:5-6 | the variant count and the first variant, or None when there are none |
| DomainMappers.GenomicMap | pdpbiogen/modules/genomic/genomic_mapper.py:4-6 | `GenomicMapper.map`; its result is stated by GenomicSummary |
| DomainMappers.AddNumbers | pdpbiogen/modules/metabolic/metabolic_mapper.py:6 | adding two numbers gives their sum, a float iff either is a float |
| DomainMappers.SumValues | pdpbiogen/modules/metabolic/metabolic_mapper.py:6 | `sum` succeeds iff every value is a number, and then equals the arithmetic total |
| DomainMappers.MetabolicSummary | pdpbiogen/modules/metabolic/metabolic_mapper.py:5-7 | the count is the number of measures; the average is int 0 for none, else the float mean |
| DomainMappers.MetabolicMap | pdpbiogen/modules/metabolic/metabolic_mapper.py:4-7 | `MetabolicMapper.map`, average before count; its result is stated by MetabolicSummary and MetabolicRejectsNonNumber |
| DomainMappers.MetabolicRejectsNonNumber | pdpbiogen/modules/metabolic/metabolic_mapper.py:6 | a non-number measure raises a TypeError |
| DomainMappers.SumValuesFailsWithTypeError | pdpbiogen/modules/metabolic/metabolic_mapper.py:6 | a failing sum always raises a TypeError |
| DomainMappers.MetabolicExample | pdpbiogen/modules/metabolic/metabolic_mapper.py:5-7 | measures 2 and 4 give count 2 and average 3.0 |
| DomainManagement.DomainManager.constructor | pdpbiogen/core/domain_manager.py:14-15 | the manager holds exactly the registered mappers |
| DomainManagement.MapDispatch | pdpbiogen/core/domain_manager.py:5-20 | each registered name reaches its mapper; any other domain fails with "Unknown domain: <domain>" |
| DomainManagement.DomainManager.Map | pdpbiogen/core/domain_manager.py:17-20 | `DomainManager.map`: unknown-domain ValueError or the mapper's result; stated by MapDispatch |
| DomainManagement.MapperErrorsNotUnknownDomain | pdpbiogen/core/domain_manager.py:18-20 | no mapper raises ValueError, so that error comes only from dispatch |
| PipelineValidation.ValidateCombinedOutputIff | pdpbiogen/validation/validators.py:1-9 | validation passes iff both keys are present and the agent score is an int or float |
| PipelineValidation.ValidateCombinedOutput | pdpbiogen/validation/validators.py:1-9 | `validate_combined_output`; characterised by ValidateCombinedOutputIff |
| PipelineValidation.MissingKeyRejected | pdpbiogen/validation/validators.py:3-4 | a missing key fails with "missing keys" |
| PipelineValidation.BadScoreRejected | pdpbiogen/validation/validators.py:6-7 | a missing or non-numeric score fails with "Invalid agent score" |
| Integration.Integrator.constructor | pdpbiogen/core/integrator.py:10-12 | a missing domain manager is replaced by a fresh default one |
| Integration.Integrator.MapInputs | pdpbiogen/core/integrator.py:16-19 | the loop computes the outputs specification |
| Integration.Integrator.Run | pdpbiogen/core/integrator.py:14-29 | `run` returns or raises what the run specification says |
| Integration.MapAllStopsAtFailure | pdpbiogen/core/integrator.py:17-19 | the first mapping error aborts the run with that error |
| Integration.MapAllOutputs | pdpbiogen/core/integrator.py:16-19 | the outputs have the input keys in order, each holding its mapper's result |
| Integration.MapAll | pdpbiogen/core/integrator.py:16-19 | the mapping loop as a fold that stops at the first error; stated by MapAllOutputs and MapAllStopsAtFailure |
| Integration.RunResult | pdpbiogen/core/integrator.py:14-29 | the result or error of `Integrator.run`; stated by RunSucceeds and UnknownDomainAborts |
| Integration.RunSucceeds | pdpbiogen/core/integrator.py:22-29 | a successful run returns `{"combined": {"domains": outputs}, "agent": step result}` |
| Integration.UnknownDomainAborts | pdpbiogen/core/integrator.py:18 | an unknown domain aborts the run before the agent step, with "Unknown domain" when it is the first failure |
| Critic.MergedGet | srcpdpbiogenllm_verified_criticbiological_critic.py:21-45 | a key of the merged corrections reads the last correction dict holding it; keys stay distinct |
| Critic.Violations | srcpdpbiogenllm_verified_criticbiological_critic.py:15-45 | the violation messages in check order: energy, mass balance, thermodynamics, then the biological ones |
| Critic.Patches | srcpdpbiogenllm_verified_criticbiological_critic.py:19-45 | the corrections of the failing checks, in check order; each a dict by PatchesAreDicts |
| Critic.Merged | srcpdpbiogenllm_verified_criticbiological_critic.py:16-45 | the successive `corrections.update` calls; read back by MergedGet |
| Critic.PatchesAreDicts | srcpdpbiogenllm_verified_criticbiological_critic.py:21-45 | the failing checks' corrections are genuine dicts |
| Critic.ApplyCorrections | srcpdpbiogenllm_verified_criticbiological_critic.py:77-81 | corrected keys read the correction, other keys the original |
| Critic.BiologicalCritic.constructor | srcpdpbiogenllm_verified_criticbiological_critic.py:8-11 | stores the mode, checker and corrector |
| Critic.BiologicalCritic.VerifyBiologicalPlausibility | srcpdpbiogenllm_verified_criticbiological_critic.py:13-54 | violations in check order, plausible iff none, corrections merged in order, corrected proposal is the overlay |
| Critic.BiologicalCritic.Record | srcpdpbiogenllm_verified_criticbiological_critic.py:19-45 | a failing check appends its violations and merges its corrections; a passing one changes nothing |
| Critic.BiologicalCritic.DosageViolationsAppend | srcpdpbiogenllm_verified_criticbiological_critic.py:63-65 | dosage violations follow the dict order |
| Critic.BiologicalCritic.DosageViolations | srcpdpbiogenllm_verified_criticbiological_critic.py:62-65 | the growth-factor dosage messages in dict order; stated by DosageViolationsAppend and DosageViolationsEmptyIff |
| Critic.BiologicalCritic.DosageViolationsEmptyIff | srcpdpbiogenllm_verified_criticbiological_critic.py:63-65 | no dosage violation iff every dosage passes |
| Critic.BiologicalCritic.CheckDosages | srcpdpbiogenllm_verified_criticbiological_critic.py:62-65 | the loop collects the dosage violations |
| Critic.BiologicalCritic.VerifyHealingInstructions | srcpdpbiogenllm_verified_criticbiological_critic.py:56-75 | raises iff growth_factors is present and not a dict; otherwise violations are dosages then timing, valid iff none, instructions returned unchanged |
| Critic.DosageViolationNotTiming | srcpdpbiogenllm_verified_criticbiological_critic.py:62-69 | a dosage message starts "Excessive" and is never the timing message |
| Collaboration.KindFor | srcpdpbiogenllm_super_symmetrymulti_agent_collaboration.py:19-28 | the four named domains get their own agent kind; every other domain a generic agent for that domain |
| Collaboration.SetAgent | srcpdpbiogenllm_super_symmetrymulti_agent_collaboration.py:20-28 | assigning keeps an existing domain's place and appends a new one |
| Collaboration.AgentsFor | srcpdpbiogenllm_super_symmetrymulti_agent_collaboration.py:14-30 | the agent table has distinct domains |
| Collaboration.AgentsForTable | srcpdpbiogenllm_super_symmetrymulti_agent_collaboration.py:14-30 | one agent per distinct domain, each of its domain's kind |
| Collaboration.ProposalsShape | srcpdpbiogenllm_super_symmetrymulti_agent_collaboration.py:37-42 | one proposal per agent, in order, made from that domain's state or `{}` |
| Collaboration.Proposals | srcpdpbiogenllm_super_symmetrymulti_agent_collaboration.py:37-42 | one proposal per agent; stated by ProposalsShape |
| Collaboration.StateForLookup | srcpdpbiogenllm_super_symmetrymulti_agent_collaboration.py:40 | a domain missing from the state gets `{}` |
| Collaboration.Others | srcpdpbiogenllm_super_symmetrymulti_agent_collaboration.py:65-66 | the proposals merged are the non-neural ones |
| Collaboration.MergeOthers | srcpdpbiogenllm_super_symmetrymulti_agent_collaboration.py:65-69 | the merge loop over the non-neural proposals; stated by NeuralNotMergedAgain and StartKeysKept |
| Collaboration.Hierarchical | srcpdpbiogenllm_super_symmetrymulti_agent_collaboration.py:58-71 | `_hierarchical_resolution`: the neural plan copied, then the others merged; stated by OnlyNeural and StartKeysKept |
| Collaboration.NeuralNotMergedAgain | srcpdpbiogenllm_super_symmetrymulti_agent_collaboration.py:65-69 | merging skips the neural proposal |
| Collaboration.StartKeysKept | srcpdpbiogenllm_super_symmetrymulti_agent_collaboration.py:61-69 | the neural plan's keys stay first, in order |
| Collaboration.OnlyNeural | srcpdpbiogenllm_super_symmetrymulti_agent_collaboration.py:58-71 | with only a neural proposal the plan is that proposal, or `{}` with none |
| Collaboration.MultiAgentCollaboration.constructor | srcpdpbiogenllm_super_symmetrymulti_agent_collaboration.py:8-12 | stores domains and strategy and initialises the agents |
| Collaboration.MultiAgentCollaboration.InitializeDomainAgents | srcpdpbiogenllm_super_symmetrymulti_agent_collaboration.py:14-30 | the loop builds the agent table |
| Collaboration.MultiAgentCollaboration.HierarchicalResolution | srcpdpbiogenllm_super_symmetrymulti_agent_collaboration.py:58-71 | the loop computes the hierarchical plan |
| Collaboration.MultiAgentCollaboration.CoordinateIntegration | srcpdpbiogenllm_super_symmetrymulti_agent_collaboration.py:32-52 | proposals are collected, then resolved by strategy, an unknown one being emergent |
| Collaboration.Resolve | srcpdpbiogenllm_super_symmetrymulti_agent_collaboration.py:45-50 | the strategy dispatch: collaborative, hierarchical, or emergent for anything else; CoordinateIntegration returns it |
| HealingSim.Reaction.constructor | quantum/healing_sim.py:117-118 | a reaction holds its id, genes and bounds |
| HealingSim.ScoreAbsent | quantum/healing_sim.py:115-122 | a gene missing from the gene list scores 0.0 |
| HealingSim.GeneScores | quantum/healing_sim.py:115 | the gene→fold-change dict from `zip`; read by ScoreAbsent, ScoreLastPair and ScoreBounds |
| HealingSim.ScoreLastPair | quantum/healing_sim.py:115 | a listed gene scores the fold change of its last pair |
| HealingSim.ScoreBounds | quantum/healing_sim.py:115-122 | every score is a paired fold change or 0.0 |
| HealingSim.MeanBounds | quantum/healing_sim.py:123 | the mean of values in a range lies in that range |
| HealingSim.Mean | quantum/healing_sim.py:123 | `np.mean` of the scores; bounded by MeanBounds |
| HealingSim.Clamp | quantum/healing_sim.py:126 | the clamped value lies in the range, equals the input inside it and the nearer end outside it |
| HealingSim.FactorRange | quantum/healing_sim.py:122-126 | the factor is always within [0.2, 2.0] |
| HealingSim.Factor | quantum/healing_sim.py:122-126 | the clipped factor 1 + mean; bounded by FactorRange and BoundedScoresFactor |
| HealingSim.BoundedScoresFactor | quantum/healing_sim.py:122-124 | with fold changes in [-0.5, 0.5] the factor is one plus the mean score, within [0.5, 1.5] |
| HealingSim.Scale | quantum/healing_sim.py:129-132 | finite bounds are multiplied by the factor; None and infinite bounds are kept |
| HealingSim.ScalingKeepsFeasibility | quantum/healing_sim.py:129-132 | scaling keeps lower below upper and each bound's sign, so blocked directions stay blocked |
| HealingSim.Rescaled | quantum/healing_sim.py:129-132 | one bound after scaling by the reaction's factor; a rescaling that raises nothing leaves both bounds so (RescaleOutcomeClean) |
| HealingSim.Reaction.SetUpperBound | quantum/healing_sim.py:130 | COBRA's setter: the new upper bound is refused with a BoundsError exactly when it is below a finite lower bound, and a refused assignment changes nothing |
| HealingSim.Reaction.SetLowerBound | quantum/healing_sim.py:132 | COBRA's setter: the new lower bound is refused exactly when it is above a finite upper bound, and a refused assignment changes nothing |
| HealingSim.Clash | quantum/healing_sim.py:129-132 | a bound pair raises iff both bounds are finite and the lower exceeds the upper; the error names the reaction and the pair |
| HealingSim.RescaleOutcome | quantum/healing_sim.py:117-132 | one loop iteration: no genes changes nothing; otherwise the upper bound is assigned first and the lower second, and the first assignment that raises stops it; stated by RescaleOutcomeClean, OrderedRescaleFailsIff and StraddlingBoundsRescale |
| HealingSim.RescaleBy | quantum/healing_sim.py:129-132 | the two assignments with a given factor; stated through RescaleOutcome |
| HealingSim.RescaleOutcomeClean | quantum/healing_sim.py:117-132 | a rescaling that raises nothing leaves both bounds scaled as `Rescaled` says; one that raises needs genes and leaves the lower bound alone |
| HealingSim.OrderedRescaleFailsIff | quantum/healing_sim.py:129-132 | for ordered finite bounds the rescaling raises iff the scaled upper bound is below the old lower bound, and then both bounds are kept and the error carries the pair (lower, upper·factor) |
| HealingSim.StraddlingBoundsRescale | quantum/healing_sim.py:129-132 | bounds with a `None` or infinite end, or on either side of zero, rescale without raising |
| HealingSim.ShrinkingUpperBoundRaises | quantum/healing_sim.py:129-130 | bounds 5 and 6 with factor 0.5 raise on the upper-bound assignment with the pair (5, 3) and keep both bounds |
| HealingSim.ScaleBounds | quantum/healing_sim.py:129-132 | the reaction ends with the bounds and the error `RescaleBy` gives |
| HealingSim.RescaleReaction | quantum/healing_sim.py:117-132 | the reaction ends with the bounds and the error `RescaleOutcome` gives |
| HealingSim.RescaleResult.Bounds | quantum/healing_sim.py:129-132 | the outcome's bounds as a pair |
| HealingSim.BoundsAt | quantum/healing_sim.py:117 | one reaction's current bounds |
| HealingSim.BoundsOf | quantum/healing_sim.py:117 | the list of every reaction's bounds, in order |
| HealingSim.OutcomeAt | quantum/healing_sim.py:117-132 | what rescaling one reaction of the list gives |
| HealingSim.FirstClash | quantum/healing_sim.py:117-132 | the first reaction whose rescaling raises: every earlier one raises nothing, and it raises (or it is the list's length) |
| HealingSim.ApplyGeneDelta | quantum/healing_sim.py:107-133 | the loop stops at the first reaction that raises and lets its error escape; the reactions before it are rescaled, it keeps what its assignments left, later ones are untouched; when nothing raises every reaction's bounds are rescaled by its factor |
| HealingSim.Assign | quantum/healing_sim.py:156 | assigning a reaction id not yet in the dict appends it with its change |
| HealingSim.AssignEntries | quantum/healing_sim.py:156 | after an assignment every entry is the one assigned or was there before |
| HealingSim.DiffValues | quantum/healing_sim.py:150-156 | each reported change is after-flux minus before-flux, a missing flux counting as 0.0 |
| HealingSim.Diffs | quantum/healing_sim.py:150-156 | the flux-change dict in reaction order; stated by DiffValues and DiffsInOrder |
| HealingSim.DiffsInOrder | quantum/healing_sim.py:150-156 | with distinct ids there is one change per reaction, in reaction order |
| HealingSim.SortByChange | quantum/healing_sim.py:158 | the changes are sorted by non-increasing absolute value, as a permutation |
| HealingSim.TopSelection | quantum/healing_sim.py:158 | the report keeps min(20, n) changes, ordered, drawn from the diffs, none smaller than a change left out |
| HealingSim.Top | quantum/healing_sim.py:158 | the first 20 entries by decreasing |change|; stated by TopSelection |
| HealingSim.RunFbaAndReport | quantum/healing_sim.py:138-160 | objectives of baseline and current solution, and the top changes of the diffs loop |
| HealingSim.NoBaselineNoChange | quantum/healing_sim.py:141-156 | without a baseline both objectives are the current one and every change is 0 |
| HealingSim.DefaultGeneList | quantum/healing_sim.py:191-194 | the default list has 200 names, the i-th being `GENE` and i in five digits |
| HealingSim.DefaultGenes | quantum/healing_sim.py:194 | the default names are distinct, nine characters long, and their digits read back as the index |
| HealingSim.DefaultGeneEnds | quantum/healing_sim.py:194 | the list runs from GENE00000 to GENE00199 |
| BioPrompt.ValueOccurs | pdp_biogen/generator.py:43-76 | every interpolated value occurs in the filled template |
| BioPrompt.TemplateKeys | pdp_biogen/generator.py:43-76 | the template keys are exactly the CLI's style choices |
| BioPrompt.UnknownStyleIsAcademic | pdp_biogen/generator.py:78 | an unknown style gets the academic prompt |
| BioPrompt.TemplateStripped | pdp_biogen/generator.py:78 | stripping removes exactly the newline and indentation around the text |
| BioPrompt.PromptText | pdp_biogen/generator.py:40-78 | the prompt is the chosen template's text with the details filled in |
| BioPrompt.BuildPrompt | pdp_biogen/generator.py:40-78 | `_build_prompt`; stated by PromptText, PromptMentionsProfile and UnknownStyleIsAcademic |
| BioPrompt.PromptMentionsProfile | pdp_biogen/generator.py:43-76 | every prompt contains the name, role, institution and expertise |
| BioPrompt.GenerateSucceeds | pdp_biogen/generator.py:15-31 | `generate` succeeds iff the first choice has content, and returns it stripped |
| BioPrompt.Outcome | pdp_biogen/generator.py:31-38 | the stripped content of the reply, or the wrapped message of its error; stated by GenerateSucceeds and FailuresWrapped |
| BioPrompt.Generate | pdp_biogen/generator.py:12-38 | `generate`: prompt, one completion call, then the outcome; stated by GenerateSucceeds |
| BioPrompt.FailuresWrapped | pdp_biogen/generator.py:33-38 | a rate limit gets its fixed message, API errors "OpenAI API error: ", everything else "Unexpected error: " |
| PyValue.GetSet | srcpdpbiogenllm_super_symmetrymulti_agent_collaboration.py:20 | reading a key right after setting it gives the new value; other keys are untouched |
| PyValue.UpdateGet | srcpdpbiogenllm_verified_criticbiological_critic.py:79-80 | after `d.update(e)` a key of `e` reads `e`'s value, others `d`'s |
| PyValue.UpdateKeys | srcpdpbiogenllm_super_symmetrymulti_agent_collaboration.py:67-69 | `update` keeps the old keys in place and appends the new ones in order |
| PyValue.UpdateDistinct | srcpdpbiogenllm_verified_criticbiological_critic.py:80 | `update` keeps keys distinct |
| PyValue.FalsyIterableIsEmpty | pdpbiogen/modules/neural/neural_mapper.py:7 | an iterable is falsy iff it is empty |
| Text.StripIsTrimmedSlice | dpbiogen/quantum/utils.py:28 | `strip()` cuts out a run with only whitespace around it and none at its ends |
| Text.StripIdempotent | pdp_biogen/generator.py:31 | stripping twice is stripping once |
| Text.ReplaceAllSplit | pdpbiogen.py:289 | `replace` rewrites the first occurrence and continues after it |
| Text.ParseZeroPad | quantum/healing_sim.py:194 | the zero-padded decimal form reads back as the number |

## Left out

- I/O:
  - YAML reading, Graphviz rendering, the InterProScan subprocess, FASTA parsing, plotly figures and static export, CSV reading, `os.path`/`os.remove`, and the OpenAI network call.
  - Their outcomes are parameters: a read outcome, a render function, the file-system set, already split CSV rows, and the client's reply.
- Logging and `print` output are not modelled, except the state loader's warnings.
- Python's `float()` parsing is a parameter. Non-integral floats inside messages are shown as a placeholder, because float formatting is not modelled.
- Equality across numeric types (`1 == 1.0 == True`) is not modelled. Values compare structurally.
- argparse handling: parsed arguments are given as a record. The parser's choices and defaults are constants.
- The agent system, the critic's plausibility checker and constraint solver, the collaboration's agents and conflict resolver, and the COBRA solver are not shown in the repository. They are parameters or datatype fields of function type. Exceptions they might raise are not modelled.
- The collaborative and emergent resolutions are calls into the resolver and are modelled only as that dispatch.
- `render_diagram` is imported by pdpbiogen/cli.py but not defined in pdpbiogen/pdpbiogen.py. It is a parameter that receives the built graph's statements (`Drawing`), the base name and the formats.
- Graphviz's handling of attribute values that are not strings (a numeric or `null` label or colour from the YAML file) is not modelled: `NodeAttrs` and `EdgeAttrs` pass such values through unchanged, and what the renderer makes of them is part of the render parameter.
- An unhashable domain key would make Python's `in` on the mapper dict raise TypeError; the model answers the unknown-domain ValueError instead. Integrator's domains are dict keys and so always hashable.
- The deepseek workspace fragment uses `os` without importing it. The model assumes the import.
- Workspace.FileSystem.Remove: `os.remove` raises on a directory or on a path it may not delete, and the exception ends the cleanup loop with later paths left in place. The file system is a set of paths that always accepts removal, so this failure is not modelled.
- `KeyboardInterrupt` inside `generate` propagates unwrapped. The client reply kinds do not include it.
- `hasattr(rxn, 'genes')` is taken to hold for every reaction, as it does for COBRA reactions.
- The EEG loading, feature extraction, tanh mapping, file hashing and manifest writing of the healing simulation are numeric or I/O code and are not modelled.
- HealingSim.ApplyGeneDelta: assumes the reaction list holds distinct objects, as a COBRA model's reaction list does. A repeated object would be scaled twice.
- HealingSim.ScaleBounds: COBRA's bound setters are modelled as raising only when both bounds are finite and the lower one exceeds the upper. A lower bound of `+inf`, or a NaN, is treated as never clashing.
- HealingSim.TopSelection: Python's sort is stable, so ties keep reaction order. The contract states order, selection and dominance, but not how ties are broken.
- HealingSim.NoBaselineNoChange: assumes `optimize()` returns the same solution when called twice on an unchanged model.
- DomainPlot.SortByStart: pandas `sort_values` defaults to quicksort, which is not stable. The model sorts stably, and its contract states only sortedness and permutation.
- StateLoader.LoadInitialStates: the result is a map, so the dict's insertion order is not represented.
