# renku-aqs graph rewriting, modelled in Dafny

renku-aqs draws the provenance graph of a Renku project together with the
astroquery annotations that the oda plugin records. Its core,
`renkuaqs/graph_utils.py`, has three parts:

- SPARQL text builders;
- a pipeline of in-place rewrites of the rdflib store that the CONSTRUCT query returns;
- a restyler for the HTML-like labels that rdf2dot gives the diagram's nodes and edges.

This project models that core and proves what each step does to the store, to
the dictionaries it fills and to the label table.

The project has nine modules:

- `Wrappers`: `Option`, and `Outcome`, which is either `Done(value)` or `Failed(reason)`. A failure stands for a Python exception: `IndexError`, `KeyError`, `ValueError`, `AttributeError`, `TypeError`, or a parse failure of a foreign library.
- `Texts`: the Python string operations the core uses:
  - `split` and `join`;
  - `replace` of one character, and of a pattern by nothing;
  - `strip` and the slice `[1:-1]`;
  - `os.path.splitext(p)[1][1:]`;
  - `find` and `rfind`.
- `Rdf`: terms (`IRI` or `Lit`), triples, the vocabulary, and `g[s:p]` / `g[:p]` / `g[s]` as functions of a triple set.
  - A `Graph` class holds `triples: set<Triple>`, with rdflib's `add` and wildcard `remove` as methods.
  - The foreign helpers form a `Helpers` value of functions the model does not look inside: `label`, the qname local name, `.value` of a position, astropy's `SkyCoord` and `Angle`, and rdflib's enumeration order (`list(...)[0]`).
- `Cleaner`: `clean_graph`.
- `Annotator`: `analyze_types`, `analyze_outputs`, `analyze_inputs` and `extract_activity_start_time`.
- `Arguments`: `analyze_arguments`. It collects (value, position) entries, stable-sorts them by position, pairs them with `zip(it, it)` and mints `CommandParameter` nodes.
- `Oda`: `process_oda_info` and its three helpers `process_query_object_info`, `process_query_region_info` and `process_get_images_info`.
- `Renderer`: `customize_edge`, and `customize_node` as the methods of a `Table` class.
  - The table holds the snapshot rows `tr_list`, whether each is still attached, and the rows appended at the bottom.
  - The style decision is a pure function from type to shape, colour and border.
- `QueryBuilder`: `build_query_where` and `build_query_construct`. The SPARQL literals are named constants; the round-trip lemmas read the arguments back from the assembled text.

The imperative passes are methods over a `Graph` with the source's loops.
Each loop iterates a snapshot of the rdflib generator, in an order left to the
verifier (`:|`). The caller-supplied dictionaries are `map` parameters that
come back updated. Each method's `ensures` ties the new store and
dictionaries to specification functions of the old store, such as
`Cleaned`, `Retyped`, `ConsumedOf`, `MintedOver`, `TimeAdded`/`TimeRemoved`,
`StripRuns`, `OdaAdds`, `NodeOutcome` and `Edits`.

Lemmas then state what the source promises about those functions:

- what is kept and what is idempotent;
- the one type an output gets;
- the floor(N/2) parameters of N entries;
- where a start time goes;
- when `isUsedDuring` is added;
- which rows move.

Where an
exception can be raised, the model returns it as a `Failed` outcome, and the
contract says when it happens. Raises inside rdflib's own helpers are not
covered: `Rdf.Helpers` models those helpers as total functions, and
"## Left out" lists the raises this hides.

Some behaviour of the code is modelled as written:

- The WHERE template after the action pattern is a plain string, not an f-string, so its doubled braces stay doubled.
- A run that starts two `hasTarget`→`qualifiedAssociation`→`hadPlan` chains is visited twice, even when both chains end at the same plan (two associations with one `hadPlan`, or two targets leading to one plan). The first visit removes its `isUsing` triples, so the second visit's `used_module_list[0]` raises `IndexError`. `ProcessOdaInfo` therefore completes only when every run starts at most one such chain (`Oda.OdaOk`).
- `#6262bg` is kept as the source writes it. It is distinct from `#6262be` and `#6262bf`, even though it is not a hexadecimal colour.
- `customize_node`'s default `type_label_values_dict=None` raises `TypeError` at the membership test of line 40.

## Model

| member | source | states |
|---|---|---|
| Rdf.Graph.Add | renkuaqs/graph_utils.py:426-428 | `g.add` adds exactly the one triple |
| Rdf.Graph.Remove | renkuaqs/graph_utils.py:390 | a wildcard `g.remove` drops exactly the triples the pattern matches |
| Texts.Split | renkuaqs/graph_utils.py:99 | `split` gives one piece more than there are separators, and no piece holds the separator |
| Texts.JoinSplit | renkuaqs/graph_utils.py:108-111 | joining the pieces of a split with the same separator gives the text back |
| Texts.SplitFirst | renkuaqs/graph_utils.py:22 | the first piece of a split is the text before the first separator; the rest split what follows it |
| Texts.JoinSplitReplaces | renkuaqs/graph_utils.py:694-695 | `",".join(s.split(" "))` turns every space into a comma |
| Texts.ReplaceChar | renkuaqs/graph_utils.py:471-472 | `replace(" ", "_")` changes each space and nothing else, keeping the length |
| Texts.StripSpec | renkuaqs/graph_utils.py:480 | `strip()` cuts white space, and only white space, off both ends; the result neither starts nor ends with white space |
| Texts.Trim1 | renkuaqs/graph_utils.py:127 | `[1:-1]` takes one character off each end, and gives the empty text when the text is shorter than two |
| Texts.RemoveAll | renkuaqs/graph_utils.py:114 | `replace(pat, '')` never lengthens the text and leaves it alone when the pattern does not occur |
| Texts.RemoveAllSuffix | renkuaqs/graph_utils.py:114 | a text that ends in the pattern and holds no earlier occurrence of it loses exactly that suffix, as `'"…"^^xsd:dateTime'` does |
| Texts.Extension | renkuaqs/graph_utils.py:420 | `splitext(p)[1][1:]` is the text after the last dot of the base name when something other than dots precedes that dot in the base name, and otherwise empty; it never holds a dot or a slash |
| Cleaner.CleanGraph | renkuaqs/graph_utils.py:388-398 | the store after `clean_graph` keeps a triple exactly when it was there and its predicate is none of the eight removed ones |
| Cleaner.CleanedKeeps | renkuaqs/graph_utils.py:388-398 | a triple survives cleaning iff its predicate is not one of the eight |
| Cleaner.CleanedIdempotent | renkuaqs/graph_utils.py:388-398 | a second `clean_graph` changes nothing |
| Annotator.AnalyzeTypes | renkuaqs/graph_utils.py:401-407 | the dictionary gains exactly the labels of typed subjects and keeps the other entries; each such label maps to the local type name of some subject with that label |
| Annotator.RetypeOutput | renkuaqs/graph_utils.py:420-441 | the three extension tests replace all types of the output by Image, FITS file or Notebook for the seven extensions and change nothing otherwise |
| Annotator.RetypedOthers | renkuaqs/graph_utils.py:424-441 | retyping changes no triple other than `rdf:type` triples |
| Annotator.RetypedTypes | renkuaqs/graph_utils.py:425-441 | a retyped node has exactly its new type; any other node keeps its types |
| Annotator.OutputTypes | renkuaqs/graph_utils.py:417-441 | after the pass, an output with one default value whose extension is an image, `fits` or `ipynb` has exactly that one type; every other node keeps its types |
| Annotator.VisitOutput | renkuaqs/graph_utils.py:417-441 | one output: its single default value is recorded, if there is exactly one, and it is retyped by that value's extension |
| Annotator.VisitOutputEdge | renkuaqs/graph_utils.py:413-443 | one loop pass keeps the account of the retyped outputs and the recorded dictionary |
| Annotator.AnalyzeOutputs | renkuaqs/graph_utils.py:410-443 | the store is the original with the outputs retyped; the dictionary gains the output labels, only extends lists, and records exactly the single default values, each under its action's label |
| Annotator.InputValues | renkuaqs/graph_utils.py:511-514 | the loop over `g[o]` yields one text per default value, and exactly those texts, each the value's `n3()` with the quotes stripped: an IRI in angle brackets, a literal as its lexical form |
| Annotator.VisitInputEdge | renkuaqs/graph_utils.py:507-516 | one loop pass records the `n3()` texts of the input's default values (IRIs in angle brackets) and adds its `isInputOf` back-edge |
| Annotator.AnalyzeInputs | renkuaqs/graph_utils.py:504-516 | the store gains exactly the `isInputOf` back-edge of every `hasInputs` edge; the dictionary gains the labels of the actions, and each new value is the `n3()` text of a default value of an input of that label (an IRI in angle brackets), with every such text recorded |
| Annotator.MoveTime | renkuaqs/graph_utils.py:530-533 | one `add` then one `remove` move the start time onto the plan |
| Annotator.RelocateToPlans | renkuaqs/graph_utils.py:528-533 | the innermost loop adds the time to every plan of the association and removes it from the activity when there is a plan |
| Annotator.RelocateOne | renkuaqs/graph_utils.py:525-533 | both inner loops for one activity add the time to all its plans and remove it from the activity if it has any |
| Annotator.RelocateEdge | renkuaqs/graph_utils.py:523-533 | one outer pass extends the added and removed triples by that activity's |
| Annotator.ExtractActivityStartTime | renkuaqs/graph_utils.py:519-533 | the store ends between the original minus the removed plus the added start times, exact outside triples both added and removed; no other predicate changes |
| Annotator.BetweenExact | renkuaqs/graph_utils.py:519-533 | outside the triples both added and removed, the result is exactly the original minus removed plus added |
| Annotator.PlannedTimeMoves | renkuaqs/graph_utils.py:525-533 | every plan of a timed activity gets its start time, and the activity loses it, unless the same triple is one the pass also removes or adds |
| Annotator.UnplannedTimeKept | renkuaqs/graph_utils.py:525-533 | an activity without a plan keeps its start time |
| Annotator.TimeOrigin | renkuaqs/graph_utils.py:522-533 | a start time is in the result only if it was there before or was moved off an activity onto one of its plans |
| Arguments.TakeValue | renkuaqs/graph_utils.py:456-460 | a default value becomes an entry (its `n3()` text, an IRI in angle brackets, with the position) and its triple is removed exactly when the argument has one position |
| Arguments.TakeValues | renkuaqs/graph_utils.py:455-460 | the inner loop removes the argument's consumed default values; it gives one entry per consumed value, each value taken once, and none for an argument node already visited |
| Arguments.CollectArguments | renkuaqs/graph_utils.py:448-460 | the store loses exactly the default values of arguments that have one position; the first action per label is recorded; each label's list gains only entries of its arguments, and each consumed value gives exactly one entry, under the label of one action of its node |
| Arguments.CollectedStep | renkuaqs/graph_utils.py:449-460 | visiting one `hasArguments` edge keeps the account: first actions, list keys, sound and complete entries, and each entry traced to one consumed value |
| Arguments.ProvenanceCount | renkuaqs/graph_utils.py:448-460 | under every label, the loop appends as many entries as there are consumed default values of the argument nodes collected under that label |
| Arguments.DistinctCard | renkuaqs/graph_utils.py:448-460 | a sequence without repetitions has as many elements as its set, which turns the traced entries into a count |
| Arguments.InsertByPosition | renkuaqs/graph_utils.py:466 | inserting into a list sorted by position keeps it sorted and adds exactly that entry |
| Arguments.SortByPosition | renkuaqs/graph_utils.py:466 | `sort(key=position)` yields a list sorted by position that is a permutation of its input |
| Arguments.Pairs | renkuaqs/graph_utils.py:467-468 | `zip(it, it)` yields floor(N/2) pairs, the k-th being entries 2k and 2k+1 |
| Arguments.PairsDropOddLast | renkuaqs/graph_utils.py:467-468 | an odd last entry yields no pair |
| Arguments.PairMinted | renkuaqs/graph_utils.py:468-490 | the k-th pair's three triples are added: `isArgumentOf` the action, the stripped joined value, and type `CommandParameter` |
| Arguments.MintedFromPair | renkuaqs/graph_utils.py:468-490 | every minted triple belongs to the parameter of some pair 2k, 2k+1 |
| Arguments.MintedForMembers | renkuaqs/graph_utils.py:468-490 | the triples minted for a list of pairs are the three of each pair and nothing else |
| Arguments.ParamTriplesNode | renkuaqs/graph_utils.py:471-490 | the three triples of a pair share the one minted subject |
| Arguments.MintedForNodes | renkuaqs/graph_utils.py:470-472 | at most one parameter node per pair |
| Arguments.AddParam | renkuaqs/graph_utils.py:471-490 | the three `add` calls add exactly the pair's triples |
| Arguments.MintPairs | renkuaqs/graph_utils.py:468-490 | the loop over pairs adds exactly the triples minted for them |
| Arguments.MintParameters | renkuaqs/graph_utils.py:463-490 | raises `KeyError` iff some label with two or more entries has no action; otherwise it adds exactly the parameters minted for every label |
| Arguments.AnalyzeArguments | renkuaqs/graph_utils.py:446-490 | the collected dictionaries as above, with each consumed value giving exactly one entry under one label; the pass raises `KeyError` iff a label with a pair lacks an action; otherwise the store is the original without the consumed values plus the minted parameters |
| Oda.SkyCoordinatesValue | renkuaqs/graph_utils.py:608-611 | a region's sky coordinates raise `IndexError` iff the title has no space; otherwise they are `RA=… deg  Dec=… deg` from the first two tokens |
| Oda.CoordinatesValue | renkuaqs/graph_utils.py:649-653 | coordinates get a value only when the title is one token, and the value is the title |
| Oda.PositionValue | renkuaqs/graph_utils.py:663-669 | a two-token position is converted as `dec ra unit=deg`; any other title has its spaces turned into commas |
| Oda.PixelsValue | renkuaqs/graph_utils.py:694-695 | pixels are the title's tokens joined by commas, that is every space turned into a comma |
| Oda.SubAddsShape | renkuaqs/graph_utils.py:600-709 | a sub-node block adds at most one triple, and only when the owner has exactly one such sub-node with exactly one literal title: its `defaultValue` computed from that title |
| Oda.AddSubNodeValue | renkuaqs/graph_utils.py:600-613 | one sub-node block raises as the title's conversion does, or adds exactly the block's triples |
| Oda.ProcessQueryObjectInfo | renkuaqs/graph_utils.py:573-584 | adds exactly the object links computed from the store the visit started from |
| Oda.ProcessQueryRegionInfo | renkuaqs/graph_utils.py:587-626 | raises exactly when the region's blocks raise; otherwise adds exactly the region links and sub-node values |
| Oda.ProcessGetImagesInfo | renkuaqs/graph_utils.py:629-709 | raises exactly when an image block raises; otherwise adds exactly the image links and sub-node values |
| Oda.ImageSubNodes | renkuaqs/graph_utils.py:642-709 | the five image sub-node blocks in order raise or add exactly their triples |
| Oda.ImageTailNodes | renkuaqs/graph_utils.py:673-709 | the radius, pixels and band blocks raise or add exactly their triples |
| Oda.NextSubNode | renkuaqs/graph_utils.py:600-709 | a sub-node block run after earlier additions reads the store as it was before them |
| Oda.CleanupRun | renkuaqs/graph_utils.py:559-570 | the clean-up drops exactly the run's `isUsing` and request triples |
| Oda.ProcessRun | renkuaqs/graph_utils.py:548-570 | one visit raises as its helpers do (`IndexError` without a module); otherwise the store is stripped of the run's clean-up triples plus the visit's additions |
| Oda.VisitPath | renkuaqs/graph_utils.py:548-570 | a visit keeps the loops' account of visited runs, or raises only when the pass as a whole cannot complete |
| Oda.OdaPlans | renkuaqs/graph_utils.py:543-570 | the innermost loop visits every plan of one association |
| Oda.OdaAssociations | renkuaqs/graph_utils.py:541-570 | the middle loop visits every chain through one activity |
| Oda.StrippedRunHasNoModule | renkuaqs/graph_utils.py:548-550 | a run already visited has no `isUsing` left, so a second visit raises `IndexError` |
| Oda.ProcessOdaInfo | renkuaqs/graph_utils.py:536-570 | completes iff every run starts at most one `hasTarget`→`qualifiedAssociation`→`hadPlan` chain and each visit succeeds; then the store is the original without the visited runs' `isUsing` and request triples, plus what the visits add |
| Oda.OdaClearsRuns | renkuaqs/graph_utils.py:559-570 | afterwards no visited run keeps an `isUsing` or request triple, and a triple under any predicate the pass neither adds nor cleans is there iff it was before |
| Oda.OdaAddsPredicates | renkuaqs/graph_utils.py:573-709 | the pass adds only `isUsedDuring`, `requestsAstro…` and `defaultValue` triples |
| Oda.VisitAddsLinks | renkuaqs/graph_utils.py:573-640 | apart from sub-node values, a visit adds exactly the module's links for the object, region and image it requests |
| Oda.UsedDuringIffRequests | renkuaqs/graph_utils.py:576-594 | `(m, isUsedDuring, action)` is added iff the run requests an object, region or image, and it is the only `isUsedDuring` triple |
| Oda.RequestsTheFirst | renkuaqs/graph_utils.py:582-640 | for each request kind, the module is linked to the first requested node exactly when there is one; with a member-picking enumeration that node is a request |
| Renderer.CustomizeEdge | renkuaqs/graph_utils.py:12-23 | `customize_edge`: an edge without a label is untouched, and a restyled edge keeps its tag and children; its raises and new text are stated by `CustomizeEdgeText` |
| Renderer.CustomizeEdgeText | renkuaqs/graph_utils.py:12-23 | an edge whose text lacks a colon raises `IndexError`, one without text `AttributeError`; otherwise its text becomes the piece between the first and the second colon and nothing else changes |
| Renderer.StyleOf | renkuaqs/graph_utils.py:49-88 | the style chain: every type gets a box, diamond or ellipse, and a border of 0 or 1; the lemmas below say which |
| Renderer.StyleBorder | renkuaqs/graph_utils.py:50-63 | the border is 1 for images and FITS files and 0 otherwise |
| Renderer.StyleShape | renkuaqs/graph_utils.py:53-82 | the shape is diamond iff Action, ellipse iff the astroquery module or an astrophysical node, and box otherwise |
| Renderer.StyleColors | renkuaqs/graph_utils.py:56-88 | exactly the listed types get a colour; object, region and image get three different ones; the object shares its colour with parameters and inputs share theirs with notebooks |
| Renderer.FirstBold | renkuaqs/graph_utils.py:39-40 | `findall('B')[0]` is the first `<B>` child, or -1 when there is none |
| Renderer.WithTitleTwice | renkuaqs/graph_utils.py:44-48 | the title is one slot: writing it twice is writing it once, and it reads back |
| Renderer.Retitled | renkuaqs/graph_utils.py:44-48 | the new title is the type (or, for a parameter, the label), whole or with the `CommandOutput` prefix cut off |
| Renderer.RetitledSpec | renkuaqs/graph_utils.py:44-48 | the title becomes the type and a parameter keeps its label; a `CommandOutputX` type, or a parameter label starting with `CommandOutput`, loses that 13-character prefix (`CommandOutputImage` becomes `Image`) |
| Renderer.EditRow | renkuaqs/graph_utils.py:96-143 | the row loop's body for one snapshot row: rows without two cells are left alone, and an edited row has two cells and a left text |
| Renderer.RowStepNone | renkuaqs/graph_utils.py:97-98 | a loop pass edits exactly the two-cell rows |
| Renderer.EditsShape | renkuaqs/graph_utils.py:96-98 | the loop makes one edit per snapshot row, none for rows without two cells, and a moving row was attached |
| Renderer.EditRowCell | renkuaqs/graph_utils.py:98-143 | a two-cell row (a parameter's `defaultValue` row only once the title is no longer a known label) loses its left cell; the value is centred when it has `align`, loses its end characters, and is appended, after the cell's existing children, in `<B>` for an action's command or in `<B><I>` for an input |
| Renderer.EditRowDefault | renkuaqs/graph_utils.py:106-111 | while the title is still a known label, a parameter's `defaultValue` row puts the first token in the title and keeps the other tokens, space-joined, as the value; the cell keeps its attributes and children |
| Renderer.EditRowTime | renkuaqs/graph_utils.py:112-124 | a `startedAtTime` row moves as one centred colspan-2 cell with the formatted time |
| Renderer.EditRowStays | renkuaqs/graph_utils.py:112-124 | only `startedAtTime` rows move |
| Renderer.MovedHasText | renkuaqs/graph_utils.py:112-127 | a moving row's value has text, so dropping its quotes cannot fail |
| Renderer.Table.RemoveRow | renkuaqs/graph_utils.py:92-123 | `table_html.remove` at lines 92-94 and 123: removing an attached row detaches it; removing a detached one (only possible at line 123) raises `ValueError` and changes nothing |
| Renderer.Table.SetStyle | renkuaqs/graph_utils.py:49-88 | the node's style is the type's, the border is set from it and the cell border is 0 |
| Renderer.Table.RenameTitle | renkuaqs/graph_utils.py:44-48 | only the title text changes, to the retitled type name |
| Renderer.Table.RetitleNode | renkuaqs/graph_utils.py:31-48 | raises as the title row's checks do; an unknown title only loses `bgcolor`; a known title is retitled for its type |
| Renderer.Table.PrepareNode | renkuaqs/graph_utils.py:31-95 | before the loop: a known node gets its type's style and the retitled title, and rows 1 (and 0 for inputs and actions) are detached; fewer than two rows raise `IndexError` |
| Renderer.Table.EditSnapshotRow | renkuaqs/graph_utils.py:97-143 | one pass over a snapshot row gives the row's edit, and the table rewrites, detaches and appends exactly as that edit says |
| Renderer.Table.VisitRow | renkuaqs/graph_utils.py:96-143 | one loop pass extends the account of edited, detached and appended rows, or raises the loop's failure |
| Renderer.Table.EditRows | renkuaqs/graph_utils.py:96-143 | the row loop raises iff some pass does (a moving row that is already detached raises `ValueError`); otherwise every snapshot row holds its final content, and moved rows are detached and appended in snapshot order |
| Renderer.Table.CustomizeNode | renkuaqs/graph_utils.py:26-145 | raises or returns exactly what the node's rows determine; an unknown title only loses the title cell's `bgcolor` and the label shows every row; a known one gets its type's style, its rows edited, and the label shows the kept rows in order followed by the moved rows |
| Renderer.ShownAll | renkuaqs/graph_utils.py:31-32 | a freshly parsed table, with every row in it, shows exactly its rows |
| Renderer.ShownMembers | renkuaqs/graph_utils.py:92-145 | the serialised table shows the rows still in it and no removed row, never more rows than the snapshot |
| QueryBuilder.QueryWhere | renkuaqs/graph_utils.py:148-294 | `build_query_where`: the WHERE template with the notebook selector, or without one; `WhereRoundTrip` states what it gives back |
| QueryBuilder.QueryConstruct | renkuaqs/graph_utils.py:297-385 | `build_query_construct`: the CONSTRUCT template with the action part and, unless `no_oda_info`, the oda part; `ConstructRoundTrip` and `OdaBlockIff` state what it gives back |
| QueryBuilder.SelectorQuoted | renkuaqs/graph_utils.py:159-306 | the notebook selector sits between single quotes in both templates |
| QueryBuilder.WhereHeadsDiffer | renkuaqs/graph_utils.py:150-193 | the WHERE template without a selector is not an instance of the one with a selector |
| QueryBuilder.ActionHeadsDiffer | renkuaqs/graph_utils.py:298-321 | the CONSTRUCT action template without a selector is not an instance of the one with a selector |
| QueryBuilder.WhereRoundTrip | renkuaqs/graph_utils.py:148-294 | the assembled WHERE clause gives back the notebook selector (or its absence) it was built with |
| QueryBuilder.ActionRoundTrip | renkuaqs/graph_utils.py:298-329 | the action part gives back its notebook selector |
| QueryBuilder.OdaEndsApart | renkuaqs/graph_utils.py:331-383 | without the oda template, the CONSTRUCT body does not end with it |
| QueryBuilder.ConstructRoundTrip | renkuaqs/graph_utils.py:297-385 | the CONSTRUCT clause gives back both arguments, the selector and `no_oda_info` |
| QueryBuilder.OdaBlockIff | renkuaqs/graph_utils.py:331-383 | the oda template closes the CONSTRUCT clause iff `no_oda_info` is false |

## Left out

- `renkuaqs/plugin.py` is not part of this model. It holds the command line, the renku hooks, the file system, running SPARQL and writing the PNG.
- rdflib is modelled as a triple set. `label`, `compute_qname`, `.value` of a position and the enumeration order of a generator are fields of `Rdf.Helpers` that the model does not look inside.
- `label` is taken as fixed during the passes, because none of them touches a label property.
- `n3().strip('"')` is modelled by `Rdf.N3Text`: an IRI keeps its angle brackets, and a literal is its lexical form. Language tags, datatypes and quotes inside the text are not modelled, because `Node` carries only the lexical form.
- VisitInputEdge: a literal default value with a language tag, a datatype or quotes inside it is recorded as its lexical form. The source records its full `n3()` text, with the quotes at both ends stripped.
- AnalyzeInputs: the same literal gap as VisitInputEdge.
- Mutating a store while iterating an rdflib generator is modelled as iterating a snapshot taken when the loop starts. The visiting order is arbitrary.
- Only the set of values each dictionary list gains is stated, not their order in the list: the order follows rdflib's enumeration.
- astropy's `SkyCoord` and `Angle` are floating-point numerics, and dateutil's parse and `strftime` are date handling. They are functions that return a text or a parse failure: `Helpers.skyCoord`, `Helpers.arcmin` and the `formatTime` parameter of `Renderer.Ctx`.
- The lxml parse and serialisation (lines 14, 23, 31, 145) and the `[1:-1]` / `'< … >'` wrapping of the label text are not modelled. The model starts from the parsed element or table.
- A node or edge without a label attribute is left untouched by the source. For edges this is `CustomizeEdge(None)`; `CustomizeNode` starts from a node that has a label.
- The pydot node attributes are returned as a `Style` (shape, colour, border). `filled`, which every known node gets, is not carried.
- The `print` at line 408 and the commented-out code are not modelled, because they have no effect on the result.
- What the SPARQL queries select is not modelled, only their text. The notebook name is inserted without escaping, as in the source.
- ProcessQueryRegionInfo: the store after a raise is not stated, because the exception ends the whole pipeline.
- ProcessGetImagesInfo: the store after a raise is not stated, for the same reason.
- ProcessOdaInfo: the store after a raise is not stated, for the same reason.
- AnalyzeArguments: the store after a `KeyError` is not stated. The dictionaries are.
- CustomizeNode: the table after a raise is not stated, because the node's label is then never serialised back.
- SortByPosition: stability is not stated, only sortedness and permutation, because the entries come in rdflib's enumeration order anyway.
- MintedForNodes: states at most one node per pair, not exactly one. Two pairs with the same values, in one action or two, mint the same IRI, because the prefix is a fixed plan IRI.
- TakeValue: a position is the integer `Helpers.intValue` gives. `.value` of an IRI position raises `AttributeError` at line 459; that raise is not modelled, and a plain-literal position, which Python keeps as a string, is not told apart from an integer one.
- TakeValue: a literal default value has the same literal gap as VisitInputEdge; the minted parameter IRI and its `defaultValue` are built from that text.
- TakeValues: the same position gap as TakeValue.
- CollectArguments: the same position gap as TakeValue, so the model never raises while collecting.
- CollectArguments: when one argument node hangs under actions of two labels, its values go under the label of whichever edge the store yields first. That order is rdflib's, so the model names the label only as one of the node's actions' labels.
- AnalyzeArguments: the sort of line 466 compares integers. Python compares string positions as text, and raises `TypeError` when one label's list mixes integer and string positions; neither is modelled. So `KeyError` for a label without an action is the only raise stated.
- AnalyzeTypes: `compute_qname` at line 405 raises on a literal type or on an IRI it cannot split. `Helpers.localName` is total, so that raise is not modelled.
- AnalyzeTypes: when several typed subjects share a label, the model states only that the entry is the type of one of them, because which one wins depends on the enumeration order.
