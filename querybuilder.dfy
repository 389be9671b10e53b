/**
 * `build_query_where` and `build_query_construct`: the SPARQL text the `aqs`
 * commands send to the store, assembled from fixed templates around the
 * optional notebook selector and the optional oda template. Each template
 * is written line by line; a few leading lines are grouped so that the
 * proofs can reach them without unfolding the whole text.
 */
module QueryBuilder {
  import opened Wrappers
  import opened Texts

  /** The first lines of `WhereNotebookHead`. */
  const WhereNotebookLead: string :=
    "WHERE {\n"
    + "            {\n"
    + "            ?action a <http://schema.org/Action> ; \n"

  /** Lines 151-159: the action pattern of a selected notebook, up to the quote that opens the selector. */
  const WhereNotebookHead: string :=
    WhereNotebookLead
    + ("                <https://swissdatasciencecenter.github.io/renku-ontology#hasInputs> ?actionParamInput ;\n"
    + "                <https://swissdatasciencecenter.github.io/renku-ontology#command> ?actionCommand ;\n"
    + "                ?has ?actionParam .\n"
    + "\n"
    + "            ?actionParamInput a ?actionParamInputType ;\n"
    + "                <http://schema.org/defaultValue> '")

  /** Lines 159-173: from the quote that closes the selector. */
  const WhereNotebookRest: string :=
    "' .\n"
    + ("\n"
    + "            FILTER ( ?actionParamInputType = <https://swissdatasciencecenter.github.io/renku-ontology#CommandInput>) .\n"
    + "\n"
    + "            FILTER (?has IN (<https://swissdatasciencecenter.github.io/renku-ontology#hasArguments>, \n"
    + "                <https://swissdatasciencecenter.github.io/renku-ontology#hasOutputs>\n"
    + "                ))\n"
    + "\n"
    + "            ?actionParam a ?actionParamType ;\n"
    + "                <http://schema.org/defaultValue> ?actionParamValue .\n"
    + "\n"
    + "            FILTER ( ?actionParamType IN (<https://swissdatasciencecenter.github.io/renku-ontology#CommandOutput>,\n"
    + "                                        <https://swissdatasciencecenter.github.io/renku-ontology#CommandParameter>)\n"
    + "                                        ) .\n"
    + "        ")

  /** The first lines of `WhereAll`. */
  const WhereAllLead: string :=
    "WHERE {\n"
    + "            {\n"
    + "                ?action a <http://schema.org/Action> ;\n"

  /** Lines 175-193: the action pattern when no notebook is selected. */
  const WhereAll: string :=
    WhereAllLead
    + ("                    <https://swissdatasciencecenter.github.io/renku-ontology#command> ?actionCommand ;\n"
    + "                    ?has ?actionParam .\n"
    + "\n"
    + "                FILTER (?has IN (<https://swissdatasciencecenter.github.io/renku-ontology#hasArguments>,\n"
    + "                    <https://swissdatasciencecenter.github.io/renku-ontology#hasOutputs>,\n"
    + "                    <https://swissdatasciencecenter.github.io/renku-ontology#hasInputs>\n"
    + "                    ))\n"
    + "\n"
    + "                ?actionParam a ?actionParamType ;\n"
    + "                    <http://schema.org/defaultValue> ?actionParamValue .\n"
    + "\n"
    + "                FILTER ( ?actionParamType IN (<https://swissdatasciencecenter.github.io/renku-ontology#CommandOutput>,\n"
    + "                                        <https://swissdatasciencecenter.github.io/renku-ontology#CommandParameter>,\n"
    + "                                        <https://swissdatasciencecenter.github.io/renku-ontology#CommandInput>)\n"
    + "                                        ) .\n"
    + "        ")

  /** Lines 195-293: parameter positions, then the activity and the three kinds of astroquery run. */
  const WhereTail: string :=
    "\n"
    + "                OPTIONAL { ?actionParam <https://swissdatasciencecenter.github.io/renku-ontology#position> ?actionPosition } .\n"
    + "            }\n"
    + "\n"
    + "            {\n"
    + "                ?activity a ?activityType ;\n"
    + "                    <http://www.w3.org/ns/prov#startedAtTime> ?activityTime ;\n"
    + "                    <https://swissdatasciencecenter.github.io/renku-ontology#parameter> ?parameter_value ;\n"
    + "                    <http://www.w3.org/ns/prov#qualifiedAssociation> ?activity_qualified_association .\n"
    + "\n"
    + "                ?activity_qualified_association <http://www.w3.org/ns/prov#hadPlan> ?action .\n"
    + "\n"
    + "                {\n"
    + "                    ?run <http://odahub.io/ontology#isUsing> ?aq_module ;\n"
    + "                         <http://odahub.io/ontology#isRequestingAstroObject> ?a_object ;\n"
    + "                         a ?run_rdf_type ;\n"
    + "                         ^oa:hasBody/oa:hasTarget ?runId ;\n"
    + "                         ^oa:hasBody/oa:hasTarget ?activity .\n"
    + "\n"
    + "                    ?aq_module <http://purl.org/dc/terms/title> ?aq_module_name ;\n"
    + "                        a ?aq_mod_rdf_type .\n"
    + "\n"
    + "                    ?a_object <http://purl.org/dc/terms/title> ?a_object_name ;\n"
    + "                        a ?a_obj_rdf_type .\n"
    + "\n"
    + "                    OPTIONAL {{ ?run <http://purl.org/dc/terms/title> ?run_title . }}\n"
    + "\n"
    + "                    ?run ?p ?o .\n"
    + "\n"
    + "                    FILTER (!CONTAINS(str(?a_object), \" \")) .\n"
    + "                }\n"
    + "                UNION\n"
    + "                {\n"
    + "                    ?run <http://odahub.io/ontology#isUsing> ?aq_module ;\n"
    + "                         <http://odahub.io/ontology#isRequestingAstroRegion> ?a_region ;\n"
    + "                         a ?run_rdf_type ;\n"
    + "                         ^oa:hasBody/oa:hasTarget ?runId ;\n"
    + "                         ^oa:hasBody/oa:hasTarget ?activity .\n"
    + "\n"
    + "                    ?aq_module a ?aq_mod_rdf_type ;\n"
    + "                        <http://purl.org/dc/terms/title> ?aq_module_name .\n"
    + "\n"
    + "                    ?a_region a ?a_region_type ; \n"
    + "                        <http://purl.org/dc/terms/title> ?a_region_name ;\n"
    + "                        <http://odahub.io/ontology#isUsingSkyCoordinates> ?a_sky_coordinates ;\n"
    + "                        <http://odahub.io/ontology#isUsingRadius> ?a_radius .\n"
    + "\n"
    + "                    ?a_sky_coordinates a ?a_sky_coordinates_type ;\n"
    + "                        <http://purl.org/dc/terms/title> ?a_sky_coordinates_name .\n"
    + "\n"
    + "                    ?a_radius a ?a_radius_type ;\n"
    + "                        <http://purl.org/dc/terms/title> ?a_radius_name .\n"
    + "\n"
    + "                    OPTIONAL {{ ?run <http://purl.org/dc/terms/title> ?run_title . }}\n"
    + "\n"
    + "                    ?run ?p ?o .\n"
    + "                }\n"
    + "                UNION\n"
    + "                {\n"
    + "                    ?run <http://odahub.io/ontology#isUsing> ?aq_module ;\n"
    + "                         <http://odahub.io/ontology#isRequestingAstroImage> ?a_image ;\n"
    + "                         a ?run_rdf_type ;\n"
    + "                         ^oa:hasBody/oa:hasTarget ?runId ;\n"
    + "                         ^oa:hasBody/oa:hasTarget ?activity .\n"
    + "\n"
    + "                    ?aq_module a ?aq_mod_rdf_type ;\n"
    + "                        <http://purl.org/dc/terms/title> ?aq_module_name .\n"
    + "\n"
    + "                    ?a_image a ?a_image_type ;\n"
    + "                        <http://purl.org/dc/terms/title> ?a_image_name ;\n"
    + "\n"
    + "                    OPTIONAL {{ ?a_image <http://odahub.io/ontology#isUsingCoordinates> ?a_coordinates .\n"
    + "                         ?a_coordinates a ?a_coordinates_type ;\n"
    + "                             <http://purl.org/dc/terms/title> ?a_coordinates_name .\n"
    + "                    }}\n"
    + "                    OPTIONAL {{ ?a_image <http://odahub.io/ontology#isUsingPosition> ?a_position .\n"
    + "                         ?a_position a ?a_position_type ;\n"
    + "                             <http://purl.org/dc/terms/title> ?a_position_name .\n"
    + "                    }}\n"
    + "                    OPTIONAL {{ ?a_image <http://odahub.io/ontology#isUsingRadius> ?a_radius .\n"
    + "                        ?a_radius a ?a_radius_type ;\n"
    + "                            <http://purl.org/dc/terms/title> ?a_radius_name .\n"
    + "                    }}\n"
    + "                    OPTIONAL {{ ?a_image <http://odahub.io/ontology#isUsingPixels> ?a_pixels .\n"
    + "                        ?a_pixels a ?a_pixels_type ;\n"
    + "                            <http://purl.org/dc/terms/title> ?a_pixels_name .\n"
    + "                    }}\n"
    + "                    OPTIONAL {{ ?a_image <http://odahub.io/ontology#isUsingImageBand> ?a_image_band .\n"
    + "                        ?a_image_band a ?a_image_band_type ;\n"
    + "                            <http://purl.org/dc/terms/title> ?a_image_band_name .\n"
    + "                    }}\n"
    + "\n"
    + "                    OPTIONAL {{ ?run <http://purl.org/dc/terms/title> ?run_title . }}\n"
    + "\n"
    + "                    ?run ?p ?o .\n"
    + "                }\n"
    + "            }\n"
    + "        }\n"
    + "        "

  /** The first lines of `ActionNotebookHead`. */
  const ActionNotebookLead: string :=
    "\n"
    + "                ?action a <http://schema.org/Action> ;\n"
    + "                    <https://swissdatasciencecenter.github.io/renku-ontology#command> ?actionCommand ;\n"
    + "                    <"
    + "https://swissdatasciencecenter.github.io/renku-ontology#hasInputs> ?actionParamInput ;\n"

  /** Lines 299-306: the action template of a selected notebook, up to the quote that opens the selector. */
  const ActionNotebookHead: string :=
    ActionNotebookLead
    + ("                    ?has ?actionParam .\n"
    + "\n"
    + "                ?actionParamInput a ?actionParamInputType ;\n"
    + "                    <http://schema.org/defaultValue> '")

  /** Lines 306-311: from the quote that closes the selector. */
  const ActionNotebookRest: string :=
    "' .\n"
    + ("\n"
    + "                ?actionParam a ?actionParamType ;\n"
    + "                    <https://swissdatasciencecenter.github.io/renku-ontology#position> ?actionPosition ;\n"
    + "                    <http://schema.org/defaultValue> ?actionParamValue .\n"
    + "        ")

  /** The first lines of `ActionAll`. */
  const ActionAllLead: string :=
    "\n"
    + "                ?action a <http://schema.org/Action> ;\n"
    + "                    <https://swissdatasciencecenter.github.io/renku-ontology#command> ?actionCommand ;\n"
    + "                    ?has ?actionParam .\n"

  /** Lines 313-321: the action template when no notebook is selected. */
  const ActionAll: string :=
    ActionAllLead
    + ("\n"
    + "                ?actionParam a ?actionParamType ;\n"
    + "                    <https://swissdatasciencecenter.github.io/renku-ontology#position> ?actionPosition ;\n"
    + "                    <http://schema.org/defaultValue> ?actionParamValue .\n"
    + "        ")

  /** Lines 323-329: the activity template appended to either action template. */
  const ActivityBlock: string :=
    "\n"
    + "            ?activity a ?activityType ;\n"
    + "                <http://www.w3.org/ns/prov#startedAtTime> ?activityTime ;\n"
    + "                <http://www.w3.org/ns/prov#qualifiedAssociation> ?activity_qualified_association .\n"
    + "\n"
    + "            ?activity_qualified_association <http://www.w3.org/ns/prov#hadPlan> ?action .\n"
    + "    "

  /** All but the last two lines of `OdaBlock`. */
  const OdaBlockLines: string :=
    "\n"
    + "                ?run <http://odahub.io/ontology#isRequestingAstroObject> ?a_object ;\n"
    + "                    <http://odahub.io/ontology#isRequestingAstroRegion> ?a_region ;\n"
    + "                    <http://odahub.io/ontology#isRequestingAstroImage> ?a_image ;\n"
    + "                    <http://purl.org/dc/terms/title> ?run_title ;\n"
    + "                    <http://odahub.io/ontology#isUsing> ?aq_module ;\n"
    + "                    oa:hasTarget ?activity ;\n"
    + "                    a ?run_rdf_type .\n"
    + "\n"
    + "                ?aq_module <https://odahub.io/ontology#AQModule> ?aq_module_name ;\n"
    + "                    a ?aq_mod_rdf_type .\n"
    + "\n"
    + "                ?a_object <https://odahub.io/ontology#AstroObject> ?a_object_name ;\n"
    + "                    a ?a_obj_rdf_type .\n"
    + "\n"
    + "                ?a_region a ?a_region_type ; \n"
    + "                    <http://purl.org/dc/terms/title> ?a_region_name ;\n"
    + "                    <http://odahub.io/ontology#isUsingSkyCoordinates> ?a_sky_coordinates ;\n"
    + "                    <http://odahub.io/ontology#isUsingRadius> ?a_radius .\n"
    + "\n"
    + "                ?a_image a ?a_image_type ;\n"
    + "                    <http://purl.org/dc/terms/title> ?a_image_name ;\n"
    + "                    <http://odahub.io/ontology#isUsingCoordinates> ?a_coordinates ;\n"
    + "                    <http://odahub.io/ontology#isUsingPosition> ?a_position ;\n"
    + "                    <http://odahub.io/ontology#isUsingRadius> ?a_radius ;\n"
    + "                    <http://odahub.io/ontology#isUsingPixels> ?a_pixels ;\n"
    + "                    <http://odahub.io/ontology#isUsingImageBand> ?a_image_band .\n"
    + "\n"
    + "                ?a_pixels a ?a_pixels_type ;\n"
    + "                    <http://purl.org/dc/terms/title> ?a_pixels_name .\n"
    + "\n"
    + "                ?a_image_band a ?a_image_band_type ;\n"
    + "                    <http://purl.org/dc/terms/title> ?a_image_band_name .\n"
    + "\n"
    + "                ?a_coordinates a ?a_coordinates_type ;\n"
    + "                    <http://purl.org/dc/terms/title> ?a_coordinates_name .\n"
    + "                    \n"
    + "                ?a_sky_coordinates a ?a_sky_coordinates_type ;\n"
    + "                    <http://purl.org/dc/terms/title> ?a_sky_coordinates_name .\n"
    + "                    \n"
    + "                ?a_position a ?a_position_type ;\n"
    + "                    <http://purl.org/dc/terms/title> ?a_position_name .\n"
    + "\n"
    + "                ?a_radius a ?a_radius_type ;\n"

  /** Lines 333-378: the template of the astroquery runs and what they request. */
  const OdaBlock: string :=
    OdaBlockLines
    + "                    <http://purl.org/dc/terms/title> ?a_radius_name .\n"
    + "            "

  /** Lines 380-381: the text before the action template. */
  const ConstructOpen: string :=
    "CONSTRUCT {\n"
    + "                "

  /** Lines 381-382: the text between the action template and the oda template. */
  const ConstructMid: string :=
    "\n"
    + "                "

  /** Lines 382-383: the text after the oda template. */
  const ConstructClose: string :=
    "\n"
    + "            }"

  // Assembling the queries

  /** `build_query_where(input_notebook)` (lines 148-294). */
  function QueryWhere(inputNotebook: Option<string>): string
  {
    match inputNotebook
    case Some(nb) => WhereNotebookHead + nb + WhereNotebookRest + WhereTail
    case None => WhereAll + WhereTail
  }

  /** `query_construct_action` once line 323 has appended the activity template. */
  function ConstructAction(inputNotebook: Option<string>): string
  {
    match inputNotebook
    case Some(nb) => ActionNotebookHead + nb + ActionNotebookRest + ActivityBlock
    case None => ActionAll + ActivityBlock
  }

  /** `build_query_construct(input_notebook, no_oda_info)` (lines 297-385). */
  function QueryConstruct(inputNotebook: Option<string>, noOdaInfo: bool): string
  {
    ConstructOpen + ConstructAction(inputNotebook) + ConstructMid + (if noOdaInfo then "" else OdaBlock) + ConstructClose
  }

  // Reading the arguments back

  /** `a` without its prefix `head`, when it starts with it. */
  function CutPrefix(a: string, head: string): Option<string>
  {
    if StartsWith(a, head) then Some(a[|head|..]) else None
  }

  /** `a` without its suffix `tail`, when it ends with it. */
  function CutSuffix(a: string, tail: string): Option<string>
  {
    if EndsWith(a, tail) then Some(a[..|a| - |tail|]) else None
  }

  /** The selector a text of the shape `head + nb + rest`, or exactly `all`, was built with. */
  function SelectorOf(a: string, head: string, rest: string, all: string): Option<Option<string>>
  {
    match CutPrefix(a, head)
    case Some(b) => (match CutSuffix(b, rest) case Some(nb) => Some(Some(nb)) case None => None)
    case None => if a == all then Some(None) else None
  }

  /** The notebook selector a WHERE clause of `QueryWhere`'s shape was built with. */
  function WhereSelector(q: string): Option<Option<string>>
  {
    match CutSuffix(q, WhereTail)
    case Some(a) => SelectorOf(a, WhereNotebookHead, WhereNotebookRest, WhereAll)
    case None => None
  }

  /** The action text and the oda flag of the body of a CONSTRUCT clause. */
  function OdaSplit(body: string): Option<(string, bool)>
  {
    match CutSuffix(body, ConstructMid + OdaBlock)
    case Some(act) => Some((act, false))
    case None => (match CutSuffix(body, ConstructMid) case Some(act) => Some((act, true)) case None => None)
  }

  /** The selector of an action text of `ConstructAction`'s shape. */
  function ActionSelector(act: string): Option<Option<string>>
  {
    match CutSuffix(act, ActivityBlock)
    case Some(a) => SelectorOf(a, ActionNotebookHead, ActionNotebookRest, ActionAll)
    case None => None
  }

  /** The selector and the oda flag a CONSTRUCT clause of `QueryConstruct`'s shape was built with. */
  function ConstructArguments(q: string): Option<(Option<string>, bool)>
  {
    var body := match CutPrefix(q, ConstructOpen) case Some(b) => CutSuffix(b, ConstructClose) case None => None;
    var split := match body case Some(b) => OdaSplit(b) case None => None;
    match split
    case None => None
    case Some(s) => (match ActionSelector(s.0) case Some(nb) => Some((nb, s.1)) case None => None)
  }

  // Properties

  lemma CutPrefixOf(head: string, b: string)
    ensures CutPrefix(head + b, head) == Some(b)
  {
    assert (head + b)[..|head|] == head;
    assert (head + b)[|head|..] == b;
  }

  lemma CutSuffixOf(a: string, tail: string)
    ensures CutSuffix(a + tail, tail) == Some(a)
  {
    assert (a + tail)[|a|..] == tail;
    assert (a + tail)[..|a|] == a;
  }

  /** A text built around a selector gives the selector back. */
  lemma SelectorOfSome(head: string, nb: string, rest: string, all: string)
    ensures SelectorOf(head + nb + rest, head, rest, all) == Some(Some(nb))
  {
    assert head + nb + rest == head + (nb + rest);
    CutPrefixOf(head, nb + rest);
    CutSuffixOf(nb, rest);
  }

  /** The template without a selector reads as no selector. */
  lemma SelectorOfNone(head: string, rest: string, all: string)
    requires !StartsWith(all, head)
    ensures SelectorOf(all, head, rest, all) == Some(None)
  {
  }

  /** The two action patterns of the WHERE clause part at their third line's indentation. */
  lemma WhereHeadsDiffer()
    ensures !StartsWith(WhereAll, WhereNotebookHead)
  {
    assert |"WHERE {\n" + "            {\n"| == 22;
    assert WhereAllLead[34] == ' ' && |WhereAllLead| > 34;
    assert WhereNotebookLead[34] == '?' && |WhereNotebookLead| > 34;
    hide *;
    assert WhereAll[34] == ' ';
    assert WhereNotebookHead[34] == '?';
  }

  /** The two action templates of the CONSTRUCT clause part at their fourth line. */
  lemma ActionHeadsDiffer()
    ensures !StartsWith(ActionAll, ActionNotebookHead)
  {
    assert |"\n" + "                ?action a <http://schema.org/Action> ;\n" + "                    <https://swissdatasciencecenter.github.io/renku-ontology#command> ?actionCommand ;\n"| == 159;
    assert ActionAllLead[179] == '?' && |ActionAllLead| > 179;
    assert ActionNotebookLead[179] == '<' && |ActionNotebookLead| > 179;
    hide *;
    assert ActionAll[179] == '?';
    assert ActionNotebookHead[179] == '<';
  }

  /** The selector's single quotes close the head and open the rest of both templates (lines 159 and 306). */
  lemma SelectorQuoted()
    ensures EndsWith(WhereNotebookHead, "'") && StartsWith(WhereNotebookRest, "'")
    ensures EndsWith(ActionNotebookHead, "'") && StartsWith(ActionNotebookRest, "'")
  {
  }

  /** A common suffix cancels from both sides of `EndsWith`. */
  lemma EndsWithCancel(x: string, a: string, b: string)
    requires EndsWith(x + b, a + b)
    ensures EndsWith(x, a)
  {
    var k := |x| - |a|;
    assert (x + b)[k..] == x[k..] + b;
    assert x[k..] == (x[k..] + b)[..|a|] == (a + b)[..|a|] == a;
  }

  /** Without the oda template, the text before the closing brace does not end with it. */
  lemma OdaEndsApart(act: string)
    ensures !EndsWith(act + ConstructMid, OdaBlock)
    ensures !EndsWith(act + ConstructMid, ConstructMid + OdaBlock)
  {
    hide OdaBlockLines;
    var x := act + ConstructMid;
    var y := ConstructMid + OdaBlock;
    assert OdaBlock[|OdaBlock| - 13] == '\n';
    assert y[|y| - 13] == '\n';
    assert x[|x| - 13] == ConstructMid[4] == ' ';
  }

  /** The WHERE clause gives back the notebook selector it was built with (lines 150-159). */
  lemma {:induction false} WhereRoundTrip(nb: Option<string>)
    ensures WhereSelector(QueryWhere(nb)) == Some(nb)
  {
    hide WhereNotebookHead, WhereNotebookRest, WhereAll, WhereTail;
    WhereHeadsDiffer();
    match nb
    case Some(s) =>
      CutSuffixOf(WhereNotebookHead + s + WhereNotebookRest, WhereTail);
      SelectorOfSome(WhereNotebookHead, s, WhereNotebookRest, WhereAll);
    case None =>
      CutSuffixOf(WhereAll, WhereTail);
      SelectorOfNone(WhereNotebookHead, WhereNotebookRest, WhereAll);
  }

  /** The action text gives back the notebook selector it was built with (lines 298-329). */
  lemma {:induction false} ActionRoundTrip(nb: Option<string>)
    ensures ActionSelector(ConstructAction(nb)) == Some(nb)
  {
    hide ActionNotebookHead, ActionNotebookRest, ActionAll, ActivityBlock;
    ActionHeadsDiffer();
    match nb
    case Some(s) =>
      CutSuffixOf(ActionNotebookHead + s + ActionNotebookRest, ActivityBlock);
      SelectorOfSome(ActionNotebookHead, s, ActionNotebookRest, ActionAll);
    case None =>
      CutSuffixOf(ActionAll, ActivityBlock);
      SelectorOfNone(ActionNotebookHead, ActionNotebookRest, ActionAll);
  }

  /**
   * The CONSTRUCT clause gives back both of its arguments: the notebook
   * selector (lines 298-321) and whether the oda template was left out
   * (lines 331-378).
   */
  lemma {:induction false} ConstructRoundTrip(nb: Option<string>, noOdaInfo: bool)
    ensures ConstructArguments(QueryConstruct(nb, noOdaInfo)) == Some((nb, noOdaInfo))
  {
    hide OdaBlock, ConstructAction, ActionSelector;
    ActionRoundTrip(nb);
    var act := ConstructAction(nb);
    var oda := if noOdaInfo then "" else OdaBlock;
    var q := QueryConstruct(nb, noOdaInfo);
    assert q == ConstructOpen + (act + ConstructMid + oda + ConstructClose);
    CutPrefixOf(ConstructOpen, act + ConstructMid + oda + ConstructClose);
    CutSuffixOf(act + ConstructMid + oda, ConstructClose);
    if noOdaInfo {
      assert act + ConstructMid + oda == act + ConstructMid;
      OdaEndsApart(act);
      CutSuffixOf(act, ConstructMid);
    } else {
      assert act + ConstructMid + oda == act + (ConstructMid + OdaBlock);
      CutSuffixOf(act, ConstructMid + OdaBlock);
    }
  }

  /** The oda template closes the CONSTRUCT clause exactly when `no_oda_info` is false (lines 331-383). */
  lemma {:induction false} OdaBlockIff(nb: Option<string>, noOdaInfo: bool)
    ensures !noOdaInfo <==> EndsWith(QueryConstruct(nb, noOdaInfo), OdaBlock + ConstructClose)
  {
    hide OdaBlock, ConstructAction;
    var act := ConstructAction(nb);
    var q := QueryConstruct(nb, noOdaInfo);
    if noOdaInfo {
      var x := act + ConstructMid;
      assert q == ConstructOpen + x + ConstructClose;
      if EndsWith(q, OdaBlock + ConstructClose) {
        EndsWithCancel(ConstructOpen + x, OdaBlock, ConstructClose);
        assert ConstructOpen + x == ConstructOpen + act + ConstructMid;
        OdaEndsApart(ConstructOpen + act);
      }
    } else {
      assert q == ConstructOpen + act + ConstructMid + (OdaBlock + ConstructClose);
      CutSuffixOf(ConstructOpen + act + ConstructMid, OdaBlock + ConstructClose);
    }
  }
}
