/**
 * `customize_edge` and `customize_node`: restyling the HTML-like labels
 * rdf2dot gives the diagram's edges and nodes. A label is taken as already
 * parsed: an edge label is one element, a node label a table of rows of
 * cells. The pydot attributes the restyler sets on the node are returned.
 */
module Renderer {
  import opened Wrappers
  import opened Texts

  /** An inline element such as `<B>` or `<I>`, with its text and children. */
  datatype Elem = Elem(tag: string, text: Option<string>, children: seq<Elem>)

  /** A `<td>`: its text before the first child, its attributes and its child elements. */
  datatype Cell = Cell(text: Option<string>, attrs: map<string, string>, inner: seq<Elem>)

  /** A `<tr>`: its cells in order. */
  type Row = seq<Cell>

  // ---------------------------------------------------------------------
  // Edges

  /**
   * `customize_edge` (lines 12-23): a labelled edge's text becomes the second
   * `:`-separated piece of its old text; an edge without label is untouched.
   */
  function CustomizeEdge(edge: Option<Elem>): (r: Outcome<Option<Elem>>)
    ensures edge.None? ==> r == Done(None)
    ensures edge.Some? && r.Done? ==>
              r.value.Some? && r.value.value.tag == edge.value.tag && r.value.value.children == edge.value.children
  {
    match edge
    case None => Done(None)
    case Some(e) =>
      match e.text
      case None => Failed(AttributeError)
      case Some(t) =>
        var parts := Split(t, ':');
        if |parts| < 2 then Failed(IndexError) else Done(Some(e.(text := Some(parts[1]))))
  }

  /**
   * A labelled edge keeps everything but its text, which becomes the piece
   * between the first and second colon (or the rest, when there is no second);
   * the text must exist and hold a colon.
   */
  lemma CustomizeEdgeText(e: Elem)
    ensures CustomizeEdge(Some(e)).Failed? <==> e.text.None? || ':' !in e.text.value
    ensures e.text.None? ==> CustomizeEdge(Some(e)) == Failed(AttributeError)
    ensures e.text.Some? && ':' !in e.text.value ==> CustomizeEdge(Some(e)) == Failed(IndexError)
    ensures CustomizeEdge(Some(e)).Done? ==>
              var t := e.text.value;
              CustomizeEdge(Some(e)) == Done(Some(e.(text := Some(Before(After(t, ':'), ':')))))
  {
    if e.text.Some? {
      var t := e.text.value;
      SplitSingle(t, ':');
      CountZero(t, ':');
      SplitFirst(t, ':');
      if ':' in t {
        SplitFirst(After(t, ':'), ':');
      }
    }
  }

  // ---------------------------------------------------------------------
  // Node style

  /** The pydot shape and colour and the table border a node of a type gets. */
  datatype Style = Style(shape: string, color: Option<string>, border: string)

  /** The colour and shape chain of lines 54-88, after the defaults of lines 49-53. */
  function StyleOf(kind: string): (s: Style)
    ensures s.shape in {"box", "diamond", "ellipse"} && s.border in {"0", "1"}
  {
    if kind == "Action" then Style("diamond", Some("#D5C15D"), "0")
    else if kind == "CommandOutput" then Style("box", Some("#FFFF00"), "0")
    else if kind == "CommandOutputImage" || kind == "CommandOutputFitsFile" then Style("box", Some("#FFFFFF"), "1")
    else if kind == "CommandOutputNotebook" then Style("box", Some("#DBA3BC"), "0")
    else if kind == "CommandInput" then Style("box", Some("#DBA3BC"), "0")
    else if kind == "CommandParameter" then Style("box", Some("#6262be"), "0")
    else if kind == "AstroqueryModule" then Style("ellipse", Some("#00CC00"), "0")
    else if kind == "AstrophysicalObject" then Style("ellipse", Some("#6262be"), "0")
    else if kind == "AstrophysicalRegion" then Style("ellipse", Some("#6262bf"), "0")
    else if kind == "AstrophysicalImage" then Style("ellipse", Some("#6262bg"), "0")
    else if kind in {"Angle", "SkyCoordinates", "Coordinates", "Position", "Pixels"} then Style("box", Some("#1B81FB"), "0")
    else Style("box", None, "0")
  }

  /** The border is 0 except for image and FITS outputs. */
  lemma StyleBorder(kind: string)
    ensures StyleOf(kind).border == (if kind in {"CommandOutputImage", "CommandOutputFitsFile"} then "1" else "0")
  {
  }

  /** The shape is a box except for actions (diamond) and the astroquery and astrophysical nodes (ellipse). */
  lemma StyleShape(kind: string)
    ensures StyleOf(kind).shape == "diamond" <==> kind == "Action"
    ensures StyleOf(kind).shape == "ellipse" <==>
              kind in {"AstroqueryModule", "AstrophysicalObject", "AstrophysicalRegion", "AstrophysicalImage"}
    ensures StyleOf(kind).shape in {"box", "diamond", "ellipse"}
  {
  }

  /**
   * Untyped-looking nodes keep pydot's colour; objects, regions and images get
   * three different colours, the object sharing its colour with parameters.
   */
  lemma StyleColors(kind: string)
    ensures StyleOf(kind).color.None? <==>
              kind !in {"Action", "CommandOutput", "CommandOutputImage", "CommandOutputFitsFile", "CommandOutputNotebook",
                        "CommandInput", "CommandParameter", "AstroqueryModule", "AstrophysicalObject", "AstrophysicalRegion",
                        "AstrophysicalImage", "Angle", "SkyCoordinates", "Coordinates", "Position", "Pixels"}
    ensures StyleOf("AstrophysicalObject").color != StyleOf("AstrophysicalRegion").color
    ensures StyleOf("AstrophysicalRegion").color != StyleOf("AstrophysicalImage").color
    ensures StyleOf("AstrophysicalObject").color != StyleOf("AstrophysicalImage").color
    ensures StyleOf("AstrophysicalObject").color == StyleOf("CommandParameter").color
    ensures StyleOf("CommandInput").color == StyleOf("CommandOutputNotebook").color
  {
  }

  // ---------------------------------------------------------------------
  // Node title

  /** Index of the first `<B>` child, or -1 (`findall('B')[0]`). */
  function FirstBold(es: seq<Elem>): (i: int)
    ensures -1 <= i < |es|
    ensures i >= 0 ==> es[i].tag == "B"
    ensures forall k :: 0 <= k < (if i < 0 then |es| else i) ==> es[k].tag != "B"
  {
    if |es| == 0 then -1
    else if es[0].tag == "B" then 0
    else var j := FirstBold(es[1..]); if j < 0 then -1 else j + 1
  }

  /** The text of the title element, the first `<B>` of the title cell. */
  function TitleOf(row: Row): Option<string>
  {
    if |row| == 0 || FirstBold(row[0].inner) < 0 then None else row[0].inner[FirstBold(row[0].inner)].text
  }

  /** The title row with the title element's text set to `t`. */
  function WithTitle(row: Row, t: Option<string>): (r: Row)
    ensures |r| == |row|
  {
    if |row| == 0 || FirstBold(row[0].inner) < 0 then row
    else
      var b := FirstBold(row[0].inner);
      row[0 := row[0].(inner := row[0].inner[b := row[0].inner[b].(text := t)])]
  }

  /** Setting the title twice is setting it once, and it reads back. */
  lemma WithTitleTwice(row: Row, t: Option<string>, u: Option<string>)
    ensures WithTitle(WithTitle(row, t), u) == WithTitle(row, u)
    ensures |row| > 0 && FirstBold(row[0].inner) >= 0 ==>
              TitleOf(WithTitle(row, t)) == t && FirstBold(WithTitle(row, t)[0].inner) == FirstBold(row[0].inner)
  {
    if |row| > 0 && FirstBold(row[0].inner) >= 0 {
      var b := FirstBold(row[0].inner);
      var es := row[0].inner;
      var x := es[b].(text := t);
      var r1 := WithTitle(row, t);
      assert r1 == row[0 := row[0].(inner := es[b := x])];
      assert r1[0].inner[..b] == es[..b];
      assert FirstBold(r1[0].inner) == b by {
        FirstBoldFrom(es, r1[0].inner, b);
      }
      assert es[b := x][b := x.(text := u)] == es[b := es[b].(text := u)];
    }
  }

  /** Writing back the title the row already has changes nothing. */
  lemma WithTitleSelf(row: Row)
    ensures WithTitle(row, TitleOf(row)) == row
  {
    if |row| > 0 && FirstBold(row[0].inner) >= 0 {
      var es := row[0].inner;
      var b := FirstBold(es);
      assert es[b := es[b].(text := es[b].text)] == es;
      assert row[0 := row[0].(inner := es)] == row;
    }
  }

  lemma FirstBoldFrom(es: seq<Elem>, fs: seq<Elem>, b: int)
    requires 0 <= b < |es| == |fs| && FirstBold(es) == b
    requires fs[..b] == es[..b] && fs[b].tag == "B"
    ensures FirstBold(fs) == b
  {
    var j := FirstBold(fs);
    assert forall k :: 0 <= k < b ==> fs[k] == es[k];
    assert j >= 0 && j <= b;
  }

  /** The title a node of type `kind` gets (lines 44-48). */
  function Retitled(kind: string, name: string): (r: string)
    ensures var t := if kind != "CommandParameter" then kind else name;
            r == t || "CommandOutput" + r == t
  {
    var t := if kind != "CommandParameter" then kind else name;
    if StartsWith(t, "CommandOutput") && t != "CommandOutput" then
      assert t == t[..13] + t[13..];
      t[13..]
    else t
  }

  /**
   * The title becomes the type name, except that parameters keep their label;
   * a name extending `CommandOutput` loses that prefix.
   */
  lemma RetitledSpec(kind: string, name: string)
    ensures kind != "CommandParameter" && !StartsWith(kind, "CommandOutput") ==> Retitled(kind, name) == kind
    ensures kind == "CommandOutput" ==> Retitled(kind, name) == "CommandOutput"
    ensures kind != "CommandOutput" && StartsWith(kind, "CommandOutput") ==> "CommandOutput" + Retitled(kind, name) == kind
    ensures Retitled("CommandOutputImage", name) == "Image"
    ensures kind == "CommandParameter" && !StartsWith(name, "CommandOutput") ==> Retitled(kind, name) == name
    ensures kind == "CommandParameter" && StartsWith(name, "CommandOutput") && name != "CommandOutput" ==>
              "CommandOutput" + Retitled(kind, name) == name
  {
    var t := if kind != "CommandParameter" then kind else name;
    assert !StartsWith("CommandParameter", "CommandOutput") by {
      assert "CommandParameter"[..13][7] != "CommandOutput"[7];
    }
    if StartsWith(t, "CommandOutput") && t != "CommandOutput" {
      assert t[..13] == "CommandOutput";
      assert t == t[..13] + t[13..];
    }
  }

  // ---------------------------------------------------------------------
  // The rows of a node

  /** What the row loop needs to know: the node's type, the type map and the time formatter. */
  datatype Ctx = Ctx(
    kind: string,
    types: map<string, string>,
    /** `parser.parse(s).strftime('%Y-%m-%d %H:%M:%S')`, `None` when dateutil cannot parse `s`. */
    formatTime: string -> Option<string>)

  /** The title row is dropped for inputs and actions (lines 89-92). */
  predicate DropsTop(kind: string)
  {
    kind == "CommandInput" || kind == "Action"
  }

  /** Whether snapshot row `i` is still in the table when the row loop starts. */
  predicate AttachedAtLoop(kind: string, i: nat)
  {
    i != 1 && !(i == 0 && DropsTop(kind))
  }

  /** Lines 102-104: a cell with an `align` attribute is centred over both columns. */
  function Centered(v: Cell): Cell
  {
    if "align" in v.attrs then v.(attrs := v.attrs["align" := "center"]["colspan" := "2"]) else v
  }

  /**
   * Lines 106-111: a parameter's `defaultValue` row splits its value; when the
   * title is still a known label the first token becomes the title and the
   * rest, quoted, the value. Returns the cell and the title.
   */
  function SplitDefault(c: Ctx, parts: seq<string>, title: Option<string>, v: Cell): Outcome<(Cell, Option<string>)>
  {
    if "defaultValue" in parts && c.kind == "CommandParameter" then
      match v.text
      case None => Failed(TypeError)
      case Some(t) =>
        var args := Split(Trim1(t), ' ');
        if title.Some? && title.value in c.types then Done((v.(text := Some(Quote(Join(args[1..], " ")))), Some(args[0])))
        else Done((v, title))
    else Done((v, title))
  }

  /** The single centred cell of the row a timestamp moves to (lines 116-121). */
  function TimeRow(time: string): Row
  {
    [Cell(Some(time), map["align" := "center", "colspan" := "2"], [])]
  }

  /** Lines 112-124: the formatted timestamp of a `startedAtTime` row, or `None` for other rows. */
  function MovedTime(c: Ctx, parts: seq<string>, v: Cell): Outcome<Option<Row>>
  {
    if "startedAtTime" in parts then
      match v.text
      case None => Failed(AttributeError)
      case Some(t) =>
        match c.formatTime(Trim1(RemoveAll(t, "^^xsd:dateTime")))
        case None => Failed(ParseError)
        case Some(time) => Done(Some(TimeRow(time)))
    else Done(None)
  }

  /** Lines 126-143: drop the value's quotes, then embolden an action's command and an input's value. */
  function Unquoted(c: Ctx, parts: seq<string>, v: Cell): Outcome<Cell>
  {
    match v.text
    case None => Failed(TypeError)
    case Some(t) =>
      var w := v.(text := Some(Trim1(t)));
      var w' := if c.kind == "Action" && "command" in parts then w.(inner := w.inner + [Elem("B", w.text, [])], text := Some("")) else w;
      Done(if c.kind == "CommandInput" then w'.(inner := w'.inner + [Elem("B", None, [Elem("I", w'.text, [])])], text := Some("")) else w')
  }

  /** A value cell that moves has text, so dropping its quotes succeeds. */
  lemma MovedHasText(c: Ctx, parts: seq<string>, v: Cell)
    requires MovedTime(c, parts, v).Done? && MovedTime(c, parts, v).value.Some?
    ensures v.text.Some? && Unquoted(c, parts, v).Done?
  {
  }

  /**
   * What the loop does with one two-cell row: the value cell it leaves, the
   * row appended instead when the row holds a timestamp, and the title after it.
   */
  datatype Edit = Edit(cell: Cell, moved: Option<Row>, title: Option<string>)

  /** Lines 96-143 for one snapshot row; `None` when the row does not have two cells. */
  function EditRow(c: Ctx, title: Option<string>, row: Row): (r: Outcome<Option<Edit>>)
    ensures |row| != 2 ==> r == Done(None)
    ensures r.Done? && r.value.Some? ==> |row| == 2 && row[0].text.Some?
  {
    if |row| != 2 then Done(None)
    else
      match row[0].text
      case None => Failed(AttributeError)
      case Some(left) =>
        var parts := Split(left, ':');
        match SplitDefault(c, parts, title, Centered(row[1]))
        case Failed(e) => Failed(e)
        case Done(d) =>
          match MovedTime(c, parts, d.0)
          case Failed(e) => Failed(e)
          case Done(moved) =>
            match Unquoted(c, parts, d.0)
            case Failed(e) => Failed(e)
            case Done(w) => Done(Some(Edit(w, moved, d.1)))
  }

  /** The title after a row's edit. */
  function TitleAfter(e: Option<Edit>, title: Option<string>): Option<string>
  {
    if e.Some? then e.value.title else title
  }

  /** The row moves to the bottom. */
  predicate Moves(e: Option<Edit>)
  {
    e.Some? && e.value.moved.Some?
  }

  /**
   * The loop over the snapshot rows `rows`, the first of which is snapshot
   * row `from`: each row's edit, and the title at the end. Moving a row that
   * is no longer in the table is lxml's `ValueError`.
   */
  function Edits(c: Ctx, title: Option<string>, rows: seq<Row>, from: nat): Outcome<(seq<Option<Edit>>, Option<string>)>
    decreases |rows|
  {
    if |rows| == 0 then Done(([], title))
    else
      match RowStep(c, title, rows[0], AttachedAtLoop(c.kind, from))
      case Failed(e) => Failed(e)
      case Done(e) =>
        match Edits(c, TitleAfter(e, title), rows[1..], from + 1)
        case Failed(f) => Failed(f)
        case Done(rest) => Done(([e] + rest.0, rest.1))
  }

  /** One pass of the loop over a row that is still in the table (`attached`) or not. */
  function RowStep(c: Ctx, title: Option<string>, row: Row, attached: bool): Outcome<Option<Edit>>
  {
    match EditRow(c, title, row)
    case Failed(e) => Failed(e)
    case Done(e) => if Moves(e) && !attached then Failed(ValueError) else Done(e)
  }

  /**
   * The snapshot rows after a pass over row `i`: the row keeps its value cell
   * only, or nothing when it moved, and a new title shows in row 0 while the
   * title cell is still there.
   */
  function Rewritten(rows: seq<Row>, i: nat, e: Option<Edit>, titleIn: bool): (r: seq<Row>)
    requires i < |rows|
    ensures |r| == |rows|
  {
    if e.None? then rows
    else
      var r1 := rows[i := if e.value.moved.Some? then [] else [e.value.cell]];
      if titleIn && i != 0 then r1[0 := WithTitle(r1[0], e.value.title)] else r1
  }

  /** Edits done so far, followed by the rest of the loop. */
  function Then(es: seq<Option<Edit>>, o: Outcome<(seq<Option<Edit>>, Option<string>)>): Outcome<(seq<Option<Edit>>, Option<string>)>
  {
    if o.Failed? then o else Done((es + o.value.0, o.value.1))
  }

  /** The loop has one edit per snapshot row; rows without two cells get none. */
  lemma {:induction false} EditsShape(c: Ctx, title: Option<string>, rows: seq<Row>, from: nat)
    requires Edits(c, title, rows, from).Done?
    decreases |rows|
    ensures |Edits(c, title, rows, from).value.0| == |rows|
    ensures forall i :: 0 <= i < |rows| ==> (Edits(c, title, rows, from).value.0[i].None? <==> |rows[i]| != 2)
    ensures forall i :: 0 <= i < |rows| && Moves(Edits(c, title, rows, from).value.0[i]) ==> AttachedAtLoop(c.kind, from + i)
  {
    if |rows| > 0 {
      var e := RowStep(c, title, rows[0], AttachedAtLoop(c.kind, from)).value;
      EditsShape(c, TitleAfter(e, title), rows[1..], from + 1);
      var rest := Edits(c, TitleAfter(e, title), rows[1..], from + 1).value.0;
      assert Edits(c, title, rows, from).value.0 == [e] + rest;
      forall i | 1 <= i < |rows| ensures rows[i] == rows[1..][i - 1] && ([e] + rest)[i] == rest[i - 1] {
      }
    }
  }

  /** A pass edits exactly the two-cell rows. */
  lemma RowStepNone(c: Ctx, title: Option<string>, row: Row, attached: bool)
    requires RowStep(c, title, row, attached).Done?
    ensures RowStep(c, title, row, attached).value.None? <==> |row| != 2
  {
  }

  /** The state of the snapshot rows after `|es|` passes of the loop over `pre`. */
  ghost predicate RowsSoFar(kind: string, pre: seq<Row>, es: seq<Option<Edit>>, t: Option<string>, titleIn: bool,
                            rows: seq<Row>, attached: seq<bool>, appended: seq<Row>)
  {
    TitleSoFar(pre, es, t, titleIn, rows) && EditedSoFar(pre, es, t, rows)
    && FlagsSoFar(kind, pre, es, attached, appended)
  }

  /** Whether the title row is still in place, and which passes edited their row. */
  ghost predicate TitleSoFar(pre: seq<Row>, es: seq<Option<Edit>>, t: Option<string>, titleIn: bool, rows: seq<Row>)
  {
    var i := |es|;
    |pre| > 0 && |rows| == |pre| && i <= |pre|
    && titleIn == (i == 0 || |pre[0]| != 2)
    && (titleIn ==> TitleOf(rows[0]) == t && |rows[0]| > 0 && FirstBold(rows[0][0].inner) >= 0)
    && (forall j :: 0 <= j < i ==> (es[j].None? <==> |pre[j]| != 2))
  }

  /** Rows already visited hold their final content; the others are untouched. */
  ghost predicate EditedSoFar(pre: seq<Row>, es: seq<Option<Edit>>, t: Option<string>, rows: seq<Row>)
    requires |rows| == |pre| && |es| <= |pre|
  {
    var i := |es|;
    (forall j :: 0 <= j < i ==> rows[j] == FinalRow(pre, es, t, j))
    && (forall j :: i <= j < |pre| && (j > 0 || i == 0) ==> rows[j] == pre[j])
  }

  /** Visited rows that moved are detached and appended in order; the others keep their flag. */
  ghost predicate FlagsSoFar(kind: string, pre: seq<Row>, es: seq<Option<Edit>>, attached: seq<bool>, appended: seq<Row>)
  {
    var i := |es|;
    |attached| == |pre| && i <= |pre|
    && (forall j :: 0 <= j < i ==> attached[j] == (AttachedAtLoop(kind, j) && !Moves(es[j])))
    && (forall j :: i <= j < |pre| ==> attached[j] == AttachedAtLoop(kind, j))
    && appended == MovedRows(es)
  }

  /** Before the first pass nothing is edited and the whole run of `Edits` is still ahead. */
  lemma EditRowsStart(c: Ctx, title: Option<string>, rows: seq<Row>, attached: seq<bool>)
    requires |rows| > 0 && |attached| == |rows|
    requires TitleOf(rows[0]) == title && |rows[0]| > 0 && FirstBold(rows[0][0].inner) >= 0
    requires forall j :: 0 <= j < |rows| ==> attached[j] == AttachedAtLoop(c.kind, j)
    ensures Edits(c, title, rows, 0) == Then([], Edits(c, title, rows[0..], 0))
    ensures RowsSoFar(c.kind, rows, [], title, true, rows, attached, [])
  {
    assert rows[0..] == rows;
    var o := Edits(c, title, rows, 0);
    assert o.Done? ==> [] + o.value.0 == o.value.0;
  }

  /** After the last pass the loop's account is the whole run of `Edits`. */
  lemma EditRowsEnd(c: Ctx, title: Option<string>, pre: seq<Row>, es: seq<Option<Edit>>, t: Option<string>,
                    titleIn: bool, rows: seq<Row>, attached: seq<bool>, appended: seq<Row>)
    requires |es| == |pre|
    requires Edits(c, title, pre, 0) == Then(es, Edits(c, t, pre[|pre|..], |pre|))
    requires RowsSoFar(c.kind, pre, es, t, titleIn, rows, attached, appended)
    ensures Edits(c, title, pre, 0) == Done((es, t))
    ensures |rows| == |attached| == |pre|
    ensures forall i :: 0 <= i < |rows| ==> rows[i] == FinalRow(pre, es, t, i)
    ensures forall i :: 0 <= i < |rows| ==> attached[i] == (AttachedAtLoop(c.kind, i) && !Moves(es[i]))
    ensures appended == MovedRows(es)
  {
    assert pre[|pre|..] == [];
    assert es + [] == es;
  }

  /** One pass keeps the loop's account of the snapshot rows. */
  lemma RowsSoFarStep(kind: string, pre: seq<Row>, es: seq<Option<Edit>>, t: Option<string>, titleIn: bool,
                      rows: seq<Row>, attached: seq<bool>, appended: seq<Row>, e: Option<Edit>)
    requires RowsSoFar(kind, pre, es, t, titleIn, rows, attached, appended) && |es| < |pre|
    requires e.None? <==> |pre[|es|]| != 2
    ensures var i := |es|;
            RowsSoFar(kind, pre, es + [e], TitleAfter(e, t), titleIn && !(i == 0 && e.Some?),
                      Rewritten(rows, i, e, titleIn), attached[i := attached[i] && !Moves(e)],
                      appended + (if Moves(e) then [e.value.moved.value] else []))
  {
    TitleSoFarStep(pre, es, t, titleIn, rows, e);
    EditedSoFarStep(pre, es, t, titleIn, rows, e);
    FlagsSoFarStep(kind, pre, es, attached, appended, e);
  }

  lemma TitleSoFarStep(pre: seq<Row>, es: seq<Option<Edit>>, t: Option<string>, titleIn: bool, rows: seq<Row>, e: Option<Edit>)
    requires TitleSoFar(pre, es, t, titleIn, rows) && |es| < |pre|
    requires e.None? <==> |pre[|es|]| != 2
    ensures var i := |es|;
            TitleSoFar(pre, es + [e], TitleAfter(e, t), titleIn && !(i == 0 && e.Some?), Rewritten(rows, i, e, titleIn))
  {
    var i := |es|;
    forall j | 0 <= j < i ensures (es + [e])[j] == es[j] {
    }
    if titleIn && e.Some? && i != 0 {
      var r1 := rows[i := if e.value.moved.Some? then [] else [e.value.cell]];
      assert r1[0] == rows[0];
      WithTitleTwice(rows[0], e.value.title, e.value.title);
      assert Rewritten(rows, i, e, titleIn)[0] == WithTitle(rows[0], e.value.title);
    }
  }

  lemma EditedSoFarStep(pre: seq<Row>, es: seq<Option<Edit>>, t: Option<string>, titleIn: bool, rows: seq<Row>, e: Option<Edit>)
    requires TitleSoFar(pre, es, t, titleIn, rows) && EditedSoFar(pre, es, t, rows) && |es| < |pre|
    requires e.None? <==> |pre[|es|]| != 2
    ensures var i := |es|;
            EditedSoFar(pre, es + [e], TitleAfter(e, t), Rewritten(rows, i, e, titleIn))
  {
    var i := |es|;
    var t' := TitleAfter(e, t);
    var es' := es + [e];
    forall j | 0 <= j < i ensures es'[j] == es[j] {
    }
    if titleIn && e.Some? && i != 0 {
      assert es[0].None?;
      assert rows[0] == WithTitle(pre[0], t);
      WithTitleTwice(pre[0], t, t');
    }
    if i == 0 && e.None? {
      WithTitleSelf(pre[0]);
    }
    forall j | 0 < j < i ensures FinalRow(pre, es', t', j) == FinalRow(pre, es, t, j) {
    }
  }

  lemma FlagsSoFarStep(kind: string, pre: seq<Row>, es: seq<Option<Edit>>, attached: seq<bool>, appended: seq<Row>, e: Option<Edit>)
    requires FlagsSoFar(kind, pre, es, attached, appended) && |es| < |pre|
    ensures var i := |es|;
            FlagsSoFar(kind, pre, es + [e], attached[i := attached[i] && !Moves(e)],
                       appended + (if Moves(e) then [e.value.moved.value] else []))
  {
    MovedRowsStep(es, e);
    forall j | 0 <= j < |es| ensures (es + [e])[j] == es[j] {
    }
  }

  /** One more row of the loop. */
  lemma EditsStep(c: Ctx, title: Option<string>, rows: seq<Row>, from: nat, e: Option<Edit>)
    requires |rows| > 0 && RowStep(c, title, rows[0], AttachedAtLoop(c.kind, from)) == Done(e)
    ensures Edits(c, title, rows, from) == Then([e], Edits(c, TitleAfter(e, title), rows[1..], from + 1))
  {
  }

  /** A failing pass ends the loop with its failure. */
  lemma EditsFail(c: Ctx, title: Option<string>, rows: seq<Row>, from: nat, es: seq<Option<Edit>>)
    requires |rows| > 0 && RowStep(c, title, rows[0], AttachedAtLoop(c.kind, from)).Failed?
    ensures Then(es, Edits(c, title, rows, from)) == Failed(RowStep(c, title, rows[0], AttachedAtLoop(c.kind, from)).reason)
  {
  }

  lemma MovedRowsStep(es: seq<Option<Edit>>, e: Option<Edit>)
    ensures MovedRows(es + [e]) == MovedRows(es) + (if Moves(e) then [e.value.moved.value] else [])
  {
    assert (es + [e])[..|es|] == es;
  }

  lemma ThenThen(es: seq<Option<Edit>>, fs: seq<Option<Edit>>, o: Outcome<(seq<Option<Edit>>, Option<string>)>)
    ensures Then(es, Then(fs, o)) == Then(es + fs, o)
  {
    if o.Done? {
      assert es + (fs + o.value.0) == es + fs + o.value.0;
    }
  }

  /**
   * A two-cell row loses its left cell; the value cell is centred when it has
   * an `align`, loses one character at each end, and, for an action's
   * command or an input, moves its text into a bold child. A parameter's
   * `defaultValue` row is covered here once the title is no longer a known
   * label; before that, `EditRowDefault` describes it.
   */
  lemma EditRowCell(c: Ctx, title: Option<string>, row: Row)
    requires EditRow(c, title, row).Done? && EditRow(c, title, row).value.Some?
    requires !("defaultValue" in Split(row[0].text.value, ':') && c.kind == "CommandParameter"
               && title.Some? && title.value in c.types)
    ensures |row| == 2 && row[0].text.Some? && row[1].text.Some?
    ensures var e := EditRow(c, title, row).value.value;
            var parts := Split(row[0].text.value, ':');
            var plain := Trim1(row[1].text.value);
            e.title == title
            && e.cell.attrs == Centered(row[1]).attrs
            && (c.kind != "CommandInput" && !(c.kind == "Action" && "command" in parts) ==>
                  e.cell == Centered(row[1]).(text := Some(plain)))
            && (c.kind == "Action" && "command" in parts ==>
                  e.cell.text == Some("") && e.cell.inner == row[1].inner + [Elem("B", Some(plain), [])])
            && (c.kind == "CommandInput" ==>
                  e.cell.text == Some("") && e.cell.inner == row[1].inner + [Elem("B", None, [Elem("I", Some(plain), [])])])
  {
  }

  /**
   * A parameter's `defaultValue` row, while the title is a known label: the
   * title becomes the value's first space-separated token and the value the
   * remaining tokens, space-joined.
   */
  lemma EditRowDefault(c: Ctx, title: Option<string>, row: Row)
    requires |row| == 2 && row[0].text.Some? && row[1].text.Some?
    requires "defaultValue" in Split(row[0].text.value, ':') && c.kind == "CommandParameter"
    requires title.Some? && title.value in c.types
    requires EditRow(c, title, row).Done?
    ensures var args := Split(Trim1(row[1].text.value), ' ');
            var e := EditRow(c, title, row).value.value;
            e.title == Some(args[0]) && e.cell.text == Some(Join(args[1..], " "))
            && e.cell.attrs == Centered(row[1]).attrs && e.cell.inner == row[1].inner
            && args[0] + (if |args| > 1 then " " else "") + Join(args[1..], " ") == Trim1(row[1].text.value)
  {
    var args := Split(Trim1(row[1].text.value), ' ');
    Trim1Quote(Join(args[1..], " "));
    JoinSplit(Trim1(row[1].text.value), ' ');
  }

  /** A `startedAtTime` row is replaced by one centred two-column cell with the formatted time. */
  lemma EditRowTime(c: Ctx, title: Option<string>, row: Row)
    requires |row| == 2 && row[0].text.Some? && "startedAtTime" in Split(row[0].text.value, ':')
    requires EditRow(c, title, row).Done?
    ensures var e := EditRow(c, title, row).value.value;
            e.moved.Some? && |e.moved.value| == 1
            && e.moved.value[0].attrs == map["align" := "center", "colspan" := "2"]
            && e.moved.value[0].text.Some?
    ensures !("defaultValue" in Split(row[0].text.value, ':') && c.kind == "CommandParameter") ==>
              row[1].text.Some? &&
              EditRow(c, title, row).value.value.moved
                == Some(TimeRow(c.formatTime(Trim1(RemoveAll(row[1].text.value, "^^xsd:dateTime"))).value))
  {
  }

  /** Only `startedAtTime` rows move. */
  lemma EditRowStays(c: Ctx, title: Option<string>, row: Row)
    requires EditRow(c, title, row).Done? && EditRow(c, title, row).value.Some?
    ensures Moves(EditRow(c, title, row).value) <==> "startedAtTime" in Split(row[0].text.value, ':')
  {
  }

  // ---------------------------------------------------------------------
  // The whole node

  /** Lines 31-43: the title row's checks; the node's label and type when the title is known. */
  function Lookup(rows: seq<Row>, types: Option<map<string, string>>): Outcome<Option<(string, string)>>
  {
    if |rows| == 0 || |rows[0]| == 0 then Failed(IndexError)
    else if "bgcolor" !in rows[0][0].attrs then Failed(KeyError)
    else if FirstBold(rows[0][0].inner) < 0 then Failed(IndexError)
    else if types.None? then Failed(TypeError)
    else
      var t := TitleOf(rows[0]);
      if t.Some? && t.value in types.value then Done(Some((t.value, types.value[t.value]))) else Done(None)
  }

  /** The title row without the title cell's `bgcolor` (line 38). */
  function Uncolored(row: Row): Row
  {
    if |row| == 0 then row else row[0 := row[0].(attrs := row[0].attrs - {"bgcolor"})]
  }

  /** The snapshot rows when the row loop starts: the title cell uncoloured and retitled. */
  function Prepared(rows: seq<Row>, name: string, kind: string): seq<Row>
    requires |rows| > 0
  {
    rows[0 := WithTitle(Uncolored(rows[0]), Some(Retitled(kind, name)))]
  }

  /**
   * What `customize_node` raises or returns: the style it gives a node of a
   * known type, `None` when the title is unknown.
   */
  ghost function NodeOutcome(rows: seq<Row>, types: Option<map<string, string>>, fmt: string -> Option<string>): Outcome<Option<Style>>
  {
    match Lookup(rows, types)
    case Failed(e) => Failed(e)
    case Done(None) => Done(None)
    case Done(Some(lk)) =>
      if |rows| < 2 then Failed(IndexError)
      else
        var c := Ctx(lk.1, types.value, fmt);
        match Edits(c, Some(Retitled(lk.1, lk.0)), Prepared(rows, lk.0, lk.1), 0)
        case Failed(e) => Failed(e)
        case Done(_) => Done(Some(StyleOf(lk.1)))
  }

  /** Snapshot row `i` at the end of the loop, given its edit and the final title. */
  function FinalRow(pre: seq<Row>, es: seq<Option<Edit>>, title: Option<string>, i: nat): Row
    requires i < |pre| && i < |es|
  {
    if es[i].Some? then (if es[i].value.moved.Some? then [] else [es[i].value.cell])
    else if i == 0 then WithTitle(pre[0], title)
    else pre[i]
  }

  /** The rows the loop appends, in snapshot order. */
  function MovedRows(es: seq<Option<Edit>>): seq<Row>
  {
    if |es| == 0 then []
    else MovedRows(es[..|es| - 1]) + (if Moves(es[|es| - 1]) then [es[|es| - 1].value.moved.value] else [])
  }

  /** The rows a table shows: the attached snapshot rows in order. */
  function Shown(rows: seq<Row>, attached: seq<bool>): seq<Row>
    requires |rows| == |attached|
  {
    if |rows| == 0 then []
    else Shown(rows[..|rows| - 1], attached[..|rows| - 1]) + (if attached[|rows| - 1] then [rows[|rows| - 1]] else [])
  }

  /** A table with every row still in it shows exactly its rows. */
  lemma {:induction false} ShownAll(rows: seq<Row>, attached: seq<bool>)
    requires |rows| == |attached| && forall i :: 0 <= i < |attached| ==> attached[i]
    ensures Shown(rows, attached) == rows
    decreases |rows|
  {
    if |rows| > 0 {
      var n := |rows| - 1;
      ShownAll(rows[..n], attached[..n]);
      assert rows == rows[..n] + [rows[n]];
    }
  }

  /** The shown rows are the attached ones and no others, and never more than the snapshot. */
  lemma {:induction false} ShownMembers(rows: seq<Row>, attached: seq<bool>)
    requires |rows| == |attached|
    ensures |Shown(rows, attached)| <= |rows|
    ensures forall x :: x in Shown(rows, attached) <==> exists i :: 0 <= i < |rows| && attached[i] && rows[i] == x
    decreases |rows|
  {
    if |rows| > 0 {
      var n := |rows| - 1;
      var rs, fs := rows[..n], attached[..n];
      ShownMembers(rs, fs);
      forall x
        ensures x in Shown(rows, attached) <==> exists i :: 0 <= i < |rows| && attached[i] && rows[i] == x
      {
        if x in Shown(rs, fs) {
          var i :| 0 <= i < |rs| && fs[i] && rs[i] == x;
          assert attached[i] && rows[i] == x;
        }
        if exists i :: 0 <= i < |rows| && attached[i] && rows[i] == x {
          var i :| 0 <= i < |rows| && attached[i] && rows[i] == x;
          if i < n {
            assert fs[i] && rs[i] == x;
          }
        }
      }
    }
  }

  /**
   * The parsed node label. lxml only ever removes original rows and appends
   * new ones, so the table is the snapshot rows (`tr_list`), each still in
   * it or removed, followed by the appended rows. A removed row keeps its
   * contents, and edits to it are not shown.
   */
  class Table {
    var attrs: map<string, string>
    var rows: seq<Row>
    var attached: seq<bool>
    var appended: seq<Row>

    ghost predicate Valid()
      reads this
    {
      |attached| == |rows|
    }

    /** `etree.fromstring`: every row in the table, none appended. */
    ghost predicate Parsed()
      reads this
    {
      Valid() && appended == [] && forall i :: 0 <= i < |attached| ==> attached[i]
    }

    /** The rows the serialized label shows, in order. */
    function Visible(): seq<Row>
      reads this
      requires Valid()
    {
      Shown(rows, attached) + appended
    }

    constructor (attrs0: map<string, string>, rows0: seq<Row>)
      ensures attrs == attrs0 && rows == rows0 && Parsed()
      ensures Visible() == rows0
    {
      attrs := attrs0;
      rows := rows0;
      attached := seq(|rows0|, _ => true);
      appended := [];
      new;
      ShownAll(rows, attached);
    }

    /** `table_html.remove(tr_list[i])`; lxml refuses to remove a row that is not in the table. */
    method RemoveRow(i: nat) returns (r: Outcome<()>)
      requires Valid() && i < |rows|
      modifies this
      ensures Valid() && attrs == old(attrs) && rows == old(rows) && appended == old(appended)
      ensures old(attached[i]) ==> r == Done(()) && attached == old(attached)[i := false]
      ensures !old(attached[i]) ==> r == Failed(ValueError) && attached == old(attached)
    {
      if !attached[i] {
        return Failed(ValueError);
      }
      attached := attached[i := false];
      return Done(());
    }

    /** Lines 49-88: the default style, then the type's shape, colour and border. */
    method SetStyle(kind: string) returns (style: Style)
      modifies this
      ensures style == StyleOf(kind)
      ensures attrs == old(attrs)["border" := style.border]["cellborder" := "0"]
      ensures rows == old(rows) && attached == old(attached) && appended == old(appended)
    {
      style := StyleOf(kind);
      attrs := attrs["border" := style.border]["cellborder" := "0"];
    }

    /**
     * One pass of the row loop (lines 97-143) over snapshot row `i`, with
     * `title` the title element's text; `titleIn` says whether the title
     * cell is still in row 0.
     */
    method EditSnapshotRow(c: Ctx, i: nat, title: Option<string>, titleIn: bool) returns (r: Outcome<Option<Edit>>)
      requires Valid() && i < |rows|
      requires titleIn ==> TitleOf(rows[0]) == title
      modifies this
      ensures r == RowStep(c, title, old(rows[i]), old(attached[i]))
      ensures r.Done? ==>
                Valid() && attrs == old(attrs)
                && rows == Rewritten(old(rows), i, r.value, titleIn)
                && attached == old(attached)[i := old(attached[i]) && !Moves(r.value)]
                && appended == old(appended) + (if Moves(r.value) then [r.value.value.moved.value] else [])
    {
      hide SplitDefault, MovedTime, Unquoted, Centered, WithTitle, TitleOf;
      var cells := rows[i];
      if |cells| != 2 {
        return Done(None);
      }
      if cells[0].text.None? {
        return Failed(AttributeError);
      }
      var parts := Split(cells[0].text.value, ':');
      rows := rows[i := [cells[1]]];
      var d := SplitDefault(c, parts, title, Centered(cells[1]));
      if d.Failed? {
        return Failed(d.reason);
      }
      var (v, t) := d.value;
      if t != title && titleIn && i != 0 {
        rows := rows[0 := WithTitle(rows[0], t)];
      }
      WithTitleSelf(old(rows)[0]);
      var moved := MovedTime(c, parts, v);
      if moved.Failed? {
        return Failed(moved.reason);
      }
      if moved.value.Some? {
        rows := rows[i := []];
        var removed := RemoveRow(i);
        if removed.Failed? {
          MovedHasText(c, parts, v);
          return Failed(removed.reason);
        }
        appended := appended + [moved.value.value];
      }
      var w := Unquoted(c, parts, v);
      if w.Failed? {
        return Failed(w.reason);
      }
      if moved.value.None? {
        rows := rows[i := [w.value]];
      }
      return Done(Some(Edit(w.value, moved.value, t)));
    }

    /**
     * `customize_node` (lines 26-145) on the parsed label, for a node whose
     * pydot style becomes `filled` with the returned shape and colour. An
     * unknown title only loses its cell's `bgcolor`; a known one gets its
     * type's style and the row loop over the snapshot rows.
     */
    method CustomizeNode(types: Option<map<string, string>>, fmt: string -> Option<string>) returns (r: Outcome<Option<Style>>)
      requires Parsed()
      modifies this
      ensures r == NodeOutcome(old(rows), types, fmt)
      ensures r == Done(None) ==>
                attrs == old(attrs) && attached == old(attached) && appended == [] && rows == old(rows)[0 := Uncolored(old(rows)[0])]
                && Visible() == old(rows)[0 := Uncolored(old(rows)[0])]
      ensures r.Done? && r.value.Some? ==>
                var lk := Lookup(old(rows), types).value.value;
                var c := Ctx(lk.1, types.value, fmt);
                var pre := Prepared(old(rows), lk.0, lk.1);
                var run := Edits(c, Some(Retitled(lk.1, lk.0)), pre, 0).value;
                Valid() && |run.0| == |rows| == |pre|
                && r.value.value == StyleOf(lk.1)
                && attrs == old(attrs)["border" := StyleOf(lk.1).border]["cellborder" := "0"]
                && (forall i :: 0 <= i < |rows| ==> rows[i] == FinalRow(pre, run.0, run.1, i))
                && (forall i :: 0 <= i < |rows| ==> attached[i] == (AttachedAtLoop(lk.1, i) && !Moves(run.0[i])))
                && appended == MovedRows(run.0)
                && Visible() == Shown(rows, attached) + MovedRows(run.0)
    {
      var pr, style := PrepareNode(types);
      if pr.Failed? {
        return Failed(pr.reason);
      }
      if pr.value.None? {
        ShownAll(rows, attached);
        return Done(None);
      }
      var (name, kind) := pr.value.value;
      var c := Ctx(kind, types.value, fmt);
      var done := EditRows(c, Some(Retitled(kind, name)));
      if done.Failed? {
        return Failed(done.reason);
      }
      return Done(Some(style));
    }

    /**
     * Lines 31-95, before the row loop: the title row's checks, the title's
     * retitling, the type's style and the removal of the rows the type drops.
     * The node's label and type come back when the title is known.
     */
    method PrepareNode(types: Option<map<string, string>>) returns (r: Outcome<Option<(string, string)>>, style: Style)
      requires Parsed()
      modifies this
      ensures var lk := Lookup(old(rows), types);
              r == (if lk.Done? && lk.value.Some? && |old(rows)| < 2 then Failed(IndexError) else lk)
      ensures r == Done(None) ==>
                attrs == old(attrs) && attached == old(attached) && appended == [] && rows == old(rows)[0 := Uncolored(old(rows)[0])]
      ensures r.Done? && r.value.Some? ==>
                var lk := r.value.value;
                Valid() && appended == [] && |rows| == |old(rows)| >= 2
                && style == StyleOf(lk.1)
                && attrs == old(attrs)["border" := StyleOf(lk.1).border]["cellborder" := "0"]
                && rows == Prepared(old(rows), lk.0, lk.1)
                && TitleOf(rows[0]) == Some(Retitled(lk.1, lk.0)) && |rows[0]| > 0 && FirstBold(rows[0][0].inner) >= 0
                && (forall j :: 0 <= j < |rows| ==> attached[j] == AttachedAtLoop(lk.1, j))
    {
      style := StyleOf("");
      r := RetitleNode(types);
      if r.Failed? || r.value.None? {
        return;
      }
      var (name, kind) := r.value.value;
      ghost var prepared := rows;
      hide Prepared, Lookup, TitleOf, FirstBold, StyleOf;
      style := SetStyle(kind);
      if kind == "CommandInput" || kind == "Action" {
        var _ := RemoveRow(0);
      }
      if |rows| < 2 {
        return Failed(IndexError), style;
      }
      var _ := RemoveRow(1);
      assert rows == prepared;
    }

    /**
     * Lines 31-48: the title row's checks, the title cell's `bgcolor` dropped
     * and, when the title is a known label, the title rewritten for its type.
     */
    method RetitleNode(types: Option<map<string, string>>) returns (r: Outcome<Option<(string, string)>>)
      requires Parsed()
      modifies this
      ensures r == Lookup(old(rows), types)
      ensures attrs == old(attrs) && attached == old(attached) && appended == []
      ensures r == Done(None) ==> rows == old(rows)[0 := Uncolored(old(rows)[0])]
      ensures r.Done? && r.value.Some? ==>
                var lk := r.value.value;
                rows == Prepared(old(rows), lk.0, lk.1)
                && TitleOf(rows[0]) == Some(Retitled(lk.1, lk.0)) && |rows[0]| > 0 && FirstBold(rows[0][0].inner) >= 0
    {
      if |rows| == 0 || |rows[0]| == 0 {
        return Failed(IndexError);
      }
      if "bgcolor" !in rows[0][0].attrs {
        return Failed(KeyError);
      }
      rows := rows[0 := Uncolored(rows[0])];
      if FirstBold(rows[0][0].inner) < 0 {
        return Failed(IndexError);
      }
      if types.None? {
        return Failed(TypeError);
      }
      var title := TitleOf(rows[0]);
      assert title == TitleOf(old(rows)[0]);
      if !(title.Some? && title.value in types.value) {
        return Done(None);
      }
      var name := title.value;
      var kind := types.value[name];
      hide Lookup, Uncolored;
      RenameTitle(name, kind);
      assert rows == Prepared(old(rows), name, kind);
      return Done(Some((name, kind)));
    }

    /**
     * Lines 44-48: the title element's text becomes the node's type, parameters
     * keeping their label, and a `CommandOutput...` type loses that prefix.
     */
    method RenameTitle(name: string, kind: string)
      requires |rows| > 0 && |rows[0]| > 0 && FirstBold(rows[0][0].inner) >= 0 && TitleOf(rows[0]) == Some(name)
      modifies this
      ensures rows == old(rows)[0 := WithTitle(old(rows)[0], Some(Retitled(kind, name)))]
      ensures attrs == old(attrs) && attached == old(attached) && appended == old(appended)
      ensures TitleOf(rows[0]) == Some(Retitled(kind, name)) && |rows[0]| > 0 && FirstBold(rows[0][0].inner) >= 0
    {
      var title := Some(name);
      ghost var base := rows[0];
      WithTitleSelf(base);
      if kind != "CommandParameter" {
        WithTitleTwice(base, title, Some(kind));
        title := Some(kind);
        rows := rows[0 := WithTitle(rows[0], title)];
      }
      if StartsWith(title.value, "CommandOutput") && title.value != "CommandOutput" {
        WithTitleTwice(base, title, Some(title.value[13..]));
        title := Some(title.value[13..]);
        rows := rows[0 := WithTitle(rows[0], title)];
      }
      assert title == Some(Retitled(kind, name)) && rows[0] == WithTitle(base, title);
      WithTitleTwice(base, title, title);
    }

    /** One pass of the row loop over snapshot row `i`, the rows before it done. */
    method VisitRow(c: Ctx, ghost pre: seq<Row>, ghost es: seq<Option<Edit>>, i: nat, t: Option<string>, titleIn: bool,
                    ghost title: Option<string>)
      returns (e: Outcome<Option<Edit>>)
      requires Valid() && |es| == i < |pre|
      requires Edits(c, title, pre, 0) == Then(es, Edits(c, t, pre[i..], i))
      requires RowsSoFar(c.kind, pre, es, t, titleIn, rows, attached, appended)
      modifies this
      ensures e.Failed? ==> Edits(c, title, pre, 0) == Failed(e.reason)
      ensures e.Done? ==>
                Valid() && attrs == old(attrs)
                && Edits(c, title, pre, 0) == Then(es + [e.value], Edits(c, TitleAfter(e.value, t), pre[i + 1..], i + 1))
                && RowsSoFar(c.kind, pre, es + [e.value], TitleAfter(e.value, t), titleIn && !(i == 0 && e.value.Some?),
                             rows, attached, appended)
    {
      assert (titleIn ==> TitleOf(rows[0]) == t) && rows[i] == pre[i] && |rows| == |pre|;
      hide Edits, Then, RowStep, RowsSoFar;
      ghost var att0 := attached[i];
      ghost var before := (rows, attached, appended);
      e := EditSnapshotRow(c, i, t, titleIn);
      assert pre[i..][0] == pre[i];
      if e.Failed? {
        EditsFail(c, t, pre[i..], i, es);
        return;
      }
      EditsStep(c, t, pre[i..], i, e.value);
      RowStepNone(c, t, pre[i], att0);
      RowsSoFarStep(c.kind, pre, es, t, titleIn, before.0, before.1, before.2, e.value);
      assert pre[i..][1..] == pre[i + 1..];
      ThenThen(es, [e.value], Edits(c, TitleAfter(e.value, t), pre[i + 1..], i + 1));
    }

    /**
     * The row loop (lines 96-143) over every snapshot row, in order, with
     * `title` the title element's text; rows 0 and 1 may already be removed.
     */
    method EditRows(c: Ctx, title: Option<string>) returns (r: Outcome<()>)
      requires Valid() && appended == [] && |rows| > 0
      requires TitleOf(rows[0]) == title && |rows[0]| > 0 && FirstBold(rows[0][0].inner) >= 0
      requires forall j :: 0 <= j < |rows| ==> attached[j] == AttachedAtLoop(c.kind, j)
      modifies this
      ensures r.Failed? <==> Edits(c, title, old(rows), 0).Failed?
      ensures r.Failed? ==> r.reason == Edits(c, title, old(rows), 0).reason
      ensures r.Done? ==>
                var run := Edits(c, title, old(rows), 0).value;
                Valid() && attrs == old(attrs) && |run.0| == |rows| == |old(rows)|
                && (forall i :: 0 <= i < |rows| ==> rows[i] == FinalRow(old(rows), run.0, run.1, i))
                && (forall i :: 0 <= i < |rows| ==> attached[i] == (AttachedAtLoop(c.kind, i) && !Moves(run.0[i])))
                && appended == MovedRows(run.0)
    {
      ghost var pre := rows;
      ghost var es: seq<Option<Edit>> := [];
      var t := title;
      var titleIn := true;
      var n := |rows|;
      EditRowsStart(c, title, rows, attached);
      hide Edits, Then, RowsSoFar, EditRow, RowStep, FinalRow, MovedRows;
      for i := 0 to n
        invariant Valid() && |es| == i && attrs == old(attrs)
        invariant Edits(c, title, pre, 0) == Then(es, Edits(c, t, pre[i..], i))
        invariant RowsSoFar(c.kind, pre, es, t, titleIn, rows, attached, appended)
      {
        var e := VisitRow(c, pre, es, i, t, titleIn, title);
        if e.Failed? {
          return Failed(e.reason);
        }
        t := TitleAfter(e.value, t);
        if i == 0 && e.value.Some? {
          titleIn := false;
        }
        es := es + [e.value];
      }
      EditRowsEnd(c, title, pre, es, t, titleIn, rows, attached, appended);
      return Done(());
    }
  }
}
