/**
 * The daily report of app.js (`generatePDF`): a layout pass that walks the
 * checklist in order with a vertical cursor and emits drawing instructions
 * for a PDF writer.
 *
 * The page's form state for each task (checkbox, comment field, photo
 * field) is given as a lookup by position, which the report reads into a
 * tick, a trimmed comment and a photo before laying out. Every image is
 * given by its decoded intrinsic size. Coordinates are exact reals.
 */
module Report {
  import opened Checklists
  import App
  import Storage

  /** An intrinsic image dimension, which the layout divides by. */
  type Pixels = n: int | 0 < n witness 1

  datatype Dims = Dims(width: Pixels, height: Pixels)

  /**
   * What the checklist page holds for task `j` of section `i`: the checkbox
   * state if there is a checkbox, the comment field's text if there is a
   * comment field, and the size of the first attached photo if any.
   */
  datatype Artifact = Artifact(checkbox: Option<bool>, comment: Option<string>, photo: Option<Dims>)

  type Artifacts = (nat, nat) -> Artifact

  /**
   * What the report takes from the page for one task: whether it is ticked,
   * its comment with surrounding whitespace removed (empty without a comment
   * field), and its photo.
   */
  datatype Reading = Reading(checked: bool, comment: string, photo: Option<Dims>)

  type Readings = (nat, nat) -> Reading

  datatype ImageSource = Logo | Photo(section: nat, task: nat) | SignaturePad

  /** One call on the PDF writer: `text`, `addImage` or `addPage`. */
  datatype Instr =
    | Text(x: real, y: real, fontSize: nat, text: string)
    | Image(source: ImageSource, x: real, y: real, width: real, height: real)
    | NewPage

  /** Instructions laid out from some cursor position, and where the cursor ends. */
  datatype Placed = Placed(out: seq<Instr>, y: real)

  // Positions and sizes.
  const Top: real := 20.0
  const BreakAfter: real := 260.0
  const Margin: real := 20.0
  const TaskIndent: real := 25.0
  const DetailIndent: real := 30.0
  const LogoWidth: real := 40.0
  const PhotoWidth: real := 60.0
  const SignatureWidth: real := 60.0
  const SignatureHeight: real := 20.0
  const FooterY: real := 285.0

  // Cursor advances.
  const LogoGap: real := 5.0
  const TitleAdvance: real := 12.0
  const HeadingAdvance: real := 8.0
  const LineAdvance: real := 6.0
  const PhotoGap: real := 4.0
  const SectionGap: real := 4.0
  const SignatureLabelAdvance: real := 4.0
  const SignatureAdvance: real := 30.0

  // Font sizes.
  const TitleSize: nat := 18
  const HeadingSize: nat := 14
  const TaskSize: nat := 12
  const CommentSize: nat := 10
  const SignatureSize: nat := 12
  const FooterSize: nat := 8

  const Title: string := "Rapport quotidien NovaCheck"
  const SignatureLabel: string := "Signature:"
  const Footer: string := "NovaCheck est créé par la société NovaSoft, appartenant au groupe Berry&Co."
  const FileName: string := "rapport_novacheck.pdf"

  const FooterLine: Instr := Text(Margin, FooterY, FooterSize, Footer)

  // ---------------------------------------------------------------------------
  // What one task contributes
  // ---------------------------------------------------------------------------

  /** The trimmed comment; a page without a comment field gives the empty one. */
  function CommentText(a: Artifact): string {
    match a.comment
    case Some(v) => Trim(v)
    case None => ""
  }

  /** How the report reads one task's fields. */
  function Read(a: Artifact): Reading {
    Reading(a.checkbox == Some(true), CommentText(a), a.photo)
  }

  /** Every task's fields, read. */
  function ReadAll(arts: Artifacts): Readings {
    (i: nat, j: nat) => Read(arts(i, j))
  }

  /**
   * A task reads as ticked exactly when it has a checkbox that is checked.
   * Its comment is empty exactly when there is no comment field or the field
   * holds only whitespace; otherwise it neither starts nor ends with
   * whitespace, so trimming it again changes nothing.
   */
  lemma ReadFacts(a: Artifact)
    ensures var r := Read(a);
      && (r.checked <==> a.checkbox.Some? && a.checkbox.value)
      && r.photo == a.photo
      && (r.comment == [] <==> a.comment.None? || AllWhitespace(a.comment.value))
      && (r.comment != [] ==> !IsWhitespace(r.comment[0]) && !IsWhitespace(r.comment[|r.comment| - 1]))
      && Trim(r.comment) == r.comment
  {
    if a.comment.Some? {
      TrimSpec(a.comment.value);
      TrimIdempotent(a.comment.value);
    }
  }

  /** OK when the task is ticked, KO otherwise. */
  function Status(a: Reading): string {
    if a.checked then "OK" else "KO"
  }

  function StatusLine(task: string, a: Reading): string {
    "- " + task + ": " + Status(a)
  }

  function CommentLine(comment: string): string {
    "Commentaire: " + comment
  }

  /** A fixed display width and the height that keeps the image's aspect ratio. */
  function Scaled(width: real, d: Dims): (h: real)
    requires width > 0.0
    ensures h > 0.0
    ensures h * (d.width as real) == width * (d.height as real)
  {
    width * ((d.height as real) / (d.width as real))
  }

  /** The status line, then the comment line if any, then the photo if any. */
  function TaskLayout(i: nat, j: nat, task: string, a: Reading, y: real): Placed {
    var comment := a.comment;
    var y1 := y + LineAdvance;
    var notes := if comment != [] then [Text(DetailIndent, y1, CommentSize, CommentLine(comment))] else [];
    var y2 := if comment != [] then y1 + LineAdvance else y1;
    var pictures := match a.photo
      case Some(d) => [Image(Photo(i, j), DetailIndent, y2, PhotoWidth, Scaled(PhotoWidth, d))]
      case None => [];
    var y3 := match a.photo
      case Some(d) => y2 + Scaled(PhotoWidth, d) + PhotoGap
      case None => y2;
    Placed([Text(TaskIndent, y, TaskSize, StatusLine(task, a))] + notes + pictures, y3)
  }

  /** The first `n` tasks of section `i`, laid out from `y`. */
  function TasksLayout(i: nat, tasks: seq<string>, form: Readings, y: real, n: nat): Placed
    requires n <= |tasks|
  {
    if n == 0 then Placed([], y)
    else
      var prev := TasksLayout(i, tasks, form, y, n - 1);
      var t := TaskLayout(i, n - 1, tasks[n - 1], form(i, n - 1), prev.y);
      Placed(prev.out + t.out, t.y)
  }

  /** The heading, the tasks and the trailing gap, then the page-break check. */
  function SectionLayout(i: nat, sec: Section, form: Readings, y: real): Placed {
    var body := TasksLayout(i, sec.tasks, form, y + HeadingAdvance, |sec.tasks|);
    PageBreak([Text(Margin, y, HeadingSize, sec.name)] + body.out, body.y + SectionGap)
  }

  /** A new page when the cursor `end` has passed the break line, which puts the cursor back at the top margin. */
  function PageBreak(run: seq<Instr>, end: real): Placed {
    if end > BreakAfter then Placed(run + [NewPage], Top) else Placed(run, end)
  }

  /** The first `n` sections, laid out from `y`. */
  function SectionsLayout(c: Checklist, form: Readings, y: real, n: nat): Placed
    requires n <= |c|
  {
    if n == 0 then Placed([], y)
    else
      var prev := SectionsLayout(c, form, y, n - 1);
      var s := SectionLayout(n - 1, c[n - 1], form, prev.y);
      Placed(prev.out + s.out, s.y)
  }

  /** The logo, if one is stored, then the title. */
  function HeaderLayout(logo: Option<Dims>): Placed {
    match logo
    case None => Placed([Text(Margin, Top, TitleSize, Title)], Top + TitleAdvance)
    case Some(d) =>
      var h := Scaled(LogoWidth, d);
      var t := Top + h + LogoGap;
      Placed([Image(Logo, Margin, Top, LogoWidth, h), Text(Margin, t, TitleSize, Title)], t + TitleAdvance)
  }

  /** The signature label and image when the page has a signature pad. */
  function TrailerLayout(signature: bool, y: real): Placed {
    if signature then
      Placed([Text(Margin, y, SignatureSize, SignatureLabel),
              Image(SignaturePad, Margin, y + SignatureLabelAdvance, SignatureWidth, SignatureHeight)],
             y + SignatureLabelAdvance + SignatureAdvance)
    else Placed([], y)
  }

  /** The whole report: header, sections, signature block, footer. */
  function ReportLayout(c: Checklist, form: Readings, logo: Option<Dims>, signature: bool): seq<Instr> {
    var header := HeaderLayout(logo);
    var body := SectionsLayout(c, form, header.y, |c|);
    header.out + body.out + TrailerLayout(signature, body.y).out + [FooterLine]
  }

  // ---------------------------------------------------------------------------
  // The layout pass
  // ---------------------------------------------------------------------------

  /** One pass of the task loop: status line, comment, photo, each moving the cursor down. */
  method PlaceTask(i: nat, j: nat, task: string, a: Reading, y: real) returns (out: seq<Instr>, y': real)
    ensures Placed(out, y') == TaskLayout(i, j, task, a, y)
  {
    y' := y;
    var comment := a.comment;
    out := [Text(TaskIndent, y', TaskSize, StatusLine(task, a))];
    y' := y' + LineAdvance;
    if comment != [] {
      out := out + [Text(DetailIndent, y', CommentSize, CommentLine(comment))];
      y' := y' + LineAdvance;
    }
    ghost var withNotes := out;
    if a.photo.Some? {
      var imgHeight := Scaled(PhotoWidth, a.photo.value);
      out := out + [Image(Photo(i, j), DetailIndent, y', PhotoWidth, imgHeight)];
      y' := y' + imgHeight + PhotoGap;
    } else {
      assert out == withNotes + [];
    }
  }

  /** The task loop of one section, from the cursor below its heading. */
  method PlaceTasks(i: nat, tasks: seq<string>, form: Readings, y: real) returns (out: seq<Instr>, y': real)
    ensures Placed(out, y') == TasksLayout(i, tasks, form, y, |tasks|)
  {
    out, y' := [], y;
    var taskIndex := 0;
    while taskIndex < |tasks|
      invariant taskIndex <= |tasks|
      invariant Placed(out, y') == TasksLayout(i, tasks, form, y, taskIndex)
    {
      var more;
      more, y' := PlaceTask(i, taskIndex, tasks[taskIndex], form(i, taskIndex), y');
      out := out + more;
      taskIndex := taskIndex + 1;
    }
  }

  /**
   * One pass of the section loop: the heading, the tasks, the trailing gap
   * and the page-break check.
   */
  method PlaceSection(i: nat, section: Section, form: Readings, y: real) returns (out: seq<Instr>, y': real)
    ensures Placed(out, y') == SectionLayout(i, section, form, y)
  {
    var heading := [Text(Margin, y, HeadingSize, section.name)];
    var tasks;
    tasks, y' := PlaceTasks(i, section.tasks, form, y + HeadingAdvance);
    out := heading + tasks;
    y' := y' + SectionGap;
    if y' > BreakAfter {
      out := out + [NewPage];
      y' := Top;
    }
  }

  /** The section loop, from the cursor below the title. */
  method PlaceSections(sections: Checklist, form: Readings, y: real) returns (out: seq<Instr>, y': real)
    ensures Placed(out, y') == SectionsLayout(sections, form, y, |sections|)
  {
    out, y' := [], y;
    var secIndex := 0;
    while secIndex < |sections|
      invariant secIndex <= |sections|
      invariant Placed(out, y') == SectionsLayout(sections, form, y, secIndex)
    {
      var more;
      more, y' := PlaceSection(secIndex, sections[secIndex], form, y');
      out := out + more;
      secIndex := secIndex + 1;
    }
  }

  /**
   * `generatePDF` once the logo has been decoded and the checklist loaded:
   * a cursor starting at the top margin, the logo and title, the sections,
   * the signature block and the footer.
   */
  method Compile(sections: Checklist, form: Readings, logo: Option<Dims>, signature: bool)
    returns (doc: seq<Instr>)
    ensures doc == ReportLayout(sections, form, logo, signature)
  {
    var y := Top;
    doc := [];
    if logo.Some? {
      var height := Scaled(LogoWidth, logo.value);
      doc := doc + [Image(Logo, Margin, y, LogoWidth, height)];
      y := y + height + LogoGap;
    }
    doc := doc + [Text(Margin, y, TitleSize, Title)];
    y := y + TitleAdvance;
    assert Placed(doc, y) == HeaderLayout(logo);

    var body;
    body, y := PlaceSections(sections, form, y);
    doc := doc + body;

    if signature {
      doc := doc + [Text(Margin, y, SignatureSize, SignatureLabel)];
      y := y + SignatureLabelAdvance;
      doc := doc + [Image(SignaturePad, Margin, y, SignatureWidth, SignatureHeight)];
      y := y + SignatureAdvance;
    }
    doc := doc + [FooterLine];
  }

  /** The decoded size of the stored logo, if there is one. */
  function LogoDims(stored: Option<string>, decode: string -> Dims): Option<Dims> {
    match stored
    case Some(url) => Some(decode(url))
    case None => None
  }

  /**
   * `generatePDF`: read the logo, decode it, load the checklist (which may
   * write the defaults back), read each task's fields and lay the report
   * out. The report is saved under a fixed file name.
   */
  method GeneratePdf(page: App.Page, arts: Artifacts, decode: string -> Dims, signature: bool)
    returns (fileName: string, doc: seq<Instr>)
    modifies page.store
    ensures fileName == FileName
    ensures doc == ReportLayout(page.Current(old(page.store.items)), ReadAll(arts),
                                LogoDims(old(page.GetLogo()), decode), signature)
    ensures page.store.items == Storage.AfterLoad(old(page.store.items), page.defaults)
  {
    var stored := page.GetLogo();
    var logo := LogoDims(stored, decode);
    var sections := page.LoadSections();
    doc := Compile(sections, ReadAll(arts), logo, signature);
    fileName := FileName;
  }

  // ---------------------------------------------------------------------------
  // Reference definitions: heights, text and flow
  // ---------------------------------------------------------------------------

  /** How far one task moves the cursor: a line, a comment line if any, a photo and its gap if any. */
  function TaskHeight(a: Reading): real {
    LineAdvance
    + (if a.comment != [] then LineAdvance else 0.0)
    + (match a.photo case Some(d) => Scaled(PhotoWidth, d) + PhotoGap case None => 0.0)
  }

  /** The sum of the heights of the first `n` tasks of section `i`. */
  function TasksHeight(i: nat, tasks: seq<string>, form: Readings, n: nat): real
    requires n <= |tasks|
  {
    if n == 0 then 0.0 else TasksHeight(i, tasks, form, n - 1) + TaskHeight(form(i, n - 1))
  }

  /** A section's height before the break check: heading, tasks, trailing gap. */
  function SectionHeight(i: nat, sec: Section, form: Readings): real {
    HeadingAdvance + TasksHeight(i, sec.tasks, form, |sec.tasks|) + SectionGap
  }

  /** The strings of the text instructions, in order. */
  function Lines(out: seq<Instr>): seq<string> {
    if out == [] then [] else (if out[0].Text? then [out[0].text] else []) + Lines(out[1..])
  }

  /** What a task says: its status line and, when there is one, its comment. */
  function TaskText(task: string, a: Reading): seq<string> {
    [StatusLine(task, a)] + (if a.comment != [] then [CommentLine(a.comment)] else [])
  }

  function TasksText(i: nat, tasks: seq<string>, form: Readings, n: nat): seq<string>
    requires n <= |tasks|
  {
    if n == 0 then [] else TasksText(i, tasks, form, n - 1) + TaskText(tasks[n - 1], form(i, n - 1))
  }

  /** What the first `n` sections say: each name, then what each of its tasks says. */
  function SectionsText(c: Checklist, form: Readings, n: nat): seq<string>
    requires n <= |c|
  {
    if n == 0 then [] else SectionsText(c, form, n - 1) + SectionText(n - 1, c[n - 1], form)
  }

  /** What section `i` says: its name, then what each of its tasks says. */
  function SectionText(i: nat, sec: Section, form: Readings): seq<string> {
    [sec.name] + TasksText(i, sec.tasks, form, |sec.tasks|)
  }

  predicate NoBreak(out: seq<Instr>) {
    forall k :: 0 <= k < |out| ==> !out[k].NewPage?
  }

  /**
   * Read in order from a cursor at `y`, no block sits above the one before
   * it on the same page, and the first block after every new page sits
   * exactly at the top margin.
   */
  predicate Flows(out: seq<Instr>, y: real)
    decreases |out|
  {
    if out == [] then true
    else if out[0].NewPage? then
      |out| == 1 || (!out[1].NewPage? && out[1].y == Top && Flows(out[1..], Top))
    else y <= out[0].y && Flows(out[1..], out[0].y)
  }

  /** The position of the last block read, or the top margin after a trailing new page. */
  function Cursor(out: seq<Instr>, y: real): real
    decreases |out|
  {
    if out == [] then y else Cursor(out[1..], if out[0].NewPage? then Top else out[0].y)
  }

  predicate EndsWithBreak(out: seq<Instr>) {
    out != [] && out[|out| - 1].NewPage?
  }

  /** The first block of `out` is not a new page and sits at `y`. */
  predicate Opens(out: seq<Instr>, y: real) {
    out != [] && !out[0].NewPage? && out[0].y == y
  }

  // ---------------------------------------------------------------------------
  // Facts about sequences of instructions
  // ---------------------------------------------------------------------------

  lemma {:induction false} LinesAppend(a: seq<Instr>, b: seq<Instr>)
    ensures Lines(a + b) == Lines(a) + Lines(b)
    decreases |a|
  {
    if a == [] {
      assert a + b == b;
    } else {
      assert (a + b)[0] == a[0];
      assert (a + b)[1..] == a[1..] + b;
      LinesAppend(a[1..], b);
    }
  }

  lemma NoBreakAppend(a: seq<Instr>, b: seq<Instr>)
    requires NoBreak(a) && NoBreak(b)
    ensures NoBreak(a + b)
  {
    forall k | 0 <= k < |a + b| ensures !(a + b)[k].NewPage? {
      if k < |a| { assert (a + b)[k] == a[k]; } else { assert (a + b)[k] == b[k - |a|]; }
    }
  }

  lemma FlowsFromHigher(out: seq<Instr>, y: real, z: real)
    requires Flows(out, z) && y <= z
    ensures Flows(out, y)
  {
  }

  /** The cursor after a non-empty run of blocks does not depend on where reading started. */
  lemma CursorOfNonEmpty(out: seq<Instr>, y: real, z: real)
    requires out != []
    ensures Cursor(out, y) == Cursor(out, z)
  {
  }

  /** A block at or below the cursor flows, and leaves the cursor at its own position. */
  lemma Single(x: Instr, y: real)
    requires !x.NewPage? && y <= x.y
    ensures Flows([x], y) && Cursor([x], y) == x.y && NoBreak([x])
  {
    assert [x][1..] == [];
  }

  lemma LinesOne(x: Instr)
    ensures Lines([x]) == if x.Text? then [x.text] else []
  {
    assert [x][1..] == [];
  }

  /** At most one block, placed at the cursor. */
  lemma Optional(xs: seq<Instr>, y: real)
    requires xs == [] || (|xs| == 1 && !xs[0].NewPage? && xs[0].y == y)
    ensures Flows(xs, y) && Cursor(xs, y) == y && NoBreak(xs)
  {
    if xs != [] {
      Single(xs[0], y);
      assert xs == [xs[0]];
    }
  }

  /**
   * Two runs that each flow join into one that flows, provided the second
   * starts at or below where the first left the cursor, and right at the top
   * margin when the first ended with a new page.
   */
  lemma {:induction false} FlowsAppend(a: seq<Instr>, b: seq<Instr>, y: real, z: real)
    requires Flows(a, y) && Cursor(a, y) <= z && Flows(b, z)
    requires EndsWithBreak(a) ==> z == Top && (b == [] || Opens(b, Top))
    ensures Flows(a + b, y)
    ensures Cursor(a + b, y) == Cursor(b, Cursor(a, y))
    decreases |a|
  {
    if a == [] {
      assert a + b == b;
      FlowsFromHigher(b, y, z);
    } else {
      var ab := a + b;
      assert ab[0] == a[0];
      assert ab[1..] == a[1..] + b;
      var y' := if a[0].NewPage? then Top else a[0].y;
      if a[1..] != [] {
        assert EndsWithBreak(a[1..]) == EndsWithBreak(a);
        assert a[1..][0] == a[1];
      }
      FlowsAppend(a[1..], b, y', z);
      if a[0].NewPage? && |a| == 1 {
        assert b == [] || ab[1] == b[0];
      } else if a[0].NewPage? {
        assert ab[1] == a[1];
      }
    }
  }

  // ---------------------------------------------------------------------------
  // What the layout promises, block by block
  // ---------------------------------------------------------------------------

  /**
   * A task's blocks start with its status line at the cursor, flow down
   * without a new page, say its status line and comment, and move the cursor
   * by the task's height.
   */
  lemma TaskFacts(i: nat, j: nat, task: string, a: Reading, y: real)
    ensures var p := TaskLayout(i, j, task, a, y);
      && p.out != [] && p.out[0] == Text(TaskIndent, y, TaskSize, StatusLine(task, a))
      && NoBreak(p.out) && Flows(p.out, y) && Cursor(p.out, y) <= p.y
      && p.y == y + TaskHeight(a)
      && Lines(p.out) == TaskText(task, a)
  {
    var comment := a.comment;
    var y1 := y + LineAdvance;
    var notes := if comment != [] then [Text(DetailIndent, y1, CommentSize, CommentLine(comment))] else [];
    var y2 := if comment != [] then y1 + LineAdvance else y1;
    var pictures := match a.photo
      case Some(d) => [Image(Photo(i, j), DetailIndent, y2, PhotoWidth, Scaled(PhotoWidth, d))]
      case None => [];
    var status := Text(TaskIndent, y, TaskSize, StatusLine(task, a));
    Single(status, y);
    LinesOne(status);
    Optional(notes, y1);
    Optional(pictures, y2);
    FlowsAppend([status], notes, y, y1);
    NoBreakAppend([status], notes);
    LinesAppend([status], notes);
    if comment != [] {
      Single(notes[0], y1);
      LinesOne(notes[0]);
      assert notes == [notes[0]];
    }
    FlowsAppend([status] + notes, pictures, y, y2);
    NoBreakAppend([status] + notes, pictures);
    LinesAppend([status] + notes, pictures);
    if a.photo.Some? {
      Single(pictures[0], y2);
      LinesOne(pictures[0]);
      assert pictures == [pictures[0]];
    }
  }

  /**
   * Joining a run that flows with one that opens where the first left the
   * cursor (at the top margin after a new page) gives a run that flows.
   */
  lemma Join(a: seq<Instr>, b: seq<Instr>, y: real, z: real, w: real)
    requires Flows(a, y) && Cursor(a, y) <= z && (EndsWithBreak(a) ==> z == Top)
    requires Flows(b, z) && Cursor(b, z) <= w && (b == [] || Opens(b, z))
    ensures Flows(a + b, y) && Cursor(a + b, y) <= w
    ensures b != [] ==> EndsWithBreak(a + b) == EndsWithBreak(b)
    ensures b == [] ==> a + b == a
    ensures Lines(a + b) == Lines(a) + Lines(b)
  {
    FlowsAppend(a, b, y, z);
    LinesAppend(a, b);
    if b != [] {
      CursorOfNonEmpty(b, Cursor(a, y), z);
      assert (a + b)[|a + b| - 1] == b[|b| - 1];
    } else {
      assert a + b == a;
    }
  }

  lemma NoBreakNotEnding(a: seq<Instr>)
    requires NoBreak(a)
    ensures !EndsWithBreak(a)
  {
    if a != [] {
      assert !a[|a| - 1].NewPage?;
    }
  }

  /**
   * The tasks of a section flow down the page without a new page, say what
   * each task says in order, and move the cursor by the sum of their heights.
   */
  lemma {:induction false} TasksFacts(i: nat, tasks: seq<string>, form: Readings, y: real, n: nat)
    requires n <= |tasks|
    ensures var p := TasksLayout(i, tasks, form, y, n);
      && NoBreak(p.out) && Flows(p.out, y) && Cursor(p.out, y) <= p.y
      && (n > 0 ==> Opens(p.out, y))
      && p.y == y + TasksHeight(i, tasks, form, n)
      && Lines(p.out) == TasksText(i, tasks, form, n)
  {
    if n > 0 {
      TasksFacts(i, tasks, form, y, n - 1);
      TasksFactsStep(i, tasks, form, y, n - 1);
    }
  }

  lemma TasksFactsStep(i: nat, tasks: seq<string>, form: Readings, y: real, n: nat)
    requires n < |tasks|
    requires var p := TasksLayout(i, tasks, form, y, n);
      && NoBreak(p.out) && Flows(p.out, y) && Cursor(p.out, y) <= p.y
      && (n > 0 ==> Opens(p.out, y))
      && p.y == y + TasksHeight(i, tasks, form, n)
      && Lines(p.out) == TasksText(i, tasks, form, n)
    ensures var p := TasksLayout(i, tasks, form, y, n + 1);
      && NoBreak(p.out) && Flows(p.out, y) && Cursor(p.out, y) <= p.y
      && Opens(p.out, y)
      && p.y == y + TasksHeight(i, tasks, form, n + 1)
      && Lines(p.out) == TasksText(i, tasks, form, n + 1)
  {
    var prev := TasksLayout(i, tasks, form, y, n);
    var a := form(i, n);
    var t := TaskLayout(i, n, tasks[n], a, prev.y);
    TaskFacts(i, n, tasks[n], a, prev.y);
    NoBreakNotEnding(prev.out);
    Join(prev.out, t.out, y, prev.y, t.y);
    NoBreakAppend(prev.out, t.out);
    if n > 0 {
      OpensPrefix(prev.out, t.out, y);
    } else {
      assert prev.out + t.out == t.out;
    }
  }

  /**
   * The page-break rule. A section opens with its heading at the cursor and
   * moves the cursor down by its height, unless that passes the break line:
   * then a new page follows the section and the cursor returns to the top
   * margin. The new page, if any, is the section's last instruction, so a
   * section is never broken inside.
   */
  lemma SectionFacts(i: nat, sec: Section, form: Readings, y: real)
    ensures var p := SectionLayout(i, sec, form, y);
      var h := SectionHeight(i, sec, form);
      && p.out != [] && p.out[0] == Text(Margin, y, HeadingSize, sec.name)
      && NoBreak(p.out[..|p.out| - 1])
      && (EndsWithBreak(p.out) <==> y + h > BreakAfter)
      && p.y == (if y + h > BreakAfter then Top else y + h)
  {
    var body := TasksLayout(i, sec.tasks, form, y + HeadingAdvance, |sec.tasks|);
    HeadedTasks(i, sec, form, y);
    PageBreakLines([Text(Margin, y, HeadingSize, sec.name)] + body.out, body.y + SectionGap);
  }

  /**
   * The page-break check after a run without a new page: the new page, if
   * any, comes last, exactly when the cursor `end` has passed the break
   * line, and the cursor is then back at the top margin.
   */
  lemma PageBreakShape(run: seq<Instr>, end: real)
    requires run != [] && NoBreak(run)
    ensures var p := PageBreak(run, end);
      && p.out != [] && p.out[0] == run[0]
      && NoBreak(p.out[..|p.out| - 1])
      && (EndsWithBreak(p.out) <==> end > BreakAfter)
      && p.y == (if end > BreakAfter then Top else end)
  {
    var p := PageBreak(run, end);
    NoBreakNotEnding(run);
    if end > BreakAfter {
      assert p.out[..|p.out| - 1] == run;
      assert p.out[0] == run[0];
    } else {
      assert NoBreak(p.out[..|p.out| - 1]);
    }
  }

  /** A run without a new page that flows still flows after the page-break check. */
  lemma PageBreakStacks(run: seq<Instr>, y: real, end: real)
    requires NoBreak(run) && Flows(run, y) && Cursor(run, y) <= end
    ensures Stacks(PageBreak(run, end), y)
  {
    NoBreakNotEnding(run);
    if end > BreakAfter {
      FlowsAppend(run, [NewPage], y, end);
    }
  }

  /** The page-break check adds no text. */
  lemma PageBreakLines(run: seq<Instr>, end: real)
    ensures Lines(PageBreak(run, end).out) == Lines(run)
  {
    if end > BreakAfter {
      LinesAppend(run, [NewPage]);
      LinesOne(NewPage);
    }
  }

  /** A heading followed by the section's tasks: the part of a section before its break check. */
  lemma HeadedTasks(i: nat, sec: Section, form: Readings, y: real)
    ensures var body := TasksLayout(i, sec.tasks, form, y + HeadingAdvance, |sec.tasks|);
      var run := [Text(Margin, y, HeadingSize, sec.name)] + body.out;
      && NoBreak(run) && Flows(run, y) && Cursor(run, y) <= body.y
      && body.y == y + HeadingAdvance + TasksHeight(i, sec.tasks, form, |sec.tasks|)
      && Lines(run) == [sec.name] + TasksText(i, sec.tasks, form, |sec.tasks|)
  {
    var heading := Text(Margin, y, HeadingSize, sec.name);
    var body := TasksLayout(i, sec.tasks, form, y + HeadingAdvance, |sec.tasks|);
    TasksFacts(i, sec.tasks, form, y + HeadingAdvance, |sec.tasks|);
    Single(heading, y);
    LinesOne(heading);
    Join([heading], body.out, y, y + HeadingAdvance, body.y);
    NoBreakAppend([heading], body.out);
  }

  /**
   * The sections flow down the pages. A run of sections that ends with a new
   * page leaves the cursor at the top margin, and after at least one section
   * the cursor is never past the break line.
   */
  lemma {:induction false} SectionsStack(c: Checklist, form: Readings, y: real, n: nat)
    requires n <= |c|
    ensures var p := SectionsLayout(c, form, y, n);
      Stacks(p, y) && (n > 0 ==> p.y <= BreakAfter)
  {
    if n > 0 {
      SectionsStack(c, form, y, n - 1);
      SectionsStackStep(c, form, y, n - 1);
    }
  }

  lemma SectionsStackStep(c: Checklist, form: Readings, y: real, n: nat)
    requires n < |c| && Stacks(SectionsLayout(c, form, y, n), y)
    ensures var p := SectionsLayout(c, form, y, n + 1);
      Stacks(p, y) && p.y <= BreakAfter
  {
    var prev := SectionsLayout(c, form, y, n);
    var s := SectionLayout(n, c[n], form, prev.y);
    SectionStacks(n, c[n], form, prev.y);
    StackStep(prev, s, y);
  }

  /** The sections say, in order, each section's name and what each of its tasks says. */
  lemma {:induction false} SectionsLines(c: Checklist, form: Readings, y: real, n: nat)
    requires n <= |c|
    ensures Lines(SectionsLayout(c, form, y, n).out) == SectionsText(c, form, n)
  {
    if n > 0 {
      SectionsLines(c, form, y, n - 1);
      SectionsLinesStep(c, form, y, n - 1);
    }
  }

  lemma SectionsLinesStep(c: Checklist, form: Readings, y: real, n: nat)
    requires n < |c| && Lines(SectionsLayout(c, form, y, n).out) == SectionsText(c, form, n)
    ensures Lines(SectionsLayout(c, form, y, n + 1).out) == SectionsText(c, form, n + 1)
  {
    var prev := SectionsLayout(c, form, y, n);
    var s := SectionLayout(n, c[n], form, prev.y);
    SectionLines(n, c[n], form, prev.y);
    LinesAppend(prev.out, s.out);
  }

  /**
   * A run laid out from `y` that flows, ends with the cursor at or below its
   * last block, and leaves the cursor at the top margin if it ends with a
   * new page.
   */
  predicate Stacks(p: Placed, y: real) {
    Flows(p.out, y) && Cursor(p.out, y) <= p.y && (EndsWithBreak(p.out) ==> p.y == Top)
  }

  /** A section that opens at the cursor and stacks, placed after a run that stacks. */
  lemma StackStep(prev: Placed, s: Placed, y: real)
    requires Stacks(prev, y) && Opens(s.out, prev.y) && Stacks(s, prev.y) && s.y <= BreakAfter
    ensures var p := Placed(prev.out + s.out, s.y);
      Stacks(p, y) && p.y <= BreakAfter
  {
    Join(prev.out, s.out, y, prev.y, s.y);
  }

  /**
   * A section opens with its heading at the cursor, flows down the page,
   * and leaves the cursor no lower than the break line, at the top margin
   * if it ended with a new page.
   */
  lemma SectionStacks(i: nat, sec: Section, form: Readings, y: real)
    ensures var p := SectionLayout(i, sec, form, y);
      Opens(p.out, y) && Stacks(p, y) && p.y <= BreakAfter
  {
    var body := TasksLayout(i, sec.tasks, form, y + HeadingAdvance, |sec.tasks|);
    var run := [Text(Margin, y, HeadingSize, sec.name)] + body.out;
    HeadedTasks(i, sec, form, y);
    PageBreakShape(run, body.y + SectionGap);
    PageBreakStacks(run, y, body.y + SectionGap);
  }

  /** A section says its name, then what each of its tasks says; a new page says nothing. */
  lemma SectionLines(i: nat, sec: Section, form: Readings, y: real)
    ensures Lines(SectionLayout(i, sec, form, y).out) == SectionText(i, sec, form)
  {
    var body := TasksLayout(i, sec.tasks, form, y + HeadingAdvance, |sec.tasks|);
    HeadedTasks(i, sec, form, y);
    PageBreakLines([Text(Margin, y, HeadingSize, sec.name)] + body.out, body.y + SectionGap);
  }

  /** The logo, if any, and the title open the first page and flow down it. */
  lemma HeaderFacts(logo: Option<Dims>)
    ensures var p := HeaderLayout(logo);
      && NoBreak(p.out) && Flows(p.out, Top) && Cursor(p.out, Top) <= p.y
      && Lines(p.out) == [Title]
  {
    var p := HeaderLayout(logo);
    match logo
    case None =>
      Single(p.out[0], Top);
      LinesOne(p.out[0]);
    case Some(d) =>
      var img, title := p.out[0], p.out[1];
      Single(img, Top);
      Single(title, img.y);
      LinesOne(img);
      LinesOne(title);
      FlowsAppend([img], [title], Top, img.y);
      NoBreakAppend([img], [title]);
      LinesAppend([img], [title]);
      assert p.out == [img] + [title];
  }

  /** The signature label and image, when present, open at the cursor and flow down. */
  lemma TrailerFacts(signature: bool, y: real)
    ensures var p := TrailerLayout(signature, y);
      && Flows(p.out, y) && Cursor(p.out, y) <= p.y && (p.out == [] || Opens(p.out, y))
      && Lines(p.out) == (if signature then [SignatureLabel] else [])
      && (signature ==>
            && |p.out| == 2 && p.out[0] == Text(Margin, y, SignatureSize, SignatureLabel)
            && p.out[1] == Image(SignaturePad, Margin, y + 4.0, 60.0, 20.0)
            && p.y == y + 34.0)
      && (!signature ==> p.out == [] && p.y == y)
  {
    var p := TrailerLayout(signature, y);
    if signature {
      var caption, img := p.out[0], p.out[1];
      Single(caption, y);
      Single(img, caption.y);
      LinesOne(caption);
      LinesOne(img);
      FlowsAppend([caption], [img], y, caption.y);
      LinesAppend([caption], [img]);
      assert p.out == [caption] + [img];
    }
  }

  /**
   * Everything before the footer flows down the pages from the top margin:
   * the cursor never moves up within a page, and whatever follows a new page
   * starts at the top margin, not at the position that overflowed. The
   * footer is the last instruction. The report reads, in order: the title,
   * each section's name followed by each of its tasks' status line and
   * comment, the signature label when there is a signature pad, and the
   * footer; so there is exactly one heading per section and one status line
   * per task, in checklist order.
   */
  lemma ReportFacts(c: Checklist, form: Readings, logo: Option<Dims>, signature: bool)
    ensures var doc := ReportLayout(c, form, logo, signature);
      && |doc| >= 2 && doc[|doc| - 1] == FooterLine
      && Flows(doc[..|doc| - 1], Top)
      && Lines(doc) == [Title] + SectionsText(c, form, |c|) + (if signature then [SignatureLabel] else []) + [Footer]
  {
    var header := HeaderLayout(logo);
    var body := SectionsLayout(c, form, header.y, |c|);
    HeaderFacts(logo);
    SectionsStack(c, form, header.y, |c|);
    SectionsLines(c, form, header.y, |c|);
    TrailerFacts(signature, body.y);
    if |c| > 0 {
      OpensFirstSection(c, form, header.y, |c|);
    }
    Assemble(header, body, TrailerLayout(signature, body.y), SectionsText(c, form, |c|), signature);
  }

  /** The header, the sections and the trailer joined, then the footer. */
  lemma Assemble(header: Placed, body: Placed, trailer: Placed, text: seq<string>, signature: bool)
    requires NoBreak(header.out) && Flows(header.out, Top) && Cursor(header.out, Top) <= header.y
    requires Lines(header.out) == [Title]
    requires Stacks(body, header.y) && (body.out == [] || Opens(body.out, header.y)) && Lines(body.out) == text
    requires Flows(trailer.out, body.y) && Cursor(trailer.out, body.y) <= trailer.y
    requires trailer.out == [] || Opens(trailer.out, body.y)
    requires Lines(trailer.out) == if signature then [SignatureLabel] else []
    ensures var doc := header.out + body.out + trailer.out + [FooterLine];
      && |doc| >= 2 && doc[|doc| - 1] == FooterLine
      && Flows(doc[..|doc| - 1], Top)
      && Lines(doc) == [Title] + text + (if signature then [SignatureLabel] else []) + [Footer]
  {
    var run := header.out + body.out + trailer.out;
    assert header.out != [];
    NoBreakNotEnding(header.out);
    Join(header.out, body.out, Top, header.y, body.y);
    if body.out == [] {
      assert header.out + body.out == header.out;
    }
    Join(header.out + body.out, trailer.out, Top, body.y, trailer.y);
    LinesAppend(run, [FooterLine]);
    LinesOne(FooterLine);
    assert (run + [FooterLine])[..|run|] == run;
  }

  /** A non-empty run of sections opens with the first section's heading at the cursor. */
  lemma {:induction false} OpensFirstSection(c: Checklist, form: Readings, y: real, n: nat)
    requires 0 < n <= |c|
    ensures Opens(SectionsLayout(c, form, y, n).out, y)
  {
    var prev := SectionsLayout(c, form, y, n - 1);
    var s := SectionLayout(n - 1, c[n - 1], form, prev.y);
    assert Opens(s.out, prev.y);
    if n > 1 {
      OpensFirstSection(c, form, y, n - 1);
      OpensPrefix(prev.out, s.out, y);
    } else {
      assert prev.out + s.out == s.out;
    }
  }

  lemma OpensPrefix(a: seq<Instr>, b: seq<Instr>, y: real)
    requires Opens(a, y)
    ensures Opens(a + b, y)
  {
    assert (a + b)[0] == a[0];
  }

  // ---------------------------------------------------------------------------
  // Header, photos and a worked example
  // ---------------------------------------------------------------------------

  /**
   * With a logo, the first block is the logo at the top margin, 40 wide and
   * as high as its aspect ratio asks, and the title sits 5 below it; without
   * one, the title is the first block, at the top margin. Either way the
   * sections start 12 below the title.
   */
  lemma HeaderPlacement(c: Checklist, form: Readings, logo: Option<Dims>, signature: bool)
    ensures var doc := ReportLayout(c, form, logo, signature);
      match logo
      case None =>
        && doc[0] == Text(Margin, Top, TitleSize, Title)
        && HeaderLayout(logo).y == Top + TitleAdvance
      case Some(d) =>
        && doc[0].Image? && doc[0].source == Logo && doc[0].x == Margin && doc[0].y == Top
        && doc[0].width == LogoWidth && doc[0].height * (d.width as real) == LogoWidth * (d.height as real)
        && doc[1] == Text(Margin, Top + doc[0].height + LogoGap, TitleSize, Title)
        && HeaderLayout(logo).y == doc[1].y + TitleAdvance
  {
    var header := HeaderLayout(logo);
    var rest := SectionsLayout(c, form, header.y, |c|).out
                + TrailerLayout(signature, SectionsLayout(c, form, header.y, |c|).y).out + [FooterLine];
    var doc := ReportLayout(c, form, logo, signature);
    assert doc == header.out + rest;
    assert doc[0] == header.out[0];
    if logo.Some? {
      assert doc[1] == header.out[1];
    }
  }

  /**
   * A task opens with its status line at x 25 in size 12. A comment, when
   * there is one, is the second block: at x 30, 6 below the status line, in
   * size 10. No other block of the task is text.
   */
  lemma CommentBlock(i: nat, j: nat, task: string, a: Reading, y: real)
    ensures var p := TaskLayout(i, j, task, a, y);
      && p.out != [] && p.out[0] == Text(25.0, y, 12, StatusLine(task, a))
      && (a.comment != [] ==> |p.out| >= 2 && p.out[1] == Text(30.0, y + 6.0, 10, CommentLine(a.comment)))
      && (forall k :: 1 <= k < |p.out| && p.out[k].Text? ==> a.comment != [] && k == 1)
  {
  }

  /**
   * A task with a photo ends with exactly one image of it, 60 wide at the
   * detail indent, whose height keeps the photo's aspect ratio, and the
   * cursor moves past it by its height and a gap of 4. A task without one
   * holds no image.
   */
  lemma PhotoBlock(i: nat, j: nat, task: string, a: Reading, y: real)
    ensures var p := TaskLayout(i, j, task, a, y);
      && p.out != []
      && (forall k :: 0 <= k < |p.out| - 1 ==> !p.out[k].Image?)
      && (a.photo.None? ==> !p.out[|p.out| - 1].Image?)
      && (a.photo.Some? ==>
            var img := p.out[|p.out| - 1];
            && img.Image? && img.source == Photo(i, j)
            && img.x == DetailIndent && img.width == PhotoWidth
            && img.height * (a.photo.value.width as real) == PhotoWidth * (a.photo.value.height as real)
            && p.y == img.y + img.height + PhotoGap)
  {
    var p := TaskLayout(i, j, task, a, y);
    var comment := a.comment;
    var y1 := y + LineAdvance;
    var notes := if comment != [] then [Text(DetailIndent, y1, CommentSize, CommentLine(comment))] else [];
    var texts := [Text(TaskIndent, y, TaskSize, StatusLine(task, a))] + notes;
    assert forall k :: 0 <= k < |texts| ==> texts[k].Text?;
    if a.photo.None? {
      assert p.out == texts;
    } else {
      assert p.out[..|p.out| - 1] == texts;
    }
  }

  /**
   * One section "Test" with tasks A and B; A is ticked with the comment
   * "fine", B is unticked with no comment and no photo. Its text reads
   * "Test", "- A: OK", "Commentaire: fine", "- B: KO", and nothing follows B.
   */
  lemma TestSectionExample()
    ensures var arts: Artifacts := (i: nat, j: nat) =>
        if j == 0 then Artifact(Some(true), Some("fine"), None) else Artifact(Some(false), None, None);
      SectionsText([Section("Test", ["A", "B"])], ReadAll(arts), 1)
        == ["Test", "- A: OK", "Commentaire: fine", "- B: KO"]
  {
    var arts: Artifacts := (i: nat, j: nat) =>
      if j == 0 then Artifact(Some(true), Some("fine"), None) else Artifact(Some(false), None, None);
    var form := ReadAll(arts);
    var fine := "fine";
    var e: string := [];
    assert e + fine + e == fine;
    TrimExact(e, fine, e);
    assert Trim(fine) == fine;
    assert form(0, 0) == Read(arts(0, 0)) == Read(Artifact(Some(true), Some(fine), None));
    assert form(0, 1) == Read(arts(0, 1)) == Read(Artifact(Some(false), None, None));
    assert StatusLine("A", form(0, 0)) == "- A: OK";
    assert CommentLine("fine") == "Commentaire: fine";
    assert StatusLine("B", form(0, 1)) == "- B: KO";
    assert TaskText("A", form(0, 0)) == ["- A: OK", "Commentaire: fine"];
    assert TaskText("B", form(0, 1)) == ["- B: KO"];
    assert TasksText(0, ["A", "B"], form, 2) == ["- A: OK", "Commentaire: fine", "- B: KO"];
  }
}
