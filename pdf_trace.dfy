/** The drawing calls a jsPDF document receives, recorded as a trace: the
    rectangles, the text placements and the lines, each with the page it
    lands on. Fonts, colours, alignment options and text measurement are
    not recorded. */
module PdfTrace {

  /** A JavaScript number as the layout code passes it: `NaN` (what an
      `undefined` array entry becomes in arithmetic) or a finite value. */
  datatype Num = NaN | Fin(v: real)

  /** `a + b` on numbers: NaN absorbs. */
  function Plus(a: Num, b: Num): (r: Num)
    ensures r.Fin? <==> a.Fin? && b.Fin?
    ensures r.Fin? ==> r.v == a.v + b.v
  {
    if a.Fin? && b.Fin? then Fin(a.v + b.v) else NaN
  }

  /** `pdf.splitTextToSize(text, width)`: the lines a text is broken into to
      fit a width. */
  type Splitter = (string, real) -> seq<string>

  /** A single string passed to `text`: one line. */
  function One(s: string): seq<string> { [s] }

  /** `rect(x, y, w, h)`, or `rect(x, y, w, h, 'F')` when `filled`. */
  datatype Box = Box(page: nat, x: Num, y: Num, w: Num, h: Num, filled: bool)

  /** `text(lines, x, y)`: a single string is one line, the result of
      `splitTextToSize` several. */
  datatype Label = Label(page: nat, x: real, y: real, lines: seq<string>)

  /** `line(x1, y1, x2, y2)`. */
  datatype Segment = Segment(page: nat, x1: real, y1: real, x2: real, y2: real)

  /** What has been drawn so far: the current page and, in drawing order,
      the rectangles, texts and lines. */
  datatype Doc = Doc(page: nat, boxes: seq<Box>, labels: seq<Label>, segments: seq<Segment>)
  {
    function Rect(x: Num, y: Num, w: Num, h: Num, filled: bool): Doc
    {
      this.(boxes := boxes + [Box(page, x, y, w, h, filled)])
    }

    function Text(lines: seq<string>, x: real, y: real): Doc
    {
      this.(labels := labels + [Label(page, x, y, lines)])
    }

    function Line(x1: real, y1: real, x2: real, y2: real): Doc
    {
      this.(segments := segments + [Segment(page, x1, y1, x2, y2)])
    }

    /** `addPage()`: a new empty page becomes the current one. */
    function NewPage(): Doc
    {
      this.(page := page + 1)
    }
  }

  /** `new jsPDF('p', 'mm', 'a4')`: one empty page. */
  function Blank(): Doc { Doc(1, [], [], []) }

  /** Everything drawn lies on a page that exists. */
  predicate OnPages(d: Doc)
  {
    1 <= d.page
    && (forall i :: 0 <= i < |d.boxes| ==> 1 <= d.boxes[i].page <= d.page)
    && (forall i :: 0 <= i < |d.labels| ==> 1 <= d.labels[i].page <= d.page)
    && (forall i :: 0 <= i < |d.segments| ==> 1 <= d.segments[i].page <= d.page)
  }

  /** Drawing goes to the current page and pages are only ever appended, so a
      blank document and every drawing call keep everything on an existing
      page; each call only appends to the trace. */
  lemma DrawingKeepsPages(d: Doc, x: Num, y: Num, w: Num, h: Num, filled: bool, lines: seq<string>,
                          x1: real, y1: real, x2: real, y2: real)
    ensures OnPages(Blank())
    ensures OnPages(d) ==>
              OnPages(d.Rect(x, y, w, h, filled)) && OnPages(d.Text(lines, x1, y1))
              && OnPages(d.Line(x1, y1, x2, y2)) && OnPages(d.NewPage())
    ensures d.Rect(x, y, w, h, filled).boxes[..|d.boxes|] == d.boxes
    ensures d.Text(lines, x1, y1).labels[..|d.labels|] == d.labels
    ensures d.Line(x1, y1, x2, y2).segments[..|d.segments|] == d.segments
  {
  }

  /** `r` only adds borders and texts after those of `p`. */
  predicate Extends(p: Doc, r: Doc)
  {
    |p.boxes| <= |r.boxes| && r.boxes[..|p.boxes|] == p.boxes
    && |p.labels| <= |r.labels| && r.labels[..|p.labels|] == p.labels
  }

  lemma ExtendsTransitive(p: Doc, q: Doc, r: Doc)
    requires Extends(p, q) && Extends(q, r)
    ensures Extends(p, r)
  {
    assert r.boxes[..|p.boxes|] == r.boxes[..|q.boxes|][..|p.boxes|];
    assert r.labels[..|p.labels|] == r.labels[..|q.labels|][..|p.labels|];
  }

  /** What `p` drew is still there, at the same index, in a document that extends it. */
  lemma ExtendsAt(p: Doc, r: Doc, i: nat)
    requires Extends(p, r) && i < |p.boxes|
    ensures i < |r.boxes| && r.boxes[i] == p.boxes[i]
  {
    assert r.boxes[..|p.boxes|][i] == p.boxes[i];
  }

  lemma ExtendsLabelAt(p: Doc, r: Doc, i: nat)
    requires Extends(p, r) && i < |p.labels|
    ensures i < |r.labels| && r.labels[i] == p.labels[i]
  {
    assert r.labels[..|p.labels|][i] == p.labels[i];
  }

  // ---- What jsPDF refuses --------------------------------------------------------------

  /** jsPDF's `rect` throws ("Invalid arguments passed to jsPDF.rect") when one
      of its four numbers is NaN. That is the library's behaviour, not the
      templates', and the model takes it as given. */
  predicate Accepted(b: Box)
  {
    b.x.Fin? && b.y.Fin? && b.w.Fin? && b.h.Fin?
  }

  /** `rect` takes every rectangle of `boxes`. */
  predicate AllAccepted(boxes: seq<Box>)
  {
    forall i :: 0 <= i < |boxes| ==> Accepted(boxes[i])
  }

  lemma AllAcceptedAppend(a: seq<Box>, b: seq<Box>)
    ensures AllAccepted(a + b) <==> AllAccepted(a) && AllAccepted(b)
  {
    assert forall i :: 0 <= i < |a| ==> (a + b)[i] == a[i];
    assert forall i :: 0 <= i < |b| ==> (a + b)[|a| + i] == b[i];
  }

  /** The position of the first rectangle `rect` refuses, or the number of
      rectangles when it takes them all: drawing stops with an exception there. */
  function FirstRejected(boxes: seq<Box>): (k: nat)
    ensures k <= |boxes|
    ensures AllAccepted(boxes[..k])
    ensures k < |boxes| ==> !Accepted(boxes[k])
  {
    if |boxes| == 0 || !Accepted(boxes[0]) then 0
    else
      var k := 1 + FirstRejected(boxes[1..]);
      assert boxes[..k] == [boxes[0]] + boxes[1..][..k - 1];
      AllAcceptedAppend([boxes[0]], boxes[1..][..k - 1]);
      k
  }

  /** After rectangles `rect` takes, the first refused one is found in what follows. */
  lemma {:induction false} FirstRejectedAppend(a: seq<Box>, b: seq<Box>)
    requires AllAccepted(a)
    ensures FirstRejected(a + b) == |a| + FirstRejected(b)
  {
    if |a| == 0 {
      assert a + b == b;
    } else {
      assert (a + b)[0] == a[0] && (a + b)[1..] == a[1..] + b;
      AllAcceptedAppend([a[0]], a[1..]);
      assert [a[0]] + a[1..] == a;
      FirstRejectedAppend(a[1..], b);
    }
  }

  /** When a trace starts with rectangles `rect` takes and then one it refuses,
      drawing stops at that one, whatever follows. */
  lemma RejectedAt(boxes: seq<Box>, start: seq<Box>)
    requires 1 <= |start| <= |boxes| && boxes[..|start|] == start
    requires AllAccepted(start[..|start| - 1]) && !Accepted(start[|start| - 1])
    ensures FirstRejected(boxes) == |start| - 1 && boxes[|start| - 1] == start[|start| - 1]
  {
    var k := |start| - 1;
    assert boxes[k] == boxes[..|start|][k];
    assert boxes[..k] == boxes[..|start|][..k];
    assert boxes == boxes[..k] + boxes[k..];
    FirstRejectedAppend(start[..k], boxes[k..]);
  }

  /** The rectangles `rect` takes, in drawing order: what a `drawBorder` that
      skips NaN arguments, as the CMR template's does, passes on. */
  function Guarded(boxes: seq<Box>): (r: seq<Box>)
    ensures |r| <= |boxes|
    ensures AllAccepted(r)
    ensures AllAccepted(boxes) ==> r == boxes
  {
    if |boxes| == 0 then []
    else
      var rest := Guarded(boxes[1..]);
      assert boxes == [boxes[0]] + boxes[1..];
      AllAcceptedAppend([boxes[0]], boxes[1..]);
      AllAcceptedAppend([boxes[0]], rest);
      if Accepted(boxes[0]) then [boxes[0]] + rest else rest
  }

  /** Guarding keeps exactly the rectangles `rect` takes. */
  lemma {:induction false} GuardedMembers(boxes: seq<Box>, b: Box)
    ensures b in Guarded(boxes) <==> b in boxes && Accepted(b)
  {
    if |boxes| > 0 {
      GuardedMembers(boxes[1..], b);
      assert boxes == [boxes[0]] + boxes[1..];
    }
  }

  /** Guarding a concatenation guards each part. */
  lemma {:induction false} GuardedAppend(a: seq<Box>, b: seq<Box>)
    ensures Guarded(a + b) == Guarded(a) + Guarded(b)
  {
    if |a| == 0 {
      assert a + b == b;
    } else {
      assert (a + b)[0] == a[0] && (a + b)[1..] == a[1..] + b;
      GuardedAppend(a[1..], b);
      if Accepted(a[0]) {
        assert [a[0]] + (Guarded(a[1..]) + Guarded(b)) == [a[0]] + Guarded(a[1..]) + Guarded(b);
      }
    }
  }

  // ---- Shared layout values ------------------------------------------------------------

  /** `(pageWidth - 20) / 2` and `pageWidth - 20`. */
  function HalfWidth(pw: real): real { (pw - 20.0) / 2.0 }

  function FullWidth(pw: real): real { pw - 20.0 }

  /** `☑` for a ticked box, `☐` for an empty one. */
  function CheckMark(b: bool): string { if b then "☑" else "☐" }

  // ---- The cargo cursor ---------------------------------------------------------------

  /** Both templates test the cursor before each cargo row: a row that would
      start below `pageHeight - 30` starts at 20 on a new page. */
  function RowTop(ph: real, y: real): real
  {
    if y > ph - 30.0 then 20.0 else y
  }

  /** The number of pages that test adds: one or none. */
  function Break(ph: real, y: real): nat
  {
    if y > ph - 30.0 then 1 else 0
  }

  /** The cursor after `n` rows of height `step` laid out from `y0`, each
      moved to the top of a new page when it would start below `pageHeight - 30`. */
  function CursorAfter(ph: real, y0: real, step: real, n: nat): real
  {
    if n == 0 then y0 else RowTop(ph, CursorAfter(ph, y0, step, n - 1)) + step
  }

  /** The pages those rows add. */
  function PagesAdded(ph: real, y0: real, step: real, n: nat): nat
  {
    if n == 0 then 0 else PagesAdded(ph, y0, step, n - 1) + Break(ph, CursorAfter(ph, y0, step, n - 1))
  }

  /** A jsPDF document under construction. */
  class Pdf {
    var doc: Doc

    constructor()
      ensures doc == Blank()
    {
      doc := Blank();
    }

    method Rect(x: Num, y: Num, w: Num, h: Num, filled: bool)
      modifies this
      ensures doc == old(doc).Rect(x, y, w, h, filled)
    {
      doc := doc.Rect(x, y, w, h, filled);
    }

    method Text(lines: seq<string>, x: real, y: real)
      modifies this
      ensures doc == old(doc).Text(lines, x, y)
    {
      doc := doc.Text(lines, x, y);
    }

    method Line(x1: real, y1: real, x2: real, y2: real)
      modifies this
      ensures doc == old(doc).Line(x1, y1, x2, y2)
    {
      doc := doc.Line(x1, y1, x2, y2);
    }

    method AddPage()
      modifies this
      ensures doc == old(doc).NewPage()
    {
      doc := doc.NewPage();
    }
  }
}
