/**
 * The whiteboard's page collection (class `JamboardClone`): an ordered list
 * of canvases, the index of the page on screen, the canvas the drawing area
 * shows and the text of the page label; the "previous" and "next" buttons;
 * and the per-canvas loop of the PDF export.
 */
module Pages {
  import opened Wrappers
  import opened Decimal
  import opened Placement

  /**
   * A drawing surface: its identity, which is the order it was created in
   * (each `Canvas` object is distinct), and its fixed size. Its pixels are
   * not modelled.
   */
  datatype Canvas = Canvas(id: nat, width: real, height: real)

  /**
   * The page model. `labelText == None` means the page label still has the text
   * the window layout gives it: `start` never writes the label.
   */
  datatype Board = Board(canvases: seq<Canvas>, currentPage: int, shown: Canvas, labelText: Option<string>)

  /** `"Page ${currentPage + 1} / ${canvases.size}"` */
  function PageLabel(page: nat, total: nat): string {
    "Page " + NatToString(page) + " / " + NatToString(total)
  }

  /** `currentPage` indexes the list, as `canvases[currentPage]` needs. */
  predicate InRange(b: Board) {
    0 <= b.currentPage < |b.canvases|
  }

  /**
   * The invariant every handler keeps: at least one page, a valid current
   * index, the pages in creation order and all of the size `w` x `h`, the
   * shown canvas is the current page, and a label that has been written
   * names the current page.
   */
  predicate BoardValid(b: Board, w: real, h: real) {
    && 1 <= |b.canvases|
    && InRange(b)
    && (forall i :: 0 <= i < |b.canvases| ==> b.canvases[i] == Canvas(i, w, h))
    && b.shown == b.canvases[b.currentPage]
    && (b.labelText.Some? ==> b.labelText.value == PageLabel(b.currentPage + 1, |b.canvases|))
  }

  /** The size `start` gives every page: 80% of the screen in each direction. */
  function PageSize(screen: real): real {
    screen * 0.8
  }

  /** `start`: one canvas, added to the list and to the drawing area. */
  function StartBoard(screenWidth: real, screenHeight: real): Board {
    var first := Canvas(0, PageSize(screenWidth), PageSize(screenHeight));
    Board([first], 0, first, None)
  }

  /** `updateCanvas`: show the current page and write its label. */
  function UpdateBoard(b: Board): Board
    requires InRange(b)
  {
    b.(shown := b.canvases[b.currentPage],
       labelText := Some(PageLabel(b.currentPage + 1, |b.canvases|)))
  }

  /** The "previous" button. */
  function PreviousPage(b: Board): Board
    requires InRange(b)
  {
    if b.currentPage > 0 then UpdateBoard(b.(currentPage := b.currentPage - 1)) else b
  }

  /** The "next" button; `w` x `h` is the size captured by `setupPageNavigation`. */
  function NextPage(b: Board, w: real, h: real): Board
    requires InRange(b)
  {
    if b.currentPage < |b.canvases| - 1 then
      UpdateBoard(b.(currentPage := b.currentPage + 1))
    else
      UpdateBoard(b.(canvases := b.canvases + [Canvas(|b.canvases|, w, h)], currentPage := b.currentPage + 1))
  }

  datatype Button = PrevButton | NextButton

  function Press(b: Board, button: Button, w: real, h: real): Board
    requires InRange(b)
  {
    match button
    case PrevButton => PreviousPage(b)
    case NextButton => NextPage(b, w, h)
  }

  /** The board after a sequence of button presses, in order. */
  function Navigate(b: Board, presses: seq<Button>, w: real, h: real): Board
    requires BoardValid(b, w, h)
    decreases |presses|
  {
    if presses == [] then b
    else
      NavigationKeepsValid(b, presses[0], w, h);
      Navigate(Press(b, presses[0], w, h), presses[1..], w, h)
  }

  // ---------------------------------------------------------------------------
  // Properties of the page model

  /** After `start` there is exactly one page, it is current and on screen. */
  lemma StartState(screenWidth: real, screenHeight: real)
    ensures var b := StartBoard(screenWidth, screenHeight);
      && |b.canvases| == 1 && b.currentPage == 0
      && b.shown == b.canvases[0]
      && BoardValid(b, PageSize(screenWidth), PageSize(screenHeight))
  {
  }

  /** After `updateCanvas` the shown canvas is the current page and the label names it. */
  lemma UpdateCanvasShowsCurrent(b: Board)
    requires InRange(b)
    ensures var r := UpdateBoard(b);
      && r.canvases == b.canvases && r.currentPage == b.currentPage
      && r.shown == b.canvases[b.currentPage]
      && r.labelText.Some?
      && ParseDecimal(NatToString(r.currentPage + 1)) == b.currentPage + 1
      && r.labelText.value == "Page " + NatToString(b.currentPage + 1) + " / " + NatToString(|b.canvases|)
  {
    ParseNatToString(b.currentPage + 1);
  }

  /** "Previous" at the first page changes nothing; elsewhere it goes back one page. */
  lemma PreviousSpec(b: Board, w: real, h: real)
    requires BoardValid(b, w, h)
    ensures var r := PreviousPage(b);
      && (b.currentPage == 0 ==> r == b)
      && (b.currentPage > 0 ==>
            r.currentPage == b.currentPage - 1 && r.canvases == b.canvases
            && r.shown == b.canvases[b.currentPage - 1])
  {
  }

  /** "Next" before the last page goes forward one page and creates none. */
  lemma NextBeforeLast(b: Board, w: real, h: real)
    requires BoardValid(b, w, h)
    requires b.currentPage < |b.canvases| - 1
    ensures var r := NextPage(b, w, h);
      r.currentPage == b.currentPage + 1 && r.canvases == b.canvases
  {
  }

  /**
   * "Next" at the last page appends exactly one page of the navigation size,
   * keeps the earlier pages, and makes the new page current.
   */
  lemma NextAtLast(b: Board, w: real, h: real)
    requires BoardValid(b, w, h)
    requires b.currentPage == |b.canvases| - 1
    ensures var r := NextPage(b, w, h);
      && |r.canvases| == |b.canvases| + 1
      && r.canvases[..|b.canvases|] == b.canvases
      && r.canvases[|b.canvases|] == Canvas(|b.canvases|, w, h)
      && r.currentPage == |r.canvases| - 1
      && r.shown == r.canvases[|b.canvases|]
  {
    assert (b.canvases + [Canvas(|b.canvases|, w, h)])[..|b.canvases|] == b.canvases;
  }

  /** Both buttons keep the invariant, and neither removes a page. */
  lemma NavigationKeepsValid(b: Board, button: Button, w: real, h: real)
    requires BoardValid(b, w, h)
    ensures BoardValid(Press(b, button, w, h), w, h)
    ensures |Press(b, button, w, h).canvases| >= |b.canvases|
    ensures Press(b, button, w, h).canvases[..|b.canvases|] == b.canvases
  {
    if button == NextButton && b.currentPage == |b.canvases| - 1 {
      NextAtLast(b, w, h);
    }
  }

  /**
   * Any sequence of presses keeps the invariant, so every page keeps the
   * navigation size; pages are never removed or replaced.
   */
  lemma {:induction false} NavigateKeepsValid(b: Board, presses: seq<Button>, w: real, h: real)
    requires BoardValid(b, w, h)
    ensures var r := Navigate(b, presses, w, h);
      && BoardValid(r, w, h)
      && |r.canvases| >= |b.canvases|
      && r.canvases[..|b.canvases|] == b.canvases
    decreases |presses|
  {
    if presses != [] {
      var b' := Press(b, presses[0], w, h);
      NavigationKeepsValid(b, presses[0], w, h);
      NavigateKeepsValid(b', presses[1..], w, h);
      var r := Navigate(b', presses[1..], w, h);
      assert r.canvases[..|b.canvases|] == r.canvases[..|b'.canvases|][..|b.canvases|];
    }
  }

  function Repeat(button: Button, k: nat): (r: seq<Button>)
    ensures |r| == k && forall i :: 0 <= i < k ==> r[i] == button
  {
    if k == 0 then [] else [button] + Repeat(button, k - 1)
  }

  /** `k` presses of "next" from the last page add `k` pages and end on the last one. */
  lemma {:induction false} NextFromLast(b: Board, k: nat, w: real, h: real)
    requires BoardValid(b, w, h)
    requires b.currentPage == |b.canvases| - 1
    ensures var r := Navigate(b, Repeat(NextButton, k), w, h);
      && |r.canvases| == |b.canvases| + k
      && r.currentPage == |r.canvases| - 1
      && (k > 0 ==> r.labelText == Some(PageLabel(|r.canvases|, |r.canvases|)))
    decreases k
  {
    if k > 0 {
      NextAtLast(b, w, h);
      NavigationKeepsValid(b, NextButton, w, h);
      var b' := NextPage(b, w, h);
      assert Repeat(NextButton, k)[1..] == Repeat(NextButton, k - 1);
      NextFromLast(b', k - 1, w, h);
    }
  }

  /** From a single page, three presses of "next" give four pages labelled "Page 4 / 4". */
  lemma ThreeNextsFromStart(screenWidth: real, screenHeight: real)
    ensures var w, h := PageSize(screenWidth), PageSize(screenHeight);
      var r := Navigate(StartBoard(screenWidth, screenHeight), [NextButton, NextButton, NextButton], w, h);
      |r.canvases| == 4 && r.currentPage == 3 && r.labelText == Some("Page 4 / 4")
  {
    var w, h := PageSize(screenWidth), PageSize(screenHeight);
    StartState(screenWidth, screenHeight);
    assert Repeat(NextButton, 3) == [NextButton, NextButton, NextButton];
    NextFromLast(StartBoard(screenWidth, screenHeight), 3, w, h);
    assert DigitChar(4) == '4';
    assert PageLabel(4, 4) == "Page 4 / 4";
  }

  // ---------------------------------------------------------------------------
  // PDF export

  /** One PDF page: its media box, the canvas whose snapshot it holds, and where that image is drawn. */
  datatype PdfPage = PdfPage(boxWidth: real, boxHeight: real, image: Canvas, at: Rect)

  /** The page the export loop appends for one canvas; the snapshot is taken to have the canvas's size. */
  function PdfPageFor(c: Canvas): PdfPage
    requires c.width > 0.0 && c.height > 0.0
  {
    PdfPage(PageWidth, PageHeight, c, Place(c.width, c.height))
  }

  /**
   * How an export ends: the save dialog was dismissed; the document was
   * saved with these pages; an I/O error at the canvas with this index
   * aborted the loop; or every page was built and writing the file failed.
   * Both failures show an error and leave no saved document.
   */
  datatype ExportOutcome =
    | Cancelled
    | Saved(pages: seq<PdfPage>)
    | CanvasFailed(index: nat)
    | SaveFailed(pages: seq<PdfPage>)

  // ---------------------------------------------------------------------------
  // The application object

  class JamboardClone {
    var canvases: seq<Canvas>
    var currentPage: int
    /** The canvas that is the drawing area's child. */
    var shown: Canvas
    /** The page label's text, once the code has written it. */
    var pageLabel: Option<string>
    /** The page size `setupPageNavigation` is given, used for every new page. */
    const canvasWidth: real
    const canvasHeight: real

    function State(): Board
      reads this
    {
      Board(canvases, currentPage, shown, pageLabel)
    }

    ghost predicate Valid()
      reads this
    {
      BoardValid(State(), canvasWidth, canvasHeight) && canvasWidth > 0.0 && canvasHeight > 0.0
    }

    /** `start`, for a screen of the given (positive) size. */
    constructor Start(screenWidth: real, screenHeight: real)
      requires screenWidth > 0.0 && screenHeight > 0.0
      ensures Valid()
      ensures State() == StartBoard(screenWidth, screenHeight)
      ensures canvasWidth == PageSize(screenWidth) && canvasHeight == PageSize(screenHeight)
    {
      var initialCanvas := Canvas(0, screenWidth * 0.8, screenHeight * 0.8);
      canvases := [initialCanvas];
      currentPage := 0;
      shown := initialCanvas;
      pageLabel := None;
      canvasWidth, canvasHeight := screenWidth * 0.8, screenHeight * 0.8;
    }

    method UpdateCanvas()
      requires InRange(State())
      modifies this`shown, this`pageLabel
      ensures State() == UpdateBoard(old(State()))
    {
      shown := canvases[currentPage];
      pageLabel := Some(PageLabel(currentPage + 1, |canvases|));
    }

    /** The "previous" button's action. */
    method Previous()
      requires Valid()
      modifies this
      ensures Valid()
      ensures State() == PreviousPage(old(State()))
    {
      if currentPage > 0 {
        currentPage := currentPage - 1;
        UpdateCanvas();
      }
      NavigationKeepsValid(old(State()), PrevButton, canvasWidth, canvasHeight);
    }

    /** The "next" button's action. */
    method Next()
      requires Valid()
      modifies this
      ensures Valid()
      ensures State() == NextPage(old(State()), canvasWidth, canvasHeight)
    {
      if currentPage < |canvases| - 1 {
        currentPage := currentPage + 1;
        UpdateCanvas();
      } else {
        var newCanvas := Canvas(|canvases|, canvasWidth, canvasHeight);
        canvases := canvases + [newCanvas];
        currentPage := currentPage + 1;
        UpdateCanvas();
      }
      NavigationKeepsValid(old(State()), NextButton, canvasWidth, canvasHeight);
    }

    /**
     * `exportToPDF`. `fileChosen` is whether the save dialog returned a file;
     * `firstFailure` is the index of the first canvas whose snapshot, PNG
     * file or PDF image fails with an I/O error, if any; `saveFails` is
     * whether writing the finished document fails. On success there is one
     * 800 x 400 page per canvas, in list order.
     */
    method ExportToPdf(fileChosen: bool, firstFailure: Option<nat>, saveFails: bool) returns (outcome: ExportOutcome)
      requires Valid()
      ensures !fileChosen <==> outcome == Cancelled
      ensures fileChosen && firstFailure.Some? && firstFailure.value < |canvases| ==>
                outcome == CanvasFailed(firstFailure.value)
      ensures fileChosen && (firstFailure.None? || firstFailure.value >= |canvases|) ==>
                && (if saveFails then outcome.SaveFailed? else outcome.Saved?)
                && |outcome.pages| == |canvases|
                && forall i :: 0 <= i < |canvases| ==>
                     && outcome.pages[i] == PdfPageFor(canvases[i])
                     && outcome.pages[i].image == canvases[i]
                     && outcome.pages[i].boxWidth == 800.0 && outcome.pages[i].boxHeight == 400.0
    {
      if !fileChosen {
        return Cancelled;
      }
      var document: seq<PdfPage> := [];
      var i := 0;
      while i < |canvases|
        invariant 0 <= i <= |canvases|
        invariant firstFailure.Some? ==> firstFailure.value >= i
        invariant |document| == i
        invariant forall j :: 0 <= j < i ==> document[j] == PdfPageFor(canvases[j])
      {
        assert canvases[i] == Canvas(i, canvasWidth, canvasHeight);
        if firstFailure == Some(i) {
          return CanvasFailed(i);
        }
        document := document + [PdfPageFor(canvases[i])];
        i := i + 1;
      }
      if saveFails {
        return SaveFailed(document);
      }
      return Saved(document);
    }
  }
}
