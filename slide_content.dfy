/**
 * services/powerpoint_service.py: the text of a presentation and the counts
 * in its summary. The presentation is abstract: slides of shapes, each
 * slide with an optional title placeholder and an optional notes page;
 * `failed` stands for an exception raised while the library reads it.
 */
module SlideContent {

  import opened Wrappers
  import opened Strings

  /** A shape: whether it has a text frame, its text, and its paragraphs' texts. */
  datatype Shape = Shape(hasTextFrame: bool, text: string, paragraphs: seq<string>)

  /**
   * A slide. `title` is the title placeholder's text when the slide has one
   * (the placeholder is also one of `shapes`); `notes` is the notes page's
   * text when the slide has a notes page.
   */
  datatype Slide = Slide(title: Option<string>, shapes: seq<Shape>, notes: Option<string>)

  const NotesLead: string := "Notes: "

  // ---------------------------------------------------------------------
  // extract_content, as functions
  // ---------------------------------------------------------------------

  /** `any(slide.has_notes_slide for slide in presentation.slides)`. */
  predicate AnyNotes(slides: seq<Slide>)
  {
    exists i :: 0 <= i < |slides| && slides[i].notes.Some?
  }

  /** The stripped, non-empty texts of the text-frame shapes, in shape order. */
  function ShapeTexts(shapes: seq<Shape>): seq<string>
  {
    if shapes == [] then []
    else
      var s := shapes[|shapes| - 1];
      var t := Strip(s.text);
      ShapeTexts(shapes[..|shapes| - 1]) + (if s.hasTextFrame && t != [] then [t] else [])
  }

  /** The notes line, when the flag and the slide's notes page allow it and the notes are not blank. */
  function NotesLine(slide: Slide, hasNotes: bool): seq<string>
  {
    if hasNotes && slide.notes.Some? && Strip(slide.notes.value) != [] then [NotesLead + Strip(slide.notes.value)] else []
  }

  /** `slide_texts`: the title text unstripped (even when empty), the shapes' texts, then the notes line. */
  function SlideTexts(slide: Slide, hasNotes: bool): seq<string>
  {
    (if slide.title.Some? then [slide.title.value] else []) + ShapeTexts(slide.shapes) + NotesLine(slide, hasNotes)
  }

  /** One block per slide with collected text: its texts joined by "\n". */
  function SlideBlocks(slides: seq<Slide>, hasNotes: bool): seq<string>
  {
    if slides == [] then []
    else
      var texts := SlideTexts(slides[|slides| - 1], hasNotes);
      SlideBlocks(slides[..|slides| - 1], hasNotes) + (if texts != [] then [Join(texts, "\n")] else [])
  }

  /** `extract_content`. */
  function Content(presentation: Option<seq<Slide>>, failed: bool): (r: Option<string>)
    ensures presentation.None? || failed <==> r.None?
  {
    if presentation.None? || failed then None
    else Some(Join(SlideBlocks(presentation.value, AnyNotes(presentation.value)), "\n\n"))
  }

  // ---------------------------------------------------------------------
  // Properties
  // ---------------------------------------------------------------------

  /** A slide's notes line is the same whether or not the global flag is consulted, once the flag is true for it. */
  lemma {:induction false} FlagIrrelevant(slides: seq<Slide>, deck: seq<Slide>)
    requires forall i :: 0 <= i < |slides| ==> slides[i] in deck
    ensures SlideBlocks(slides, AnyNotes(deck)) == SlideBlocks(slides, true)
  {
    if slides != [] {
      var s := slides[|slides| - 1];
      assert s in deck;
      if s.notes.Some? {
        var j :| 0 <= j < |deck| && deck[j] == s;
        assert AnyNotes(deck);
      }
      assert NotesLine(s, AnyNotes(deck)) == NotesLine(s, true);
      FlagIrrelevant(slides[..|slides| - 1], deck);
    }
  }

  /** The `has_notes` flag never changes the content: each slide's own notes page decides. */
  lemma NotesFlagNeverMatters(slides: seq<Slide>)
    ensures Content(Some(slides), false) == Some(Join(SlideBlocks(slides, true), "\n\n"))
  {
    FlagIrrelevant(slides, slides);
  }

  /** A titled slide's title, when not blank, appears twice: once as the title and once as its own shape. */
  lemma TitleTwice(title: string)
    requires Strip(title) == title && title != []
    ensures var slide := Slide(Some(title), [Shape(true, title, [title])], None);
      SlideTexts(slide, false) == [title, title]
  {
    var shapes := [Shape(true, title, [title])];
    assert shapes[..0] == [];
    assert ShapeTexts(shapes) == [title];
  }

  /** A title placeholder with empty text still yields a slide block (the empty line), so the slide is not omitted. */
  lemma EmptyTitleKeepsSlide(shapes: seq<Shape>, notes: Option<string>, hasNotes: bool)
    ensures SlideBlocks([Slide(Some(""), shapes, notes)], hasNotes) != []
  {
    var slide := Slide(Some(""), shapes, notes);
    assert SlideTexts(slide, hasNotes) != [];
    assert [slide][..0] == [];
  }

  /** Only the slides with collected text produce blocks. */
  lemma {:induction false} SlideBlocksBounded(slides: seq<Slide>, hasNotes: bool)
    ensures |SlideBlocks(slides, hasNotes)| <= |slides|
  {
    if slides != [] {
      SlideBlocksBounded(slides[..|slides| - 1], hasNotes);
    }
  }

  // ---------------------------------------------------------------------
  // extract_content, as the loops it is
  // ---------------------------------------------------------------------

  /** The `any(...)` scan. */
  method HasNotes(slides: seq<Slide>) returns (b: bool)
    ensures b == AnyNotes(slides)
  {
    var i := 0;
    while i < |slides|
      invariant 0 <= i <= |slides|
      invariant forall j :: 0 <= j < i ==> slides[j].notes.None?
    {
      if slides[i].notes.Some? {
        return true;
      }
      i := i + 1;
    }
    return false;
  }

  /** The loop over one slide's shapes. */
  method CollectShapes(shapes: seq<Shape>) returns (texts: seq<string>)
    ensures texts == ShapeTexts(shapes)
  {
    texts := [];
    var k := 0;
    while k < |shapes|
      invariant 0 <= k <= |shapes|
      invariant texts == ShapeTexts(shapes[..k])
    {
      assert shapes[..k + 1][..k] == shapes[..k];
      if shapes[k].hasTextFrame {
        var t := Strip(shapes[k].text);
        if t != [] {
          texts := texts + [t];
        }
      }
      k := k + 1;
    }
    assert shapes[..k] == shapes;
  }

  /** One slide: its title, its shapes' texts, then its notes. */
  method CollectSlide(slide: Slide, hasNotes: bool) returns (texts: seq<string>)
    ensures texts == SlideTexts(slide, hasNotes)
  {
    texts := [];
    if slide.title.Some? {
      texts := [slide.title.value];
    }
    var shapeTexts := CollectShapes(slide.shapes);
    texts := texts + shapeTexts;
    if hasNotes && slide.notes.Some? {
      var notesText := Strip(slide.notes.value);
      if notesText != [] {
        texts := texts + [NotesLead + notesText];
      }
    }
  }

  /** `extract_content`. */
  method ExtractContent(presentation: Option<seq<Slide>>, failed: bool) returns (r: Option<string>)
    ensures r == Content(presentation, failed)
  {
    if presentation.None? || failed {
      return None;
    }
    var slides := presentation.value;
    var hasNotes := HasNotes(slides);
    var content: seq<string> := [];
    var i := 0;
    while i < |slides|
      invariant 0 <= i <= |slides|
      invariant content == SlideBlocks(slides[..i], hasNotes)
    {
      assert slides[..i + 1][..i] == slides[..i];
      var texts := CollectSlide(slides[i], hasNotes);
      if texts != [] {
        content := content + [Join(texts, "\n")];
      }
      i := i + 1;
    }
    assert slides[..i] == slides;
    return Some(Join(content, "\n\n"));
  }

  // ---------------------------------------------------------------------
  // get_pptx_summary: the counts
  // ---------------------------------------------------------------------

  /** Per shape: the paragraph texts when it has a text frame. */
  datatype ShapeInfo = ShapeInfo(textInfo: Option<seq<string>>)
  datatype SlideInfo = SlideInfo(shapesCount: nat, shapes: seq<ShapeInfo>)
  datatype Summary = Summary(slideCount: nat, slidesInfo: seq<SlideInfo>)

  function InfoOf(shape: Shape): ShapeInfo
  {
    ShapeInfo(if shape.hasTextFrame then Some(shape.paragraphs) else None)
  }

  /** The shapes loop of one slide. */
  method ShapesInfo(shapes: seq<Shape>) returns (infos: seq<ShapeInfo>)
    ensures |infos| == |shapes|
    ensures forall k :: 0 <= k < |shapes| ==> infos[k] == InfoOf(shapes[k])
  {
    infos := [];
    var k := 0;
    while k < |shapes|
      invariant 0 <= k <= |shapes|
      invariant |infos| == k
      invariant forall j :: 0 <= j < k ==> infos[j] == InfoOf(shapes[j])
    {
      var info := ShapeInfo(None);
      if shapes[k].hasTextFrame {
        var paragraphs: seq<string> := [];
        var p := 0;
        while p < |shapes[k].paragraphs|
          invariant 0 <= p <= |shapes[k].paragraphs|
          invariant paragraphs == shapes[k].paragraphs[..p]
        {
          paragraphs := paragraphs + [shapes[k].paragraphs[p]];
          p := p + 1;
        }
        assert paragraphs == shapes[k].paragraphs;
        info := ShapeInfo(Some(paragraphs));
      }
      infos := infos + [info];
      k := k + 1;
    }
  }

  /** `get_pptx_summary` without the layout, style and core-property fields. */
  method PptxSummary(presentation: Option<seq<Slide>>, failed: bool) returns (r: Option<Summary>)
    ensures r.None? <==> presentation.None? || failed
    ensures r.Some? ==> var slides := presentation.value;
      && r.value.slideCount == |slides| && |r.value.slidesInfo| == |slides|
      && forall i :: 0 <= i < |slides| ==>
           r.value.slidesInfo[i].shapesCount == |slides[i].shapes|
           && |r.value.slidesInfo[i].shapes| == |slides[i].shapes|
           && forall k :: 0 <= k < |slides[i].shapes| ==> r.value.slidesInfo[i].shapes[k] == InfoOf(slides[i].shapes[k])
  {
    if presentation.None? || failed {
      return None;
    }
    var slides := presentation.value;
    var slidesInfo: seq<SlideInfo> := [];
    var i := 0;
    while i < |slides|
      invariant 0 <= i <= |slides|
      invariant |slidesInfo| == i
      invariant forall j :: 0 <= j < i ==>
        slidesInfo[j].shapesCount == |slides[j].shapes|
        && |slidesInfo[j].shapes| == |slides[j].shapes|
        && forall k :: 0 <= k < |slides[j].shapes| ==> slidesInfo[j].shapes[k] == InfoOf(slides[j].shapes[k])
    {
      var shapes := ShapesInfo(slides[i].shapes);
      slidesInfo := slidesInfo + [SlideInfo(|slides[i].shapes|, shapes)];
      i := i + 1;
    }
    return Some(Summary(|slides|, slidesInfo));
  }
}
