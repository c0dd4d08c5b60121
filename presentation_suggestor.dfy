/** The presentation-suggestor page: requesting a slide outline for a topic,
    listing past outlines, and copying an outline to the clipboard as
    Markdown-like text. */
module PresentationSuggestor {
  import opened Text

  datatype Slide = Slide(slideTitle: string, mainPoints: seq<string>, visualSuggestion: string)

  datatype PresentationData = PresentationData(
    topic: string, timeLimitMinutes: int, slides: seq<Slide>, templateSuggestion: string)

  datatype PastPresentation = PastPresentation(
    id: string, topic: string, timeLimitMinutes: int, slides: seq<Slide>, templateSuggestion: string)

  // ---------------------------------------------------------------------------
  // The copied outline

  const Separator := "--------------------"
  /** The line ending each slide block: the template literal's closing indentation. */
  const TrailingIndent := "      "

  function Bullet(point: string): string
  {
    "  - " + point
  }

  /** The main points, one bullet per line. */
  function PointsText(points: seq<string>): string
  {
    Join(seq(|points|, i requires 0 <= i < |points| => Bullet(points[i])), "\n")
  }

  /** The template literal `handleCopy` fills in for one slide. */
  function SlideBlock(slide: Slide): string
  {
    "\n## " + slide.slideTitle + "\n**Key Points:**\n" + PointsText(slide.mainPoints)
    + "\n\n**Visual Suggestion:**\n" + slide.visualSuggestion + "\n" + Separator + "\n" + TrailingIndent
  }

  /** The slide blocks joined by newlines, before trimming. */
  function OutlineText(slides: seq<Slide>): string
  {
    Join(seq(|slides|, i requires 0 <= i < |slides| => SlideBlock(slides[i])), "\n")
  }

  /** The text handed to the clipboard. */
  function CopiedText(slides: seq<Slide>): string
  {
    Trim(OutlineText(slides))
  }

  /** Splitting the bullet list at newlines gives one bullet per main point, in
      order, as long as no point spans several lines. */
  lemma PointsLines(points: seq<string>)
    requires points != []
    requires forall k :: 0 <= k < |points| ==> !Contains(points[k], "\n")
    ensures Split(PointsText(points), "\n") == seq(|points|, i requires 0 <= i < |points| => Bullet(points[i]))
  {
    var bullets := seq(|points|, i requires 0 <= i < |points| => Bullet(points[i]));
    forall k | 0 <= k < |bullets| ensures !Contains(bullets[k], "\n") {
      if Contains(bullets[k], "\n") {
        var j: nat :| j + 1 <= |bullets[k]| && OccursAt(bullets[k], "\n", j);
        assert bullets[k][j] == '\n';
        assert j >= 4;
        assert points[k][j - 4..j - 3] == bullets[k][j..j + 1];
        assert OccursAt(points[k], "\n", j - 4);
        assert false;
      }
    }
    SplitJoin(bullets, "\n");
  }

  /** The closing text of every slide block: the separator, a newline and the
      indentation. */
  const BlockEnd := Separator + "\n" + TrailingIndent

  /** One slide block opens with a newline and the slide's `## ` heading, and
      closes with the separator line and the indentation. */
  lemma SlideBlockFrame(slide: Slide)
    ensures |SlideBlock(slide)| >= |"\n## " + slide.slideTitle| + |BlockEnd|
    ensures StartsWith(SlideBlock(slide), "\n## " + slide.slideTitle)
    ensures EndsWith(SlideBlock(slide), BlockEnd)
  {
    var block := SlideBlock(slide);
    var head := "\n## " + slide.slideTitle;
    assert block == head + block[|head|..];
    assert block == block[..|block| - |BlockEnd|] + BlockEnd;
  }

  /** Joined blocks open like the first block and close like the last. */
  lemma JoinFrame(blocks: seq<string>, head: string, tail: string)
    requires blocks != []
    requires |blocks[0]| >= |head| + |tail|
    requires StartsWith(blocks[0], head) && EndsWith(blocks[|blocks| - 1], tail)
    ensures |Join(blocks, "\n")| >= |head| + |tail|
    ensures StartsWith(Join(blocks, "\n"), head) && EndsWith(Join(blocks, "\n"), tail)
  {
    var text, first, last := Join(blocks, "\n"), blocks[0], blocks[|blocks| - 1];
    JoinEnds(blocks, "\n");
    assert text[..|head|] == first[..|head|];
    assert text[|text| - |tail|..] == last[|last| - |tail|..];
  }

  /** The joined outline opens like its first block and closes like its last. */
  lemma OutlineFrame(slides: seq<Slide>)
    requires slides != []
    ensures |OutlineText(slides)| >= |"\n## " + slides[0].slideTitle| + |BlockEnd|
    ensures StartsWith(OutlineText(slides), "\n## " + slides[0].slideTitle)
    ensures EndsWith(OutlineText(slides), BlockEnd)
  {
    var blocks := seq(|slides|, i requires 0 <= i < |slides| => SlideBlock(slides[i]));
    SlideBlockFrame(slides[0]);
    SlideBlockFrame(slides[|slides| - 1]);
    JoinFrame(blocks, "\n## " + slides[0].slideTitle, BlockEnd);
  }

  /** Trimming a text framed like an outline drops exactly the opening newline
      and the closing newline and indentation. */
  lemma TrimOutline(text: string, title: string)
    requires |text| >= |"\n## " + title| + |BlockEnd|
    requires StartsWith(text, "\n## " + title)
    requires EndsWith(text, BlockEnd)
    ensures Trim(text) == text[1..|text| - 7]
    ensures StartsWith(Trim(text), "## " + title)
    ensures EndsWith(Trim(text), Separator)
  {
    var head := "\n## " + title;
    var core := text[1..|text| - 7];
    assert text[0] == head[0] && text[1] == head[1];
    assert text[|text| - 8] == BlockEnd[|BlockEnd| - 8];
    assert text == text[..1] + core + text[|text| - 7..];
    assert text[|text| - 7..] == BlockEnd[|BlockEnd| - 7..];
    TrimAround(text[..1], core, text[|text| - 7..]);
    assert core[..|head| - 1] == head[1..];
    assert core[|core| - |Separator|..] == text[|text| - |BlockEnd|..|text| - 7];
  }

  /** The copied text is the joined blocks without the leading newline and the
      trailing newline and indentation: it starts with `## ` and the first slide's
      title and ends with the separator; no slides give the empty text. */
  lemma CopiedTextShape(slides: seq<Slide>)
    ensures slides == [] ==> CopiedText(slides) == ""
    ensures slides != [] ==>
      var text := OutlineText(slides);
      && |text| >= 8
      && CopiedText(slides) == text[1..|text| - 7]
      && StartsWith(CopiedText(slides), "## " + slides[0].slideTitle)
      && EndsWith(CopiedText(slides), Separator)
  {
    if slides != [] {
      OutlineFrame(slides);
      TrimOutline(OutlineText(slides), slides[0].slideTitle);
    }
  }

  // ---------------------------------------------------------------------------
  // The page

  /** The outcome of `/presentation/create`: the reply body, or a thrown error. */
  datatype CreateReply = CreateThrew | CreateBody(success: bool, presentation: Option<PresentationData>)

  /** The outcome of `/presentation/get`. */
  datatype ListReply = ListThrew | ListBody(success: bool, data: Option<seq<PastPresentation>>)

  /** The request body of `/presentation/create`. */
  datatype CreateRequest = CreateRequest(topic: string, timelimit: string)

  const FailedMessage := "Failed to generate presentation. Please try again."
  const ErrorMessage := "Error generating presentation. Please try again."

  class Page {
    var topic: string
    var timeLimit: string
    var isLoading: bool
    var isCopied: bool
    var generatedSlides: Option<seq<Slide>>
    var presentationData: Option<PresentationData>
    var pastPresentations: seq<PastPresentation>
    var isLoadingPastPresentations: bool
    var selectedPresentation: Option<PastPresentation>
    var isModalOpen: bool

    constructor ()
      ensures topic == "" && timeLimit == "5" && !isLoading && !isCopied
      ensures generatedSlides == None && presentationData == None
      ensures pastPresentations == [] && !isLoadingPastPresentations
      ensures selectedPresentation == None && !isModalOpen
    {
      topic, timeLimit, isLoading, isCopied := "", "5", false, false;
      generatedSlides, presentationData := None, None;
      pastPresentations, isLoadingPastPresentations := [], false;
      selectedPresentation, isModalOpen := None, false;
    }

    /** `fetchPastPresentations`: the list is replaced only by a successful reply
        carrying data; loading ends either way. */
    method FetchPastPresentations(reply: ListReply)
      modifies this
      ensures reply.ListBody? && reply.success && reply.data.Some? ==> pastPresentations == reply.data.value
      ensures !(reply.ListBody? && reply.success && reply.data.Some?) ==> pastPresentations == old(pastPresentations)
      ensures !isLoadingPastPresentations
      ensures topic == old(topic) && timeLimit == old(timeLimit) && isLoading == old(isLoading)
      ensures isCopied == old(isCopied) && generatedSlides == old(generatedSlides)
      ensures presentationData == old(presentationData)
      ensures selectedPresentation == old(selectedPresentation) && isModalOpen == old(isModalOpen)
    {
      isLoadingPastPresentations := true;
      match reply {
        case ListThrew =>
        case ListBody(success, data) =>
          if success && data.Some? {
            pastPresentations := data.value;
          }
      }
      isLoadingPastPresentations := false;
    }

    /** `handleSubmit`: nothing happens for an empty topic. Otherwise slides and
        data are cleared and the request is sent; a successful reply with a
        presentation stores it and its slides and refreshes the past list (with
        the reply `refresh`), anything else leaves both cleared and raises an
        alert. Loading ends either way. */
    method HandleSubmit(reply: CreateReply, refresh: ListReply)
      returns (request: Option<CreateRequest>, alert: Option<string>)
      modifies this
      ensures topic == old(topic) && timeLimit == old(timeLimit) && isCopied == old(isCopied)
      ensures selectedPresentation == old(selectedPresentation) && isModalOpen == old(isModalOpen)
      ensures topic == "" ==>
        && request == None && alert == None && isLoading == old(isLoading)
        && generatedSlides == old(generatedSlides) && presentationData == old(presentationData)
        && pastPresentations == old(pastPresentations)
        && isLoadingPastPresentations == old(isLoadingPastPresentations)
      ensures topic != "" ==> request == Some(CreateRequest(topic, timeLimit)) && !isLoading
      ensures topic != "" && reply.CreateBody? && reply.success && reply.presentation.Some? ==>
        && alert == None
        && presentationData == reply.presentation
        && generatedSlides == Some(reply.presentation.value.slides)
        && !isLoadingPastPresentations
        && (refresh.ListBody? && refresh.success && refresh.data.Some? ==> pastPresentations == refresh.data.value)
        && (!(refresh.ListBody? && refresh.success && refresh.data.Some?) ==> pastPresentations == old(pastPresentations))
      ensures topic != "" && reply.CreateBody? && !(reply.success && reply.presentation.Some?) ==>
        && alert == Some(FailedMessage)
        && generatedSlides == None && presentationData == None
        && pastPresentations == old(pastPresentations)
        && isLoadingPastPresentations == old(isLoadingPastPresentations)
      ensures topic != "" && reply.CreateThrew? ==>
        && alert == Some(ErrorMessage)
        && generatedSlides == None && presentationData == None
        && pastPresentations == old(pastPresentations)
        && isLoadingPastPresentations == old(isLoadingPastPresentations)
    {
      request, alert := None, None;
      if topic == "" {
        return;
      }
      isLoading := true;
      generatedSlides := None;
      presentationData := None;
      request := Some(CreateRequest(topic, timeLimit));
      match reply {
        case CreateThrew =>
          alert := Some(ErrorMessage);
        case CreateBody(success, presentation) =>
          if success && presentation.Some? {
            presentationData := presentation;
            generatedSlides := Some(presentation.value.slides);
            FetchPastPresentations(refresh);
          } else {
            alert := Some(FailedMessage);
          }
      }
      isLoading := false;
    }

    /** `handleCopy`: without slides nothing happens; otherwise the formatted
        outline goes to the clipboard and the copied flag is raised. */
    method HandleCopy() returns (clipboard: Option<string>)
      modifies this
      ensures generatedSlides.None? ==> clipboard == None && isCopied == old(isCopied)
      ensures generatedSlides.Some? ==>
        clipboard == Some(CopiedText(generatedSlides.value)) && isCopied
      ensures topic == old(topic) && timeLimit == old(timeLimit) && isLoading == old(isLoading)
      ensures generatedSlides == old(generatedSlides) && presentationData == old(presentationData)
      ensures pastPresentations == old(pastPresentations)
      ensures isLoadingPastPresentations == old(isLoadingPastPresentations)
      ensures selectedPresentation == old(selectedPresentation) && isModalOpen == old(isModalOpen)
    {
      if generatedSlides.None? {
        return None;
      }
      var formattedText := OutlineText(generatedSlides.value);
      clipboard := Some(Trim(formattedText));
      isCopied := true;
    }

    /** `handleReset`: restores the form and clears slides, data and the copied flag. */
    method HandleReset()
      modifies this
      ensures topic == "" && timeLimit == "5"
      ensures generatedSlides == None && presentationData == None && !isCopied
      ensures isLoading == old(isLoading) && pastPresentations == old(pastPresentations)
      ensures isLoadingPastPresentations == old(isLoadingPastPresentations)
      ensures selectedPresentation == old(selectedPresentation) && isModalOpen == old(isModalOpen)
    {
      topic := "";
      timeLimit := "5";
      generatedSlides := None;
      presentationData := None;
      isCopied := false;
    }

    /** `handleViewPresentation`: selects a past outline and opens the modal. */
    method ViewPresentation(presentation: PastPresentation)
      modifies this
      ensures selectedPresentation == Some(presentation) && isModalOpen
      ensures topic == old(topic) && timeLimit == old(timeLimit) && isLoading == old(isLoading)
      ensures isCopied == old(isCopied) && generatedSlides == old(generatedSlides)
      ensures presentationData == old(presentationData) && pastPresentations == old(pastPresentations)
      ensures isLoadingPastPresentations == old(isLoadingPastPresentations)
    {
      selectedPresentation := Some(presentation);
      isModalOpen := true;
    }

    /** `closeModal`: closes the modal and drops the selection. */
    method CloseModal()
      modifies this
      ensures !isModalOpen && selectedPresentation == None
      ensures topic == old(topic) && timeLimit == old(timeLimit) && isLoading == old(isLoading)
      ensures isCopied == old(isCopied) && generatedSlides == old(generatedSlides)
      ensures presentationData == old(presentationData) && pastPresentations == old(pastPresentations)
      ensures isLoadingPastPresentations == old(isLoadingPastPresentations)
    {
      isModalOpen := false;
      selectedPresentation := None;
    }
  }
}
