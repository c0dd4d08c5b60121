/** The content-generator page: requesting a speech script for a topic, falling
    back to a built-in sample script, and rendering a script as headings and
    paragraphs. */
module ContentGenerator {
  import opened Text

  // ---------------------------------------------------------------------------
  // Rendering a script

  /** A rendered block of a script: an `h4` heading or a `p` paragraph. */
  datatype Block = Heading(text: string) | Paragraph(text: string)

  const SectionSeparator := ". "

  /** A section is a heading when it mentions one of the three section names. */
  predicate IsHeaderSection(section: string)
  {
    Contains(section, "Introduction") || Contains(section, "Main Points") || Contains(section, "Conclusion")
  }

  /** How one section renders: a heading, a paragraph, or nothing for a section
      that is not a heading and holds only whitespace. The text is the section
      with every `.` removed. */
  function RenderSection(section: string): Option<Block>
  {
    if IsHeaderSection(section) then Some(Heading(RemoveAll(section, '.')))
    else if Trim(section) != "" then Some(Paragraph(RemoveAll(section, '.')))
    else None
  }

  /** Headings exactly for sections naming a part; nothing exactly for blank
      non-heading sections; every rendered text is the section without its dots. */
  lemma RenderSectionSpec(section: string)
    ensures RenderSection(section).Some? && RenderSection(section).value.Heading?
            <==> IsHeaderSection(section)
    ensures RenderSection(section).None?
            <==> !IsHeaderSection(section) && forall i :: 0 <= i < |section| ==> IsSpace(section[i])
    ensures RenderSection(section).Some? ==>
              '.' !in RenderSection(section).value.text
              && RenderSection(section).value.text == RemoveAll(section, '.')
  {
    TrimEmpty(section);
  }

  function Rendered(b: Option<Block>): seq<Block>
  {
    match b
    case None => []
    case Some(block) => [block]
  }

  /** The non-null results of `sections.map(...)`, in order. */
  function RenderSections(sections: seq<string>): seq<Block>
  {
    if sections == [] then []
    else RenderSections(sections[..|sections| - 1]) + Rendered(RenderSection(sections[|sections| - 1]))
  }

  /** Rendering keeps the order of the sections: it distributes over concatenation. */
  lemma {:induction false} RenderSectionsAppend(xs: seq<string>, ys: seq<string>)
    ensures RenderSections(xs + ys) == RenderSections(xs) + RenderSections(ys)
    decreases |ys|
  {
    if ys == [] {
      assert xs + ys == xs;
    } else {
      var init := ys[..|ys| - 1];
      assert (xs + ys)[..|xs + ys| - 1] == xs + init;
      RenderSectionsAppend(xs, init);
    }
  }

  /** At most one block per section, and no rendered text contains a `.`. */
  lemma {:induction false} RenderSectionsBlocks(sections: seq<string>)
    ensures |RenderSections(sections)| <= |sections|
    ensures forall k :: 0 <= k < |RenderSections(sections)| ==> '.' !in RenderSections(sections)[k].text
  {
    if sections != [] {
      RenderSectionsBlocks(sections[..|sections| - 1]);
      RenderSectionSpec(sections[|sections| - 1]);
    }
  }

  /** What the page renders for a script: nothing for a missing or empty script,
      otherwise the sections between successive `". "`. */
  function RenderScript(script: Option<string>): seq<Block>
  {
    if Truthy(script) then RenderSections(Split(script.value, SectionSeparator)) else []
  }

  /** The sections of a script hold no `". "`, and joining them with `". "` gives
      the script back; the rendering has at most one block per section and no dot. */
  lemma RenderScriptSpec(script: string)
    ensures var sections := Split(script, SectionSeparator);
      && Join(sections, SectionSeparator) == script
      && (forall k :: 0 <= k < |sections| ==> !Contains(sections[k], SectionSeparator))
      && |RenderScript(Some(script))| <= |sections|
      && forall k :: 0 <= k < |RenderScript(Some(script))| ==> '.' !in RenderScript(Some(script))[k].text
  {
    var sections := Split(script, SectionSeparator);
    JoinSplit(script, SectionSeparator);
    SplitPiecesFree(script, SectionSeparator);
    RenderSectionsBlocks(sections);
  }

  // ---------------------------------------------------------------------------
  // The page

  /** The script shown when the service does not produce one, line by line. */
  const MockScriptLines: seq<string> := [
    "",
    "## Introduction (1 Minute)",
    "",
    "**Hook:** \"Good morning, everyone. How many of you checked your social media feed this morning? (Pause for show of hands). What if I told you that same technology, Artificial Intelligence, is about to fundamentally change how we build, deploy, and secure our web applications?\"",
    "",
    "**Self-Intro:** \"My name is [Your Name], and today, we're diving into 'The Future of Web Development with AI.'\"",
    "",
    "**Agenda:** \"We'll explore three key areas: how AI is supercharging our coding process, how it's revolutionizing user experiences, and what you can do to stay ahead of the curve.\"",
    "",
    "---",
    "",
    "## Part 1: AI as a Co-Pilot (3 Minutes)",
    "",
    "**Point 1: Accelerated Development:**",
    "* \"Tools like GitHub Copilot and Tabnine aren't just autocomplete. They're 'pair programmers.' They suggest entire blocks of code, write unit tests, and even translate code from one language to another.\"",
    "* \"This means we spend less time on boilerplate and more time on complex problem-solving. It's a massive productivity boost.\"",
    "",
    "**Point 2: Automated Debugging & Security:**",
    "* \"AI models can now scan thousands of lines of code in seconds, identifying complex bugs and security vulnerabilities (like SQL injection or XSS) that human eyes might miss.\"",
    "* \"This shifts security from a final checklist item to an integrated part of the development lifecycle.\"",
    "",
    "---",
    "",
    "## Part 2: AI-Driven User Experiences (3 Minutes)",
    "",
    "**Point 1: Hyper-Personalization:**",
    "* \"Forget simple 'Welcome, [User Name]'. AI allows us to create experiences that adapt in real-time. Think of Netflix's recommendation engine, but for every website.\"",
    "* \"We can dynamically change layouts, content, and offers based on user behavior, time of day, or location, creating a truly one-to-one experience.\"",
    "",
    "**Point 2: The Rise of Conversational UI:**",
    "* \"The next generation of user interface is... no interface. AI-powered chatbots and virtual assistants are becoming so good, users can simply *ask* for what they want.\"",
    "* \"This is a game-changer for accessibility and simplifying complex workflows, like booking a multi-stop flight or configuring a complex product.\"",
    "",
    "---",
    "",
    "## Conclusion (1 Minute)",
    "",
    "**Summary:** \"So, as we've seen, AI is not a replacement for developers. It's an amplifier. It helps us code faster and more securely, and it allows us to build richer, more personal, and more accessible experiences for our users.\"",
    "",
    "**Call to Action:** \"My challenge to you is this: don't be afraid of these tools. Start small. Pick one AI tool this week—maybe a code generator or a new analytics platform—and just experiment. The future is being built by those who learn to partner with AI.\"",
    "",
    "**Closing:** \"Thank you. I'm happy to answer any questions.\"",
    ""
  ]

  /** `MOCK_SCRIPT`. */
  const MockScript := Join(MockScriptLines, "\n")

  /** The script on display: the service's text, or the built-in sample. The page
      renders it as `RenderScript(Some(ScriptBody(s)))`. */
  datatype ScriptText = Served(text: string) | Mock

  function ScriptBody(s: ScriptText): string
  {
    match s
    case Served(text) => text
    case Mock => MockScript
  }

  /** A saved script as the service returns it; only the fields the page reads. */
  datatype ContentRecord = ContentRecord(content: Option<string>, title: Option<string>, topic: Option<string>)

  /** The request body of `/content/create`. */
  datatype CreateRequest = CreateRequest(topic: string, timelimit: string, tone: string)

  /** The outcome of `/content/create`: the reply body, or a thrown error. */
  datatype CreateReply = CreateThrew | CreateBody(message: Option<string>, content: Option<ContentRecord>)

  /** The outcome of `/content/get`. */
  datatype ListReply = ListThrew | ListBody(contents: Option<seq<ContentRecord>>)

  const CreatedMessage := "Content created successfully"

  /** The service's script is used only for the exact success message and a
      non-empty script text. */
  predicate Accepted(reply: CreateReply)
  {
    && reply.CreateBody?
    && reply.message == Some(CreatedMessage)
    && reply.content.Some?
    && Truthy(reply.content.value.content)
  }

  class Page {
    var topic: string
    var timeLimit: string
    var tone: string
    var isLoading: bool
    var generatedScript: Option<ScriptText>
    var scriptMetadata: Option<ContentRecord>
    var pastScripts: seq<ContentRecord>
    var isLoadingPastScripts: bool
    var selectedScript: Option<ContentRecord>
    var isModalOpen: bool

    constructor ()
      ensures topic == "" && timeLimit == "5" && tone == "Informative"
      ensures !isLoading && generatedScript == None && scriptMetadata == None
      ensures pastScripts == [] && !isLoadingPastScripts
      ensures selectedScript == None && !isModalOpen
    {
      topic, timeLimit, tone := "", "5", "Informative";
      isLoading, generatedScript, scriptMetadata := false, None, None;
      pastScripts, isLoadingPastScripts := [], false;
      selectedScript, isModalOpen := None, false;
    }

    /** The blocks rendered in the modal for the selected past script. */
    function SelectedBlocks(): seq<Block>
      reads this
    {
      match selectedScript
      case None => []
      case Some(s) => RenderScript(s.content)
    }

    /** `fetchPastScripts`: the list is replaced only when the reply carries
        `contents`; loading ends either way. */
    method FetchPastScripts(reply: ListReply)
      modifies this
      ensures reply.ListBody? && reply.contents.Some? ==> pastScripts == reply.contents.value
      ensures !(reply.ListBody? && reply.contents.Some?) ==> pastScripts == old(pastScripts)
      ensures !isLoadingPastScripts
      ensures topic == old(topic) && timeLimit == old(timeLimit) && tone == old(tone)
      ensures isLoading == old(isLoading) && generatedScript == old(generatedScript)
      ensures scriptMetadata == old(scriptMetadata)
      ensures selectedScript == old(selectedScript) && isModalOpen == old(isModalOpen)
    {
      isLoadingPastScripts := true;
      match reply {
        case ListThrew =>
        case ListBody(contents) =>
          if contents.Some? {
            pastScripts := contents.value;
          }
      }
      isLoadingPastScripts := false;
    }

    /** `handleSubmit`: nothing happens unless topic, time limit and tone are all
        non-empty; otherwise the request is sent and the page ends not loading,
        showing the service's script (with its record as metadata) when accepted
        and the sample script (metadata untouched) on any other reply or error. */
    method HandleSubmit(reply: CreateReply) returns (request: Option<CreateRequest>)
      modifies this
      ensures topic == old(topic) && timeLimit == old(timeLimit) && tone == old(tone)
      ensures pastScripts == old(pastScripts) && isLoadingPastScripts == old(isLoadingPastScripts)
      ensures selectedScript == old(selectedScript) && isModalOpen == old(isModalOpen)
      ensures topic == "" || timeLimit == "" || tone == "" ==>
        && request == None && isLoading == old(isLoading)
        && generatedScript == old(generatedScript) && scriptMetadata == old(scriptMetadata)
      ensures topic != "" && timeLimit != "" && tone != "" ==>
        && request == Some(CreateRequest(topic, timeLimit, tone))
        && !isLoading
        && (Accepted(reply) ==>
              generatedScript == Some(Served(reply.content.value.content.value))
              && scriptMetadata == reply.content)
        && (!Accepted(reply) ==> generatedScript == Some(Mock) && scriptMetadata == old(scriptMetadata))
    {
      if topic == "" || timeLimit == "" || tone == "" {
        return None;
      }
      isLoading := true;
      generatedScript := None;
      request := Some(CreateRequest(topic, timeLimit, tone));
      match reply {
        case CreateThrew =>
          generatedScript := Some(Mock);
        case CreateBody(message, content) =>
          if message == Some(CreatedMessage) && content.Some? && Truthy(content.value.content) {
            generatedScript := Some(Served(content.value.content.value));
            scriptMetadata := content;
          } else {
            generatedScript := Some(Mock);
          }
      }
      isLoading := false;
    }

    /** `handleReset`: clears the script and its metadata and restores the form. */
    method HandleReset()
      modifies this
      ensures generatedScript == None && scriptMetadata == None
      ensures topic == "" && timeLimit == "5" && tone == "Informative"
      ensures isLoading == old(isLoading) && pastScripts == old(pastScripts)
      ensures isLoadingPastScripts == old(isLoadingPastScripts)
      ensures selectedScript == old(selectedScript) && isModalOpen == old(isModalOpen)
    {
      generatedScript := None;
      scriptMetadata := None;
      topic := "";
      timeLimit := "5";
      tone := "Informative";
    }

    /** `handleViewScript`: selects a past script and opens the modal. */
    method ViewScript(script: ContentRecord)
      modifies this
      ensures selectedScript == Some(script) && isModalOpen
      ensures SelectedBlocks() == RenderScript(script.content)
      ensures topic == old(topic) && timeLimit == old(timeLimit) && tone == old(tone)
      ensures isLoading == old(isLoading) && generatedScript == old(generatedScript)
      ensures scriptMetadata == old(scriptMetadata) && pastScripts == old(pastScripts)
      ensures isLoadingPastScripts == old(isLoadingPastScripts)
    {
      selectedScript := Some(script);
      isModalOpen := true;
    }

    /** `closeModal`: closes the modal and drops the selection. */
    method CloseModal()
      modifies this
      ensures !isModalOpen && selectedScript == None && SelectedBlocks() == []
      ensures topic == old(topic) && timeLimit == old(timeLimit) && tone == old(tone)
      ensures isLoading == old(isLoading) && generatedScript == old(generatedScript)
      ensures scriptMetadata == old(scriptMetadata) && pastScripts == old(pastScripts)
      ensures isLoadingPastScripts == old(isLoadingPastScripts)
    {
      isModalOpen := false;
      selectedScript := None;
    }
  }
}
