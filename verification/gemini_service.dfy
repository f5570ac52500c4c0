/** The chat session service: it formats the portfolio data into prompt text, decides whether
    the assistant is available, and hands out the reply stream.
    The backend fetches and the generative model are outside the model. Each fetch's outcome
    is a parameter, and so is the model's reply. */
module GeminiService {
  import opened Common
  import opened Text

  /** One skill as the backend sends it (only its name is used). */
  datatype Skill = Skill(name: string)

  /** One entry of the skills record: a category and its skills, in enumeration order. */
  datatype SkillCategory = SkillCategory(category: string, items: seq<Skill>)

  /** A project as the backend sends it; the untyped payload may lack `tags`. */
  datatype ProjectEntry = ProjectEntry(title: string, description: string, tags: Option<seq<string>>)

  /** An employment description: a list of bullet strings, or a single string. */
  datatype Description = Bullets(lines: seq<string>) | Verbatim(text: string)

  datatype ExperienceEntry = ExperienceEntry(
    role: string,
    company: string,
    period: string,
    description: Description)

  /** The three datasets the assistant is seeded with. */
  datatype PortfolioData = PortfolioData(
    skills: seq<SkillCategory>,
    projects: seq<ProjectEntry>,
    experience: seq<ExperienceEntry>)

  /** The outcome of one backend request. */
  datatype Fetch<T> = Fetched(value: T) | FetchFailed

  /** One streamed fragment; its `text` may be missing. */
  datatype Chunk = Chunk(text: Option<string>)

  /** A reply stream: the fragments delivered before it ended normally or threw. */
  datatype StreamOutcome = Finished(chunks: seq<Chunk>) | Threw(chunks: seq<Chunk>)

  /** The handle returned by chat initialisation. A disabled handle carries the one fragment
      it yields, and an enabled handle carries the system instruction its chat was created with. */
  datatype ChatSession = Unavailable(notice: string) | Available(systemInstruction: string)

  const ContactEmail: string := "litojrgalan@gmail.com"
  const ContactPhone: string := "09079563771"
  const KeyMissingNotice: string := "AI assistant unavailable \U{2014} API key missing."
  const LoadFailedNotice: string := "Failed to load portfolio data. Try again later."
  const NoTags: string := "N/A"

  predicate SingleLine(s: string)
  {
    '\n' !in s
  }

  // ---------------------------------------------------------------- formatters

  function SkillNames(items: seq<Skill>): seq<string>
  {
    seq(|items|, i requires 0 <= i < |items| => items[i].name)
  }

  function SkillLine(c: SkillCategory): string
  {
    "- " + c.category + ": " + Join(SkillNames(c.items), ", ")
  }

  function SkillLines(cats: seq<SkillCategory>): seq<string>
  {
    seq(|cats|, i requires 0 <= i < |cats| => SkillLine(cats[i]))
  }

  /** The SKILLS block: one line per category, lines separated by line breaks. */
  function FormatSkills(cats: seq<SkillCategory>): string
  {
    Join(SkillLines(cats), "\n")
  }

  /** `p.tags?.join(", ") || "N/A"`: a missing or empty join falls back to "N/A". */
  function TechList(tags: Option<seq<string>>): string
  {
    var joined := if tags.Some? then Join(tags.value, ", ") else "";
    if joined == "" then NoTags else joined
  }

  function ProjectLine(p: ProjectEntry): string
  {
    "- " + p.title + ": " + p.description + " (Tech: " + TechList(p.tags) + ")"
  }

  function ProjectLines(ps: seq<ProjectEntry>): seq<string>
  {
    seq(|ps|, i requires 0 <= i < |ps| => ProjectLine(ps[i]))
  }

  /** The PROJECTS block: one line per project, in input order. */
  function FormatProjects(ps: seq<ProjectEntry>): string
  {
    Join(ProjectLines(ps), "\n")
  }

  /** Bullet lists are joined with one space; a plain string is used as it is. */
  function DescriptionText(d: Description): string
  {
    match d
    case Bullets(lines) => Join(lines, " ")
    case Verbatim(text) => text
  }

  function ExperienceLine(e: ExperienceEntry): string
  {
    "- " + e.role + " at " + e.company + " (" + e.period + "): " + DescriptionText(e.description)
  }

  function ExperienceLines(es: seq<ExperienceEntry>): seq<string>
  {
    seq(|es|, i requires 0 <= i < |es| => ExperienceLine(es[i]))
  }

  /** The EXPERIENCE block: one line per employment, in input order. */
  function FormatExperience(es: seq<ExperienceEntry>): string
  {
    Join(ExperienceLines(es), "\n")
  }

  // ------------------------------------------------------- single-line inputs

  predicate SkillsSingleLine(cats: seq<SkillCategory>)
  {
    forall i :: 0 <= i < |cats| ==>
      SingleLine(cats[i].category)
      && forall j :: 0 <= j < |cats[i].items| ==> SingleLine(cats[i].items[j].name)
  }

  predicate ProjectsSingleLine(ps: seq<ProjectEntry>)
  {
    forall i :: 0 <= i < |ps| ==>
      SingleLine(ps[i].title) && SingleLine(ps[i].description)
      && (ps[i].tags.Some? ==> forall j :: 0 <= j < |ps[i].tags.value| ==> SingleLine(ps[i].tags.value[j]))
  }

  predicate DescriptionSingleLine(d: Description)
  {
    match d
    case Bullets(lines) => forall j :: 0 <= j < |lines| ==> SingleLine(lines[j])
    case Verbatim(text) => SingleLine(text)
  }

  predicate ExperienceSingleLine(es: seq<ExperienceEntry>)
  {
    forall i :: 0 <= i < |es| ==>
      SingleLine(es[i].role) && SingleLine(es[i].company) && SingleLine(es[i].period)
      && DescriptionSingleLine(es[i].description)
  }

  /** The lines `Split` finds in a block: an empty block still reads as one empty line. */
  function BlockLines(lines: seq<string>): (r: seq<string>)
    ensures |r| > 0
  {
    if |lines| == 0 then [""] else lines
  }

  /** An empty block joins to "", as the one empty line does. */
  lemma JoinOfBlock(lines: seq<string>)
    ensures Join(BlockLines(lines), "\n") == Join(lines, "\n")
  {
  }

  /** Every line of the list is free of line breaks. */
  predicate LinesSingle(lines: seq<string>)
  {
    forall k :: 0 <= k < |lines| ==> SingleLine(lines[k])
  }

  lemma LinesSingleAppend(a: seq<string>, b: seq<string>)
    requires LinesSingle(a) && LinesSingle(b)
    ensures LinesSingle(a + b)
  {
  }

  /** Splitting a joined block at line breaks gives back its lines. */
  lemma SplitOfBlock(lines: seq<string>)
    requires LinesSingle(lines)
    ensures Split(Join(lines, "\n"), '\n') == BlockLines(lines)
  {
    if |lines| > 0 {
      SplitOfJoin(lines, '\n');
    } else {
      assert Split("", '\n') == [""];
    }
  }

  lemma SkillLinesSingle(cats: seq<SkillCategory>)
    requires SkillsSingleLine(cats)
    ensures LinesSingle(SkillLines(cats))
  {
    forall k | 0 <= k < |cats|
      ensures SingleLine(SkillLines(cats)[k])
    {
      JoinAvoids(SkillNames(cats[k].items), ", ", '\n');
    }
  }

  lemma ProjectLinesSingle(ps: seq<ProjectEntry>)
    requires ProjectsSingleLine(ps)
    ensures LinesSingle(ProjectLines(ps))
  {
    forall k | 0 <= k < |ps|
      ensures SingleLine(ProjectLines(ps)[k])
    {
      if ps[k].tags.Some? {
        JoinAvoids(ps[k].tags.value, ", ", '\n');
      }
    }
  }

  lemma ExperienceLinesSingle(es: seq<ExperienceEntry>)
    requires ExperienceSingleLine(es)
    ensures LinesSingle(ExperienceLines(es))
  {
    forall k | 0 <= k < |es|
      ensures SingleLine(ExperienceLines(es)[k])
    {
      if es[k].description.Bullets? {
        JoinAvoids(es[k].description.lines, " ", '\n');
      }
    }
  }

  // ------------------------------------------------------ formatter layouts

  /** The SKILLS block reads back as one `- <category>: <names joined by ", ">` line per
      category; no categories give the empty string. */
  lemma FormatSkillsLayout(cats: seq<SkillCategory>)
    requires SkillsSingleLine(cats)
    ensures |cats| == 0 ==> FormatSkills(cats) == ""
    ensures |cats| > 0 ==>
      var lines := Split(FormatSkills(cats), '\n');
      |lines| == |cats|
      && forall i :: 0 <= i < |cats| ==>
        lines[i] == "- " + cats[i].category + ": " + Join(SkillNames(cats[i].items), ", ")
  {
    SkillLinesSingle(cats);
    SplitOfBlock(SkillLines(cats));
  }

  /** The PROJECTS block reads back as one
      `- <title>: <description> (Tech: <tags joined by ", ">)` line per project, in order. */
  lemma FormatProjectsLayout(ps: seq<ProjectEntry>)
    requires ProjectsSingleLine(ps)
    ensures |ps| == 0 ==> FormatProjects(ps) == ""
    ensures |ps| > 0 ==>
      var lines := Split(FormatProjects(ps), '\n');
      |lines| == |ps|
      && forall i :: 0 <= i < |ps| ==>
        lines[i] == "- " + ps[i].title + ": " + ps[i].description + " (Tech: " + TechList(ps[i].tags) + ")"
  {
    ProjectLinesSingle(ps);
    SplitOfBlock(ProjectLines(ps));
  }

  /** The EXPERIENCE block reads back as one
      `- <role> at <company> (<period>): <description>` line per employment, in order. */
  lemma FormatExperienceLayout(es: seq<ExperienceEntry>)
    requires ExperienceSingleLine(es)
    ensures |es| == 0 ==> FormatExperience(es) == ""
    ensures |es| > 0 ==>
      var lines := Split(FormatExperience(es), '\n');
      |lines| == |es|
      && forall i :: 0 <= i < |es| ==>
        lines[i] == "- " + es[i].role + " at " + es[i].company + " (" + es[i].period + "): "
                    + DescriptionText(es[i].description)
  {
    ExperienceLinesSingle(es);
    SplitOfBlock(ExperienceLines(es));
  }

  /** "N/A" stands in exactly when the tags are missing, empty, or one empty string
      (all three join to the falsy ""); otherwise the joined tags are shown. */
  lemma TechListRule(tags: Option<seq<string>>)
    ensures TechList(tags) ==
      if tags.Some? && tags.value != [] && tags.value != [""] then Join(tags.value, ", ") else NoTags
    ensures tags.Some? && tags.value != [] && tags.value != [""] ==> TechList(tags) != ""
  {
    if tags.Some? {
      JoinIsEmptyIff(tags.value, ", ");
    }
  }

  /** A bullet list renders as its bullets in order, each followed by one space except the
      last: bullet `i` starts after the earlier bullets and their spaces, and the text ends
      with the last bullet. No bullets render as "". */
  lemma DescriptionRule(lines: seq<string>)
    ensures |lines| == 0 ==> DescriptionText(Bullets(lines)) == ""
    ensures forall i :: 0 <= i < |lines| ==>
      OccursAt(DescriptionText(Bullets(lines)), lines[i], Offset(lines, " ", i))
      && (i + 1 < |lines| ==>
            OccursAt(DescriptionText(Bullets(lines)), " ", Offset(lines, " ", i) + |lines[i]|))
    ensures |lines| > 0 ==>
      |DescriptionText(Bullets(lines))| == Offset(lines, " ", |lines| - 1) + |lines[|lines| - 1]|
  {
    forall i | 0 <= i < |lines|
      ensures OccursAt(DescriptionText(Bullets(lines)), lines[i], Offset(lines, " ", i))
      ensures i + 1 < |lines| ==>
        OccursAt(DescriptionText(Bullets(lines)), " ", Offset(lines, " ", i) + |lines[i]|)
    {
      JoinLayout(lines, " ", i);
    }
    if |lines| > 0 {
      JoinLayout(lines, " ", |lines| - 1);
    }
  }

  // ------------------------------------------------------ system instruction

  const IntroLine: string := "You are PortfoBot \U{2014} the AI assistant " + "for Lito Galan Jr's portfolio."
  const DataOnlyRule: string := "- Answer ONLY using the portfolio data " + "and the contact info provided."
  const BrevityRule: string := "- Keep answers short, friendly, and helpful."
  const OffTopicRule: string :=
    "- If a question is off-topic or not " + "covered by the data, say you don\U{2019}t " + "have that information."
  const ContactRule: string := "- If the user asks for contact info, " + "ALWAYS use this:"

  /** The fixed opening of the instruction template, one entry per line. The template begins
      with a line break, hence the first empty line. The long lines are split into several
      literals only to keep each literal short. */
  const InstructionHead: seq<string> := [
    "",
    IntroLine,
    "",
    "RULES:",
    DataOnlyRule,
    BrevityRule,
    OffTopicRule,
    ContactRule,
    "  Email: " + ContactEmail,
    "  Phone: " + ContactPhone,
    "",
    "CONTACT INFO:",
    "Email: " + ContactEmail,
    "Phone: " + ContactPhone,
    "",
    "SKILLS:"
  ]

  /** The template lines between the skills and the projects block. */
  const BeforeProjects: seq<string> := ["", "PROJECTS:"]

  /** The template lines between the projects and the experience block. */
  const BeforeExperience: seq<string> := ["", "EXPERIENCE:"]

  /** The template with its three blocks filled in, split at its literal line breaks;
      the template ends with a line break, hence the final empty line. */
  function InstructionPieces(d: PortfolioData): seq<string>
  {
    InstructionHead + [FormatSkills(d.skills)]
    + (BeforeProjects + [FormatProjects(d.projects)]
       + (BeforeExperience + [FormatExperience(d.experience)] + [""]))
  }

  /** The system instruction the enabled chat is created with. */
  function SystemInstruction(d: PortfolioData): string
  {
    Join(InstructionPieces(d), "\n")
  }

  lemma IntroSingleLine() ensures SingleLine(IntroLine) {}
  lemma DataOnlySingleLine() ensures SingleLine(DataOnlyRule) {}
  lemma BrevitySingleLine() ensures SingleLine(BrevityRule) {}
  lemma OffTopicSingleLine() ensures SingleLine(OffTopicRule) {}
  lemma ContactRuleSingleLine() ensures SingleLine(ContactRule) {}
  lemma ContactsSingleLine() ensures SingleLine(ContactEmail) && SingleLine(ContactPhone) {}

  lemma HeadSingleLine()
    ensures LinesSingle(InstructionHead)
  {
    IntroSingleLine();
    DataOnlySingleLine();
    BrevitySingleLine();
    OffTopicSingleLine();
    ContactRuleSingleLine();
    ContactsSingleLine();
  }

  lemma JoinCons(x: string, c: seq<string>, sep: string)
    requires |c| > 0
    ensures Join([x] + c, sep) == x + sep + Join(c, sep)
  {
    assert ([x] + c)[1..] == c;
  }

  /** Replacing a tail by one that joins the same way does not change the join. */
  lemma JoinSameTail(a: seq<string>, m: seq<string>, m': seq<string>, sep: string)
    requires |a| > 0 && |m| > 0 && |m'| > 0
    requires Join(m, sep) == Join(m', sep)
    ensures Join(a + m, sep) == Join(a + m', sep)
  {
    JoinAppend(a, m, sep);
    JoinAppend(a, m', sep);
  }

  /** Joining a list with one entry that is itself a join equals joining the flattened list. */
  lemma JoinFlatten(a: seq<string>, b: seq<string>, c: seq<string>, sep: string)
    requires |a| > 0 && |b| > 0 && |c| > 0
    ensures Join(a + [Join(b, sep)] + c, sep) == Join(a + b + c, sep)
  {
    var x := Join(b, sep);
    JoinCons(x, c, sep);
    JoinAppend(b, c, sep);
    JoinSameTail(a, [x] + c, b + c, sep);
    ConcatAssociative(a, [x], c);
    ConcatAssociative(a, b, c);
  }

  /** A joined block spliced between `a` and a rest that joins like `c'` joins like the
      flat list of lines. */
  lemma JoinSplice(a: seq<string>, b: seq<string>, c: seq<string>, c': seq<string>, sep: string)
    requires |a| > 0 && |b| > 0 && |c| > 0 && |c'| > 0
    requires Join(c, sep) == Join(c', sep)
    ensures Join(a + [Join(b, sep)] + c, sep) == Join(a + b + c', sep)
  {
    JoinFlatten(a, b, c, sep);
    JoinAppend(a + b, c, sep);
    JoinAppend(a + b, c', sep);
  }

  /** The lines of the instruction once its blocks are split into lines. */
  function InstructionLines(d: PortfolioData): seq<string>
  {
    InstructionHead + BlockLines(SkillLines(d.skills))
    + (BeforeProjects + BlockLines(ProjectLines(d.projects))
       + (BeforeExperience + BlockLines(ExperienceLines(d.experience)) + [""]))
  }

  /** The instruction is its lines joined with line breaks. */
  lemma InstructionJoinsLines(d: PortfolioData)
    ensures SystemInstruction(d) == Join(InstructionLines(d), "\n")
  {
    var b1 := BlockLines(SkillLines(d.skills));
    var b2 := BlockLines(ProjectLines(d.projects));
    var b3 := BlockLines(ExperienceLines(d.experience));
    JoinOfBlock(SkillLines(d.skills));
    JoinOfBlock(ProjectLines(d.projects));
    JoinOfBlock(ExperienceLines(d.experience));
    var rest2 := BeforeExperience + [FormatExperience(d.experience)] + [""];
    var lines2 := BeforeExperience + b3 + [""];
    JoinSplice(BeforeExperience, b3, [""], [""], "\n");
    var rest1 := BeforeProjects + [FormatProjects(d.projects)] + rest2;
    var lines1 := BeforeProjects + b2 + lines2;
    JoinSplice(BeforeProjects, b2, rest2, lines2, "\n");
    JoinSplice(InstructionHead, b1, rest1, lines1, "\n");
  }

  /** With single-line data, no line of the instruction holds a line break. */
  lemma InstructionLinesSingle(d: PortfolioData)
    requires SkillsSingleLine(d.skills) && ProjectsSingleLine(d.projects)
    requires ExperienceSingleLine(d.experience)
    ensures LinesSingle(InstructionLines(d))
  {
    var b1 := BlockLines(SkillLines(d.skills));
    var b2 := BlockLines(ProjectLines(d.projects));
    var b3 := BlockLines(ExperienceLines(d.experience));
    SkillLinesSingle(d.skills);
    ProjectLinesSingle(d.projects);
    ExperienceLinesSingle(d.experience);
    HeadSingleLine();
    assert LinesSingle(BeforeProjects) && LinesSingle(BeforeExperience) && LinesSingle([""]);
    LinesSingleAppend(BeforeExperience, b3);
    LinesSingleAppend(BeforeExperience + b3, [""]);
    LinesSingleAppend(BeforeProjects, b2);
    LinesSingleAppend(BeforeProjects + b2, BeforeExperience + b3 + [""]);
    LinesSingleAppend(InstructionHead, b1);
    LinesSingleAppend(InstructionHead + b1, BeforeProjects + b2 + (BeforeExperience + b3 + [""]));
  }

  /** Read line by line, the instruction is the fixed head (rules and contact details, ending
      with "SKILLS:"), then the skill lines, a blank line, "PROJECTS:", the project lines,
      a blank line, "EXPERIENCE:", the experience lines, and a final empty line. */
  lemma InstructionLayout(d: PortfolioData)
    requires SkillsSingleLine(d.skills) && ProjectsSingleLine(d.projects)
    requires ExperienceSingleLine(d.experience)
    ensures Split(SystemInstruction(d), '\n') ==
      InstructionHead + BlockLines(SkillLines(d.skills))
      + (BeforeProjects + BlockLines(ProjectLines(d.projects))
         + (BeforeExperience + BlockLines(ExperienceLines(d.experience)) + [""]))
  {
    InstructionJoinsLines(d);
    InstructionLinesSingle(d);
    SplitOfJoin(InstructionLines(d), '\n');
  }

  // ------------------------------------------------------------- startChat

  /** `!API_KEY` is false exactly for a present, non-empty key. */
  predicate HasApiKey(key: Option<string>)
  {
    key.Some? && key.value != ""
  }

  /** `Promise.all` over the three fetches: all three datasets, or nothing if any fetch failed. */
  function LoadPortfolioData(
    skills: Fetch<seq<SkillCategory>>,
    projects: Fetch<seq<ProjectEntry>>,
    experience: Fetch<seq<ExperienceEntry>>): (r: Option<PortfolioData>)
    ensures r.Some? <==> skills.Fetched? && projects.Fetched? && experience.Fetched?
    ensures r.Some? ==>
      r.value.skills == skills.value && r.value.projects == projects.value
      && r.value.experience == experience.value
  {
    if skills.Fetched? && projects.Fetched? && experience.Fetched? then
      Some(PortfolioData(skills.value, projects.value, experience.value))
    else
      None
  }

  /** Chat initialisation. No key disables the chat with the key notice. A failed fetch
      disables it with the load notice. Otherwise the chat is enabled with the instruction
      built from the fetched data. */
  function StartChat(
    key: Option<string>,
    skills: Fetch<seq<SkillCategory>>,
    projects: Fetch<seq<ProjectEntry>>,
    experience: Fetch<seq<ExperienceEntry>>): (r: ChatSession)
    ensures r.Available? <==>
      HasApiKey(key) && skills.Fetched? && projects.Fetched? && experience.Fetched?
    ensures !HasApiKey(key) ==> r == Unavailable(KeyMissingNotice)
    ensures HasApiKey(key) && r.Unavailable? ==> r.notice == LoadFailedNotice
    ensures r.Available? ==>
      r.systemInstruction
        == SystemInstruction(PortfolioData(skills.value, projects.value, experience.value))
  {
    if !HasApiKey(key) then Unavailable(KeyMissingNotice)
    else
      var data := LoadPortfolioData(skills, projects, experience);
      if data.None? then Unavailable(LoadFailedNotice)
      else Available(SystemInstruction(data.value))
  }

  /** The handle's `sendMessageStream`. A disabled handle yields its one fixed fragment and
      ends. An enabled handle relays the model's `reply`. */
  function SendMessageStream(session: ChatSession, reply: StreamOutcome): (r: StreamOutcome)
    ensures session.Unavailable? ==>
      r.Finished? && |r.chunks| == 1 && r.chunks[0].text == Some(session.notice)
    ensures session.Available? ==> r == reply
  {
    match session
    case Unavailable(notice) => Finished([Chunk(Some(notice))])
    case Available(_) => reply
  }

  /** The two ways of being disabled are told apart by their fragment. */
  lemma DisabledNoticesDiffer()
    ensures KeyMissingNotice != LoadFailedNotice
  {
    assert KeyMissingNotice[0] == 'A';
  }
}
