/** The portfolio record and the system instruction built from it
    (`aiSystemInstruction` in data.ts): every experience, education and project
    record goes through a fixed template, records are joined with "; ", skills
    with ", ", and the whole is wrapped in a fixed preamble and closing line. */
module Portfolio {
  import opened Text

  datatype Experience = Experience(company: string, role: string, period: string, description: string)

  /** `period` may be empty. */
  datatype Education = Education(institution: string, degree: string, period: string)

  datatype Project = Project(name: string, description: string, result: string, skills: seq<string>)

  datatype Contact = Contact(email: string, linkedin: string)

  datatype PortfolioData = PortfolioData(
    name: string,
    profileImage: string,
    title: string,
    location: string,
    contact: Contact,
    summary: string,
    skills: seq<string>,
    experience: seq<Experience>,
    education: seq<Education>,
    projects: seq<Project>)

  const Preamble: string :=
    "You are a professional AI assistant for Tanvir Ahsan's portfolio website. " +
    "Answer questions based ONLY on the following information:"

  const Closing: string :=
    "Be friendly and concise. If a question is outside this scope, politely decline to answer."

  /** Record separator between experience, education and project entries. */
  const RecordSeparator: string := "; "

  /** Separator between skill tags. */
  const SkillSeparator: string := ", "

  /** "role at company (period): description". */
  function ExperienceLine(e: Experience): string
  {
    e.role + " at " + e.company + " (" + e.period + "): " + e.description
  }

  /** "degree from institution (period)": the period goes between
      parentheses even when it is empty. */
  function EducationLine(e: Education): string
  {
    e.degree + " from " + e.institution + " (" + e.period + ")"
  }

  /** "name: result": only the name and the outcome of a project are
      rendered. */
  function ProjectLine(p: Project): string
  {
    p.name + ": " + p.result
  }

  function ExperienceLines(xs: seq<Experience>): (r: seq<string>)
    ensures |r| == |xs| && forall i :: 0 <= i < |xs| ==> r[i] == ExperienceLine(xs[i])
  {
    seq(|xs|, i requires 0 <= i < |xs| => ExperienceLine(xs[i]))
  }

  function EducationLines(xs: seq<Education>): (r: seq<string>)
    ensures |r| == |xs| && forall i :: 0 <= i < |xs| ==> r[i] == EducationLine(xs[i])
  {
    seq(|xs|, i requires 0 <= i < |xs| => EducationLine(xs[i]))
  }

  function ProjectLines(xs: seq<Project>): (r: seq<string>)
    ensures |r| == |xs| && forall i :: 0 <= i < |xs| ==> r[i] == ProjectLine(xs[i])
  {
    seq(|xs|, i requires 0 <= i < |xs| => ProjectLine(xs[i]))
  }

  function SkillsSegment(p: PortfolioData): string { Join(p.skills, SkillSeparator) }
  function ExperienceSegment(p: PortfolioData): string { Join(ExperienceLines(p.experience), RecordSeparator) }
  function EducationSegment(p: PortfolioData): string { Join(EducationLines(p.education), RecordSeparator) }
  function ProjectsSegment(p: PortfolioData): string { Join(ProjectLines(p.projects), RecordSeparator) }

  /** `aiSystemInstruction`: the template literal of data.ts, line breaks and
      four-space indentation included. It starts with the fixed preamble and
      ends with the fixed closing line. */
  function SystemInstruction(p: PortfolioData): string
  {
    var ind := "\n    ";
    Preamble +
      ind + "Name: " + p.name +
      ind + "Title: " + p.title +
      ind + "Location: " + p.location +
      ind + "Summary: " + p.summary +
      ind + "Skills: " + SkillsSegment(p) +
      ind + "Experience: " + ExperienceSegment(p) +
      ind + "Education: " + EducationSegment(p) +
      ind + "Projects: " + ProjectsSegment(p) +
      "\n" + Closing
  }

  /** The eight labelled lines of the briefing, in the order both chat widgets
      present them. */
  function BriefingLines(p: PortfolioData): seq<string>
  {
    [ "Name: " + p.name,
      "Title: " + p.title,
      "Location: " + p.location,
      "Summary: " + p.summary,
      "Skills: " + SkillsSegment(p),
      "Experience: " + ExperienceSegment(p),
      "Education: " + EducationSegment(p),
      "Projects: " + ProjectsSegment(p) ]
  }

  /** Each line preceded by `indent`, in order. */
  function Indented(lines: seq<string>, indent: string): (r: string)
    ensures |r| == TotalLength(lines) + |lines| * |indent|
  {
    if lines == [] then ""
    else Indented(lines[..|lines| - 1], indent) + (indent + lines[|lines| - 1])
  }

  lemma Regroup(a: string, b: string, c: string, d: string, e: string)
    ensures (((a + b) + c) + d) + e == a + (b + (c + (d + e)))
  {
  }

  /** One more labelled line after the first `k`, whatever text `pre` comes
      before them. */
  lemma {:induction false} IndentedStep(pre: string, lines: seq<string>, k: nat, indent: string, heading: string, content: string)
    requires k < |lines| && lines[k] == heading + content
    ensures pre + Indented(lines[..k], indent) + indent + heading + content == pre + Indented(lines[..k + 1], indent)
  {
    assert lines[..k + 1][..k] == lines[..k];
    Regroup(pre, Indented(lines[..k], indent), indent, heading, content);
  }

  /** `IndentedStep` with nothing before the lines. */
  lemma {:induction false} IndentedSnoc(lines: seq<string>, k: nat, indent: string, heading: string, content: string)
    requires k < |lines| && lines[k] == heading + content
    ensures Indented(lines[..k], indent) + indent + heading + content == Indented(lines[..k + 1], indent)
  {
    IndentedStep("", lines, k, indent, heading, content);
    assert "" + Indented(lines[..k], indent) == Indented(lines[..k], indent);
    assert "" + Indented(lines[..k + 1], indent) == Indented(lines[..k + 1], indent);
  }

  /** The instruction is the preamble, then the briefing lines each on its own
      line indented by four spaces, then the closing line. */
  lemma InstructionIsIndentedBriefing(p: PortfolioData)
    ensures SystemInstruction(p) == Preamble + Indented(BriefingLines(p), "\n    ") + "\n" + Closing
  {
    var ls, ind := BriefingLines(p), "\n    ";
    assert ls[..0] == [];
    var t0 := Preamble;
    var t1 := t0 + ind + "Name: " + p.name;
    IndentedStep(Preamble, ls, 0, ind, "Name: ", p.name);
    assert t1 == Preamble + Indented(ls[..1], ind);
    var t2 := t1 + ind + "Title: " + p.title;
    IndentedStep(Preamble, ls, 1, ind, "Title: ", p.title);
    assert t2 == Preamble + Indented(ls[..2], ind);
    var t3 := t2 + ind + "Location: " + p.location;
    IndentedStep(Preamble, ls, 2, ind, "Location: ", p.location);
    assert t3 == Preamble + Indented(ls[..3], ind);
    var t4 := t3 + ind + "Summary: " + p.summary;
    IndentedStep(Preamble, ls, 3, ind, "Summary: ", p.summary);
    assert t4 == Preamble + Indented(ls[..4], ind);
    var t5 := t4 + ind + "Skills: " + SkillsSegment(p);
    IndentedStep(Preamble, ls, 4, ind, "Skills: ", SkillsSegment(p));
    assert t5 == Preamble + Indented(ls[..5], ind);
    var t6 := t5 + ind + "Experience: " + ExperienceSegment(p);
    IndentedStep(Preamble, ls, 5, ind, "Experience: ", ExperienceSegment(p));
    assert t6 == Preamble + Indented(ls[..6], ind);
    var t7 := t6 + ind + "Education: " + EducationSegment(p);
    IndentedStep(Preamble, ls, 6, ind, "Education: ", EducationSegment(p));
    assert t7 == Preamble + Indented(ls[..7], ind);
    var t8 := t7 + ind + "Projects: " + ProjectsSegment(p);
    IndentedStep(Preamble, ls, 7, ind, "Projects: ", ProjectsSegment(p));
    assert t8 == Preamble + Indented(ls[..8], ind);
    assert ls[..8] == ls;
    assert t8 == Preamble + Indented(ls, ind);
    assert SystemInstruction(p) == t8 + "\n" + Closing;
  }

  /** The instruction starts with the fixed preamble and ends with the fixed
      closing line, whatever the portfolio holds. */
  lemma InstructionFraming(p: PortfolioData)
    ensures |Preamble| + |Closing| <= |SystemInstruction(p)|
    ensures SystemInstruction(p)[..|Preamble|] == Preamble
    ensures SystemInstruction(p)[|SystemInstruction(p)| - |Closing|..] == Closing
  {
    InstructionIsIndentedBriefing(p);
    var lines := Indented(BriefingLines(p), "\n    ");
    Associative(Preamble, lines, "\n");
    Framed(Preamble, lines + "\n", Closing);
  }

  /** Skill `i` sits at its place in the skills segment, followed by ", " when
      another skill follows: source order, one separator between neighbours. A
      single skill is the whole segment. */
  lemma {:induction false} SkillAt(p: PortfolioData, i: nat)
    requires i < |p.skills|
    ensures Offset(p.skills, SkillSeparator, i) + |p.skills[i]| <= |SkillsSegment(p)|
    ensures SkillsSegment(p)[Offset(p.skills, SkillSeparator, i) .. Offset(p.skills, SkillSeparator, i) + |p.skills[i]|] == p.skills[i]
    ensures i + 1 < |p.skills| ==>
      Offset(p.skills, SkillSeparator, i + 1) == Offset(p.skills, SkillSeparator, i) + |p.skills[i]| + 2 <= |SkillsSegment(p)| &&
      SkillsSegment(p)[Offset(p.skills, SkillSeparator, i) + |p.skills[i]| .. Offset(p.skills, SkillSeparator, i + 1)] == ", "
    ensures |p.skills| == 1 ==> SkillsSegment(p) == p.skills[0]
  {
    JoinAt(p.skills, SkillSeparator, i);
    if |p.skills| == 1 {
      assert p.skills[..0] == [];
    }
  }

  /** Experience `i` appears as "<role> at <company> (<period>): <description>"
      at its place in the experience segment, followed by "; " when another
      entry follows. */
  lemma {:induction false} ExperienceAt(p: PortfolioData, i: nat)
    requires i < |p.experience|
    ensures var ls, e := ExperienceLines(p.experience), p.experience[i];
      var k := Offset(ls, RecordSeparator, i);
      var line := e.role + " at " + e.company + " (" + e.period + "): " + e.description;
      k + |line| <= |ExperienceSegment(p)| &&
      ExperienceSegment(p)[k .. k + |line|] == line &&
      (i + 1 < |ls| ==>
        Offset(ls, RecordSeparator, i + 1) == k + |line| + 2 <= |ExperienceSegment(p)| &&
        ExperienceSegment(p)[k + |line| .. k + |line| + 2] == "; ")
  {
    JoinAt(ExperienceLines(p.experience), RecordSeparator, i);
  }

  /** Education `i` appears as "<degree> from <institution> (<period>)" at its
      place in the education segment (an empty period still gives "()"),
      followed by "; " when another entry follows. */
  lemma {:induction false} EducationAt(p: PortfolioData, i: nat)
    requires i < |p.education|
    ensures var ls, e := EducationLines(p.education), p.education[i];
      var k := Offset(ls, RecordSeparator, i);
      var line := e.degree + " from " + e.institution + " (" + e.period + ")";
      k + |line| <= |EducationSegment(p)| &&
      EducationSegment(p)[k .. k + |line|] == line &&
      (i + 1 < |ls| ==>
        Offset(ls, RecordSeparator, i + 1) == k + |line| + 2 <= |EducationSegment(p)| &&
        EducationSegment(p)[k + |line| .. k + |line| + 2] == "; ")
  {
    JoinAt(EducationLines(p.education), RecordSeparator, i);
  }

  /** Project `i` appears as "<name>: <result>" at its place in the projects
      segment, followed by "; " when another project follows. */
  lemma {:induction false} ProjectAt(p: PortfolioData, i: nat)
    requires i < |p.projects|
    ensures var ls, q := ProjectLines(p.projects), p.projects[i];
      var k := Offset(ls, RecordSeparator, i);
      var line := q.name + ": " + q.result;
      k + |line| <= |ProjectsSegment(p)| &&
      ProjectsSegment(p)[k .. k + |line|] == line &&
      (i + 1 < |ls| ==>
        Offset(ls, RecordSeparator, i + 1) == k + |line| + 2 <= |ProjectsSegment(p)| &&
        ProjectsSegment(p)[k + |line| .. k + |line| + 2] == "; ")
  {
    JoinAt(ProjectLines(p.projects), RecordSeparator, i);
  }

  /** Two portfolios that differ only in what the briefing does not render:
      the profile image, the contact details, and each project's description
      and skill tags. */
  predicate SameBriefing(p: PortfolioData, q: PortfolioData)
  {
    p.name == q.name && p.title == q.title && p.location == q.location &&
    p.summary == q.summary && p.skills == q.skills &&
    p.experience == q.experience && p.education == q.education &&
    |p.projects| == |q.projects| &&
    forall i :: 0 <= i < |p.projects| ==>
      p.projects[i].name == q.projects[i].name && p.projects[i].result == q.projects[i].result
  }

  /** The instruction reads nothing but the rendered fields: project
      descriptions, project skills, the image and the contact details never
      reach it. */
  lemma InstructionIgnoresUnrenderedFields(p: PortfolioData, q: PortfolioData)
    requires SameBriefing(p, q)
    ensures SystemInstruction(p) == SystemInstruction(q)
    ensures BriefingLines(p) == BriefingLines(q)
  {
    assert ProjectLines(p.projects) == ProjectLines(q.projects);
  }
}
