/** The text index.tsx builds from the portfolio without the chat: the
    `cvDataString` block handed to the chat session's system instruction, that
    instruction itself, and the line the Education section shows per entry. */
module CvText {
  import opened Text
  import opened Portfolio

  /** `cvDataString`: the same eight labelled lines as data.ts, each on its own
      line indented by eight spaces, and a last line of four spaces. */
  function CvDataString(p: PortfolioData): string
  {
    var ind := "\n        ";
    ind + "Name: " + p.name +
    ind + "Title: " + p.title +
    ind + "Location: " + p.location +
    ind + "Summary: " + p.summary +
    ind + "Skills: " + SkillsSegment(p) +
    ind + "Experience: " + ExperienceSegment(p) +
    ind + "Education: " + EducationSegment(p) +
    ind + "Projects: " + ProjectsSegment(p) +
    "\n    "
  }

  /** The system instruction the streaming chat session is created with: the
      preamble, a space, `cvDataString`, then ". " and the closing line. */
  function DirectSystemInstruction(p: PortfolioData): string
  {
    Preamble + " " + CvDataString(p) + ". " + Closing
  }

  /** `cvDataString` renders exactly the briefing lines of data.ts, in the same
      order; only the indentation and the surrounding text differ. */
  lemma CvDataIsIndentedBriefing(p: PortfolioData)
    ensures CvDataString(p) == Indented(BriefingLines(p), "\n        ") + "\n    "
  {
    var ls, ind := BriefingLines(p), "\n        ";
    assert ls[..0] == [];
    var t1 := ind + "Name: " + p.name;
    IndentedSnoc(ls, 0, ind, "Name: ", p.name);
    assert t1 == Indented(ls[..1], ind);
    var t2 := t1 + ind + "Title: " + p.title;
    IndentedSnoc(ls, 1, ind, "Title: ", p.title);
    assert t2 == Indented(ls[..2], ind);
    var t3 := t2 + ind + "Location: " + p.location;
    IndentedSnoc(ls, 2, ind, "Location: ", p.location);
    assert t3 == Indented(ls[..3], ind);
    var t4 := t3 + ind + "Summary: " + p.summary;
    IndentedSnoc(ls, 3, ind, "Summary: ", p.summary);
    assert t4 == Indented(ls[..4], ind);
    var t5 := t4 + ind + "Skills: " + SkillsSegment(p);
    IndentedSnoc(ls, 4, ind, "Skills: ", SkillsSegment(p));
    assert t5 == Indented(ls[..5], ind);
    var t6 := t5 + ind + "Experience: " + ExperienceSegment(p);
    IndentedSnoc(ls, 5, ind, "Experience: ", ExperienceSegment(p));
    assert t6 == Indented(ls[..6], ind);
    var t7 := t6 + ind + "Education: " + EducationSegment(p);
    IndentedSnoc(ls, 6, ind, "Education: ", EducationSegment(p));
    assert t7 == Indented(ls[..7], ind);
    var t8 := t7 + ind + "Projects: " + ProjectsSegment(p);
    IndentedSnoc(ls, 7, ind, "Projects: ", ProjectsSegment(p));
    assert t8 == Indented(ls[..8], ind);
    assert ls[..8] == ls;
    assert CvDataString(p) == t8 + "\n    ";
  }

  /** The two widgets brief the assistant with the same lines: data.ts's
      instruction and index.tsx's `cvDataString` are both the briefing lines of
      the same portfolio, indented, and index.tsx's instruction carries the same
      preamble and closing line around its block. */
  lemma BriefingsAgree(p: PortfolioData)
    ensures SystemInstruction(p) == Preamble + Indented(BriefingLines(p), "\n    ") + "\n" + Closing
    ensures CvDataString(p) == Indented(BriefingLines(p), "\n        ") + "\n    "
    ensures DirectSystemInstruction(p) ==
      Preamble + " " + Indented(BriefingLines(p), "\n        ") + "\n    " + ". " + Closing
  {
    InstructionIsIndentedBriefing(p);
    CvDataIsIndentedBriefing(p);
    var head, lines := Preamble + " ", Indented(BriefingLines(p), "\n        ");
    Associative(head, lines, "\n    ");
  }

  /** The Education section's line: the degree, then " | " and the period
      only when the period is not empty. */
  function EducationDisplay(e: Education): (r: string)
    ensures |e.degree| <= |r| && r[..|e.degree|] == e.degree
    ensures (r == e.degree) <==> (e.period == "")
    ensures e.period != "" ==> r[|e.degree|..] == " | " + e.period
  {
    if e.period == "" then e.degree else e.degree + " | " + e.period
  }

  /** For an entry without a period the two renderings part ways: the display
      line is the degree alone, while the briefing still writes "()". */
  lemma EducationFormsDiffer(e: Education)
    requires e.period == ""
    ensures EducationDisplay(e) == e.degree
    ensures EducationLine(e) == e.degree + " from " + e.institution + " ()"
  {
  }
}
