/** The two prompts sent to the career coach. Each is one template filled in
    from the current selection (and, for negotiation, the estimate). */
module Prompts {
  import opened Coefficients
  import opened Text

  /** Which advice the user asked for. */
  datatype AdviceKind = Negotiation | Roadmap

  const NegotiationFallback: string := "general data science skills"
  const RoadmapFallback: string := "basic proficiency"

  /** The skills as written into a prompt: the list joined by ", ", or the
      kind's own phrase when no skill is selected. */
  function SkillsText(skills: seq<string>, fallback: string): string
  {
    if |skills| > 0 then Join(skills, ", ") else fallback
  }

  /** The phrase a prompt uses when no skill is selected. */
  function Fallback(kind: AdviceKind): string
  {
    match kind
    case Negotiation => NegotiationFallback
    case Roadmap => RoadmapFallback
  }

  /** The prompt for `kind`, as the pieces of its template in order.
      `format` stands for the locale's rendering of a number
      (`toLocaleString`), which only the negotiation prompt uses. */
  function Pieces(kind: AdviceKind, sel: Selection, prediction: int, format: int -> string): seq<string>
  {
    match kind
    case Negotiation =>
      [N0, sel.seniority, N1, sel.industry, N2, sel.location, N3, format(prediction),
       N4, SkillsText(sel.skills, Fallback(Negotiation)), N5]
    case Roadmap =>
      [R0, sel.seniority, R1, sel.industry, R2, SkillsText(sel.skills, Fallback(Roadmap)), R3]
  }

  /** The prompt text sent for `kind`. */
  function Prompt(kind: AdviceKind, sel: Selection, prediction: int, format: int -> string): string
  {
    Concat(Pieces(kind, sel, prediction, format))
  }

  // The fixed text of the negotiation template, piece by piece.
  const N0: string := "Act as an expert salary negotiation coach. I am a "
  const N1: string := " level professional in the "
  const N2: string := " industry based in "
  const N3: string := ". My estimated market salary is €"
  const N4: string := ". My key skills are: "
  const N5: string := ". \n      \n      Write a brief, professional, and persuasive 3-point script I can use in an interview or email to negotiate for a 10-15% higher salary. Focus on the value of my specific seniority and skills. Keep it concise."

  // The fixed text of the roadmap template, piece by piece.
  const R0: string := "Act as a technical career mentor for a Data Scientist. I am currently at the "
  const R1: string := " level in the "
  const R2: string := " industry. My current skills are: "
  const R3: string := ".\n      \n      Identify 3 specific, high-impact technologies, concepts, or project types I should master next to significantly increase my salary and move to the next career level. Explain why for each. Keep it actionable and brief."

  /** Every selected skill appears in the skills text; with no skill
      selected the text is the fallback phrase. */
  lemma SkillsTextContents(skills: seq<string>, fallback: string)
    ensures skills == [] ==> SkillsText(skills, fallback) == fallback
    ensures forall k :: 0 <= k < |skills| ==> Contains(SkillsText(skills, fallback), skills[k])
  {
    forall k | 0 <= k < |skills|
      ensures Contains(SkillsText(skills, fallback), skills[k])
    {
      JoinContainsEach(skills, ", ", k);
    }
  }

  /** The negotiation prompt names the seniority, the industry, the location,
      the formatted estimate and the skills text. */
  lemma NegotiationPromptContents(sel: Selection, prediction: int, format: int -> string)
    ensures var p := Prompt(Negotiation, sel, prediction, format);
      && Contains(p, sel.seniority)
      && Contains(p, sel.industry)
      && Contains(p, sel.location)
      && Contains(p, format(prediction))
      && Contains(p, SkillsText(sel.skills, NegotiationFallback))
  {
    var ps := Pieces(Negotiation, sel, prediction, format);
    ConcatContainsEach(ps, 1);
    ConcatContainsEach(ps, 3);
    ConcatContainsEach(ps, 5);
    ConcatContainsEach(ps, 7);
    ConcatContainsEach(ps, 9);
  }

  /** The roadmap prompt names the seniority, the industry and the skills text. */
  lemma RoadmapPromptContents(sel: Selection, prediction: int, format: int -> string)
    ensures var p := Prompt(Roadmap, sel, prediction, format);
      && Contains(p, sel.seniority)
      && Contains(p, sel.industry)
      && Contains(p, SkillsText(sel.skills, RoadmapFallback))
  {
    var ps := Pieces(Roadmap, sel, prediction, format);
    ConcatContainsEach(ps, 1);
    ConcatContainsEach(ps, 3);
    ConcatContainsEach(ps, 5);
  }

  /** The roadmap prompt does not depend on the location or on the estimate:
      changing either leaves it the same text. */
  lemma RoadmapIgnoresLocationAndEstimate(sel: Selection, location: string,
                                          p1: int, p2: int, f1: int -> string, f2: int -> string)
    ensures Prompt(Roadmap, sel, p1, f1) == Prompt(Roadmap, sel.(location := location), p2, f2)
  {
  }

  /** Either prompt names every selected skill, and with no skill selected
      it names the kind's fallback phrase instead. */
  lemma PromptMentionsSkills(kind: AdviceKind, sel: Selection, prediction: int, format: int -> string)
    ensures sel.skills == [] ==> Contains(Prompt(kind, sel, prediction, format), Fallback(kind))
    ensures forall k :: 0 <= k < |sel.skills| ==> Contains(Prompt(kind, sel, prediction, format), sel.skills[k])
  {
    var p := Prompt(kind, sel, prediction, format);
    var sk := SkillsText(sel.skills, Fallback(kind));
    if kind == Negotiation {
      NegotiationPromptContents(sel, prediction, format);
    } else {
      RoadmapPromptContents(sel, prediction, format);
    }
    assert Contains(p, sk);
    SkillsTextContents(sel.skills, Fallback(kind));
    forall k | 0 <= k < |sel.skills|
      ensures Contains(p, sel.skills[k])
    {
      ContainsTransitive(p, sk, sel.skills[k]);
    }
  }
}
