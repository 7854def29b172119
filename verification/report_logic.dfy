/**
 * The report writer's sentence bank and get_report_sentence: a sentence is
 * chosen for a report section at a performance level and its named
 * placeholders are filled with the student's name, pronouns and strongest
 * projects. The random choice is an index argument.
 */
module ReportLogic {
  import opened PyText

  /** The placeholders a sentence template may name. */
  datatype Field = StudentName | PronounCap | Pronoun | Possessive | PossessiveCap | Objective | StrongestProjects

  /** A template is literal text interleaved with placeholders, as str.format reads it. */
  datatype Piece = Lit(text: string) | Hole(field: Field)

  type Template = seq<Piece>

  /** The five report sections, in the order a report is written. */
  const Sections: seq<string> := ["Opening_Statement", "Skill_Research", "Skill_Making", "Skill_Evaluating", "Closing_Statement"]

  /** The three performance levels. */
  const Levels: set<string> := {"HIGH", "MID", "LOW"}

  /** A sentence bank: section name to level name to the candidate templates. */
  type Dictionary = map<string, map<string, seq<Template>>>

  /**
   * COMMENT_DICTIONARY: every report section, each mapping the three levels to
   * nine templates. The text of the templates is kept in methods of its own,
   * one per list, so that the proofs here see only the shape of the bank.
   */
  method CommentDictionary() returns (d: Dictionary)
    ensures forall s :: s in d <==> s in Sections
    ensures Shaped(d)
  {
    var opening := OpeningStatement();
    var research := SkillResearch();
    var making := SkillMaking();
    var evaluating := SkillEvaluating();
    var closing := ClosingStatement();
    d := map["Opening_Statement" := opening, "Skill_Research" := research, "Skill_Making" := making,
             "Skill_Evaluating" := evaluating, "Closing_Statement" := closing];
  }

  method OpeningStatement() returns (m: map<string, seq<Template>>)
    ensures SectionShaped(m)
  {
    var h0, h1, h2, h3, h4, h5, h6, h7, h8 := OpeningHigh();
    var m0, m1, m2, m3, m4, m5, m6, m7, m8 := OpeningMid();
    var l0, l1, l2, l3, l4, l5, l6, l7, l8 := OpeningLow();
    m := map["HIGH" := [h0, h1, h2, h3, h4, h5, h6, h7, h8], "MID" := [m0, m1, m2, m3, m4, m5, m6, m7, m8], "LOW" := [l0, l1, l2, l3, l4, l5, l6, l7, l8]];
  }

  /** The Skill_Research lists of COMMENT_DICTIONARY: nine templates at each level. */
  method SkillResearch() returns (m: map<string, seq<Template>>)
    ensures SectionShaped(m)
  {
    var h0, h1, h2, h3, h4, h5, h6, h7, h8 := ResearchHigh();
    var m0, m1, m2, m3, m4, m5, m6, m7, m8 := ResearchMid();
    var l0, l1, l2, l3, l4, l5, l6, l7, l8 := ResearchLow();
    m := map["HIGH" := [h0, h1, h2, h3, h4, h5, h6, h7, h8], "MID" := [m0, m1, m2, m3, m4, m5, m6, m7, m8], "LOW" := [l0, l1, l2, l3, l4, l5, l6, l7, l8]];
  }

  /** The Skill_Making lists of COMMENT_DICTIONARY: nine templates at each level. */
  method SkillMaking() returns (m: map<string, seq<Template>>)
    ensures SectionShaped(m)
  {
    var h0, h1, h2, h3, h4, h5, h6, h7, h8 := MakingHigh();
    var m0, m1, m2, m3, m4, m5, m6, m7, m8 := MakingMid();
    var l0, l1, l2, l3, l4, l5, l6, l7, l8 := MakingLow();
    m := map["HIGH" := [h0, h1, h2, h3, h4, h5, h6, h7, h8], "MID" := [m0, m1, m2, m3, m4, m5, m6, m7, m8], "LOW" := [l0, l1, l2, l3, l4, l5, l6, l7, l8]];
  }

  /** The Skill_Evaluating lists of COMMENT_DICTIONARY: nine templates at each level. */
  method SkillEvaluating() returns (m: map<string, seq<Template>>)
    ensures SectionShaped(m)
  {
    var h0, h1, h2, h3, h4, h5, h6, h7, h8 := EvaluatingHigh();
    var m0, m1, m2, m3, m4, m5, m6, m7, m8 := EvaluatingMid();
    var l0, l1, l2, l3, l4, l5, l6, l7, l8 := EvaluatingLow();
    m := map["HIGH" := [h0, h1, h2, h3, h4, h5, h6, h7, h8], "MID" := [m0, m1, m2, m3, m4, m5, m6, m7, m8], "LOW" := [l0, l1, l2, l3, l4, l5, l6, l7, l8]];
  }

  /** The Closing_Statement lists of COMMENT_DICTIONARY: nine templates at each level. */
  method ClosingStatement() returns (m: map<string, seq<Template>>)
    ensures SectionShaped(m)
  {
    var h0, h1, h2, h3, h4, h5, h6, h7, h8 := ClosingHigh();
    var m0, m1, m2, m3, m4, m5, m6, m7, m8 := ClosingMid();
    var l0, l1, l2, l3, l4, l5, l6, l7, l8 := ClosingLow();
    m := map["HIGH" := [h0, h1, h2, h3, h4, h5, h6, h7, h8], "MID" := [m0, m1, m2, m3, m4, m5, m6, m7, m8], "LOW" := [l0, l1, l2, l3, l4, l5, l6, l7, l8]];
  }

  method OpeningHigh() returns (t0: Template, t1: Template, t2: Template, t3: Template, t4: Template,
                                t5: Template, t6: Template, t7: Template, t8: Template)
  {
    t0 := [Hole(StudentName), Lit(" excelled in Design this semester, showing remarkable creativity and initiative.")];
    t1 := [Lit("Throughout the term, "), Hole(StudentName), Lit(" consistently demonstrated a high level of skill in Design.")];
    t2 := [Lit("The projects completed by "), Hole(StudentName), Lit(" reflected superior understanding and innovation.")];
    t3 := [Hole(StudentName), Lit(" showed mastery of key design concepts with outstanding results.")];
    t4 := [Lit("In all aspects of the Design cycle, "), Hole(StudentName), Lit(" performed at a very high level.")];
    t5 := [Lit("This semester, "), Hole(StudentName), Lit(" consistently produced excellent work across all design tasks.")];
    t6 := [Lit("With enthusiasm and dedication, "), Hole(StudentName), Lit(" achieved exceptional outcomes.")];
    t7 := [Lit("Overall, "), Hole(StudentName), Lit("'s performance in Design has been exemplary.")];
    t8 := [Hole(StudentName), Lit("'s commitment and creativity in Design were truly impressive.")];
  }

  method OpeningMid() returns (t0: Template, t1: Template, t2: Template, t3: Template, t4: Template,
                                t5: Template, t6: Template, t7: Template, t8: Template)
  {
    t0 := [Hole(StudentName), Lit(" worked diligently and demonstrated a solid understanding of Design concepts.")];
    t1 := [Lit("Overall, "), Hole(StudentName), Lit(" completed the Design projects with competence and care.")];
    t2 := [Hole(StudentName), Lit(" made good progress this term, achieving the expected outcomes.")];
    t3 := [Lit("The projects produced by "), Hole(StudentName), Lit(" were satisfactory and met the basic criteria.")];
    t4 := [Hole(StudentName), Lit(" demonstrated consistent effort and engagement in Design activities.")];
    t5 := [Lit("Throughout the term, "), Hole(StudentName), Lit(" maintained a good level of performance.")];
    t6 := [Hole(StudentName), Lit(" showed developing understanding and skill in the design process.")];
    t7 := [Lit("Overall, "), Hole(StudentName), Lit("'s progress in Design was solid and reliable.")];
    t8 := [Hole(StudentName), Lit(" met the learning objectives consistently, showing steady progress.")];
  }

  method OpeningLow() returns (t0: Template, t1: Template, t2: Template, t3: Template, t4: Template,
                                t5: Template, t6: Template, t7: Template, t8: Template)
  {
    t0 := [Hole(StudentName), Lit(" faced challenges in Design this semester and requires additional support.")];
    t1 := [Lit("Progress in Design has been limited for "), Hole(StudentName), Lit(", and more focus is needed.")];
    t2 := [Hole(StudentName), Lit(" struggled to meet expectations and would benefit from targeted guidance.")];
    t3 := [Lit("The work submitted by "), Hole(StudentName), Lit(" indicates difficulties in understanding core concepts.")];
    t4 := [Hole(StudentName), Lit(" needs to prioritize Design skills and time management in future tasks.")];
    t5 := [Lit("Improvement in the Design cycle is necessary for "), Hole(StudentName), Lit(" to reach expected standards.")];
    t6 := [Hole(StudentName), Lit("'s engagement with Design has been inconsistent this term.")];
    t7 := [Lit("Additional effort and support will help "), Hole(StudentName), Lit(" better achieve Design objectives.")];
    t8 := [Lit("Overall, "), Hole(StudentName), Lit(" requires further development in understanding and applying Design concepts.")];
  }

  method ResearchHigh() returns (t0: Template, t1: Template, t2: Template, t3: Template, t4: Template,
                                t5: Template, t6: Template, t7: Template, t8: Template)
  {
    t0 := [Hole(PronounCap), Lit(" excelled at analyzing design problems and developing success criteria.")];
    t1 := [Lit("Research and investigation by "), Hole(StudentName), Lit(" demonstrated exceptional depth and clarity.")];
    t2 := [Hole(PossessiveCap), Lit(" inquiry skills were outstanding, consistently identifying clear problems and research criteria.")];
    t3 := [Hole(PronounCap), Lit(" consistently used inquiry to produce high-quality solutions.")];
    t4 := [Hole(PossessiveCap), Lit(" ability to gather and interpret information was exemplary.")];
    t5 := [Lit("The quality of "), Hole(StudentName), Lit("'s research and analysis was consistently high.")];
    t6 := [Hole(PronounCap), Lit(" demonstrated advanced understanding in evaluating design challenges.")];
    t7 := [Lit("In all research tasks, "), Hole(StudentName), Lit(" showed high-level problem-solving and inquiry skills.")];
    t8 := [Lit("Projects such as "), Hole(StrongestProjects), Lit(" highlighted "), Hole(Possessive), Lit(" research strengths.")];
  }

  method ResearchMid() returns (t0: Template, t1: Template, t2: Template, t3: Template, t4: Template,
                                t5: Template, t6: Template, t7: Template, t8: Template)
  {
    t0 := [Hole(PronounCap), Lit(" showed good research skills, though there were some areas for deeper investigation.")];
    t1 := [Hole(StudentName), Lit(" applied inquiry skills effectively in most tasks, meeting expectations.")];
    t2 := [Lit("Research and analysis were generally sound, with occasional gaps in depth or clarity.")];
    t3 := [Hole(PossessiveCap), Lit(" problem definition and investigation were satisfactory.")];
    t4 := [Hole(PronounCap), Lit(" demonstrated a developing ability to plan and conduct research.")];
    t5 := [Lit("Analysis and evaluation were appropriate, though there is room for improvement.")];
    t6 := [Hole(StudentName), Lit(" met most of the criteria for effective inquiry this term.")];
    t7 := [Hole(PronounCap), Lit(" demonstrated consistent but moderate research skills.")];
    t8 := [Lit("Overall, "), Hole(StudentName), Lit(" achieved the expected standard in research tasks.")];
  }

  method ResearchLow() returns (t0: Template, t1: Template, t2: Template, t3: Template, t4: Template,
                                t5: Template, t6: Template, t7: Template, t8: Template)
  {
    t0 := [Hole(PossessiveCap), Lit(" research skills require significant development.")];
    t1 := [Hole(PronounCap), Lit(" often struggled to define problems and justify research methods.")];
    t2 := [Lit("Investigation and analysis were limited, with inconsistencies in applying inquiry skills.")];
    t3 := [Hole(StudentName), Lit(" found it challenging to conduct thorough research.")];
    t4 := [Lit("The quality of research and problem analysis was below expectations.")];
    t5 := [Hole(PronounCap), Lit(" needs support to develop effective inquiry skills.")];
    t6 := [Lit("Research planning and execution were inconsistent and required further guidance.")];
    t7 := [Hole(PossessiveCap), Lit(" ability to investigate and interpret data needs improvement.")];
    t8 := [Lit("Overall, "), Hole(StudentName), Lit(" requires focused development in research and inquiry.")];
  }

  method MakingHigh() returns (t0: Template, t1: Template, t2: Template, t3: Template, t4: Template,
                                t5: Template, t6: Template, t7: Template, t8: Template)
  {
    t0 := [Hole(PronounCap), Lit(" demonstrated excellent technical skills and produced outstanding solutions.")];
    t1 := [Lit("The solutions created by "), Hole(StudentName), Lit(" were innovative and well-executed.")];
    t2 := [Hole(PronounCap), Lit(" efficiently managed time and resources to produce high-quality work.")];
    t3 := [Hole(PossessiveCap), Lit(" design and making skills exceeded expectations this term.")];
    t4 := [Lit("Projects by "), Hole(StudentName), Lit(" reflected attention to detail and exceptional craftsmanship.")];
    t5 := [Hole(PronounCap), Lit(" applied design principles creatively and effectively.")];
    t6 := [Lit("The outcomes of "), Hole(StudentName), Lit("'s work were consistently impressive and thorough.")];
    t7 := [Lit("Innovation and accuracy in "), Hole(PossessiveCap), Lit(" making skills were notable strengths.")];
    t8 := [Hole(PronounCap), Lit(" successfully integrated learning from research into practical solutions.")];
  }

  method MakingMid() returns (t0: Template, t1: Template, t2: Template, t3: Template, t4: Template,
                                t5: Template, t6: Template, t7: Template, t8: Template)
  {
    t0 := [Lit("Projects by "), Hole(StudentName), Lit(" were functional and met basic requirements.")];
    t1 := [Hole(PronounCap), Lit(" showed adequate technical skills and planning.")];
    t2 := [Hole(PossessiveCap), Lit(" making skills were competent, with room for further development.")];
    t3 := [Lit("The solutions produced were acceptable but could be improved in detail and creativity.")];
    t4 := [Hole(PronounCap), Lit(" applied design concepts appropriately, achieving satisfactory results.")];
    t5 := [Hole(StudentName), Lit(" demonstrated consistent but developing making skills.")];
    t6 := [Lit("Execution of projects was generally sound, with minor gaps in precision or planning.")];
    t7 := [Lit("Work was completed effectively but lacked refinement or innovation.")];
    t8 := [Hole(PronounCap), Lit(" incorporated some of the strongest projects, like "), Hole(StrongestProjects), Lit(", effectively.")];
  }

  method MakingLow() returns (t0: Template, t1: Template, t2: Template, t3: Template, t4: Template,
                                t5: Template, t6: Template, t7: Template, t8: Template)
  {
    t0 := [Hole(PronounCap), Lit(" struggled with implementing ideas into functional solutions.")];
    t1 := [Lit("Projects often lacked structure and clear planning.")];
    t2 := [Hole(PossessiveCap), Lit(" technical skills need significant improvement.")];
    t3 := [Lit("The quality of work submitted by "), Hole(StudentName), Lit(" was below the expected standard.")];
    t4 := [Hole(PronounCap), Lit(" experienced difficulties following the design process consistently.")];
    t5 := [Lit("Execution of solutions was inconsistent and required further support.")];
    t6 := [Hole(PossessiveCap), Lit(" projects showed gaps in planning and organization.")];
    t7 := [Hole(StudentName), Lit(" needs focused guidance to improve making skills.")];
    t8 := [Lit("Overall, "), Hole(Pronoun), Lit(" requires development in effectively producing design solutions.")];
  }

  method EvaluatingHigh() returns (t0: Template, t1: Template, t2: Template, t3: Template, t4: Template,
                                t5: Template, t6: Template, t7: Template, t8: Template)
  {
    t0 := [Hole(PronounCap), Lit(" evaluated design solutions effectively, showing deep understanding.")];
    t1 := [Lit("Assessment and reflection by "), Hole(StudentName), Lit(" were insightful and accurate.")];
    t2 := [Hole(PossessiveCap), Lit(" ability to evaluate outcomes and provide feedback was exemplary.")];
    t3 := [Lit("Evaluation of projects was thorough and demonstrated critical thinking.")];
    t4 := [Hole(PronounCap), Lit(" consistently identified strengths and areas for improvement.")];
    t5 := [Lit("Analysis of results showed maturity and strong evaluative skills.")];
    t6 := [Hole(StudentName), Lit(" provided clear, well-justified evaluations.")];
    t7 := [Hole(PossessiveCap), Lit(" reflection on projects was highly effective.")];
    t8 := [Lit("Overall, "), Hole(PronounCap), Lit(" demonstrated excellent skills in assessing and improving design outcomes.")];
  }

  method EvaluatingMid() returns (t0: Template, t1: Template, t2: Template, t3: Template, t4: Template,
                                t5: Template, t6: Template, t7: Template, t8: Template)
  {
    t0 := [Hole(PronounCap), Lit(" evaluated projects adequately, though there is room for deeper reflection.")];
    t1 := [Lit("Assessment of outcomes was generally correct, with minor gaps.")];
    t2 := [Hole(StudentName), Lit(" reflected on projects and identified some strengths and weaknesses.")];
    t3 := [Hole(PossessiveCap), Lit(" evaluative skills are developing steadily.")];
    t4 := [Hole(PronounCap), Lit(" showed a satisfactory ability to critique and assess designs.")];
    t5 := [Lit("Reflection on project outcomes was consistent but not fully in-depth.")];
    t6 := [Hole(StudentName), Lit(" met expectations in evaluating design solutions.")];
    t7 := [Hole(PronounCap), Lit(" demonstrated developing skills in assessment and reflection.")];
    t8 := [Lit("Overall, "), Hole(StudentName), Lit("'s evaluative skills were appropriate for the expected standard.")];
  }

  method EvaluatingLow() returns (t0: Template, t1: Template, t2: Template, t3: Template, t4: Template,
                                t5: Template, t6: Template, t7: Template, t8: Template)
  {
    t0 := [Hole(PronounCap), Lit(" needs significant development in evaluating design work.")];
    t1 := [Lit("Assessment and reflection were limited and lacked clarity.")];
    t2 := [Hole(PossessiveCap), Lit(" ability to critique outcomes requires support.")];
    t3 := [Lit("Evaluation of projects often missed key strengths and weaknesses.")];
    t4 := [Hole(StudentName), Lit(" struggled to provide meaningful reflections on design tasks.")];
    t5 := [Lit("Analysis and feedback were inconsistent and underdeveloped.")];
    t6 := [Hole(PronounCap), Lit(" requires guidance to improve evaluative skills.")];
    t7 := [Lit("Project evaluations lacked depth and insight.")];
    t8 := [Lit("Overall, "), Hole(StudentName), Lit(" needs focused development in assessing and improving work.")];
  }

  method ClosingHigh() returns (t0: Template, t1: Template, t2: Template, t3: Template, t4: Template,
                                t5: Template, t6: Template, t7: Template, t8: Template)
  {
    t0 := [Lit("Overall, "), Hole(StudentName), Lit(" earned an excellent final grade and is encouraged to continue excelling in Design.")];
    t1 := [Hole(StudentName), Lit(" is commended for outstanding achievement and should build on this success.")];
    t2 := [Lit("Moving forward, "), Hole(PronounCap), Lit(" is encouraged to pursue advanced design challenges.")];
    t3 := [Lit("With sustained effort, "), Hole(StudentName), Lit(" will continue to thrive in future Design projects.")];
    t4 := [Hole(PronounCap), Lit(" should continue applying creativity and critical thinking to all design tasks.")];
    t5 := [Lit("The excellent progress made by "), Hole(StudentName), Lit(" sets a strong foundation for future learning.")];
    t6 := [Lit("Continued innovation and dedication will allow "), Hole(StudentName), Lit(" to achieve even higher outcomes.")];
    t7 := [Hole(PronounCap), Lit(" has demonstrated mastery and is well-prepared for more complex design challenges.")];
    t8 := [Lit("Overall, "), Hole(StudentName), Lit("'s accomplishments in Design are impressive and commendable.")];
  }

  method ClosingMid() returns (t0: Template, t1: Template, t2: Template, t3: Template, t4: Template,
                                t5: Template, t6: Template, t7: Template, t8: Template)
  {
    t0 := [Hole(StudentName), Lit(" is encouraged to continue developing Design skills and confidence.")];
    t1 := [Lit("To improve further, "), Hole(PronounCap), Lit(" should focus on refining techniques and creativity.")];
    t2 := [Lit("With continued effort, "), Hole(StudentName), Lit(" will enhance outcomes in future projects.")];
    t3 := [Hole(PronounCap), Lit(" should aim to build on strengths while addressing areas for improvement.")];
    t4 := [Lit("Ongoing engagement with the design process will help "), Hole(StudentName), Lit(" achieve higher levels.")];
    t5 := [Lit("Focused practice and reflection will support "), Hole(PronounCap), Lit(" in developing greater mastery.")];
    t6 := [Hole(StudentName), Lit(" has shown steady progress and is encouraged to maintain consistent effort.")];
    t7 := [Lit("Further development in key areas will help "), Hole(PronounCap), Lit(" produce stronger Design projects.")];
    t8 := [Lit("Overall, "), Hole(StudentName), Lit(" has met expectations and can improve through targeted practice.")];
  }

  method ClosingLow() returns (t0: Template, t1: Template, t2: Template, t3: Template, t4: Template,
                                t5: Template, t6: Template, t7: Template, t8: Template)
  {
    t0 := [Hole(StudentName), Lit(" must focus on improving Design skills to meet expected standards.")];
    t1 := [Lit("Additional guidance and effort are needed for "), Hole(PronounCap), Lit(" to progress effectively.")];
    t2 := [Lit("Moving forward, "), Hole(StudentName), Lit(" should prioritize organization, planning, and practice.")];
    t3 := [Hole(PronounCap), Lit(" requires focused support to develop key competencies in Design.")];
    t4 := [Lit("Further effort is required to meet learning objectives and produce quality work.")];
    t5 := [Hole(StudentName), Lit(" is encouraged to reflect on feedback and apply it consistently.")];
    t6 := [Lit("Ongoing support and practice will help "), Hole(PronounCap), Lit(" achieve better results.")];
    t7 := [Lit("Targeted development in specific skills is essential for "), Hole(StudentName), Lit(" to succeed.")];
    t8 := [Lit("Overall, "), Hole(PronounCap), Lit(" needs to build stronger habits and understanding in Design.")];
  }

  const NoComment := "A comment could not be generated."

  /**
   * get_report_sentence's lookup: the section's list for the level, else the
   * section's LOW list, else nothing; an unknown section has no lists.
   */
  function Options(d: Dictionary, section: string, level: string): (r: seq<Template>)
    ensures section !in d ==> r == []
  {
    var bySection := if section in d then d[section] else map[];
    if level in bySection then bySection[level]
    else if "LOW" in bySection then bySection["LOW"]
    else []
  }

  /** A section of the bank as COMMENT_DICTIONARY has them: exactly the three levels, nine templates at each. */
  predicate SectionShaped(m: map<string, seq<Template>>) {
    m.Keys == Levels && forall level :: level in m ==> |m[level]| == 9
  }

  predicate Shaped(d: Dictionary) {
    forall s :: s in d ==> SectionShaped(d[s])
  }

  /** The level a lookup reads: the level itself when it is one of the three, LOW otherwise. */
  function LevelRead(level: string): (r: string)
    ensures r in Levels
    ensures level in Levels ==> r == level
  {
    if level in Levels then level else "LOW"
  }

  /** In a shaped bank a known section yields its list for the level read, and any other level reads LOW. */
  lemma OptionsOfShaped(d: Dictionary, section: string, level: string)
    requires Shaped(d) && section in d
    ensures LevelRead(level) in d[section]
    ensures Options(d, section, level) == d[section][LevelRead(level)]
    ensures level !in Levels ==> Options(d, section, level) == Options(d, section, "LOW")
  {
    assert SectionShaped(d[section]);
  }

  /** A known section of a shaped bank offers nine options, whatever the level. */
  lemma NineOptions(d: Dictionary, section: string, level: string)
    requires Shaped(d) && section in d
    ensures |Options(d, section, level)| == 9
  {
    OptionsOfShaped(d, section, level);
  }

  /** The values the placeholders are filled with. */
  datatype Values = Values(studentName: string, pronounCap: string, pronoun: string, possessive: string,
                           possessiveCap: string, objective: string, strongestProjects: string)

  function Fill(f: Field, v: Values): string {
    match f
    case StudentName => v.studentName
    case PronounCap => v.pronounCap
    case Pronoun => v.pronoun
    case Possessive => v.possessive
    case PossessiveCap => v.possessiveCap
    case Objective => v.objective
    case StrongestProjects => v.strongestProjects
  }

  /** str.format with named fields: each piece in turn, placeholders replaced by their values. */
  function Format(t: Template, v: Values): string {
    if t == [] then []
    else (match t[0] case Lit(s) => s case Hole(f) => Fill(f, v)) + Format(t[1..], v)
  }

  /** Formatting a template in two parts formats each part. */
  lemma {:induction false} FormatAppend(t: Template, u: Template, v: Values)
    ensures Format(t + u, v) == Format(t, v) + Format(u, v)
  {
    if t != [] {
      assert (t + u)[0] == t[0];
      assert (t + u)[1..] == t[1..] + u;
      FormatAppend(t[1..], u, v);
    } else {
      assert t + u == u;
    }
  }

  /** A template without placeholders is its text, whatever the values. */
  lemma {:induction false} FormatLiteral(t: Template, v: Values, w: Values)
    requires forall i :: 0 <= i < |t| ==> t[i].Lit?
    ensures Format(t, v) == Format(t, w)
  {
    if t != [] {
      FormatLiteral(t[1..], v, w);
    }
  }

  /** pronoun_cap: capitalised for he, she and they only. */
  function PronounCapOf(pronoun: string): (r: string)
    ensures pronoun !in {"he", "she", "they"} ==> r == pronoun
  {
    if pronoun in {"he", "she", "they"} then Capitalize(pronoun) else pronoun
  }

  /** possessive_cap: capitalised for his, her and their only. */
  function PossessiveCapOf(possessive: string): (r: string)
    ensures possessive !in {"his", "her", "their"} ==> r == possessive
  {
    if possessive in {"his", "her", "their"} then Capitalize(possessive) else possessive
  }

  /** The three pronouns the views pass are capitalised; a capitalised one stays as it is. */
  lemma CapitalisedPronouns()
    ensures PronounCapOf("he") == "He" && PronounCapOf("she") == "She" && PronounCapOf("they") == "They"
    ensures PronounCapOf("He") == "He"
  {
    assert Capitalize("he") == "He";
    assert Capitalize("she") == "She";
    assert Capitalize("they") == "They";
  }

  /** The three possessives the views pass are capitalised; a capitalised one stays as it is. */
  lemma CapitalisedPossessives()
    ensures PossessiveCapOf("his") == "His" && PossessiveCapOf("her") == "Her" && PossessiveCapOf("their") == "Their"
    ensures PossessiveCapOf("Her") == "Her"
  {
    assert Capitalize("his") == "His";
    assert Capitalize("her") == "Her";
    assert Capitalize("their") == "Their";
  }

  /** What strongest_projects may be: a list of titles, a string, or None. */
  datatype ProjectsArg = Titles(titles: seq<string>) | Text(text: string) | NoProjects

  /** A list is joined with ", ", a string is itself, None is the empty string. */
  function ProjectsText(p: ProjectsArg): string {
    match p
    case Titles(ts) => Join(ts, ", ")
    case Text(s) => s
    case NoProjects => ""
  }

  function ValuesFor(studentName: string, pronoun: string, possessive: string, objective: string, projects: ProjectsArg): Values {
    Values(studentName, PronounCapOf(pronoun), pronoun, possessive, PossessiveCapOf(possessive), objective, ProjectsText(projects))
  }

  /**
   * get_report_sentence: template number `pick` (taken modulo the list's
   * length, standing for random.choice) of the options, filled in; the fixed
   * message when there are no options.
   */
  function ReportSentence(d: Dictionary, section: string, level: string, studentName: string, pronoun: string,
                          possessive: string, objective: string, projects: ProjectsArg, pick: nat): (r: string)
    ensures Options(d, section, level) == [] ==> r == NoComment
  {
    var options := Options(d, section, level);
    if options == [] then NoComment
    else Format(options[pick % |options|], ValuesFor(studentName, pronoun, possessive, objective, projects))
  }

  /** When there are options, the sentence is one of them, filled in. */
  lemma SentenceIsOption(d: Dictionary, section: string, level: string, studentName: string, pronoun: string,
                         possessive: string, objective: string, projects: ProjectsArg, pick: nat)
    requires Options(d, section, level) != []
    ensures exists t :: (t in Options(d, section, level) &&
                         ReportSentence(d, section, level, studentName, pronoun, possessive, objective, projects, pick) ==
                         Format(t, ValuesFor(studentName, pronoun, possessive, objective, projects)))
  {
    var options := Options(d, section, level);
    var t := options[pick % |options|];
    assert t in options;
  }

  /** Every option is the sentence for the pick equal to its position. */
  lemma EveryOptionChosen(d: Dictionary, section: string, level: string, studentName: string, pronoun: string,
                          possessive: string, objective: string, projects: ProjectsArg, i: nat)
    requires i < |Options(d, section, level)|
    ensures ReportSentence(d, section, level, studentName, pronoun, possessive, objective, projects, i) ==
      Format(Options(d, section, level)[i], ValuesFor(studentName, pronoun, possessive, objective, projects))
  {
    assert i % |Options(d, section, level)| == i;
  }
}
