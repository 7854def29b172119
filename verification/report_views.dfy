/**
 * The report view's generate_report_single: the request's student details are
 * turned into pronouns, normalised levels and the strongest projects, and the
 * report is the five section sentences joined by spaces. The sentence bank is
 * a parameter, and the random choices are the five picks of `Choices`.
 */
module ReportViews {
  import opened Wrappers
  import opened PyText
  import opened ReportLogic

  /** The JSON values a project's fields may hold; Python counts a boolean as the integer 0 or 1. */
  datatype JsonValue = JString(s: string) | JInt(n: int) | JBool(b: bool) | JOther

  /** A project object: its fields in order, and its title when it has one. */
  datatype Project = Project(title: Option<JsonValue>, fields: seq<(string, JsonValue)>)

  /** The JSON body's fields; a missing field is None. */
  datatype Request = Request(studentName: Option<string>, gender: Option<string>, overallLevel: Option<string>,
                             researchLevel: Option<string>, projects: Option<seq<Project>>)

  datatype Response = ReportText(text: string) | ErrorResponse(message: string, status: int)

  /** The pick standing for random.choice in each of the five sentences. */
  datatype Choices = Choices(opening: nat, research: nat, making: nat, evaluating: nat, closing: nat)

  const InvalidJson := "Invalid JSON format in request body."
  const ReportFailed := "Failed to generate report. Check server logs."

  datatype Pronouns = Pronouns(subject: string, possessive: string, objective: string)

  /** Boy and Girl choose he and she; every other gender, and none, chooses they. */
  function PronounsFor(gender: Option<string>): (p: Pronouns)
    ensures gender == Some("Boy") <==> p.subject == "he"
    ensures gender == Some("Girl") <==> p.subject == "she"
    ensures p in {Pronouns("he", "his", "him"), Pronouns("she", "her", "her"), Pronouns("they", "their", "them")}
  {
    var g := gender.GetOr("They");
    if g == "Boy" then Pronouns("he", "his", "him")
    else if g == "Girl" then Pronouns("she", "her", "her")
    else Pronouns("they", "their", "them")
  }

  /** Whatever the gender, the sentence writer capitalises the chosen subject and possessive pronouns. */
  lemma PronounsCapitalised(gender: Option<string>)
    ensures PronounCapOf(PronounsFor(gender).subject) == Capitalize(PronounsFor(gender).subject)
    ensures PossessiveCapOf(PronounsFor(gender).possessive) == Capitalize(PronounsFor(gender).possessive)
    ensures PronounCapOf(PronounsFor(gender).subject)[0] == ToUpper(PronounsFor(gender).subject[0])
  {
  }

  /** overall_level: kept when it is LOW, MID or HIGH, MID otherwise. */
  function OverallLevel(given: Option<string>): (r: string)
    ensures r in Levels
    ensures given.Some? && given.value in Levels ==> r == given.value
    ensures (given.None? || given.value !in Levels) ==> r == "MID"
  {
    if given.Some? && given.value in Levels then given.value else "MID"
  }

  /** skill_research_level: kept when it is a level, the normalised overall level otherwise. */
  function ResearchLevel(given: Option<string>, overall: string): (r: string)
    ensures overall in Levels ==> r in Levels
    ensures given.Some? && given.value in Levels ==> r == given.value
    ensures (given.None? || given.value !in Levels) ==> r == overall
  {
    if given.Some? && given.value in Levels then given.value else overall
  }

  /** Normalising a normalised level changes nothing. */
  lemma LevelsIdempotent(given: Option<string>, research: Option<string>)
    ensures OverallLevel(Some(OverallLevel(given))) == OverallLevel(given)
    ensures ResearchLevel(Some(ResearchLevel(research, OverallLevel(given))), OverallLevel(given))
         == ResearchLevel(research, OverallLevel(given))
  {
  }

  predicate StartsWith(s: string, prefix: string) {
    |prefix| <= |s| && s[..|prefix|] == prefix
  }

  /** What a field adds to a project's total: an integer (or boolean) under a crit_ key, else nothing. */
  function Points(field: (string, JsonValue)): int {
    if !StartsWith(field.0, "crit_") then 0
    else match field.1
      case JInt(n) => n
      case JBool(b) => if b then 1 else 0
      case _ => 0
  }

  /** A project's total: the sum of its fields' points. */
  function Total(fields: seq<(string, JsonValue)>): int {
    if fields == [] then 0 else Points(fields[0]) + Total(fields[1..])
  }

  /** The total of fields side by side is the sum of their totals. */
  lemma {:induction false} TotalAppend(xs: seq<(string, JsonValue)>, ys: seq<(string, JsonValue)>)
    ensures Total(xs + ys) == Total(xs) + Total(ys)
  {
    if xs == [] {
      assert xs + ys == ys;
    } else {
      assert (xs + ys)[0] == xs[0];
      assert (xs + ys)[1..] == xs[1..] + ys;
      TotalAppend(xs[1..], ys);
    }
  }

  /** Fields that are not criteria, or whose value is not a number, do not change the total. */
  lemma TotalIgnores(fields: seq<(string, JsonValue)>, key: string, v: JsonValue)
    requires !StartsWith(key, "crit_") || v.JString? || v.JOther?
    ensures Total(fields + [(key, v)]) == Total(fields)
    ensures Total([(key, v)] + fields) == Total(fields)
  {
    TotalAppend(fields, [(key, v)]);
    TotalAppend([(key, v)], fields);
    assert Total([(key, v)]) == 0 by {
      assert [(key, v)][1..] == [];
    }
  }

  /** project.get("title", "Untitled"). */
  function TitleOf(p: Project): JsonValue {
    p.title.GetOr(JString("Untitled"))
  }

  /** scored_projects: each project's title and total, in order, built by appending. */
  method ScoreProjects(projects: seq<Project>) returns (scored: seq<(JsonValue, int)>)
    ensures |scored| == |projects|
    ensures forall i :: 0 <= i < |projects| ==> scored[i] == (TitleOf(projects[i]), Total(projects[i].fields))
  {
    scored := [];
    for i := 0 to |projects|
      invariant |scored| == i
      invariant forall j :: 0 <= j < i ==> scored[j] == (TitleOf(projects[j]), Total(projects[j].fields))
    {
      scored := scored + [(TitleOf(projects[i]), Total(projects[i].fields))];
    }
  }

  /** max(score for _, score in scored_projects). */
  function MaxScore(scored: seq<(JsonValue, int)>): (m: int)
    requires scored != []
    ensures forall i :: 0 <= i < |scored| ==> scored[i].1 <= m
    ensures exists i :: 0 <= i < |scored| && scored[i].1 == m
  {
    if |scored| == 1 then scored[0].1
    else
      var rest := MaxScore(scored[1..]);
      assert forall i :: 1 <= i < |scored| ==> scored[i].1 == scored[1..][i - 1].1;
      if scored[0].1 >= rest then scored[0].1 else rest
  }

  /** The titles whose score is m, in order. */
  function TitlesScoring(scored: seq<(JsonValue, int)>, m: int): (titles: seq<JsonValue>)
    ensures |titles| <= |scored|
  {
    if scored == [] then []
    else (if scored[0].1 == m then [scored[0].0] else []) + TitlesScoring(scored[1..], m)
  }

  /** A title is listed exactly when some project with that title scores m. */
  lemma {:induction false} TitlesScoringMembers(scored: seq<(JsonValue, int)>, m: int, t: JsonValue)
    ensures t in TitlesScoring(scored, m) <==> exists i :: 0 <= i < |scored| && scored[i] == (t, m)
  {
    if scored != [] {
      TitlesScoringMembers(scored[1..], m, t);
      if exists i :: 0 <= i < |scored| && scored[i] == (t, m) {
        var i :| 0 <= i < |scored| && scored[i] == (t, m);
        if i > 0 {
          assert scored[1..][i - 1] == (t, m);
        }
      }
      if exists i :: 0 <= i < |scored[1..]| && scored[1..][i] == (t, m) {
        var i :| 0 <= i < |scored[1..]| && scored[1..][i] == (t, m);
        assert scored[i + 1] == (t, m);
      }
    }
  }

  /** The list is the titles of the projects scoring m, in input order: dropping the others keeps the order. */
  lemma {:induction false} TitlesScoringOrder(scored: seq<(JsonValue, int)>, m: int)
    ensures forall i :: 0 <= i < |scored| && scored[i].1 == m ==> |TitlesScoring(scored[..i], m)| < |TitlesScoring(scored, m)|
    ensures forall i :: 0 <= i < |scored| && scored[i].1 == m ==>
      TitlesScoring(scored, m)[|TitlesScoring(scored[..i], m)|] == scored[i].0
  {
    forall i | 0 <= i < |scored| && scored[i].1 == m
      ensures |TitlesScoring(scored[..i], m)| < |TitlesScoring(scored, m)|
      ensures TitlesScoring(scored, m)[|TitlesScoring(scored[..i], m)|] == scored[i].0
    {
      TitlesScoringSplit(scored[..i], scored[i..], m);
      assert scored[..i] + scored[i..] == scored;
      assert scored[i..][0] == scored[i];
    }
  }

  lemma {:induction false} TitlesScoringSplit(xs: seq<(JsonValue, int)>, ys: seq<(JsonValue, int)>, m: int)
    ensures TitlesScoring(xs + ys, m) == TitlesScoring(xs, m) + TitlesScoring(ys, m)
  {
    if xs == [] {
      assert xs + ys == ys;
    } else {
      var head := if xs[0].1 == m then [xs[0].0] else [];
      assert (xs + ys)[0] == xs[0];
      assert (xs + ys)[1..] == xs[1..] + ys;
      assert TitlesScoring(xs + ys, m) == head + TitlesScoring(xs[1..] + ys, m);
      TitlesScoringSplit(xs[1..], ys, m);
      assert TitlesScoring(xs, m) == head + TitlesScoring(xs[1..], m);
    }
  }

  /** When every title is a string, so is every listed title. */
  lemma {:induction false} TitlesScoringText(scored: seq<(JsonValue, int)>, m: int)
    requires forall i :: 0 <= i < |scored| ==> scored[i].0.JString?
    ensures AllText(TitlesScoring(scored, m))
  {
    if scored != [] {
      TitlesScoringText(scored[1..], m);
    }
  }

  /** strongest_projects: the titles of every project with the highest total, empty without projects. */
  function Strongest(projects: Option<seq<Project>>, scored: seq<(JsonValue, int)>): seq<JsonValue> {
    if projects.None? || projects.value == [] || scored == [] then []
    else TitlesScoring(scored, MaxScore(scored))
  }

  /** With projects, at least one title is strongest and every strongest title has the highest score. */
  lemma StrongestNonEmpty(scored: seq<(JsonValue, int)>)
    requires scored != []
    ensures TitlesScoring(scored, MaxScore(scored)) != []
    ensures forall t :: t in TitlesScoring(scored, MaxScore(scored)) ==>
      exists i :: 0 <= i < |scored| && scored[i] == (t, MaxScore(scored)) &&
                  forall j :: 0 <= j < |scored| ==> scored[j].1 <= scored[i].1
  {
    var m := MaxScore(scored);
    var i :| 0 <= i < |scored| && scored[i].1 == m;
    TitlesScoringMembers(scored, m, scored[i].0);
    forall t | t in TitlesScoring(scored, m)
      ensures exists i :: 0 <= i < |scored| && scored[i] == (t, m) &&
                          forall j :: 0 <= j < |scored| ==> scored[j].1 <= scored[i].1
    {
      TitlesScoringMembers(scored, m, t);
    }
  }

  predicate AllText(titles: seq<JsonValue>) {
    forall i :: 0 <= i < |titles| ==> titles[i].JString?
  }

  function Texts(titles: seq<JsonValue>): (r: seq<string>)
    requires AllText(titles)
    ensures |r| == |titles| && forall i :: 0 <= i < |titles| ==> r[i] == titles[i].s
  {
    if titles == [] then [] else [titles[0].s] + Texts(titles[1..])
  }

  /**
   * The five sentences of report_parts: Opening, Research at the research
   * level, Making, Evaluating and Closing at the overall level.
   */
  function Parts(d: Dictionary, name: string, p: Pronouns, overall: string, research: string,
                 strongest: seq<string>, c: Choices): (parts: seq<string>)
    ensures |parts| == |Sections|
  {
    [ReportSentence(d, "Opening_Statement", overall, name, p.subject, p.possessive, p.objective, Titles(strongest), c.opening),
     ReportSentence(d, "Skill_Research", research, name, p.subject, p.possessive, p.objective, Titles(strongest), c.research),
     ReportSentence(d, "Skill_Making", overall, name, p.subject, p.possessive, p.objective, Titles(strongest), c.making),
     ReportSentence(d, "Skill_Evaluating", overall, name, p.subject, p.possessive, p.objective, Titles(strongest), c.evaluating),
     ReportSentence(d, "Closing_Statement", overall, name, p.subject, p.possessive, p.objective, Titles(strongest), c.closing)]
  }

  /** The level each section's sentence is written at. */
  function SectionLevel(i: nat, overall: string, research: string): string {
    if i == 1 then research else overall
  }

  /** The pick of section i's sentence. */
  function PickFor(c: Choices, i: nat): nat {
    if i == 0 then c.opening
    else if i == 1 then c.research
    else if i == 2 then c.making
    else if i == 3 then c.evaluating
    else c.closing
  }

  /** Sentence i is the sentence of section i of the report, at that section's level, with the i-th pick. */
  lemma PartsInOrder(d: Dictionary, name: string, p: Pronouns, overall: string, research: string,
                     strongest: seq<string>, c: Choices, i: nat)
    requires i < |Sections|
    ensures Parts(d, name, p, overall, research, strongest, c)[i] ==
      ReportSentence(d, Sections[i], SectionLevel(i, overall, research), name, p.subject, p.possessive, p.objective,
                     Titles(strongest), PickFor(c, i))
  {
  }

  /** The response of generate_report_single for a body (None when the body is not valid JSON). */
  function Respond(d: Dictionary, body: Option<Request>, c: Choices): (r: Response)
    ensures body.None? <==> r == ErrorResponse(InvalidJson, 400)
  {
    match body
    case None => ErrorResponse(InvalidJson, 400)
    case Some(req) =>
      var p := PronounsFor(req.gender);
      var overall := OverallLevel(req.overallLevel);
      var research := ResearchLevel(req.researchLevel, overall);
      var projects := req.projects.GetOr([]);
      var scored := seq(|projects|, i requires 0 <= i < |projects| => (TitleOf(projects[i]), Total(projects[i].fields)));
      var strongest := Strongest(req.projects, scored);
      if !AllText(strongest) then ErrorResponse(ReportFailed, 200)
      else ReportText(Join(Parts(d, req.studentName.GetOr("The student"), p, overall, research, Texts(strongest), c), " "))
  }

  /**
   * In a shaped bank holding every section, each of a report's five
   * sentences is a template of its own section, at its level, filled in.
   */
  lemma ReportFromBank(d: Dictionary, name: string, p: Pronouns, overall: string, research: string,
                       strongest: seq<string>, c: Choices, i: nat)
    requires Shaped(d) && forall s :: s in Sections ==> s in d
    requires i < |Sections|
    ensures |Options(d, Sections[i], SectionLevel(i, overall, research))| == 9
    ensures exists t :: (t in Options(d, Sections[i], SectionLevel(i, overall, research)) &&
                         Parts(d, name, p, overall, research, strongest, c)[i] ==
                         Format(t, ValuesFor(name, p.subject, p.possessive, p.objective, Titles(strongest))))
  {
    var level := SectionLevel(i, overall, research);
    assert Sections[i] in Sections;
    NineOptions(d, Sections[i], level);
    PartsInOrder(d, name, p, overall, research, strongest, c, i);
    SentenceIsOption(d, Sections[i], level, name, p.subject, p.possessive, p.objective, Titles(strongest), PickFor(c, i));
  }

  /**
   * generate_report_single over the sentence bank: the projects are scored
   * by a loop, the strongest titles picked, and the report assembled.
   */
  method GenerateReportSingle(d: Dictionary, body: Option<Request>, c: Choices) returns (r: Response)
    ensures r == Respond(d, body, c)
  {
    if body.None? {
      return ErrorResponse(InvalidJson, 400);
    }
    var req := body.value;
    var p := PronounsFor(req.gender);
    var overall := OverallLevel(req.overallLevel);
    var research := ResearchLevel(req.researchLevel, overall);
    var projects := req.projects.GetOr([]);
    var scored := ScoreProjects(projects);
    assert scored == seq(|projects|, i requires 0 <= i < |projects| => (TitleOf(projects[i]), Total(projects[i].fields)));
    var strongest := Strongest(req.projects, scored);
    if !AllText(strongest) {
      return ErrorResponse(ReportFailed, 200);
    }
    var parts := Parts(d, req.studentName.GetOr("The student"), p, overall, research, Texts(strongest), c);
    r := ReportText(Join(parts, " "));
  }

  /** The view with the report writer's own sentence bank. */
  method HandleRequest(body: Option<Request>, c: Choices) returns (r: Response)
    ensures exists d :: Shaped(d) && (forall s :: s in Sections ==> s in d) && r == Respond(d, body, c)
  {
    var d := CommentDictionary();
    r := GenerateReportSingle(d, body, c);
  }
}
