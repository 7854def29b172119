/**
 * The report writer's page script: collectFormData reads the form into the
 * request payload, the submit handler maps the overall MYP grade to a level
 * and refuses a payload without projects, and the server's reply is shown
 * with a "strongest projects" suffix naming the two best-scored projects.
 */
module ReportForm {
  import opened Wrappers
  import opened Decimal
  import opened PyText
  import opened ReportLogic
  import ReportViews

  /** The submitted form: field name to value; FormData.get gives None for a missing field. */
  type Form = map<string, string>

  function FormGet(form: Form, key: string): Option<string> {
    if key in form then Some(form[key]) else None
  }

  /** `value || fallback` on a form value: the empty string, like a missing value, gives the fallback. */
  function OrDefault(v: Option<string>, fallback: string): (r: string)
    ensures v.Some? && v.value != "" ==> r == v.value
    ensures v.None? || v.value == "" ==> r == fallback
  {
    if v.Some? && v.value != "" then v.value else fallback
  }

  // ----- parseInt -----

  /** The white space and line terminators parseInt skips before the number. */
  predicate JsSpace(c: char) {
    c == ' ' || c == '\t' || c == '\n' || c == '\U{0B}' || c == '\U{0C}' || c == '\r' ||
    c == '\U{A0}' || c == '\U{1680}' || ('\U{2000}' <= c <= '\U{200A}') || c == '\U{2028}' ||
    c == '\U{2029}' || c == '\U{202F}' || c == '\U{205F}' || c == '\U{3000}' || c == '\U{FEFF}'
  }

  function TrimStart(s: string): (r: string)
    ensures |r| <= |s| && r == s[|s| - |r|..]
    ensures r != [] ==> !JsSpace(r[0])
    ensures forall i :: 0 <= i < |s| - |r| ==> JsSpace(s[i])
  {
    if s != [] && JsSpace(s[0]) then
      var r := TrimStart(s[1..]);
      assert forall i :: 1 <= i < |s| ==> s[i] == s[1..][i - 1];
      r
    else s
  }

  /** The value of a digit or letter as a digit of radix up to 36; 36 for anything else. */
  function DigitValue(c: char): (d: nat)
    ensures d <= 36
    ensures d < 10 <==> IsDigit(c)
  {
    if '0' <= c <= '9' then c as int - '0' as int
    else if 'a' <= c <= 'z' then c as int - 'a' as int + 10
    else if 'A' <= c <= 'Z' then c as int - 'A' as int + 10
    else 36
  }

  /** The length of the longest prefix of s made of digits of the radix. */
  function DigitRun(s: string, radix: nat): (k: nat)
    ensures k <= |s|
    ensures forall i :: 0 <= i < k ==> DigitValue(s[i]) < radix
    ensures k < |s| ==> DigitValue(s[k]) >= radix
  {
    if s == [] || DigitValue(s[0]) >= radix then 0 else 1 + DigitRun(s[1..], radix)
  }

  /** The number a run of digits of the radix denotes. */
  function DigitsValue(s: string, radix: nat): nat
    requires forall i :: 0 <= i < |s| ==> DigitValue(s[i]) < radix
  {
    if s == [] then 0 else DigitsValue(s[..|s| - 1], radix) * radix + DigitValue(s[|s| - 1])
  }

  /** The number after the sign: a 0x or 0X prefix selects base 16; None when no digit follows. */
  function ParseUnsigned(u: string): Option<nat> {
    var hex := |u| >= 2 && u[0] == '0' && (u[1] == 'x' || u[1] == 'X');
    var radix := if hex then 16 else 10;
    var digits := if hex then u[2..] else u;
    var k := DigitRun(digits, radix);
    if k == 0 then None else Some(DigitsValue(digits[..k], radix))
  }

  /**
   * parseInt(s) without a radix: leading white space is skipped, a sign read,
   * and the number after it parsed; None stands for NaN.
   */
  function ParseInt(s: string): (r: Option<int>) {
    var t := TrimStart(s);
    match ParseUnsigned(Unsigned(t))
    case None => None
    case Some(v) => Some(if Negative(t) then -(v as int) else v as int)
  }

  predicate Negative(t: string) {
    t != [] && t[0] == '-'
  }

  /** The text after a leading sign, if there is one. */
  function Unsigned(t: string): string {
    if t != [] && (t[0] == '-' || t[0] == '+') then t[1..] else t
  }

  /** Decimal digits denote in base 10 what Decimal.Value reads from them. */
  lemma {:induction false} DigitsValueDecimal(s: string)
    requires AllDigits(s)
    ensures forall i :: 0 <= i < |s| ==> DigitValue(s[i]) < 10
    ensures DigitsValue(s, 10) == Value(s)
  {
    if s != [] {
      DigitsValueDecimal(s[..|s| - 1]);
    }
  }

  lemma {:induction false} DigitRunPrefix(digits: string, rest: string, radix: nat)
    requires forall i :: 0 <= i < |digits| ==> DigitValue(digits[i]) < radix
    requires rest == [] || DigitValue(rest[0]) >= radix
    ensures DigitRun(digits + rest, radix) == |digits|
  {
    if digits == [] {
      assert digits + rest == rest;
    } else {
      assert (digits + rest)[0] == digits[0];
      assert (digits + rest)[1..] == digits[1..] + rest;
      DigitRunPrefix(digits[1..], rest, radix);
    }
  }

  /** The decimal text of a number, followed by anything but a digit or an x, is read as that number. */
  lemma ParseUnsignedNatString(n: nat, rest: string)
    requires rest == [] || (!IsDigit(rest[0]) && rest[0] != 'x' && rest[0] != 'X')
    ensures ParseUnsigned(NatString(n) + rest) == Some(n)
  {
    var digits := NatString(n);
    var u := digits + rest;
    if |u| >= 2 && u[0] == '0' {
      assert |digits| == 1;
      assert u[1] == rest[0];
    }
    DigitsValueDecimal(digits);
    DigitRunPrefix(digits, rest, 10);
    assert u[..|digits|] == digits;
    ValueOfNatString(n);
  }

  /** Text that starts with a digit is read by parseInt as its unsigned number. */
  lemma ParseIntStartingWithDigit(u: string, v: nat)
    requires u != [] && IsDigit(u[0]) && ParseUnsigned(u) == Some(v)
    ensures ParseInt(u) == Some(v)
  {
    assert !JsSpace(u[0]);
    assert TrimStart(u) == u;
    assert !Negative(u) && Unsigned(u) == u;
  }

  /** With a minus sign in front, parseInt reads the negation. */
  lemma ParseIntMinus(u: string, v: nat)
    requires u != [] && IsDigit(u[0]) && ParseUnsigned(u) == Some(v)
    ensures ParseInt("-" + u) == Some(-(v as int))
  {
    var m := "-" + u;
    assert m[0] == '-' && m[1..] == u;
    assert TrimStart(m) == m;
    assert Negative(m) && Unsigned(m) == u;
  }

  /** parseInt reads back the decimal text of a number, with or without a minus sign, ignoring what follows. */
  lemma ParseIntNatString(n: nat, rest: string)
    requires rest == [] || (!IsDigit(rest[0]) && rest[0] != 'x' && rest[0] != 'X')
    ensures ParseInt(NatString(n) + rest) == Some(n)
    ensures ParseInt("-" + (NatString(n) + rest)) == Some(-(n as int))
  {
    var u := NatString(n) + rest;
    assert u[0] == NatString(n)[0];
    ParseUnsignedNatString(n, rest);
    ParseIntStartingWithDigit(u, n);
    ParseIntMinus(u, n);
  }

  /** Text without a single decimal digit is NaN to parseInt. */
  lemma ParseIntNoDigits(s: string)
    requires forall i :: 0 <= i < |s| ==> !IsDigit(s[i])
    ensures ParseInt(s) == None
  {
    var t := TrimStart(s);
    var u := Unsigned(t);
    assert u == s[|s| - |u|..];
    assert u == [] || !IsDigit(u[0]) by {
      if u != [] {
        assert u[0] == s[|s| - |u|];
      }
    }
    ParseUnsignedNoDigit(u);
  }

  lemma ParseUnsignedNoDigit(u: string)
    requires u == [] || !IsDigit(u[0])
    ensures ParseUnsigned(u) == None
  {
    assert DigitRun(u, 10) == 0;
  }

  // ----- collectFormData -----

  /** `parseInt(formData.get(key)) || null`: NaN and 0 both become None. */
  function CritOf(form: Form, key: string): (r: Option<int>)
    ensures r.Some? ==> r.value != 0
  {
    match FormGet(form, key)
    case None => None
    case Some(v) =>
      match ParseInt(v)
      case None => None
      case Some(n) => if n == 0 then None else Some(n)
  }

  /** A criterion field holding a number's decimal text gives that number, except 0 which gives None. */
  lemma CritOfNumber(form: Form, key: string, n: nat)
    requires key in form && form[key] == NatString(n)
    ensures CritOf(form, key) == if n == 0 then None else Some(n)
  {
    ParseIntNatString(n, "");
    assert NatString(n) + "" == NatString(n);
  }

  const Criteria: seq<string> := ["a", "b", "c", "d"]

  /** A project of the payload: its title and its criteria a to d, None standing for null. */
  datatype FormProject = FormProject(title: string, crits: seq<Option<int>>)

  function DefaultTitle(i: nat): string {
    "Project " + NatString(i)
  }

  function TitleKey(i: nat): string {
    "project_" + NatString(i) + "_title"
  }

  function CritKey(crit: string, i: nat): string {
    "crit_" + crit + "_" + NatString(i)
  }

  /** Project i as the form gives it: the title, Project i by default, and the four criteria. */
  function ProjectAt(form: Form, i: nat): (p: FormProject)
    ensures |p.crits| == |Criteria|
  {
    FormProject(OrDefault(FormGet(form, TitleKey(i)), DefaultTitle(i)),
                seq(|Criteria|, k requires 0 <= k < |Criteria| => CritOf(form, CritKey(Criteria[k], i))))
  }

  /** hasTitle: a title was entered and it is not the placeholder Project i. */
  predicate HasTitle(form: Form, i: nat) {
    var t := FormGet(form, TitleKey(i));
    t.Some? && t.value != "" && t.value != DefaultTitle(i)
  }

  predicate HasScore(p: FormProject) {
    exists k :: 0 <= k < |p.crits| && p.crits[k].Some?
  }

  predicate Kept(form: Form, i: nat) {
    HasTitle(form, i) || HasScore(ProjectAt(form, i))
  }

  /** The projects 1 to n that are kept, in index order. */
  function KeptProjects(form: Form, n: nat): (ps: seq<FormProject>)
    ensures |ps| <= n
  {
    if n == 0 then []
    else KeptProjects(form, n - 1) + (if Kept(form, n) then [ProjectAt(form, n)] else [])
  }

  /** A project is in the list exactly when it is project i, for some kept i from 1 to n. */
  lemma {:induction false} KeptProjectsMembers(form: Form, n: nat, p: FormProject)
    ensures p in KeptProjects(form, n) <==> exists i :: 1 <= i <= n && Kept(form, i) && p == ProjectAt(form, i)
  {
    if n > 0 {
      KeptProjectsMembers(form, n - 1, p);
      if p in KeptProjects(form, n) && p !in KeptProjects(form, n - 1) {
        assert Kept(form, n) && p == ProjectAt(form, n);
      }
      if exists i :: 1 <= i <= n && Kept(form, i) && p == ProjectAt(form, i) {
        var i :| 1 <= i <= n && Kept(form, i) && p == ProjectAt(form, i);
        if i == n {
          assert p in KeptProjects(form, n);
        }
      }
    }
  }

  /** hasScore: the criteria are looked at in turn until one is not null. */
  method AnyScore(project: FormProject) returns (hasScore: bool)
    ensures hasScore == HasScore(project)
  {
    hasScore := false;
    for k := 0 to |project.crits|
      invariant !hasScore ==> forall j :: 0 <= j < k ==> project.crits[j].None?
      invariant hasScore ==> HasScore(project)
    {
      if project.crits[k].Some? {
        hasScore := true;
        break;
      }
    }
  }

  /** What collectFormData gathers. */
  datatype FormData = FormData(studentName: string, gender: string, mypGradeLevel: string, overallMypGrade: string,
                               projects: seq<FormProject>)

  /** collectFormData: the four details with their defaults, then projects 1 to 5 that have a title or a score. */
  method CollectFormData(form: Form) returns (data: FormData)
    ensures data.studentName == OrDefault(FormGet(form, "student_name"), "Student")
    ensures data.gender == OrDefault(FormGet(form, "gender"), "Boy")
    ensures data.mypGradeLevel == OrDefault(FormGet(form, "myp_grade_level"), "8")
    ensures data.overallMypGrade == OrDefault(FormGet(form, "overall_myp_grade"), "4")
    ensures data.projects == KeptProjects(form, 5)
  {
    var projects: seq<FormProject> := [];
    for i := 1 to 6
      invariant projects == KeptProjects(form, i - 1)
    {
      var title := FormGet(form, TitleKey(i));
      var hasTitle := title.Some? && title.value != "" && title.value != DefaultTitle(i);
      var project := ProjectAt(form, i);
      var hasScore := AnyScore(project);
      if hasTitle || hasScore {
        projects := projects + [project];
      }
    }
    data := FormData(OrDefault(FormGet(form, "student_name"), "Student"), OrDefault(FormGet(form, "gender"), "Boy"),
                     OrDefault(FormGet(form, "myp_grade_level"), "8"), OrDefault(FormGet(form, "overall_myp_grade"), "4"),
                     projects);
  }

  // ----- the submit handler -----

  /** gradeMap[n] || "MID": grades 1 and 2 are LOW, 3 to 5 MID, 6 and 7 HIGH, anything else MID. */
  function LevelOfGrade(n: int): (level: string)
    ensures level in Levels
    ensures level == "LOW" <==> 1 <= n <= 2
    ensures level == "HIGH" <==> 6 <= n <= 7
  {
    if n == 1 || n == 2 then "LOW"
    else if 3 <= n <= 5 then "MID"
    else if n == 6 || n == 7 then "HIGH"
    else "MID"
  }

  /** The level of the overall grade field: parseInt(grade) || 4, looked up in gradeMap. */
  function GradeLevel(grade: string): (level: string)
    ensures level in Levels
  {
    match ParseInt(grade)
    case Some(v) => LevelOfGrade(if v == 0 then 4 else v)
    case None => LevelOfGrade(4)
  }

  /** The grade typed as a number selects its level; 0, like text that is not a number, counts as grade 4. */
  lemma GradeLevels(n: nat, rest: string)
    requires rest == [] || (!IsDigit(rest[0]) && rest[0] != 'x' && rest[0] != 'X')
    ensures GradeLevel(NatString(n) + rest) == LevelOfGrade(if n == 0 then 4 else n)
  {
    ParseIntNatString(n, rest);
  }

  /** The payload sent: the form data with the overall and research levels, which are always the same. */
  datatype Payload = Payload(data: FormData, overallLevel: string, researchLevel: string)

  datatype Submission = Refused(message: string) | Sent(payload: Payload)

  const MissingInput := "Error: Please enter the student's name and at least one project score."

  /** A payload without a student name or without projects is refused; otherwise it is sent with its levels. */
  function Submit(data: FormData): (s: Submission)
    ensures s.Refused? <==> data.studentName == "" || data.projects == []
    ensures s.Sent? ==> s.payload.data == data && s.payload.overallLevel == s.payload.researchLevel
    ensures s.Sent? ==> s.payload.overallLevel == GradeLevel(data.overallMypGrade) && s.payload.overallLevel in Levels
  {
    var level := GradeLevel(data.overallMypGrade);
    if data.studentName == "" || data.projects == [] then Refused(MissingInput)
    else Sent(Payload(data, level, level))
  }

  /** The student name always has its default, so collected data is refused exactly when no project was kept. */
  lemma RefusedOnlyWithoutProjects(form: Form, data: FormData)
    requires data.studentName == OrDefault(FormGet(form, "student_name"), "Student")
    ensures Submit(data).Refused? <==> data.projects == []
  {
  }

  // ----- the strongest projects suffix -----

  /** (crit_a||0)+(crit_b||0)+(crit_c||0)+(crit_d||0). */
  function CritSum(crits: seq<Option<int>>): int {
    if crits == [] then 0 else crits[0].GetOr(0) + CritSum(crits[1..])
  }

  function Score(ps: seq<FormProject>, a: nat): int {
    if a < |ps| then CritSum(ps[a].crits) else 0
  }

  /**
   * The order Array.prototype.sort, which is stable, gives with the comparator
   * sumB - sumA: a higher sum first, and between equal sums the earlier project.
   */
  predicate Before(ps: seq<FormProject>, a: nat, b: nat) {
    Score(ps, a) > Score(ps, b) || (Score(ps, a) == Score(ps, b) && a < b)
  }

  predicate Ranked(ps: seq<FormProject>, r: seq<nat>) {
    forall i, j :: 0 <= i < j < |r| ==> Before(ps, r[i], r[j])
  }

  /** Insert index x into a ranked list of indices. */
  function Insert(ps: seq<FormProject>, x: nat, r: seq<nat>): (q: seq<nat>)
    ensures multiset(q) == multiset(r) + multiset{x}
    ensures |q| == |r| + 1
  {
    if r == [] || Before(ps, x, r[0]) then [x] + r
    else
      assert r == [r[0]] + r[1..];
      [r[0]] + Insert(ps, x, r[1..])
  }

  lemma RankedTail(ps: seq<FormProject>, r: seq<nat>)
    requires r != [] && Ranked(ps, r)
    ensures Ranked(ps, r[1..])
  {
    forall i, j | 0 <= i < j < |r[1..]| ensures Before(ps, r[1..][i], r[1..][j]) {
      assert r[1..][i] == r[i + 1] && r[1..][j] == r[j + 1];
    }
  }

  /** A ranked list stays ranked under a head that comes before all of it. */
  lemma RankedCons(ps: seq<FormProject>, h: nat, t: seq<nat>)
    requires Ranked(ps, t)
    requires forall j :: 0 <= j < |t| ==> Before(ps, h, t[j])
    ensures Ranked(ps, [h] + t)
  {
    var q := [h] + t;
    forall i, j | 0 <= i < j < |q| ensures Before(ps, q[i], q[j]) {
      if i == 0 {
        assert q[j] == t[j - 1];
      } else {
        assert q[i] == t[i - 1] && q[j] == t[j - 1];
      }
    }
  }

  /** The head of a ranked list that comes before x comes before all of x inserted into its tail. */
  lemma HeadBeatsInsert(ps: seq<FormProject>, x: nat, r: seq<nat>)
    requires r != [] && Ranked(ps, r) && Before(ps, r[0], x)
    ensures forall j :: 0 <= j < |Insert(ps, x, r[1..])| ==> Before(ps, r[0], Insert(ps, x, r[1..])[j])
  {
    var tail := Insert(ps, x, r[1..]);
    forall j | 0 <= j < |tail| ensures Before(ps, r[0], tail[j]) {
      assert tail[j] in multiset(tail);
      if tail[j] != x {
        assert tail[j] in multiset(r[1..]);
        var k :| 0 <= k < |r[1..]| && r[1..][k] == tail[j];
        assert r[k + 1] == tail[j];
      }
    }
  }

  lemma {:induction false} InsertRanked(ps: seq<FormProject>, x: nat, r: seq<nat>)
    requires Ranked(ps, r) && x !in r
    ensures Ranked(ps, Insert(ps, x, r))
  {
    if r == [] {
    } else if Before(ps, x, r[0]) {
      forall j | 0 <= j < |r| ensures Before(ps, x, r[j]) {
        if j > 0 {
          assert Before(ps, r[0], r[j]);
        }
      }
      RankedCons(ps, x, r);
    } else {
      assert r[0] != x;
      RankedTail(ps, r);
      assert x !in r[1..];
      InsertRanked(ps, x, r[1..]);
      HeadBeatsInsert(ps, x, r);
      RankedCons(ps, r[0], Insert(ps, x, r[1..]));
    }
  }

  /** Insertion sort of a list of indices into the ranking order. */
  function Rank(ps: seq<FormProject>, idx: seq<nat>): (r: seq<nat>)
    ensures multiset(r) == multiset(idx)
    ensures |r| == |idx|
  {
    if idx == [] then []
    else
      assert idx == [idx[0]] + idx[1..];
      Insert(ps, idx[0], Rank(ps, idx[1..]))
  }

  predicate Distinct(idx: seq<nat>) {
    forall i, j :: 0 <= i < j < |idx| ==> idx[i] != idx[j]
  }

  lemma {:induction false} RankRanked(ps: seq<FormProject>, idx: seq<nat>)
    requires Distinct(idx)
    ensures Ranked(ps, Rank(ps, idx))
  {
    if idx != [] {
      assert Distinct(idx[1..]) by {
        forall i, j | 0 <= i < j < |idx[1..]| ensures idx[1..][i] != idx[1..][j] {
          assert idx[1..][i] == idx[i + 1] && idx[1..][j] == idx[j + 1];
        }
      }
      RankRanked(ps, idx[1..]);
      var rest := Rank(ps, idx[1..]);
      assert idx[0] !in idx[1..] by {
        forall k | 0 <= k < |idx[1..]| ensures idx[1..][k] != idx[0] {
          assert idx[1..][k] == idx[k + 1];
        }
      }
      assert idx[0] !in multiset(rest);
      InsertRanked(ps, idx[0], rest);
    }
  }

  function Indices(n: nat): (r: seq<nat>)
    ensures |r| == n && forall i :: 0 <= i < n ==> r[i] == i
  {
    seq(n, i => i)
  }

  /** [...projects].sort(...): the project indices ranked. */
  function SortedProjects(ps: seq<FormProject>): (r: seq<nat>)
    ensures multiset(r) == multiset(Indices(|ps|))
    ensures forall i :: 0 <= i < |r| ==> r[i] < |ps|
    ensures Ranked(ps, r)
  {
    var r := Rank(ps, Indices(|ps|));
    RankRanked(ps, Indices(|ps|));
    IndicesBelow(r, |ps|);
    r
  }

  lemma IndicesBelow(r: seq<nat>, n: nat)
    requires multiset(r) == multiset(Indices(n))
    ensures forall i :: 0 <= i < |r| ==> r[i] < n
  {
    forall i | 0 <= i < |r| ensures r[i] < n {
      assert r[i] in multiset(r);
      assert r[i] in Indices(n);
    }
  }

  /** Every index in the ranking is a project's, and every project appears in it. */
  lemma SortedProjectsIndices(ps: seq<FormProject>, a: nat)
    ensures a in SortedProjects(ps) <==> a < |ps|
  {
    var r := SortedProjects(ps);
    assert a in r <==> a in multiset(Indices(|ps|));
    if a < |ps| {
      assert Indices(|ps|)[a] == a;
    }
  }

  /** The titles of the first two projects of the ranking. */
  function TopTitles(ps: seq<FormProject>): (titles: seq<string>)
    ensures |titles| == if |ps| < 2 then |ps| else 2
  {
    var r := SortedProjects(ps);
    var n := if |r| < 2 then |r| else 2;
    seq(n, i requires 0 <= i < n => ps[r[i]].title)
  }

  /**
   * The first project named has the highest sum (the earliest among equals),
   * and the second the highest sum of the others.
   */
  lemma TopTwo(ps: seq<FormProject>)
    requires |ps| >= 2
    ensures var r := SortedProjects(ps);
      r[0] < |ps| && r[1] < |ps| && r[0] != r[1] &&
      TopTitles(ps) == [ps[r[0]].title, ps[r[1]].title] &&
      (forall b :: 0 <= b < |ps| && b != r[0] ==> Before(ps, r[0], b)) &&
      (forall b :: 0 <= b < |ps| && b != r[0] && b != r[1] ==> Before(ps, r[1], b))
  {
    var r := SortedProjects(ps);
    SortedProjectsIndices(ps, r[0]);
    SortedProjectsIndices(ps, r[1]);
    assert r[0] in r && r[1] in r;
    assert Before(ps, r[0], r[1]);
    forall b | 0 <= b < |ps| && b != r[0] ensures Before(ps, r[0], b) {
      SortedProjectsIndices(ps, b);
      var k :| 0 <= k < |r| && r[k] == b;
      assert k != 0;
    }
    forall b | 0 <= b < |ps| && b != r[0] && b != r[1] ensures Before(ps, r[1], b) {
      SortedProjectsIndices(ps, b);
      var k :| 0 <= k < |r| && r[k] == b;
      assert k != 0 && k != 1;
    }
  }

  /** The suffix appended to the report when at least three projects were sent. */
  function Suffix(ps: seq<FormProject>): (s: string)
    ensures |ps| < 3 ==> s == ""
  {
    if |ps| >= 3 then " Strongest projects include: " + Join(TopTitles(ps), "& ") + "." else ""
  }

  // ----- showing the reply -----

  /** The fields of the server's JSON reply. */
  datatype Reply = Reply(reportText: Option<string>, error: Option<string>)

  const NetworkFailed := "Network error or server connection failed. See console for details."

  /** The text shown for the reply to a sent payload; None stands for a failed request. */
  function Shown(payload: Payload, reply: Option<Reply>): (text: string)
    ensures reply.None? ==> text == NetworkFailed
    ensures reply.Some? && reply.value.reportText.Some? && reply.value.reportText.value != "" ==>
      text == reply.value.reportText.value + Suffix(payload.data.projects)
  {
    match reply
    case None => NetworkFailed
    case Some(rep) =>
      if rep.reportText.Some? && rep.reportText.value != "" then rep.reportText.value + Suffix(payload.data.projects)
      else "Error generating report: " + OrDefault(rep.error, "Unknown error") + ". Check console for details."
  }

  /** With three or more projects the report is followed by the two top-ranked titles, joined by "& ". */
  lemma ShownWithSuffix(payload: Payload, text: string)
    requires |payload.data.projects| >= 3 && text != ""
    ensures var ps := payload.data.projects; var r := SortedProjects(ps);
      Shown(payload, Some(Reply(Some(text), None))) ==
      text + " Strongest projects include: " + ps[r[0]].title + "& " + ps[r[1]].title + "."
  {
    var ps := payload.data.projects;
    TopTwo(ps);
    var t := TopTitles(ps);
    assert Join(t, "& ") == t[0] + "& " + Join(t[1..], "& ");
    assert Join(t[1..], "& ") == t[1];
  }

  // ----- what the server receives -----

  /** A criterion as JSON: a number, or null. */
  function CritJson(c: Option<int>): ReportViews.JsonValue {
    match c
    case Some(n) => ReportViews.JInt(n)
    case None => ReportViews.JOther
  }

  /** The JSON object of a project: its title, then crit_a to crit_d. */
  function ProjectJson(p: FormProject): ReportViews.Project
    requires |p.crits| == |Criteria|
  {
    ReportViews.Project(Some(ReportViews.JString(p.title)),
                        [("title", ReportViews.JString(p.title)), ("crit_a", CritJson(p.crits[0])),
                         ("crit_b", CritJson(p.crits[1])), ("crit_c", CritJson(p.crits[2])), ("crit_d", CritJson(p.crits[3]))])
  }

  lemma PointsOfCrit(key: string, c: Option<int>)
    requires ReportViews.StartsWith(key, "crit_")
    ensures ReportViews.Points((key, CritJson(c))) == c.GetOr(0)
  {
  }

  /** The server's total of a project the page sent is the page's own sum of its criteria. */
  lemma ServerTotal(p: FormProject)
    requires |p.crits| == |Criteria|
    ensures ReportViews.Total(ProjectJson(p).fields) == CritSum(p.crits)
  {
    var f := ProjectJson(p).fields;
    var c := p.crits;
    assert "crit_a"[..5] == "crit_" && "crit_b"[..5] == "crit_" && "crit_c"[..5] == "crit_" && "crit_d"[..5] == "crit_";
    PointsOfCrit("crit_a", c[0]);
    PointsOfCrit("crit_b", c[1]);
    PointsOfCrit("crit_c", c[2]);
    PointsOfCrit("crit_d", c[3]);
    assert ReportViews.Points(f[0]) == 0 by {
      assert "title"[..5][0] != "crit_"[0];
    }
    var f4 := f[4..];
    assert f4 == [f[4]] && f4[1..] == [];
    var f3 := f[3..];
    assert f3[0] == f[3] && f3[1..] == f4;
    var f2 := f[2..];
    assert f2[0] == f[2] && f2[1..] == f3;
    var f1 := f[1..];
    assert f1[0] == f[1] && f1[1..] == f2;
    assert ReportViews.Total(f) == ReportViews.Points(f[0]) + ReportViews.Total(f1);
    var c3 := c[3..];
    assert c3 == [c[3]] && c3[1..] == [];
    var c2 := c[2..];
    assert c2[0] == c[2] && c2[1..] == c3;
    var c1 := c[1..];
    assert c1[0] == c[1] && c1[1..] == c2;
    assert f[1] == ("crit_a", CritJson(c[0])) && f[2] == ("crit_b", CritJson(c[1]));
    assert f[3] == ("crit_c", CritJson(c[2])) && f[4] == ("crit_d", CritJson(c[3]));
    assert ReportViews.Total(f4) == c[3].GetOr(0);
    assert ReportViews.Total(f3) == c[2].GetOr(0) + c[3].GetOr(0);
    assert ReportViews.Total(f2) == c[1].GetOr(0) + c[2].GetOr(0) + c[3].GetOr(0);
    assert ReportViews.Total(f1) == c[0].GetOr(0) + c[1].GetOr(0) + c[2].GetOr(0) + c[3].GetOr(0);
    assert CritSum(c3) == c[3].GetOr(0);
    assert CritSum(c2) == c[2].GetOr(0) + c[3].GetOr(0);
    assert CritSum(c1) == c[1].GetOr(0) + c[2].GetOr(0) + c[3].GetOr(0);
  }

  predicate FourCriteria(ps: seq<FormProject>) {
    forall k :: 0 <= k < |ps| ==> |ps[k].crits| == |Criteria|
  }

  /** The JSON body the page posts: the details, the two levels and the projects. */
  function RequestOf(p: Payload): ReportViews.Request
    requires FourCriteria(p.data.projects)
  {
    var ps := p.data.projects;
    ReportViews.Request(Some(p.data.studentName), Some(p.data.gender), Some(p.overallLevel), Some(p.researchLevel),
                        Some(seq(|ps|, k requires 0 <= k < |ps| => ProjectJson(ps[k]))))
  }

  /**
   * A payload the page sends is always answered with report text: its levels
   * are kept as they are, and every project title is a string.
   */
  lemma PageRequestsGetReports(d: Dictionary, p: Payload, c: ReportViews.Choices)
    requires FourCriteria(p.data.projects)
    requires p.overallLevel in Levels && p.researchLevel in Levels
    ensures ReportViews.OverallLevel(Some(p.overallLevel)) == p.overallLevel
    ensures ReportViews.ResearchLevel(Some(p.researchLevel), p.overallLevel) == p.researchLevel
    ensures ReportViews.Respond(d, Some(RequestOf(p)), c).ReportText?
  {
    var req := RequestOf(p);
    var projects := req.projects.value;
    var scored := seq(|projects|, i requires 0 <= i < |projects| =>
                        (ReportViews.TitleOf(projects[i]), ReportViews.Total(projects[i].fields)));
    assert forall i :: 0 <= i < |scored| ==> scored[i].0.JString?;
    if scored != [] {
      ReportViews.TitlesScoringText(scored, ReportViews.MaxScore(scored));
    }
  }
}
