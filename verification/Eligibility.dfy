/** The static eligibility policy: what depends only on a student's record and a class's rules. */
module Eligibility {
  import opened Types

  datatype StudentState = Active | Suspended | Graduated | Withdrawn

  datatype Profile = Profile(id: StudentId, major: nat, gradeYear: nat, state: StudentState)

  datatype ScopeType = Allow | Deny

  datatype Scope = Scope(major: nat, kind: ScopeType)

  datatype Requirement = Requirement(course: CourseId, minimumScore: Option<real>)

  datatype Achievement = Achievement(course: CourseId, passed: bool, score: Option<real>)

  datatype Rules = Rules(
    minimumGrade: Option<nat>, maximumGrade: Option<nat>, scopes: seq<Scope>, prerequisites: seq<Requirement>)

  datatype Refusal = InvalidStudent | StudentInactive | GradeNotAllowed | MajorNotAllowed | PrerequisiteNotMet

  // --- The policy, said declaratively ----------------------------------------------------------

  /** A deny for the major always wins; an allow list admits only the majors it names. */
  ghost predicate MajorOk(major: nat, scopes: seq<Scope>) {
    && Scope(major, Deny) !in scopes
    && ((exists i :: 0 <= i < |scopes| && scopes[i].kind == Allow) ==> Scope(major, Allow) in scopes)
  }

  predicate Qualifies(a: Achievement, r: Requirement) {
    && a.course == r.course && a.passed
    && (r.minimumScore.Some? ==> a.score.Some? && a.score.value >= r.minimumScore.value)
  }

  ghost predicate Met(r: Requirement, achievements: seq<Achievement>) {
    exists i :: 0 <= i < |achievements| && Qualifies(achievements[i], r)
  }

  ghost predicate AllMet(requirements: seq<Requirement>, achievements: seq<Achievement>) {
    forall i :: 0 <= i < |requirements| ==> Met(requirements[i], achievements)
  }

  ghost predicate GradeOk(grade: nat, rules: Rules) {
    && (rules.minimumGrade.Some? ==> grade >= rules.minimumGrade.value)
    && (rules.maximumGrade.Some? ==> grade <= rules.maximumGrade.value)
  }

  ghost predicate Eligible(p: Profile, rules: Rules, achievements: seq<Achievement>) {
    && p.id != 0 && p.state == Active && GradeOk(p.gradeYear, rules) && MajorOk(p.major, rules.scopes)
    && AllMet(rules.prerequisites, achievements)
  }

  // --- The code --------------------------------------------------------------------------------

  method MajorAllowed(major: nat, scopes: seq<Scope>) returns (ok: bool)
    ensures ok == MajorOk(major, scopes)
  {
    if |scopes| == 0 {
      return true;
    }
    var hasAllowList, allowed := false, false;
    for i := 0 to |scopes|
      invariant hasAllowList == exists k :: 0 <= k < i && scopes[k].kind == Allow
      invariant allowed == (Scope(major, Allow) in scopes[..i])
      invariant Scope(major, Deny) !in scopes[..i]
    {
      assert scopes[..i + 1] == scopes[..i] + [scopes[i]];
      if scopes[i].kind == Allow {
        hasAllowList := true;
        if scopes[i].major == major {
          allowed := true;
        }
      }
      if scopes[i].kind == Deny && scopes[i].major == major {
        assert Scope(major, Deny) == scopes[i];
        return false;
      }
    }
    assert scopes[..|scopes|] == scopes;
    return !hasAllowList || allowed;
  }

  /** Groups the achievements by course, keeping their order. */
  method ByCourse(achievements: seq<Achievement>) returns (groups: map<CourseId, seq<Achievement>>)
    ensures forall a :: a in achievements ==> a.course in groups && a in groups[a.course]
    ensures forall c :: c in groups ==> forall a :: a in groups[c] ==> a in achievements && a.course == c
  {
    groups := map[];
    for i := 0 to |achievements|
      invariant forall a :: a in achievements[..i] ==> a.course in groups && a in groups[a.course]
      invariant forall c :: c in groups ==> forall a :: a in groups[c] ==> a in achievements[..i] && a.course == c
    {
      var a := achievements[i];
      assert achievements[..i + 1] == achievements[..i] + [a];
      groups := groups[a.course := (if a.course in groups then groups[a.course] else []) + [a]];
    }
    assert achievements[..|achievements|] == achievements;
  }

  method PrerequisitesSatisfied(requirements: seq<Requirement>, achievements: seq<Achievement>) returns (ok: bool)
    ensures ok == AllMet(requirements, achievements)
  {
    if |requirements| == 0 {
      return true;
    }
    var groups := ByCourse(achievements);
    for i := 0 to |requirements|
      invariant forall k :: 0 <= k < i ==> Met(requirements[k], achievements)
    {
      var r := requirements[i];
      var group := if r.course in groups then groups[r.course] else [];
      var satisfied := false;
      for j := 0 to |group|
        invariant !satisfied && forall k :: 0 <= k < j ==> !Qualifies(group[k], r)
      {
        if !group[j].passed {
          continue;
        }
        if r.minimumScore.Some? && (group[j].score.None? || group[j].score.value < r.minimumScore.value) {
          continue;
        }
        satisfied := true;
        assert group[j] in group && Qualifies(group[j], r);
        break;
      }
      if !satisfied {
        forall k | 0 <= k < |achievements| ensures !Qualifies(achievements[k], r) {
          assert achievements[k] in achievements;
        }
        return false;
      }
    }
    return true;
  }

  /** StaticEligibilityPolicy.Evaluate: the first rule that refuses, if any does. */
  method Evaluate(p: Profile, rules: Rules, achievements: seq<Achievement>) returns (refusal: Option<Refusal>)
    ensures refusal == None <==> Eligible(p, rules, achievements)
    ensures refusal == Some(InvalidStudent) <==> p.id == 0
    ensures refusal == Some(StudentInactive) <==> p.id != 0 && p.state != Active
    ensures refusal == Some(GradeNotAllowed) <==> p.id != 0 && p.state == Active && !GradeOk(p.gradeYear, rules)
    ensures refusal == Some(MajorNotAllowed) <==>
            p.id != 0 && p.state == Active && GradeOk(p.gradeYear, rules) && !MajorOk(p.major, rules.scopes)
  {
    if p.id == 0 {
      return Some(InvalidStudent);
    }
    if p.state != Active {
      return Some(StudentInactive);
    }
    if rules.minimumGrade.Some? && p.gradeYear < rules.minimumGrade.value {
      return Some(GradeNotAllowed);
    }
    if rules.maximumGrade.Some? && p.gradeYear > rules.maximumGrade.value {
      return Some(GradeNotAllowed);
    }
    var major := MajorAllowed(p.major, rules.scopes);
    if !major {
      return Some(MajorNotAllowed);
    }
    var met := PrerequisitesSatisfied(rules.prerequisites, achievements);
    return if met then None else Some(PrerequisiteNotMet);
  }

  // --- The history prefilter -------------------------------------------------------------------

  /** The warmup query returns, without repetitions, the history of the courses that the round asks for. */
  ghost predicate Prefiltered(history: seq<Achievement>, wanted: set<CourseId>, loaded: seq<Achievement>) {
    forall a :: a in loaded <==> a in history && a.course in wanted
  }

  /** Loading only the prerequisites of the round changes no verdict about a class of the round. */
  lemma PrefilterKeepsVerdicts(
    p: Profile, rules: Rules, history: seq<Achievement>, wanted: set<CourseId>, loaded: seq<Achievement>)
    requires Prefiltered(history, wanted, loaded)
    requires forall i :: 0 <= i < |rules.prerequisites| ==> rules.prerequisites[i].course in wanted
    ensures Eligible(p, rules, loaded) <==> Eligible(p, rules, history)
  {
    forall i | 0 <= i < |rules.prerequisites|
      ensures Met(rules.prerequisites[i], loaded) <==> Met(rules.prerequisites[i], history)
    {
      var r := rules.prerequisites[i];
      if Met(r, history) {
        var k :| 0 <= k < |history| && Qualifies(history[k], r);
        assert history[k] in loaded;
      }
      if Met(r, loaded) {
        var k :| 0 <= k < |loaded| && Qualifies(loaded[k], r);
        assert loaded[k] in loaded && loaded[k] in history;
      }
    }
  }
}
