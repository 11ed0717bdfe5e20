/**
 * The decision rules of the analysis backend (`api/views.py`): the name-line
 * heuristic, the integer quality score and its notes, the cleaning of role
 * keywords with the per-role fallback, the matching/missing partition, the sorted
 * distinct report lists, the request checks of the analysis and enhancement
 * endpoints, the JD score clamp and the summary message. What the language
 * libraries compute (entities, grammar issues, generated text, similarity and the
 * weighted scores) comes in as given values.
 */
module ApiViews {
  import opened Wrappers
  import opened Strings
  import opened SortedSets
  import ResumeForm

  // ----- The name heuristic -----

  /** Words that mark a line as a section heading rather than a name. */
  const NameStopWords: seq<string> := ["experience", "education", "skills", "projects", "summary", "profile"]

  /** A case-insensitive search for any heading word inside the line. */
  predicate MentionsSectionWord(line: string) {
    exists w :: w in NameStopWords && Contains(Lower(line), w)
  }

  /**
   * A stripped line that can be a name: not empty, no '@', no run of five or more
   * digits, fewer than five words and no heading word.
   */
  predicate IsNameLine(line: string) {
    line != [] && '@' !in line && !HasDigitRun(line, 5) && WordCount(line) < 5 && !MentionsSectionWord(line)
  }

  /** The first line that, once stripped, satisfies `ok`. */
  function FirstStripped(lines: seq<string>, ok: string -> bool): (r: Option<string>)
    ensures r.Some? ==> ok(r.value)
  {
    if lines == [] then None
    else if ok(Trim(Python, lines[0])) then Some(Trim(Python, lines[0]))
    else FirstStripped(lines[1..], ok)
  }

  /** No line before position n qualifies once stripped. */
  predicate NoneBefore(lines: seq<string>, ok: string -> bool, n: nat)
    requires n <= |lines|
  {
    forall j :: 0 <= j < n ==> !ok(Trim(Python, lines[j]))
  }

  lemma {:induction false} FirstStrippedSpec(lines: seq<string>, ok: string -> bool)
    ensures FirstStripped(lines, ok).None? <==> NoneBefore(lines, ok, |lines|)
    ensures FirstStripped(lines, ok).Some? ==>
      exists i :: 0 <= i < |lines| && FirstStripped(lines, ok).value == Trim(Python, lines[i]) && ok(Trim(Python, lines[i]))
        && NoneBefore(lines, ok, i)
  {
    if lines != [] {
      if ok(Trim(Python, lines[0])) {
        assert NoneBefore(lines, ok, 0);
      } else {
        FirstStrippedSpec(lines[1..], ok);
        NoneBeforeCons(lines, ok, |lines|);
        FirstStrippedSkip(lines, ok);
      }
    }
  }

  /** A first line that does not qualify moves the earliest qualifying line one place down. */
  lemma FirstStrippedSkip(lines: seq<string>, ok: string -> bool)
    requires lines != [] && !ok(Trim(Python, lines[0]))
    requires var tail := lines[1..]; FirstStripped(tail, ok).Some? ==>
      exists i :: 0 <= i < |tail| && FirstStripped(tail, ok).value == Trim(Python, tail[i]) && ok(Trim(Python, tail[i]))
        && NoneBefore(tail, ok, i)
    ensures FirstStripped(lines, ok).Some? ==>
      exists i :: 0 <= i < |lines| && FirstStripped(lines, ok).value == Trim(Python, lines[i]) && ok(Trim(Python, lines[i]))
        && NoneBefore(lines, ok, i)
  {
    var tail := lines[1..];
    if FirstStripped(tail, ok).Some? {
      var i :| 0 <= i < |tail| && FirstStripped(tail, ok).value == Trim(Python, tail[i]) && ok(Trim(Python, tail[i]))
        && NoneBefore(tail, ok, i);
      ShiftWitness(lines, ok, i);
      assert FirstStripped(lines, ok) == FirstStripped(tail, ok);
    }
  }

  lemma ShiftWitness(lines: seq<string>, ok: string -> bool, i: nat)
    requires lines != [] && !ok(Trim(Python, lines[0])) && i < |lines| - 1
    requires ok(Trim(Python, lines[1..][i])) && NoneBefore(lines[1..], ok, i)
    ensures lines[i + 1] == lines[1..][i] && ok(Trim(Python, lines[i + 1])) && NoneBefore(lines, ok, i + 1)
  {
    NoneBeforeCons(lines, ok, i + 1);
  }

  lemma NoneBeforeCons(lines: seq<string>, ok: string -> bool, n: nat)
    requires 0 < n <= |lines|
    ensures NoneBefore(lines, ok, n) <==> !ok(Trim(Python, lines[0])) && NoneBefore(lines[1..], ok, n - 1)
  {
    if NoneBefore(lines, ok, n) {
      NoneBeforeTail(lines, ok, n);
    }
    if !ok(Trim(Python, lines[0])) && NoneBefore(lines[1..], ok, n - 1) {
      NoneBeforeFromTail(lines, ok, n);
    }
  }

  lemma NoneBeforeTail(lines: seq<string>, ok: string -> bool, n: nat)
    requires 0 < n <= |lines| && NoneBefore(lines, ok, n)
    ensures NoneBefore(lines[1..], ok, n - 1)
  {
    var tail := lines[1..];
    forall j | 0 <= j < n - 1 ensures !ok(Trim(Python, tail[j])) {
      assert tail[j] == lines[j + 1];
    }
  }

  lemma NoneBeforeFromTail(lines: seq<string>, ok: string -> bool, n: nat)
    requires 0 < n <= |lines| && !ok(Trim(Python, lines[0])) && NoneBefore(lines[1..], ok, n - 1)
    ensures NoneBefore(lines, ok, n)
  {
    var tail := lines[1..];
    forall j | 0 <= j < n ensures !ok(Trim(Python, lines[j])) {
      if j > 0 {
        assert lines[j] == tail[j - 1];
        assert !ok(Trim(Python, tail[j - 1]));
      }
    }
  }

  /** The first line that, once stripped, can be a name. */
  function FirstNameLine(lines: seq<string>): (r: Option<string>)
    ensures r.Some? ==> IsNameLine(r.value)
  {
    FirstStripped(lines, IsNameLine)
  }

  /**
   * The search finds a line exactly when one qualifies, and then returns the
   * earliest qualifying line, stripped.
   */
  lemma FirstNameLineSpec(lines: seq<string>)
    ensures FirstNameLine(lines).None? <==> forall i :: 0 <= i < |lines| ==> !IsNameLine(Trim(Python, lines[i]))
    ensures FirstNameLine(lines).Some? ==>
      exists i :: 0 <= i < |lines| && FirstNameLine(lines).value == Trim(Python, lines[i]) && IsNameLine(Trim(Python, lines[i]))
        && forall j :: 0 <= j < i ==> !IsNameLine(Trim(Python, lines[j]))
  {
    FirstStrippedSpec(lines, IsNameLine);
  }

  /** The name: the loop over the text's lines that stops at the first one that can be a name. */
  method ExtractName(text: string) returns (name: Option<string>)
    ensures name == FirstNameLine(Split(text, '\n'))
  {
    var lines := Split(text, '\n');
    var i := 0;
    while i < |lines|
      invariant 0 <= i <= |lines|
      invariant FirstNameLine(lines[i..]) == FirstNameLine(lines)
    {
      var line := Trim(Python, lines[i]);
      if IsNameLine(line) {
        return Some(line);
      }
      assert lines[i..][1..] == lines[i + 1..];
      i := i + 1;
    }
    return None;
  }

  // ----- Skills found in the résumé -----

  /** A named entity found by the language model: its text and its label. */
  datatype Entity = Entity(text: string, kind: string)

  const OtherSkillKinds: seq<string> := ["ORG", "PRODUCT", "LANGUAGE"]

  /** The stripped texts of the SKILL entities. */
  function SkillTexts(ents: seq<Entity>): set<string> {
    if ents == [] then {}
    else
      var e := ents[|ents| - 1];
      SkillTexts(ents[..|ents| - 1]) + (if e.kind == "SKILL" then {Trim(Python, e.text)} else {})
  }

  /** The stripped texts of organisation, product and language entities of fewer than four words. */
  function OtherTexts(ents: seq<Entity>): set<string> {
    if ents == [] then {}
    else
      var e := ents[|ents| - 1];
      OtherTexts(ents[..|ents| - 1])
        + (if e.kind in OtherSkillKinds && WordCount(e.text) < 4 then {Trim(Python, e.text)} else {})
  }

  lemma SkillTextsSnoc(ents: seq<Entity>, i: nat)
    requires i < |ents|
    ensures SkillTexts(ents[..i + 1]) == SkillTexts(ents[..i]) + (if ents[i].kind == "SKILL" then {Trim(Python, ents[i].text)} else {})
  {
    assert ents[..i + 1][..i] == ents[..i];
  }

  lemma OtherTextsSnoc(ents: seq<Entity>, i: nat)
    requires i < |ents|
    ensures OtherTexts(ents[..i + 1]) == OtherTexts(ents[..i])
      + (if ents[i].kind in OtherSkillKinds && WordCount(ents[i].text) < 4 then {Trim(Python, ents[i].text)} else {})
  {
    assert ents[..i + 1][..i] == ents[..i];
  }

  /**
   * The résumé's skills before capitalising: the SKILL entities, or, when there
   * are none, the short organisation, product and language entities. The list
   * stands for the set the source builds; only its elements matter below.
   */
  method CandidateSkills(ents: seq<Entity>) returns (skills: seq<string>)
    ensures Elems(skills) == if SkillTexts(ents) != {} then SkillTexts(ents) else OtherTexts(ents)
  {
    skills := [];
    var i := 0;
    while i < |ents|
      invariant 0 <= i <= |ents|
      invariant Elems(skills) == SkillTexts(ents[..i])
    {
      SkillTextsSnoc(ents, i);
      if ents[i].kind == "SKILL" {
        ElemsAppend(skills, Trim(Python, ents[i].text));
        skills := skills + [Trim(Python, ents[i].text)];
      }
      i := i + 1;
    }
    assert ents[..|ents|] == ents;
    HeadInElems(skills);
    if skills == [] {
      i := 0;
      while i < |ents|
        invariant 0 <= i <= |ents|
        invariant Elems(skills) == OtherTexts(ents[..i])
      {
        OtherTextsSnoc(ents, i);
        if ents[i].kind in OtherSkillKinds && WordCount(ents[i].text) < 4 {
          ElemsAppend(skills, Trim(Python, ents[i].text));
          skills := skills + [Trim(Python, ents[i].text)];
        }
        i := i + 1;
      }
      assert ents[..|ents|] == ents;
    }
  }

  function CapitalizeAll(s: seq<string>): (r: seq<string>)
    ensures |r| == |s| && forall i :: 0 <= i < |s| ==> r[i] == Capitalize(s[i])
  {
    if s == [] then [] else [Capitalize(s[0])] + CapitalizeAll(s[1..])
  }

  /** `resume_skills`: the capitalised candidates, distinct and sorted. */
  function ResumeSkills(candidates: seq<string>): (r: seq<string>)
    ensures Increasing(r)
  {
    SortedUnique(CapitalizeAll(candidates))
  }

  /**
   * The résumé's skill list is sorted without duplicates, holds exactly the
   * capitalised candidates, and does not depend on the order the candidates were found in.
   */
  lemma ResumeSkillsSpec(candidates: seq<string>, other: seq<string>)
    ensures Increasing(ResumeSkills(candidates))
    ensures forall x :: x in ResumeSkills(candidates) <==> exists c :: c in candidates && x == Capitalize(c)
    ensures Elems(other) == Elems(candidates) ==> ResumeSkills(other) == ResumeSkills(candidates)
  {
    forall x ensures x in ResumeSkills(candidates) <==> exists c :: c in candidates && x == Capitalize(c) {
      ResumeSkillsMember(candidates, x);
    }
    if Elems(other) == Elems(candidates) {
      CapitalizeAllSubset(other, candidates);
      CapitalizeAllSubset(candidates, other);
      SortedUniqueIgnoresOrder(CapitalizeAll(other), CapitalizeAll(candidates));
    }
  }

  lemma ResumeSkillsMember(candidates: seq<string>, x: string)
    ensures x in ResumeSkills(candidates) <==> exists c :: c in candidates && x == Capitalize(c)
  {
    assert x in ResumeSkills(candidates) <==> x in Elems(CapitalizeAll(candidates));
    if x in Elems(CapitalizeAll(candidates)) {
      CapitalizedFrom(candidates, x);
    }
    if exists c :: c in candidates && x == Capitalize(c) {
      var c :| c in candidates && x == Capitalize(c);
      CapitalizedTo(candidates, c);
    }
  }

  lemma CapitalizedFrom(candidates: seq<string>, x: string)
    requires x in Elems(CapitalizeAll(candidates))
    ensures exists c :: c in candidates && x == Capitalize(c)
  {
    var i :| 0 <= i < |candidates| && CapitalizeAll(candidates)[i] == x;
    assert candidates[i] in candidates;
  }

  lemma CapitalizedTo(candidates: seq<string>, c: string)
    requires c in candidates
    ensures Capitalize(c) in Elems(CapitalizeAll(candidates))
  {
    var i :| 0 <= i < |candidates| && candidates[i] == c;
    assert CapitalizeAll(candidates)[i] == Capitalize(c);
  }

  lemma CapitalizeAllSubset(a: seq<string>, b: seq<string>)
    requires Elems(a) <= Elems(b)
    ensures Elems(CapitalizeAll(a)) <= Elems(CapitalizeAll(b))
  {
    forall x | x in Elems(CapitalizeAll(a)) ensures x in Elems(CapitalizeAll(b)) {
      CapitalizedFrom(a, x);
      var c :| c in a && x == Capitalize(c);
      assert c in Elems(a);
      CapitalizedTo(b, c);
    }
  }

  // ----- The quality score -----

  const ScoredSections: seq<string> := ["experience", "education", "skills", "projects"]

  /** How many of the words occur in the text as whole words, ignoring case. */
  function CountWords(text: string, words: seq<string>): (n: nat)
    ensures n <= |words|
    ensures n == 0 <==> forall i :: 0 <= i < |words| ==> !HasWord(text, words[i])
    ensures n == |words| <==> forall i :: 0 <= i < |words| ==> HasWord(text, words[i])
  {
    if words == [] then 0
    else
      assert forall i :: 1 <= i < |words| ==> words[i] == words[1..][i - 1];
      (if HasWord(text, words[0]) then 1 else 0) + CountWords(text, words[1..])
  }

  /** For distinct words, the count is the number of those words the text contains. */
  lemma {:induction false} CountWordsIsCount(text: string, words: seq<string>)
    requires forall i, j :: 0 <= i < j < |words| ==> words[i] != words[j]
    ensures CountWords(text, words) == |set w | w in words && HasWord(text, w)|
  {
    if words != [] {
      var tail := words[1..];
      CountWordsIsCount(text, tail);
      var found := set w | w in words && HasWord(text, w);
      var rest := set w | w in tail && HasWord(text, w);
      assert words == [words[0]] + tail;
      assert words[0] !in tail;
      if HasWord(text, words[0]) {
        assert found == rest + {words[0]};
      } else {
        assert found == rest;
      }
    }
  }

  function FoundSections(text: string): nat {
    CountWords(text, ScoredSections)
  }

  /** The score's formula: ten per section, up to ten for contacts, ten for five skills, up to twenty for grammar, ten base, capped at a hundred. */
  function QualityPoints(sections: nat, hasEmail: bool, hasPhone: bool, skillCount: nat, grammarErrors: nat): (r: int)
    ensures 10 <= r <= 100
  {
    var contact := if hasEmail && hasPhone then 10 else if hasEmail || hasPhone then 5 else 0;
    var skills := if skillCount >= 5 then 10 else 0;
    var grammar := if grammarErrors < 20 then 20 - grammarErrors else 0;
    var s := sections * 10 + contact + skills + grammar;
    if s + 10 < 100 then s + 10 else 100
  }

  /** The notes about contacts and grammar, in the order they are added. */
  function QualityNotes(hasEmail: bool, hasPhone: bool, grammarErrors: nat): (r: seq<string>)
    ensures |r| <= 2
    ensures r == [] <==> hasEmail && hasPhone && grammarErrors == 0
  {
    (if hasEmail && hasPhone then [] else if hasEmail || hasPhone then ["Contact info incomplete."] else ["Missing contact info."])
    + (if grammarErrors > 0 then ["Found " + NatToString(grammarErrors) + " potential grammar issues."] else [])
  }

  /** The score always lies between 10 and 90: the cap at a hundred is never reached. */
  lemma QualityBounds(sections: nat, hasEmail: bool, hasPhone: bool, skillCount: nat, grammarErrors: nat)
    requires sections <= |ScoredSections|
    ensures 10 <= QualityPoints(sections, hasEmail, hasPhone, skillCount, grammarErrors) <= 90
    ensures QualityPoints(sections, hasEmail, hasPhone, skillCount, grammarErrors) == 10
      <==> sections == 0 && !hasEmail && !hasPhone && skillCount < 5 && grammarErrors >= 20
    ensures QualityPoints(sections, hasEmail, hasPhone, skillCount, grammarErrors) == 90
      <==> sections == 4 && hasEmail && hasPhone && skillCount >= 5 && grammarErrors == 0
  {
  }

  /** More sections found never lower the score, and more grammar issues never raise it. */
  lemma QualityMonotone(sections: nat, more: nat, hasEmail: bool, hasPhone: bool, skillCount: nat, errors: nat, fewer: nat)
    requires sections <= more <= |ScoredSections| && fewer <= errors
    ensures QualityPoints(sections, hasEmail, hasPhone, skillCount, errors)
      <= QualityPoints(more, hasEmail, hasPhone, skillCount, fewer)
  {
  }

  /** The score accumulated step by step, with the notes for missing contacts and grammar issues. */
  method QualityScore(text: string, hasEmail: bool, hasPhone: bool, skillCount: nat, grammarErrors: nat)
    returns (score: int, feedback: seq<string>)
    ensures score == QualityPoints(FoundSections(text), hasEmail, hasPhone, skillCount, grammarErrors)
    ensures 10 <= score <= 90
    ensures feedback == QualityNotes(hasEmail, hasPhone, grammarErrors)
  {
    QualityBounds(FoundSections(text), hasEmail, hasPhone, skillCount, grammarErrors);
    feedback := [];
    score := 0;
    score := score + FoundSections(text) * 10;
    if hasEmail && hasPhone {
      score := score + 10;
    } else if hasEmail || hasPhone {
      score := score + 5;
      feedback := feedback + ["Contact info incomplete."];
    } else {
      feedback := feedback + ["Missing contact info."];
    }
    if skillCount >= 5 {
      score := score + 10;
    }
    score := score + if grammarErrors < 20 then 20 - grammarErrors else 0;
    if grammarErrors > 0 {
      feedback := feedback + ["Found " + NatToString(grammarErrors) + " potential grammar issues."];
    }
    score := if score + 10 < 100 then score + 10 else 100;
  }

  // ----- Role keywords -----

  /** The characters at which the generated keyword list is cut into items. */
  const KeywordSeparators: set<char> := {',', '\n', '\r', '\U{2022}', '*', '-'}

  /** The separator characters of a text, in order. */
  function SeparatorsOf(s: string, seps: set<char>): seq<char> {
    if s == [] then [] else (if s[0] in seps then [s[0]] else []) + SeparatorsOf(s[1..], seps)
  }

  /** The pieces glued back together, with the given characters between consecutive pieces. */
  function Weave(parts: seq<string>, between: seq<char>): string
    requires |parts| == |between| + 1
  {
    if between == [] then parts[0] else parts[0] + [between[0]] + Weave(parts[1..], between[1..])
  }

  /**
   * The pieces of a text between separator characters, empty pieces kept: one more
   * piece than separators, none holding a separator, and woven back together with the
   * separators they were cut at they give the text again.
   */
  function SplitAny(s: string, seps: set<char>): (parts: seq<string>)
    ensures |parts| == |SeparatorsOf(s, seps)| + 1
    ensures forall i, j :: 0 <= i < |parts| && 0 <= j < |parts[i]| ==> parts[i][j] !in seps
    ensures Weave(parts, SeparatorsOf(s, seps)) == s
    decreases |s|
  {
    if s == [] then [[]]
    else
      var rest := SplitAny(s[1..], seps);
      assert s == [s[0]] + s[1..];
      if s[0] in seps then
        assert SeparatorsOf(s, seps) == [s[0]] + SeparatorsOf(s[1..], seps);
        WeaveAfterSeparator(s[0], rest, SeparatorsOf(s[1..], seps), s[1..]);
        [[]] + rest
      else
        assert SeparatorsOf(s, seps) == SeparatorsOf(s[1..], seps);
        WeaveCons(s[0], rest, SeparatorsOf(s[1..], seps), s[1..]);
        [[s[0]] + rest[0]] + rest[1..]
  }

  lemma WeaveAfterSeparator(c: char, rest: seq<string>, between: seq<char>, t: string)
    requires |rest| == |between| + 1 && Weave(rest, between) == t
    ensures Weave([[]] + rest, [c] + between) == [c] + t
  {
    assert ([[]] + rest)[1..] == rest && ([c] + between)[1..] == between;
  }

  lemma WeaveCons(c: char, rest: seq<string>, between: seq<char>, t: string)
    requires |rest| == |between| + 1 && Weave(rest, between) == t
    ensures Weave([[c] + rest[0]] + rest[1..], between) == [c] + t
  {
    var parts := [[c] + rest[0]] + rest[1..];
    assert parts[1..] == rest[1..];
    if between != [] {
      var w := Weave(rest[1..], between[1..]);
      assert t == rest[0] + [between[0]] + w;
      assert Weave(parts, between) == [c] + rest[0] + [between[0]] + w;
    }
  }

  /** An item stripped and lower-cased, with every "skills" and every occurrence of the role deleted. */
  const SkillsWord := "skills"

  function CleanKeyword(item: string, role: string): (r: string)
    ensures |r| <= |Trim(Python, item)| <= |item|
  {
    RemoveAll(RemoveAll(Lower(Trim(Python, item)), SkillsWord), Lower(role))
  }

  /** The cleaned items longer than one character. */
  function GeneratedKeywords(items: seq<string>, role: string): set<string> {
    if items == [] then {}
    else GeneratedKeywords(items[..|items| - 1], role) + Kept(CleanKeyword(items[|items| - 1], role))
  }

  /** The `if len(clean) > 1` test: a cleaned item is kept when longer than one character. */
  function Kept(clean: string): set<string> {
    if |clean| > 1 then {clean} else {}
  }

  /** Keywords from the generated reply; none without a reply or with an empty one. */
  function ReplyKeywords(reply: Option<string>, role: string): set<string> {
    if reply.None? || reply.value == "" then {}
    else GeneratedKeywords(SplitAny(reply.value, KeywordSeparators), role)
  }

  const DefaultFallback: seq<string> := ["communication", "teamwork", "problem solving"]

  /** The standard skills of each job role offered by the analyzer page. */
  const FallbackRoleSkills: map<string, seq<string>> := map[
    "Software Engineer" := ["Python", "Java", "C++", "SQL", "Git", "Data Structures", "Algorithms", "System Design"],
    "Frontend Developer" := ["HTML", "CSS", "JavaScript", "React", "Angular", "Vue", "TypeScript", "Redux", "Responsive Design"],
    "Backend Developer" := ["Node.js", "Python", "Java", "Django", "Flask", "Spring Boot", "SQL", "NoSQL", "API Design"],
    "Full Stack Developer" := ["HTML", "CSS", "JavaScript", "React", "Node.js", "Python", "SQL", "MongoDB", "Git", "AWS"],
    "Data Scientist" := ["Python", "R", "SQL", "Machine Learning", "Pandas", "NumPy", "Scikit-learn", "TensorFlow", "Data Visualization"],
    "Machine Learning Engineer" := ["Python", "TensorFlow", "PyTorch", "Deep Learning", "NLP", "Computer Vision", "MLOps", "SQL"],
    "DevOps Engineer" := ["Linux", "AWS", "Azure", "Docker", "Kubernetes", "Jenkins", "Terraform", "CI/CD", "Bash Scripting"],
    "Project Manager" := ["Agile", "Scrum", "JIRA", "Communication", "Risk Management", "Leadership", "Planning", "Stakeholder Management"],
    "UI/UX Designer" := ["Figma", "Adobe XD", "Sketch", "Prototyping", "User Research", "Wireframing", "Usability Testing", "Visual Design"],
    "QA Engineer" := ["Selenium", "Java", "Python", "Test Automation", "Manual Testing", "JIRA", "SQL", "API Testing"],
    "Business Analyst" := ["SQL", "Excel", "Tableau", "Power BI", "Data Analysis", "Requirements Gathering", "Communication", "Documentation"]
  ]

  /** The fallback list for a role: its standard skills, or the generic three for any other role. */
  function FallbackFor(role: string): (skills: seq<string>)
    ensures |skills| > 0
  {
    if role in FallbackRoleSkills then FallbackRoleSkills[role] else DefaultFallback
  }

  function LowerSet(s: seq<string>): set<string> {
    set x | x in s :: Lower(x)
  }

  function RoleKeywordSet(reply: Option<string>, role: string): set<string> {
    if ReplyKeywords(reply, role) != {} then ReplyKeywords(reply, role) else LowerSet(FallbackFor(role))
  }

  /** One turn of the loop: the keywords of one more item are those before plus the kept cleaned item. */
  lemma GeneratedKeywordsSnoc(items: seq<string>, i: nat, role: string, before: set<string>, after: set<string>)
    requires i < |items|
    requires before == GeneratedKeywords(items[..i], role)
    requires after == before + Kept(CleanKeyword(items[i], role))
    ensures after == GeneratedKeywords(items[..i + 1], role)
  {
    assert items[..i + 1][..i] == items[..i];
  }

  /** The loop over the generated items, keeping the cleaned ones longer than one character. */
  method CollectKeywords(items: seq<string>, role: string) returns (keywords: set<string>)
    ensures keywords == GeneratedKeywords(items, role)
  {
    keywords := {};
    var i := 0;
    while i < |items|
      invariant 0 <= i <= |items|
      invariant keywords == GeneratedKeywords(items[..i], role)
    {
      var clean := CleanKeyword(items[i], role);
      var before := keywords;
      if |clean| > 1 {
        keywords := keywords + {clean};
      }
      GeneratedKeywordsSnoc(items, i, role, before, keywords);
      i := i + 1;
    }
    assert items[..|items|] == items;
  }

  /** The loop adding each fallback skill lower-cased. */
  method LowerEach(words: seq<string>) returns (lowered: set<string>)
    ensures lowered == LowerSet(words)
    ensures |words| > 0 ==> lowered != {}
  {
    lowered := {};
    var i := 0;
    while i < |words|
      invariant 0 <= i <= |words|
      invariant lowered == LowerSet(words[..i])
    {
      assert LowerSet(words[..i + 1]) == LowerSet(words[..i]) + {Lower(words[i])} by {
        assert words[..i + 1] == words[..i] + [words[i]];
      }
      lowered := lowered + {Lower(words[i])};
      i := i + 1;
    }
    assert words[..|words|] == words;
    assert |words| > 0 ==> Lower(words[0]) in lowered;
  }

  /**
   * `role_keywords`: the cleaned generated keywords, or the lower-cased fallback
   * list when none survives. It is never empty, so the match percentage never
   * divides by zero.
   */
  method RoleKeywords(reply: Option<string>, role: string) returns (keywords: set<string>)
    ensures keywords == RoleKeywordSet(reply, role)
    ensures keywords != {}
  {
    keywords := {};
    if reply.Some? && reply.value != "" {
      keywords := CollectKeywords(SplitAny(reply.value, KeywordSeparators), role);
    }
    if keywords == {} {
      keywords := LowerEach(FallbackFor(role));
    }
  }

  predicate IsLowerCase(s: string) {
    Lower(s) == s
  }

  lemma LowerIsLowerCase(s: string)
    ensures IsLowerCase(Lower(s))
  {
    LowerIdempotent(s);
  }

  /** Deleting occurrences keeps only characters of the text, so lower-case text stays lower-case. */
  lemma RemoveAllKeepsLowerCase(s: string, p: string)
    requires IsLowerCase(s)
    ensures IsLowerCase(RemoveAll(s, p))
  {
    var r := RemoveAll(s, p);
    RemoveAllKeepsChars(s, p);
    forall i | 0 <= i < |r| ensures Lower(r)[i] == r[i] {
      assert r[i] in r;
      var k :| 0 <= k < |s| && s[k] == r[i];
      assert Lower(s)[k] == LowerChar(s[k]);
    }
  }

  lemma CleanKeywordIsLowerCase(item: string, role: string)
    ensures IsLowerCase(CleanKeyword(item, role))
  {
    LowerIsLowerCase(Trim(Python, item));
    RemoveAllKeepsLowerCase(Lower(Trim(Python, item)), SkillsWord);
    RemoveAllKeepsLowerCase(RemoveAll(Lower(Trim(Python, item)), SkillsWord), Lower(role));
  }

  lemma {:induction false} GeneratedKeywordsLowerCase(items: seq<string>, role: string)
    ensures forall k :: k in GeneratedKeywords(items, role) ==> IsLowerCase(k) && |k| > 1
  {
    if items != [] {
      GeneratedKeywordsLowerCase(items[..|items| - 1], role);
      CleanKeywordIsLowerCase(items[|items| - 1], role);
    }
  }

  lemma ReplyKeywordsLowerCase(reply: Option<string>, role: string)
    ensures forall k :: k in ReplyKeywords(reply, role) ==> IsLowerCase(k) && |k| > 1
  {
    if reply.Some? && reply.value != "" {
      GeneratedKeywordsLowerCase(SplitAny(reply.value, KeywordSeparators), role);
    }
  }

  /** Every role keyword is lower case, whether generated or taken from the fallback list. */
  lemma RoleKeywordsLowerCase(reply: Option<string>, role: string)
    ensures forall k :: k in RoleKeywordSet(reply, role) ==> IsLowerCase(k)
  {
    if ReplyKeywords(reply, role) != {} {
      ReplyKeywordsLowerCase(reply, role);
    } else {
      var fallback := FallbackFor(role);
      LowerSetLowerCase(fallback);
      assert RoleKeywordSet(reply, role) == LowerSet(fallback);
    }
  }

  lemma LowerSetLowerCase(words: seq<string>)
    ensures forall k :: k in LowerSet(words) ==> IsLowerCase(k)
  {
    forall k | k in LowerSet(words) ensures IsLowerCase(k) {
      var x :| x in words && k == Lower(x);
      LowerIsLowerCase(x);
    }
  }

  // ----- Matching keywords against the résumé's skills -----

  /** A keyword matches when some lower-cased résumé skill equals it, contains it or is contained in it. */
  predicate Matches(keyword: string, skills: set<string>) {
    keyword in skills
    || (exists s :: s in skills && Contains(s, keyword))
    || (exists s :: s in skills && Contains(keyword, s))
  }

  /** The capitalised keywords that do, or do not, match. */
  function Labelled(keywords: set<string>, skills: set<string>, matched: bool): set<string> {
    set k | k in keywords && Matches(k, skills) == matched :: Capitalize(k)
  }

  lemma LabelledAdd(done: set<string>, k: string, skills: set<string>, matched: bool)
    ensures Labelled(done + {k}, skills, matched)
      == Labelled(done, skills, matched) + (if Matches(k, skills) == matched then {Capitalize(k)} else {})
  {
  }

  /** Taking one more keyword from those left adds its label to one side. */
  lemma LabelledTake(keywords: set<string>, rest: set<string>, k: string, skills: set<string>, matched: bool)
    requires k in rest && rest <= keywords
    ensures Labelled(keywords - (rest - {k}), skills, matched)
      == Labelled(keywords - rest, skills, matched) + (if Matches(k, skills) == matched then {Capitalize(k)} else {})
  {
    assert keywords - (rest - {k}) == (keywords - rest) + {k};
    LabelledAdd(keywords - rest, k, skills, matched);
  }

  /**
   * The loop over the keywords: each goes, capitalised, to the matching list or
   * to the missing list. The walk order over the set is left open.
   */
  method Partition(keywords: set<string>, skills: set<string>) returns (matching: seq<string>, missing: seq<string>)
    ensures Elems(matching) == Labelled(keywords, skills, true)
    ensures Elems(missing) == Labelled(keywords, skills, false)
  {
    matching, missing := [], [];
    var rest := keywords;
    while rest != {}
      invariant rest <= keywords
      invariant Elems(matching) == Labelled(keywords - rest, skills, true)
      invariant Elems(missing) == Labelled(keywords - rest, skills, false)
      decreases |rest|
    {
      var k :| k in rest;
      LabelledTake(keywords, rest, k, skills, true);
      LabelledTake(keywords, rest, k, skills, false);
      if Matches(k, skills) {
        ElemsAppend(matching, Capitalize(k));
        matching := matching + [Capitalize(k)];
      } else {
        ElemsAppend(missing, Capitalize(k));
        missing := missing + [Capitalize(k)];
      }
      rest := rest - {k};
    }
    assert keywords - rest == keywords;
  }

  /**
   * Every lower-case keyword lands in exactly one of the two lists: together they
   * hold all keywords, and no label appears in both.
   */
  lemma PartitionSplitsKeywords(keywords: set<string>, skills: set<string>)
    requires forall k :: k in keywords ==> IsLowerCase(k)
    ensures Labelled(keywords, skills, true) + Labelled(keywords, skills, false) == set k | k in keywords :: Capitalize(k)
    ensures Labelled(keywords, skills, true) !! Labelled(keywords, skills, false)
  {
    forall x | x in Labelled(keywords, skills, true) && x in Labelled(keywords, skills, false) ensures false {
      var a :| a in keywords && Matches(a, skills) && x == Capitalize(a);
      var b :| b in keywords && !Matches(b, skills) && x == Capitalize(b);
      CapitalizeInjectiveOnLower(a, b);
    }
  }

  // ----- Keywords of a job description -----

  const JdKinds: seq<string> := ["SKILL", "ORG", "PRODUCT", "LANGUAGE"]

  /** The lower-cased texts of the description's skill, organisation, product and language entities. */
  function JdTexts(ents: seq<Entity>): set<string> {
    if ents == [] then {}
    else
      var e := ents[|ents| - 1];
      JdTexts(ents[..|ents| - 1]) + (if e.kind in JdKinds then {Lower(e.text)} else {})
  }

  method JdKeywords(ents: seq<Entity>) returns (keywords: set<string>)
    ensures keywords == JdTexts(ents)
    ensures forall k :: k in keywords ==> IsLowerCase(k)
  {
    keywords := {};
    var i := 0;
    while i < |ents|
      invariant 0 <= i <= |ents|
      invariant keywords == JdTexts(ents[..i])
      invariant forall k :: k in keywords ==> IsLowerCase(k)
    {
      assert ents[..i + 1][..i] == ents[..i];
      if ents[i].kind in JdKinds {
        LowerIsLowerCase(ents[i].text);
        keywords := keywords + {Lower(ents[i].text)};
      }
      i := i + 1;
    }
    assert ents[..|ents|] == ents;
  }

  // ----- Scores and the summary -----

  /** The JD score kept within 0 to 100. */
  function ClampJd(raw: int): (r: nat)
    ensures r <= 100
    ensures 0 <= raw <= 100 ==> r == raw
    ensures raw < 0 ==> r == 0
    ensures raw > 100 ==> r == 100
  {
    if raw < 0 then 0 else if raw > 100 then 100 else raw
  }

  /** `f"Analysis for {role}. Role Match: {score}%."`, with the JD part only when the JD score is truthy. */
  function SummaryMessage(role: string, roleScore: nat, jdScore: Option<nat>): string {
    "Analysis for " + role + ". Role Match: " + NatToString(roleScore) + "%."
      + (if jdScore.Some? && jdScore.value != 0 then " JD Match: " + NatToString(jdScore.value) + "%." else "")
  }

  /**
   * A JD score of zero is left out of the message just like a missing one; any
   * other JD score ends the message.
   */
  lemma SummaryMentionsJd(role: string, roleScore: nat, jdScore: Option<nat>)
    ensures jdScore == Some(0) ==> SummaryMessage(role, roleScore, jdScore) == SummaryMessage(role, roleScore, None)
    ensures jdScore.Some? && jdScore.value != 0 ==>
      EndsWith(SummaryMessage(role, roleScore, jdScore), " JD Match: " + NatToString(jdScore.value) + "%.")
    ensures StartsWith(SummaryMessage(role, roleScore, jdScore), SummaryMessage(role, roleScore, None))
  {
    var base := SummaryMessage(role, roleScore, None);
    assert base + "" == base;
    var m := SummaryMessage(role, roleScore, jdScore);
    assert m[..|base|] == base;
    if jdScore.Some? && jdScore.value != 0 {
      var tail := " JD Match: " + NatToString(jdScore.value) + "%.";
      assert m == base + tail;
      assert m[|m| - |tail|..] == tail;
    }
  }

  // ----- Request checks -----

  /** The uploaded file: its name and the text the PDF or DOCX reader got from it, if any. */
  datatype Upload = Upload(name: string, text: Option<string>)

  /** The outcome of the analysis request's checks: an error status or the résumé text to analyse. */
  datatype Checked = Rejected(status: nat, error: string) | Accepted(text: string)

  predicate AcceptedType(name: string) {
    EndsWith(Lower(name), ".pdf") || EndsWith(Lower(name), ".docx")
  }

  function ValidateAnalysis(modelsLoaded: bool, file: Option<Upload>, jobRole: string): (r: Checked)
    ensures r.Rejected? && r.status == 503 <==> !modelsLoaded
    ensures r.Rejected? && r.status == 400 <==>
      modelsLoaded
      && (file.None? || jobRole == "" || !AcceptedType(file.value.name)
          || file.value.text.None? || Trim(Python, file.value.text.value) == "")
    ensures r.Accepted? ==> file.Some? && file.value.text == Some(r.text) && Trim(Python, r.text) != ""
  {
    if !modelsLoaded then Rejected(503, "AI models failed to load.")
    else if file.None? || jobRole == "" then Rejected(400, "Missing file or job role.")
    else if !AcceptedType(file.value.name) then Rejected(400, "Invalid file type")
    else if file.value.text.None? || Trim(Python, file.value.text.value) == "" then Rejected(400, "Empty file")
    else Accepted(file.value.text.value)
  }

  /** The file type is judged by the name's extension whatever its case. */
  lemma ExtensionIgnoresCase(name: string)
    ensures AcceptedType(Upper(name)) <==> AcceptedType(name)
  {
    LowerOfUpper(name);
  }

  // ----- The enhancement endpoint -----

  /** What the generative model did with a prompt: the text it produced, or the message of the error it raised. */
  datatype Generation = Generated(text: string) | Raised(message: string)

  datatype EnhanceResult = Enhanced(text: string) | EnhanceError(status: nat, error: string)

  const DefaultPromptHead := "Rewrite this resume bullet point to be professional: \""

  function DefaultPrompt(text: string): string {
    DefaultPromptHead + text + "\""
  }

  /** The prompt sent: the override when one is given and not empty, else the default built around the text. */
  function PromptFor(text: string, promptOverride: Option<string>): (p: string)
    ensures promptOverride.Some? && promptOverride.value != "" ==> p == promptOverride.value
    ensures promptOverride.None? || promptOverride.value == "" ==> Contains(p, text)
  {
    if promptOverride.Some? && promptOverride.value != "" then promptOverride.value
    else
      var p := DefaultPrompt(text);
      assert p[|DefaultPromptHead|..|DefaultPromptHead| + |text|] == text;
      ContainsAt(p, text, |DefaultPromptHead|);
      p
  }

  /** `EnhanceWithAIView.post`: no text is a 400, no key a 500, otherwise the model's text or its error as a 500. */
  function Enhance(text: string, promptOverride: Option<string>, hasKey: bool, generate: string -> Generation): (r: EnhanceResult)
    ensures r == EnhanceError(400, "No text") <==> text == ""
    ensures text != "" && !hasKey ==> r == EnhanceError(500, "No API Key")
    ensures text != "" && hasKey ==>
      match generate(PromptFor(text, promptOverride))
      case Generated(t) => r == Enhanced(t)
      case Raised(m) => r == EnhanceError(500, m)
  {
    if text == "" then EnhanceError(400, "No text")
    else if !hasKey then EnhanceError(500, "No API Key")
    else
      match generate(PromptFor(text, promptOverride))
      case Generated(t) => Enhanced(t)
      case Raised(m) => EnhanceError(500, m)
  }

  /**
   * The editor never sends an empty text, so it is never refused with 400; for a
   * job description the model sees the text, but the summary and project buttons
   * send a fixed prompt that leaves the text out.
   */
  lemma EditorRequestsAsSent(text: string, hasKey: bool, generate: string -> Generation)
    requires text != ""
    ensures Enhance(text, None, hasKey, generate).EnhanceError? ==> Enhance(text, None, hasKey, generate).status == 500
    ensures Contains(PromptFor(text, None), text)
    ensures PromptFor(text, Some(ResumeForm.SummaryPrompt)) == ResumeForm.SummaryPrompt
    ensures PromptFor(text, Some(ResumeForm.ProjectPrompt)) == ResumeForm.ProjectPrompt
  {
  }

  // ----- The analysis request end to end -----

  /** A report line of the analysis response. */
  datatype Report = Report(
    jobRole: string,
    name: Option<string>,
    email: Option<string>,
    phone: Option<string>,
    resumeSkills: seq<string>,
    roleMatching: seq<string>,
    roleMissing: seq<string>,
    jdMatching: seq<string>,
    jdMissing: seq<string>,
    atsScoreRole: nat,
    atsScoreJd: Option<nat>,
    summary: string,
    qualityFeedback: seq<string>)

  datatype AnalysisResponse = AnalysisFailed(status: nat, error: string) | AnalysisDone(report: Report)

  /**
   * What the language libraries and the generative model produce for one
   * request, and the two weighted scores computed from their similarity and
   * match percentages.
   */
  datatype LibraryOutputs = LibraryOutputs(
    entities: seq<Entity>,
    email: Option<string>,
    phone: Option<string>,
    grammarErrors: nat,
    roleReply: Option<string>,
    roleScore: nat,
    jdEntities: seq<Entity>,
    jdRawScore: int)

  /** The lists of a report are sorted and distinct, and matching and missing share no label. */
  predicate WellFormedLists(matching: seq<string>, missing: seq<string>) {
    Increasing(matching) && Increasing(missing) && Elems(matching) !! Elems(missing)
  }

  method MatchReport(keywords: set<string>, skills: set<string>) returns (matching: seq<string>, missing: seq<string>)
    requires forall k :: k in keywords ==> IsLowerCase(k)
    ensures WellFormedLists(matching, missing)
    ensures Elems(matching) == Labelled(keywords, skills, true)
    ensures Elems(missing) == Labelled(keywords, skills, false)
    ensures Elems(matching) + Elems(missing) == set k | k in keywords :: Capitalize(k)
  {
    var m, n := Partition(keywords, skills);
    PartitionSplitsKeywords(keywords, skills);
    matching, missing := SortedUnique(m), SortedUnique(n);
  }

  /**
   * The role half of the report: every role keyword, capitalised, is listed as
   * matching or missing, and there is at least one.
   */
  method RoleMatch(reply: Option<string>, role: string, skills: set<string>) returns (matching: seq<string>, missing: seq<string>)
    ensures WellFormedLists(matching, missing)
    ensures Elems(matching) == Labelled(RoleKeywordSet(reply, role), skills, true)
    ensures Elems(missing) == Labelled(RoleKeywordSet(reply, role), skills, false)
    ensures |matching| + |missing| > 0
  {
    var keywords := RoleKeywords(reply, role);
    RoleKeywordsLowerCase(reply, role);
    matching, missing := MatchReport(keywords, skills);
    SomeLabel(keywords, matching, missing);
  }

  lemma SomeLabel(keywords: set<string>, matching: seq<string>, missing: seq<string>)
    requires keywords != {}
    requires Elems(matching) + Elems(missing) == set k | k in keywords :: Capitalize(k)
    ensures |matching| + |missing| > 0
  {
    var k :| k in keywords;
    assert Capitalize(k) in Elems(matching) + Elems(missing);
  }

  /** The JD half of the report: computed only for a non-blank job description. */
  method JdMatch(jobDescription: string, ents: seq<Entity>, rawScore: int, skills: set<string>)
    returns (matching: seq<string>, missing: seq<string>, score: Option<nat>)
    ensures WellFormedLists(matching, missing)
    ensures score.Some? <==> Trim(Python, jobDescription) != ""
    ensures score.Some? ==>
      score.value == ClampJd(rawScore)
      && Elems(matching) == Labelled(JdTexts(ents), skills, true)
      && Elems(missing) == Labelled(JdTexts(ents), skills, false)
    ensures score.None? ==> matching == [] && missing == []
  {
    matching, missing, score := [], [], None;
    if Trim(Python, jobDescription) != "" {
      var keywords := JdKeywords(ents);
      matching, missing := MatchReport(keywords, skills);
      score := Some(ClampJd(rawScore));
    }
  }

  /** The candidate skill texts as a set: the SKILL entities, or the short other ones when there are none. */
  function CandidateSet(ents: seq<Entity>): set<string> {
    if SkillTexts(ents) != {} then SkillTexts(ents) else OtherTexts(ents)
  }

  /** The lower-cased résumé skills the keywords are matched against. */
  function LowerElems(s: seq<string>): set<string> {
    set x | x in s :: Lower(x)
  }

  /** What an accepted request's report promises, given the text read from the file. */
  predicate ReportFits(r: Report, text: string, jobRole: string, jobDescription: string, lib: LibraryOutputs) {
    r.jobRole == jobRole
    && r.name == FirstNameLine(Split(text, '\n'))
    && r.email == lib.email && r.phone == lib.phone && r.atsScoreRole == lib.roleScore
    && Increasing(r.resumeSkills)
    && Elems(r.resumeSkills) == (set c | c in CandidateSet(lib.entities) :: Capitalize(c))
    && WellFormedLists(r.roleMatching, r.roleMissing)
    && Elems(r.roleMatching) == Labelled(RoleKeywordSet(lib.roleReply, jobRole), LowerElems(r.resumeSkills), true)
    && Elems(r.roleMissing) == Labelled(RoleKeywordSet(lib.roleReply, jobRole), LowerElems(r.resumeSkills), false)
    && |r.roleMatching| + |r.roleMissing| > 0
    && WellFormedLists(r.jdMatching, r.jdMissing)
    && (r.atsScoreJd.Some? <==> Trim(Python, jobDescription) != "")
    && (r.atsScoreJd.Some? ==> r.atsScoreJd.value == ClampJd(lib.jdRawScore))
    && (r.atsScoreJd.Some? ==>
          Elems(r.jdMatching) == Labelled(JdTexts(lib.jdEntities), LowerElems(r.resumeSkills), true)
          && Elems(r.jdMissing) == Labelled(JdTexts(lib.jdEntities), LowerElems(r.resumeSkills), false))
    && (r.atsScoreJd.None? ==> r.jdMatching == [] && r.jdMissing == [])
    && r.summary == SummaryMessage(jobRole, lib.roleScore, r.atsScoreJd)
    && r.qualityFeedback == QualityNotes(lib.email.Some?, lib.phone.Some?, lib.grammarErrors)
  }

  /** The résumé's skill list holds exactly the capitalised candidates. */
  lemma ResumeSkillsElems(candidates: seq<string>)
    ensures Elems(ResumeSkills(candidates)) == set c | c in Elems(candidates) :: Capitalize(c)
  {
    ResumeSkillsSpec(candidates, candidates);
  }

  /**
   * `ResumeAnalysisView.post`: a rejected request gets its error; an accepted one
   * gets a report whose lists are sorted and distinct, whose role lists cover a
   * non-empty keyword set, whose JD score is present exactly when a non-blank job
   * description was sent and lies in 0 to 100, and whose message follows the JD rule.
   */
  method AnalyzeResume(modelsLoaded: bool, file: Option<Upload>, jobRole: string, jobDescription: string, lib: LibraryOutputs)
    returns (resp: AnalysisResponse)
    ensures ValidateAnalysis(modelsLoaded, file, jobRole).Rejected? ==>
      resp == AnalysisFailed(ValidateAnalysis(modelsLoaded, file, jobRole).status, ValidateAnalysis(modelsLoaded, file, jobRole).error)
    ensures ValidateAnalysis(modelsLoaded, file, jobRole).Accepted? ==>
      resp.AnalysisDone?
      && ReportFits(resp.report, ValidateAnalysis(modelsLoaded, file, jobRole).text, jobRole, jobDescription, lib)
  {
    var checked := ValidateAnalysis(modelsLoaded, file, jobRole);
    if checked.Rejected? {
      return AnalysisFailed(checked.status, checked.error);
    }
    var report := BuildReport(checked.text, jobRole, jobDescription, lib);
    return AnalysisDone(report);
  }

  /** Step 3, skill extraction: the capitalised candidates, sorted and distinct. */
  method ExtractSkills(ents: seq<Entity>) returns (resumeSkills: seq<string>)
    ensures Increasing(resumeSkills)
    ensures Elems(resumeSkills) == set c | c in CandidateSet(ents) :: Capitalize(c)
  {
    var candidates := CandidateSkills(ents);
    resumeSkills := ResumeSkills(candidates);
    ResumeSkillsElems(candidates);
  }

  /** The report an accepted request gets, built from the text read from the file. */
  method BuildReport(text: string, jobRole: string, jobDescription: string, lib: LibraryOutputs) returns (report: Report)
    ensures ReportFits(report, text, jobRole, jobDescription, lib)
  {
    var name := ExtractName(text);
    var resumeSkills := ExtractSkills(lib.entities);
    var _, feedback := QualityScore(text, lib.email.Some?, lib.phone.Some?, |resumeSkills|, lib.grammarErrors);
    var skills := LowerElems(resumeSkills);
    var roleMatching, roleMissing := RoleMatch(lib.roleReply, jobRole, skills);
    var jdMatching, jdMissing, jdScore := JdMatch(jobDescription, lib.jdEntities, lib.jdRawScore, skills);
    report := Report(
      jobRole, name, lib.email, lib.phone, resumeSkills, roleMatching, roleMissing, jdMatching, jdMissing,
      lib.roleScore, jdScore, SummaryMessage(jobRole, lib.roleScore, jdScore), feedback);
  }
}
