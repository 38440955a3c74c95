/**
 * Interview-topic suggestions from the text of a resume. PDF text extraction
 * is external: the resume text is the input.
 */
module ResumeService {
  import opened Wrappers
  import opened Text

  /** One entry of the skills dictionary: a skill name and its topics. */
  datatype Skill = Skill(name: string, topics: seq<string>)

  /** The skills dictionary, in insertion order. */
  const SkillsMap: seq<Skill> := [
    Skill("Python", ["Two Sum", "Factorial", "Data Structures"]),
    Skill("SQL", ["ACID Properties", "Joins", "Normalization"]),
    Skill("Operating Systems", ["Deadlocks", "Virtual Memory", "Threads"]),
    Skill("Machine Learning", ["CNNs", "Transformers", "Backpropagation"])
  ]

  /** The lower-cased skill name occurs anywhere in the lower-cased text. */
  predicate Mentions(text: string, skill: Skill) {
    Contains(text, Lower(skill.name))
  }

  /** The `suggestions` list: the topics of every mentioned skill, in order. */
  function Collected(text: string, skills: seq<Skill>): seq<string> {
    if skills == [] then []
    else
      var skill := skills[|skills| - 1];
      Collected(text, skills[..|skills| - 1]) + (if Mentions(text, skill) then skill.topics else [])
  }

  /** The distinct topics suggested for a resume. */
  function Pool(resumeText: string): set<string> {
    set t | t in Collected(Lower(resumeText), SkillsMap)
  }

  predicate NoDuplicates(s: seq<string>) {
    forall i, j :: 0 <= i < j < |s| ==> s[i] != s[j]
  }

  /** A topic is collected exactly when some mentioned skill lists it. */
  lemma {:induction false} CollectedIff(text: string, skills: seq<Skill>, t: string)
    ensures t in Collected(text, skills) <==>
            exists k :: 0 <= k < |skills| && Mentions(text, skills[k]) && t in skills[k].topics
  {
    if skills != [] {
      var n := |skills| - 1;
      CollectedIff(text, skills[..n], t);
      if t in Collected(text, skills) && t !in Collected(text, skills[..n]) {
        assert Mentions(text, skills[n]) && t in skills[n].topics;
      }
      if k :| 0 <= k < |skills| && Mentions(text, skills[k]) && t in skills[k].topics {
        if k < n {
          assert skills[..n][k] == skills[k];
        }
      }
    }
  }

  /** Every suggested topic belongs to a skill the resume mentions. */
  lemma PoolIff(resumeText: string, t: string)
    ensures t in Pool(resumeText) <==>
            exists k :: 0 <= k < |SkillsMap| && Mentions(Lower(resumeText), SkillsMap[k]) && t in SkillsMap[k].topics
  {
    CollectedIff(Lower(resumeText), SkillsMap, t);
  }

  /** No topic is suggested exactly when no skill is mentioned. */
  lemma PoolEmptyIff(resumeText: string)
    ensures Pool(resumeText) == {} <==> forall k :: 0 <= k < |SkillsMap| ==> !Mentions(Lower(resumeText), SkillsMap[k])
  {
    if k :| 0 <= k < |SkillsMap| && Mentions(Lower(resumeText), SkillsMap[k]) {
      PoolIff(resumeText, SkillsMap[k].topics[0]);
    }
    if t :| t in Pool(resumeText) {
      PoolIff(resumeText, t);
    }
  }

  /** Matching is a plain substring test: "NoSQL" mentions SQL. */
  lemma NoSqlSuggestsSqlTopics()
    ensures "Joins" in Pool("NoSQL")
  {
    assert Lower("SQL") == "sql";
    assert Lower("NoSQL") == "nosql";
    assert OccursAt("nosql", "sql", 2);
    PoolIff("NoSQL", "Joins");
    assert "Joins" in SkillsMap[1].topics;
  }

  /** `suggest_topics`. Python's `list(set(...))` enumerates the set in an
      unspecified order, so which topics survive the cut to five is chosen
      nondeterministically. */
  method SuggestTopics(resumeText: string) returns (topics: seq<string>)
    ensures |topics| == Min(5, |Pool(resumeText)|)
    ensures NoDuplicates(topics)
    ensures forall t :: t in topics ==> t in Pool(resumeText)
    ensures |Pool(resumeText)| <= 5 ==> forall t :: t in Pool(resumeText) ==> t in topics
    ensures topics == [] <==> forall k :: 0 <= k < |SkillsMap| ==> !Mentions(Lower(resumeText), SkillsMap[k])
  {
    var suggestions: seq<string> := [];
    var text := Lower(resumeText);
    for k := 0 to |SkillsMap|
      invariant suggestions == Collected(text, SkillsMap[..k])
    {
      assert SkillsMap[..k + 1][..k] == SkillsMap[..k];
      var skill := SkillsMap[k];
      if Contains(text, Lower(skill.name)) {
        suggestions := suggestions + skill.topics;
      }
    }
    assert SkillsMap[..|SkillsMap|] == SkillsMap;
    var pool := set t | t in suggestions;
    var unique: seq<string> := [];
    var rest := pool;
    while rest != {}
      invariant rest <= pool
      invariant forall t :: t in unique <==> t in pool && t !in rest
      invariant NoDuplicates(unique)
      invariant |unique| + |rest| == |pool|
      decreases |rest|
    {
      var t :| t in rest;
      unique := unique + [t];
      rest := rest - {t};
    }
    topics := unique[..Min(5, |unique|)];
    PoolEmptyIff(resumeText);
  }
}
