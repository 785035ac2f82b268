/**
 * The add-skill modal of the dashboard
 * (src/components/dashboard/AddSkillModal.tsx): the suggestion list picked
 * from the goal title, submitting a typed skill name trimmed, and clicking
 * a suggestion.
 */
module AddSkill {
  import opened Wrappers
  import Text

  /**
   * `suggestedSkills`, in declaration order. `Object.entries` also yields
   * the `default` entry, so the search visits it last like any other key.
   */
  const Table: seq<(string, seq<string>)> :=
    [DataScience, WebDevelopment, CloudComputing, MachineLearning, Cybersecurity, ProjectManagement, Default]

  const DataScience := ("Data Science", ["Python", "SQL", "Statistics", "Machine Learning", "Data Visualization", "Pandas"])
  const WebDevelopment := ("Web Development", ["JavaScript", "React", "CSS", "Node.js", "TypeScript", "APIs"])
  const CloudComputing := ("Cloud Computing", ["AWS", "Docker", "Kubernetes", "Terraform", "CI/CD", "Linux"])
  const MachineLearning :=
    ("Machine Learning", ["TensorFlow", "PyTorch", "Neural Networks", "NLP", "Computer Vision", "Deep Learning"])
  const Cybersecurity :=
    ("Cybersecurity", ["Network Security", "Penetration Testing", "Cryptography", "OWASP", "Incident Response"])
  const ProjectManagement :=
    ("Project Management", ["Agile", "Scrum", "Jira", "Stakeholder Management", "Risk Management"])
  const Default :=
    ("default", ["Communication", "Problem Solving", "Critical Thinking", "Time Management", "Collaboration"])

  /** `suggestedSkills.default`. */
  const DefaultIndex: nat := 6

  /** The lowercased goal title includes the lowercased key of entry `k`. */
  predicate Matches(goalTitle: string, table: seq<(string, seq<string>)>, k: nat)
    requires k < |table|
  {
    Text.Contains(Text.ToLower(goalTitle), Text.ToLower(table[k].0))
  }

  /** The first entry at or after `i` whose key the title includes. */
  function FirstMatch(goalTitle: string, table: seq<(string, seq<string>)>, i: nat): (r: Option<nat>)
    requires i <= |table|
    ensures r.Some? ==> i <= r.value < |table| && Matches(goalTitle, table, r.value)
                        && forall j :: i <= j < r.value ==> !Matches(goalTitle, table, j)
    ensures r.None? ==> forall j :: i <= j < |table| ==> !Matches(goalTitle, table, j)
    decreases |table| - i
  {
    if i == |table| then None
    else if Matches(goalTitle, table, i) then Some(i)
    else FirstMatch(goalTitle, table, i + 1)
  }

  /** The list of the first entry whose key the title includes, else the fallback. */
  function Pick(goalTitle: string, table: seq<(string, seq<string>)>, fallback: seq<string>): (r: seq<string>)
    ensures r == fallback || exists k :: 0 <= k < |table| && Matches(goalTitle, table, k) && r == table[k].1
    ensures (forall k :: 0 <= k < |table| ==> !Matches(goalTitle, table, k)) ==> r == fallback
  {
    var m := FirstMatch(goalTitle, table, 0);
    if m.Some? then table[m.value].1 else fallback
  }

  /** Over any table: a key matching after no earlier one picks its list; when the fallback is the last entry's list and nothing before it matches, the fallback is picked. */
  lemma PickChoice(goalTitle: string, table: seq<(string, seq<string>)>, fallback: seq<string>, k: nat)
    requires k < |table|
    requires forall j :: 0 <= j < k ==> !Matches(goalTitle, table, j)
    ensures Matches(goalTitle, table, k) ==> Pick(goalTitle, table, fallback) == table[k].1
    ensures k == |table| - 1 && fallback == table[k].1 ==> Pick(goalTitle, table, fallback) == fallback
  {
    var m := FirstMatch(goalTitle, table, 0);
    if m.Some? {
      assert k <= m.value;
    }
  }

  /** The suggestions for a goal: the list of the first key the title includes, else the default list. */
  function Suggestions(goalTitle: string): (r: seq<string>)
    ensures exists k :: 0 <= k < |Table| && r == Table[k].1
  {
    Pick(goalTitle, Table, Table[DefaultIndex].1)
  }

  /** The list shown is the first matching key's, and the default list exactly when no real key matches. */
  lemma SuggestionsChoice(goalTitle: string, k: nat)
    requires k <= DefaultIndex
    requires forall j :: 0 <= j < k ==> !Matches(goalTitle, Table, j)
    ensures k < DefaultIndex && Matches(goalTitle, Table, k) ==> Suggestions(goalTitle) == Table[k].1
    ensures k == DefaultIndex ==> Suggestions(goalTitle) == Table[DefaultIndex].1
  {
    PickChoice(goalTitle, Table, Table[DefaultIndex].1, k);
  }

  /** The search loop of `getSuggestions` over any table: the first entry whose key the title includes, else the fallback. */
  method Search(goalTitle: string, table: seq<(string, seq<string>)>, fallback: seq<string>) returns (skills: seq<string>)
    ensures skills == Pick(goalTitle, table, fallback)
  {
    var title := Text.ToLower(goalTitle);
    var i := 0;
    while i < |table|
      invariant 0 <= i <= |table|
      invariant FirstMatch(goalTitle, table, 0) == FirstMatch(goalTitle, table, i)
    {
      if Text.Contains(title, Text.ToLower(table[i].0)) {
        return table[i].1;
      }
      i := i + 1;
    }
    return fallback;
  }

  /** `getSuggestions`: the search over the table, with the default list when nothing matches. */
  method GetSuggestions(goalTitle: string) returns (skills: seq<string>)
    ensures skills == Suggestions(goalTitle)
  {
    skills := Search(goalTitle, Table, Table[DefaultIndex].1);
  }

  /** The trimmed text is empty exactly for a blank box, and trimming it again changes nothing. */
  lemma TrimmedName(s: string)
    ensures Text.Trim(s) == "" <==> Text.IsBlank(s)
    ensures Text.Trim(Text.Trim(s)) == Text.Trim(s)
  {
    Text.TrimEmptyIffBlank(s);
    Text.TrimIdempotent(s);
  }

  /** The name a typed submission hands on: the trimmed text, or nothing for a blank box. */
  function TypedSubmission(skillName: string): (r: Option<string>)
    ensures r.None? <==> Text.IsBlank(skillName)
    ensures r.Some? ==> r.value == Text.Trim(skillName)
    ensures r.Some? ==> r.value != "" && Text.Trim(r.value) == r.value
  {
    TrimmedName(skillName);
    var t := Text.Trim(skillName);
    if t != "" then Some(t) else None
  }

  /** The modal's input box. */
  class Form {
    var skillName: string

    constructor ()
      ensures skillName == ""
    {
      skillName := "";
    }

    method Type(text: string)
      modifies this
      ensures skillName == text
    {
      skillName := text;
    }

    /** `handleSubmit`: a non-blank name is handed on trimmed and the box cleared; a blank one changes nothing. */
    method Submit() returns (submitted: Option<string>)
      modifies this
      ensures submitted == TypedSubmission(old(skillName))
      ensures skillName == if submitted.Some? then "" else old(skillName)
    {
      submitted := TypedSubmission(skillName);
      if submitted.Some? {
        skillName := "";
      }
    }

    /** `handleSuggestionClick`: the suggestion is handed on as it is, and the box is left alone. */
    method SuggestionClick(skill: string) returns (submitted: string)
      ensures submitted == skill
    {
      submitted := skill;
    }
  }
}
