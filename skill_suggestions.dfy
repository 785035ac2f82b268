/**
 * The AI skill analysis card (src/components/dashboard/SkillSuggestionsCard.tsx):
 * reading the suggest-skills reply, dropping suggestions the user already
 * has (ignoring case), adding one suggestion or all remaining ones, and the
 * disabled state of the buttons.
 */
module SkillSuggestions {
  import Seqs
  import Text

  /** A suggested skill as the edge function returns it. */
  datatype Suggestion = Suggestion(name: string, importance: string, futureProof: bool, reason: string)

  /**
   * The reply body, as far as the card looks at it: null, an array of
   * suggestions, an object (whose `skills` field is `JNull` when absent), or
   * another value, truthy or not.
   */
  datatype Json = JNull | JList(items: seq<Suggestion>) | JObject(skills: Json) | JScalar(truthy: bool)

  /** The outcome of `functions.invoke`: an error, or a body. */
  datatype Reply = InvokeError | Body(data: Json)

  /** JavaScript truthiness of a body value (arrays and objects are always truthy). */
  predicate Truthy(j: Json) {
    match j
    case JNull => false
    case JScalar(t) => t
    case _ => true
  }

  /** `data.skills || data`, for a body that is not null (reading `.skills` of null throws). */
  function SkillsArray(data: Json): (r: Json)
    requires !data.JNull?
    ensures !r.JNull?
    ensures !data.JObject? ==> r == data
    ensures data.JObject? && r != data ==> r == data.skills && Truthy(r)
  {
    if data.JObject? && Truthy(data.skills) then data.skills else data
  }

  /** Some existing skill has this name, ignoring ASCII case. */
  predicate Known(existing: seq<string>, name: string)
    ensures name in existing ==> Known(existing, name)
  {
    exists e :: e in existing && Text.ToLower(e) == Text.ToLower(name)
  }

  /** The suggestions shown: those not already known, in the order received. */
  function Fresh(items: seq<Suggestion>, existing: seq<string>): (r: seq<Suggestion>)
    ensures |r| <= |items|
    ensures forall s :: s in r <==> s in items && !Known(existing, s.name)
  {
    Seqs.Filter(items, (s: Suggestion) => !Known(existing, s.name))
  }

  /** Filtering is per item: a longer reply shows what the shorter one shows, then the rest. */
  lemma FreshAppend(a: seq<Suggestion>, b: seq<Suggestion>, existing: seq<string>)
    ensures Fresh(a + b, existing) == Fresh(a, existing) + Fresh(b, existing)
  {
    Seqs.FilterAppend(a, b, (s: Suggestion) => !Known(existing, s.name));
  }

  /** A suggestion differing from an existing skill only in letter case is dropped. */
  lemma FreshIgnoresCase(s: Suggestion)
    requires s.name == "Python"
    ensures Fresh([s], ["python"]) == []
  {
    assert Text.ToLower("python") == Text.ToLower(s.name);
    assert Known(["python"], s.name);
  }

  /** The suggestions still to add: those whose name is not in the added set, in order. */
  function ToAdd(suggestions: seq<Suggestion>, added: set<string>): (r: seq<Suggestion>)
    ensures forall s :: s in r <==> s in suggestions && s.name !in added
  {
    Seqs.Filter(suggestions, (s: Suggestion) => s.name !in added)
  }

  /** "Add All" is disabled when every suggestion's name has been added. */
  predicate AddAllDisabled(suggestions: seq<Suggestion>, added: set<string>) {
    forall k :: 0 <= k < |suggestions| ==> suggestions[k].name in added
  }

  /** A row's "Add" button is disabled once its name has been added. */
  predicate RowDisabled(s: Suggestion, added: set<string>) {
    s.name in added
  }

  /** "Add All" is disabled exactly when there is nothing left to add. */
  lemma AddAllDisabledIff(suggestions: seq<Suggestion>, added: set<string>)
    ensures AddAllDisabled(suggestions, added) <==> ToAdd(suggestions, added) == []
  {
    if ToAdd(suggestions, added) == [] {
      forall k | 0 <= k < |suggestions| ensures suggestions[k].name in added {
        assert suggestions[k] !in ToAdd(suggestions, added);
      }
    } else {
      var s := ToAdd(suggestions, added)[0];
      assert s in suggestions && s.name !in added;
    }
  }

  /** The row inserted by `addSkill`: the suggestion's name, a fresh progress of 0. */
  datatype SkillInsert = SkillInsert(userId: string, goalId: string, name: string, progress: int)

  function InsertOf(userId: string, goalId: string, s: Suggestion): SkillInsert {
    SkillInsert(userId, goalId, s.name, 0)
  }

  /** The inserts for a list of suggestions, one each, in order. */
  function InsertsFor(userId: string, goalId: string, todo: seq<Suggestion>): (r: seq<SkillInsert>)
    ensures |r| == |todo|
    ensures forall k :: 0 <= k < |r| ==> r[k] == SkillInsert(userId, goalId, todo[k].name, 0)
  {
    seq(|todo|, k requires 0 <= k < |todo| => InsertOf(userId, goalId, todo[k]))
  }

  /** The names whose insert succeeded. */
  function Succeeded(todo: seq<Suggestion>, oks: seq<bool>): set<string>
    requires |todo| == |oks|
  {
    if todo == [] then {}
    else
      var n := |todo| - 1;
      Succeeded(todo[..n], oks[..n]) + (if oks[n] then {todo[n].name} else {})
  }

  /** A name is recorded only if one of its inserts succeeded, and every success is recorded. */
  lemma {:induction false} SucceededMeans(todo: seq<Suggestion>, oks: seq<bool>, name: string)
    requires |todo| == |oks|
    ensures name in Succeeded(todo, oks) <==> exists k :: 0 <= k < |todo| && oks[k] && todo[k].name == name
  {
    if todo != [] {
      var n := |todo| - 1;
      SucceededMeans(todo[..n], oks[..n], name);
      if exists k :: 0 <= k < n && oks[..n][k] && todo[..n][k].name == name {
        var k :| 0 <= k < n && oks[..n][k] && todo[..n][k].name == name;
        assert oks[k] && todo[k].name == name;
      }
      if exists k :: 0 <= k < |todo| && oks[k] && todo[k].name == name {
        var k :| 0 <= k < |todo| && oks[k] && todo[k].name == name;
        if k < n {
          assert oks[..n][k] && todo[..n][k].name == name;
        }
      }
    }
  }

  /** After "Add All" with every insert succeeding, "Add All" is disabled. */
  lemma AddAllCompletes(suggestions: seq<Suggestion>, added: set<string>, oks: seq<bool>)
    requires |oks| == |ToAdd(suggestions, added)|
    requires forall k :: 0 <= k < |oks| ==> oks[k]
    ensures AddAllDisabled(suggestions, added + Succeeded(ToAdd(suggestions, added), oks))
  {
    var todo := ToAdd(suggestions, added);
    forall k | 0 <= k < |suggestions|
      ensures suggestions[k].name in added + Succeeded(todo, oks)
    {
      var s := suggestions[k];
      if s.name !in added {
        assert s in todo;
        var j :| 0 <= j < |todo| && todo[j] == s;
        SucceededMeans(todo, oks, s.name);
      }
    }
  }

  /** The card's state. */
  class Card {
    var suggestions: seq<Suggestion>
    var loading: bool
    var addedSkills: set<string>
    var hasGenerated: bool

    constructor ()
      ensures suggestions == [] && !loading && addedSkills == {} && !hasGenerated
    {
      suggestions := [];
      loading := false;
      addedSkills := {};
      hasGenerated := false;
    }

    /**
     * `generateSuggestions`: an error or a null body shows an error toast
     * and changes nothing; an array (the `skills` field, else the body)
     * replaces the suggestions by its fresh ones and marks the card
     * generated; any other body changes nothing. Loading ends either way.
     */
    method Generate(reply: Reply, existing: seq<string>) returns (errorToast: bool)
      requires !loading
      modifies this`suggestions, this`hasGenerated, this`loading
      ensures !loading
      ensures errorToast <==> reply.InvokeError? || reply.data.JNull?
      ensures !errorToast && SkillsArray(reply.data).JList? ==>
        suggestions == Fresh(SkillsArray(reply.data).items, existing) && hasGenerated
      ensures errorToast || !SkillsArray(reply.data).JList? ==>
        suggestions == old(suggestions) && hasGenerated == old(hasGenerated)
    {
      loading := true;
      errorToast := false;
      if reply.InvokeError? || reply.data.JNull? {
        errorToast := true;
      } else {
        var arr := SkillsArray(reply.data);
        if arr.JList? {
          suggestions := Fresh(arr.items, existing);
          hasGenerated := true;
        }
      }
      loading := false;
    }

    /**
     * `addSkill`: insert the suggestion, and only when the insert succeeds
     * record its name as added and notify the dashboard.
     */
    method AddSkill(userId: string, goalId: string, s: Suggestion, ok: bool)
      returns (insert: SkillInsert, notified: bool)
      modifies this`addedSkills
      ensures insert == InsertOf(userId, goalId, s)
      ensures addedSkills == if ok then old(addedSkills) + {s.name} else old(addedSkills)
      ensures notified == ok
    {
      insert := InsertOf(userId, goalId, s);
      if ok {
        addedSkills := addedSkills + {s.name};
      }
      notified := ok;
    }

    /**
     * `addAllSkills`: the suggestions not yet added when the button is
     * pressed are inserted one at a time, in list order; `oks` says which
     * inserts succeed.
     */
    method AddAll(userId: string, goalId: string, oks: seq<bool>) returns (inserts: seq<SkillInsert>)
      requires |oks| == |ToAdd(suggestions, addedSkills)|
      modifies this`addedSkills
      ensures inserts == InsertsFor(userId, goalId, ToAdd(suggestions, old(addedSkills)))
      ensures addedSkills == old(addedSkills) + Succeeded(ToAdd(suggestions, old(addedSkills)), oks)
    {
      var todo := ToAdd(suggestions, addedSkills);
      inserts := [];
      var i := 0;
      while i < |todo|
        invariant 0 <= i <= |todo|
        invariant inserts == InsertsFor(userId, goalId, todo[..i])
        invariant addedSkills == old(addedSkills) + Succeeded(todo[..i], oks[..i])
      {
        var insert, _ := AddSkill(userId, goalId, todo[i], oks[i]);
        assert todo[..i + 1][..i] == todo[..i] && oks[..i + 1][..i] == oks[..i];
        inserts := inserts + [insert];
        i := i + 1;
      }
      assert todo[..i] == todo && oks[..i] == oks;
    }
  }
}
