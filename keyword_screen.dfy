/**
 * The keyword screen (`KeywordScreen`): a selection of keywords that starts with
 * two defaults; suggestions are added unless already present, and a selected
 * keyword's close button removes it.
 */
module KeywordScreen {
  import opened Lists

  /** The screen's initial selection. */
  const INITIAL_SELECTED: seq<string> := ["도심", "쇼핑"]

  /** What the user can do on the screen. */
  datatype Action = Add(keyword: string) | Remove(keyword: string)

  /** `addKeyword` appends unless present; `removeKeyword` drops every occurrence. */
  function Apply(selected: seq<string>, action: Action): (next: seq<string>)
    ensures action.Add? ==> action.keyword in next && |next| >= |selected| && next[..|selected|] == selected
    ensures action.Add? && action.keyword in selected ==> next == selected
    ensures action.Remove? ==> action.keyword !in next
    ensures forall x :: x != action.keyword ==> multiset(next)[x] == multiset(selected)[x]
    ensures NoDuplicates(selected) ==> NoDuplicates(next)
    ensures action.Add? && action.keyword !in selected ==> next == selected + [action.keyword]
    ensures action.Remove? ==> next == RemoveAll(selected, action.keyword)
  {
    match action
    case Add(k) =>
      var r := AddIfAbsent(selected, k);
      assert k !in selected ==> r == selected + [k] && multiset(r) == multiset(selected) + multiset{k};
      r
    case Remove(k) => RemoveAll(selected, k)
  }

  /** The selection after a sequence of actions on a fresh screen. */
  function AfterActions(actions: seq<Action>): seq<string>
  {
    if actions == [] then INITIAL_SELECTED
    else Apply(AfterActions(actions[..|actions| - 1]), actions[|actions| - 1])
  }

  /** A suggestion button is disabled while its keyword is selected. */
  predicate SuggestionDisabled(selected: seq<string>, suggestion: string): (b: bool)
    ensures b <==> multiset(selected)[suggestion] > 0
  {
    suggestion in selected
  }

  /** The selection never holds a keyword twice, whatever the user does. */
  lemma {:induction false} AfterActionsNoDuplicates(actions: seq<Action>)
    ensures NoDuplicates(AfterActions(actions))
  {
    if actions == [] {
      assert forall x :: x != "도심" && x != "쇼핑" ==> multiset(INITIAL_SELECTED)[x] == 0;
      assert multiset(INITIAL_SELECTED)["도심"] == 1;
    } else {
      AfterActionsNoDuplicates(actions[..|actions| - 1]);
    }
  }

  /** Exactly the enabled suggestions change the selection when pressed. */
  lemma SuggestionEnabledIffAdds(selected: seq<string>, suggestion: string)
    ensures SuggestionDisabled(selected, suggestion) <==> Apply(selected, Add(suggestion)) == selected
  {
    if !SuggestionDisabled(selected, suggestion) {
      assert |Apply(selected, Add(suggestion))| == |selected| + 1;
    }
  }
}
