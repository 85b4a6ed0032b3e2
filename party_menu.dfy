/** `suggest_menu` of agents/smolagent/main.py: an exact, case-sensitive
    match on three occasions, and a custom menu for every other string. */
module PartyMenu {

  const Casual := "The best menu for casual party is pizza."
  const Formal := "The best menu for formal party is steak."
  const Superhero := "The best menu for superhero party is superhero pizza."
  const Custom := "The best menu for custom party is custom menu."

  predicate KnownOccasion(occasion: string)
  {
    occasion == "casual" || occasion == "formal" || occasion == "superhero"
  }

  function SuggestMenu(occasion: string): (r: string)
    ensures !KnownOccasion(occasion) ==> r == Custom
    ensures r == Casual <==> occasion == "casual"
  {
    if occasion == "casual" then Casual
    else if occasion == "formal" then Formal
    else if occasion == "superhero" then Superhero
    else Custom
  }

  /** Each named occasion gets its own menu; "custom" and a capitalised
      "Casual" get the custom one. */
  lemma SuggestMenuCases()
    ensures SuggestMenu("formal") == Formal
    ensures SuggestMenu("superhero") == Superhero
    ensures SuggestMenu("custom") == Custom
    ensures SuggestMenu("Casual") == Custom
  {
    assert "custom"[1] != "casual"[1];
    assert "Casual"[0] != "casual"[0];
  }
}
