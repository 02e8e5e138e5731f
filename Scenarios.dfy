/**
 * Worked examples of the catalogue filters and the variable scanner on small
 * records modelled on the pages' sample records (shortened titles, most
 * fields left empty).
 */
module Scenarios {
  import opened Wrappers
  import opened Text
  import opened Lists
  import opened Catalog
  import Prompts
  import Tutorials
  import PromptCard

  // ---------------------------------------------------------------------------
  // Tutorials

  function SampleTutorial(title: string, category: string, tags: seq<string>): Tutorials.Tutorial {
    Tutorials.Tutorial("", title, "", "", category, "beginner", None, "", "", "", "", true, tags)
  }

  const ChainOfThought := SampleTutorial("Chain-of-Thought Prompting", "Chain-of-Thought", ["reasoning", "step-by-step"])
  const FewShot := SampleTutorial("Few-Shot Learning", "Few-Shot Learning", ["examples", "learning"])

  lemma ChainTitleMatches()
    ensures Tutorials.TutorialMatches(ChainOfThought, Tutorials.DefaultCriteria.(searchQuery := "chain"))
  {
    assert Lower("chain") == "chain";
    assert Lower(ChainOfThought.title)[..5] == "chain";
  }

  lemma FewShotTitleMisses()
    ensures !Tutorials.TutorialMatches(FewShot, Tutorials.DefaultCriteria.(searchQuery := "chain"))
  {
    assert Lower("chain") == "chain";
    assert Lower(FewShot.title) == "few-shot learning";
    assert 'c' !in "few-shot learning";
    if Contains("few-shot learning", "chain") { ContainsFirstChar("few-shot learning", "chain"); }
    if Contains("", "chain") { ContainsFirstChar("", "chain"); }
  }

  /** Searching "chain" finds "Chain-of-Thought Prompting" whatever its case, and nothing else. */
  lemma SearchIsCaseInsensitive()
    ensures Tutorials.FilteredTutorials([ChainOfThought, FewShot], Tutorials.DefaultCriteria.(searchQuery := "chain"))
         == [ChainOfThought]
  {
    ChainTitleMatches();
    FewShotTitleMisses();
    var c := Tutorials.DefaultCriteria.(searchQuery := "chain");
    FilterConcat([ChainOfThought], [FewShot], t => Tutorials.TutorialMatches(t, c));
    assert [ChainOfThought, FewShot] == [ChainOfThought] + [FewShot];
  }

  /** Selecting the tag "learning" keeps only the tutorial that carries it. */
  lemma TagSelection()
    ensures Tutorials.FilteredTutorials([ChainOfThought, FewShot], Tutorials.DefaultCriteria.(tags := ["learning"]))
         == [FewShot]
  {
    var c := Tutorials.DefaultCriteria.(tags := ["learning"]);
    EmptySearchMatches(ChainOfThought.title, ChainOfThought.description, ChainOfThought.authorName);
    EmptySearchMatches(FewShot.title, FewShot.description, FewShot.authorName);
    assert !TagsMatch(["learning"], ChainOfThought.tags);
    assert TagsMatch(["learning"], FewShot.tags) by { assert "learning" in FewShot.tags; }
    FilterConcat([ChainOfThought], [FewShot], t => Tutorials.TutorialMatches(t, c));
    assert [ChainOfThought, FewShot] == [ChainOfThought] + [FewShot];
  }

  // ---------------------------------------------------------------------------
  // Prompts

  function SamplePrompt(id: string, authorId: string, visibility: string, structureType: Option<string>): Prompts.Prompt {
    Prompts.Prompt(id, "", "", "", "Business", [], authorId, "", "", "", "openai", "gpt-4o", map[], 1, visibility, structureType)
  }

  const PublicA := SamplePrompt("A", "1", "public", Some("role-based"))
  const PrivateB := SamplePrompt("B", "4", "private", Some("role-based"))

  lemma VisibleToViewer(viewer: Option<string>)
    ensures Prompts.FilteredPrompts([PublicA, PrivateB], Prompts.DefaultCriteria, viewer)
         == if viewer == Some("4") then [PublicA, PrivateB] else [PublicA]
  {
    Prompts.DefaultCriteriaShowsVisible([PublicA, PrivateB], viewer);
    FilterConcat([PublicA], [PrivateB], p => Prompts.CanView(p, viewer));
    assert [PublicA, PrivateB] == [PublicA] + [PrivateB];
  }

  /** The author of the private prompt sees both prompts; another viewer sees the public one only. */
  lemma PrivatePromptScenario()
    ensures Prompts.FilteredPrompts([PublicA, PrivateB], Prompts.DefaultCriteria, Some("1")) == [PublicA]
    ensures Prompts.FilteredPrompts([PublicA, PrivateB], Prompts.DefaultCriteria, Some("4")) == [PublicA, PrivateB]
    ensures Prompts.FilteredPrompts([PublicA, PrivateB], Prompts.DefaultCriteria, None) == [PublicA]
  {
    VisibleToViewer(Some("1"));
    VisibleToViewer(Some("4"));
    VisibleToViewer(None);
  }

  /** A prompt without a structure type disappears under "few-shot" and returns under "all". */
  lemma UnsetStructureType()
    ensures Prompts.FilteredPrompts([SamplePrompt("C", "1", "public", None)], Prompts.DefaultCriteria.(structureType := "few-shot"), None) == []
    ensures Prompts.FilteredPrompts([SamplePrompt("C", "1", "public", None)], Prompts.DefaultCriteria, None) == [SamplePrompt("C", "1", "public", None)]
  {
    Prompts.DefaultCriteriaShowsVisible([SamplePrompt("C", "1", "public", None)], None);
  }

  /** Filtering no records gives no records. */
  lemma EmptyInput(c: Prompts.PromptCriteria, viewer: Option<string>)
    ensures Prompts.FilteredPrompts([], c, viewer) == []
  {
  }

  // ---------------------------------------------------------------------------
  // Template variables

  /** A short e-mail prompt in the style of the sample data, written as its literal text and placeholders */
  const EmailContent: string :=
    "To " + ("{{" + "recipient" + "}}" + (": " + ("{{" + "subject" + "}}" + (", " + ("{{" + "tone" + "}}" + ".")))))

  /** The variables panel lists the placeholders of the e-mail prompt in order of appearance */
  lemma EmailVariables()
    ensures PromptCard.Variables(EmailContent) == ["recipient", "subject", "tone"]
  {
    var r5 := "{{" + "tone" + "}}" + ".";
    var r4 := ", " + r5;
    var r3 := "{{" + "subject" + "}}" + r4;
    var r2 := ": " + r3;
    var r1 := "{{" + "recipient" + "}}" + r2;
    assert PromptCard.MatchAt(".") == None;
    assert PromptCard.Variables(".") == [];
    PromptCard.PlaceholderFound("tone", ".");
    PromptCard.LiteralSkipped(", ", r5);
    PromptCard.PlaceholderFound("subject", r4);
    PromptCard.LiteralSkipped(": ", r3);
    PromptCard.PlaceholderFound("recipient", r2);
    PromptCard.LiteralSkipped("To ", r1);
  }
}
