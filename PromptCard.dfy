/**
 * The display rules of a prompt card: who may edit it, the provider label,
 * the first-three-tags strip with its "+n" badge, and the list of
 * `{{name}}` template variables found in the prompt text.
 */
module PromptCard {
  import opened Wrappers
  import opened Text
  import opened Lists
  import opened Prompts

  /** `user?.id === prompt.author_id`: the Edit button is offered to the author only */
  predicate IsOwner(user: Option<string>, p: Prompt) {
    user == Some(p.authorId)
  }

  lemma IsOwnerIff(user: Option<string>, p: Prompt)
    ensures IsOwner(user, p) <==> user.Some? && user.value == p.authorId
  {
  }

  /** For a private prompt the access rule of the list and the owner check coincide. */
  lemma PrivateVisibleIffOwner(p: Prompt, user: Option<string>)
    requires p.visibility == "private"
    ensures CanView(p, user) <==> IsOwner(user, p)
  {
  }

  /** `provider.charAt(0).toUpperCase() + provider.slice(1)` */
  function ProviderLabel(p: Prompt): (r: string)
    ensures |r| == |p.provider|
    ensures |r| > 0 ==> r[0] == UpperChar(p.provider[0]) && r[1..] == p.provider[1..]
    ensures Lower(r) == Lower(p.provider)
  {
    UpperFirstSameLower(p.provider);
    UpperFirst(p.provider)
  }

  lemma ProviderLabels(p: Prompt)
    ensures p.provider == "openai" ==> ProviderLabel(p) == "Openai"
    ensures p.provider == "anthropic" ==> ProviderLabel(p) == "Anthropic"
    ensures p.provider == "" ==> ProviderLabel(p) == ""
  {
  }

  // ---------------------------------------------------------------------------
  // Tags

  /** The tag chips shown and the size of the "+n" badge, when there is one */
  datatype TagStrip = TagStrip(shown: seq<string>, more: Option<nat>)

  const MaxShownTags: nat := 3

  /** The card's tag row: absent without tags, else `tags.slice(0, 3)` and `+{tags.length - 3}` past three */
  function TagSection(tags: seq<string>): (r: Option<TagStrip>)
    ensures r.None? <==> tags == []
    ensures r.Some? ==> |r.value.shown| <= MaxShownTags && r.value.shown <= tags
    ensures r.Some? ==> (r.value.more.Some? <==> |tags| > MaxShownTags)
    ensures r.Some? && r.value.more.Some? ==> r.value.more.value == |tags| - MaxShownTags
    ensures r.Some? ==> |r.value.shown| + (if r.value.more.Some? then r.value.more.value else 0) == |tags|
  {
    if tags == [] then None
    else Some(TagStrip(Take(tags, MaxShownTags), if |tags| > MaxShownTags then Some(|tags| - MaxShownTags) else None))
  }

  // ---------------------------------------------------------------------------
  // Template variables: `content.matchAll(/\{\{([^}]+)\}\}/g)`, group 1 of each match

  /** The variables panel appears when the text contains `{{`. */
  predicate ShowsVariables(content: string) {
    Contains(content, "{{")
  }

  /** The end of the run of non-`}` characters starting at `k` */
  function RunEnd(s: string, k: nat): (e: nat)
    requires k <= |s|
    ensures k <= e <= |s|
    ensures forall i :: k <= i < e ==> s[i] != '}'
    ensures e < |s| ==> s[e] == '}'
    decreases |s| - k
  {
    if k == |s| || s[k] == '}' then k else RunEnd(s, k + 1)
  }

  /**
   * The end of the name when the pattern matches at the start of `s`: `{{`,
   * one or more characters other than `}`, then `}}`. Since `[^}]+` can only
   * give back characters that are not `}`, backtracking never helps, and the
   * name is the whole run.
   */
  function MatchAt(s: string): (m: Option<nat>)
    ensures m.Some? ==> 2 < m.value && m.value + 2 <= |s|
    ensures m.Some? ==> s[..2] == "{{" && s[m.value..m.value + 2] == "}}" && '}' !in s[2..m.value]
  {
    if |s| >= 2 && s[0] == '{' && s[1] == '{' then
      var e := RunEnd(s, 2);
      if e > 2 && e + 1 < |s| && s[e + 1] == '}' then
        assert forall i :: 0 <= i < e - 2 ==> s[2..e][i] == s[2 + i];
        Some(e)
      else None
    else None
  }

  /** The names of all non-overlapping matches, left to right; repeats are kept. */
  function Variables(content: string): (r: seq<string>)
    ensures forall v :: v in r ==> v != "" && '}' !in v
    decreases |content|
  {
    if content == [] then []
    else match MatchAt(content)
      case Some(e) =>
        var name := content[2..e];
        assert forall i :: 0 <= i < |name| ==> name[i] == content[2 + i];
        [name] + Variables(content[e + 2..])
      case None => Variables(content[1..])
  }

  /** An occurrence in a suffix is an occurrence in the whole text. */
  lemma {:induction false} ContainsSuffix(s: string, k: nat, sub: string)
    requires k <= |s| && Contains(s[k..], sub)
    ensures Contains(s, sub)
    decreases k
  {
    if k == 0 {
      assert s[k..] == s;
    } else {
      assert s[1..][k - 1..] == s[k..];
      ContainsSuffix(s[1..], k - 1, sub);
    }
  }

  /** Every extracted variable `v` stands in the text as `{{v}}`. */
  lemma {:induction false} VariableOccurs(content: string, v: string)
    requires v in Variables(content)
    ensures Contains(content, "{{" + v + "}}")
    decreases |content|
  {
    match MatchAt(content)
    case Some(e) =>
      var name := content[2..e];
      if v == name {
        assert content[..e + 2] == "{{" + v + "}}" by {
          assert content[..e + 2] == content[..2] + content[2..e] + content[e..e + 2];
        }
        assert StartsWith(content, "{{" + v + "}}");
      } else {
        VariableOccurs(content[e + 2..], v);
        ContainsSuffix(content, e + 2, "{{" + v + "}}");
      }
    case None =>
      VariableOccurs(content[1..], v);
      ContainsSuffix(content, 1, "{{" + v + "}}");
  }

  /** Variables are found only where the panel is shown; the converse fails (see `UnclosedShowsEmptyPanel`). */
  lemma {:induction false} VariablesNeedPanel(content: string)
    requires Variables(content) != []
    ensures ShowsVariables(content)
    decreases |content|
  {
    if MatchAt(content).Some? {
      assert StartsWith(content, "{{");
    } else {
      VariablesNeedPanel(content[1..]);
    }
  }

  /** `{{` without a closing `}}` shows the panel with no variable in it. */
  lemma UnclosedShowsEmptyPanel()
    ensures ShowsVariables("{{x") && Variables("{{x") == []
  {
    assert StartsWith("{{x", "{{");
    assert MatchAt("{{x") == None;
    assert MatchAt("{x") == None;
    assert MatchAt("x") == None;
    assert "{{x"[1..] == "{x" && "{x"[1..] == "x" && "x"[1..] == "";
  }

  /** A template: literal text and `{{name}}` placeholders */
  datatype Piece = Literal(text: string) | Placeholder(name: string)

  function Render(t: seq<Piece>): string
    decreases |t|
  {
    if t == [] then ""
    else
      (match t[0]
        case Literal(x) => x
        case Placeholder(n) => "{{" + n + "}}")
      + Render(t[1..])
  }

  function PlaceholderNames(t: seq<Piece>): seq<string>
    decreases |t|
  {
    if t == [] then []
    else (if t[0].Placeholder? then [t[0].name] else []) + PlaceholderNames(t[1..])
  }

  /** Literal text holds no `{`; a name is non-empty and holds no `}`. */
  predicate WellFormedTemplate(t: seq<Piece>) {
    forall i :: 0 <= i < |t| ==>
      match t[i]
      case Literal(x) => '{' !in x
      case Placeholder(n) => n != "" && '}' !in n
  }

  /** Text without `{` contributes no variable. */
  lemma {:induction false} LiteralSkipped(x: string, rest: string)
    requires '{' !in x
    ensures Variables(x + rest) == Variables(rest)
    decreases |x|
  {
    if x != [] {
      assert (x + rest)[0] == x[0];
      assert MatchAt(x + rest) == None;
      assert (x + rest)[1..] == x[1..] + rest;
      LiteralSkipped(x[1..], rest);
    } else {
      assert x + rest == rest;
    }
  }

  lemma PlaceholderFound(n: string, rest: string)
    requires n != "" && '}' !in n
    ensures Variables("{{" + n + "}}" + rest) == [n] + Variables(rest)
  {
    var s := "{{" + n + "}}" + rest;
    var e := 2 + |n|;
    assert s[e] == '}' && s[e + 1] == '}';
    assert forall i :: 2 <= i < e ==> s[i] == n[i - 2];
    var e' := RunEnd(s, 2);
    assert e' == e;
    assert MatchAt(s) == Some(e);
    assert s[2..e] == n;
    assert s[e + 2..] == rest;
  }

  /** Extraction inverts rendering: the variables of a rendered template are its placeholder names, in order. */
  lemma {:induction false} VariablesOfRender(t: seq<Piece>)
    requires WellFormedTemplate(t)
    ensures Variables(Render(t)) == PlaceholderNames(t)
    decreases |t|
  {
    if t != [] {
      assert WellFormedTemplate(t[1..]) by {
        forall i | 0 <= i < |t| - 1 ensures t[1..][i] == t[i + 1] { }
      }
      VariablesOfRender(t[1..]);
      match t[0]
      case Literal(x) =>
        assert '{' !in x by { assert t[0] == Literal(x); }
        LiteralSkipped(x, Render(t[1..]));
      case Placeholder(n) =>
        assert n != "" && '}' !in n by { assert t[0] == Placeholder(n); }
        assert Render(t) == "{{" + n + "}}" + Render(t[1..]);
        PlaceholderFound(n, Render(t[1..]));
    }
  }

  /** A name used twice is listed twice. */
  lemma RepeatsKept()
    ensures Variables("{{a}} {{a}}") == ["a", "a"]
  {
    var t := [Placeholder("a"), Literal(" "), Placeholder("a")];
    assert WellFormedTemplate(t);
    assert Render(t) == "{{a}} {{a}}";
    VariablesOfRender(t);
  }
}
