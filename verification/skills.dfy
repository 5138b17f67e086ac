/** The skills section (build.py:38-58): one bold line per skill group of
    the recipe, its skills' display texts separated by commas. */
module Skills {
  import opened Text
  import opened Tokens
  import opened Results
  import opened Resume

  /** A skill group with its keys resolved to display texts. */
  datatype SkillLine = SkillLine(category: string, texts: seq<string>)

  /** The inner loop of build.py:43-47 from position `j` on: every text
      after the first is preceded by ", ". */
  function ContentFrom(texts: seq<string>, j: nat): string
    decreases |texts| - j
  {
    if j >= |texts| then ""
    else (if j != 0 then ", " else "") + texts[j] + ContentFrom(texts, j + 1)
  }

  function GroupContent(texts: seq<string>): string
  {
    ContentFrom(texts, 0)
  }

  /** The outer loop of build.py:40-56 from group `i` on: every group but
      the last is formatted with the line-break token. */
  function LinesFrom(lines: seq<SkillLine>, i: nat): string
    decreases |lines| - i
  {
    if i >= |lines| then ""
    else
      var content := GroupContent(lines[i].texts);
      var token :=
        if i != |lines| - 1 then BoldItemNewline(lines[i].category, content)
        else BoldItem(lines[i].category, content);
      token + LinesFrom(lines, i + 1)
  }

  function SkillsBody(lines: seq<SkillLine>): string
  {
    LinesFrom(lines, 0)
  }

  /** Every skill key of the recipe's groups, group by group. */
  function SkillKeys(groups: seq<SkillGroup>): seq<string>
  {
    if |groups| == 0 then [] else groups[0].content + SkillKeys(groups[1..])
  }

  predicate AllKeysKnown(data: Data, groups: seq<SkillGroup>)
  {
    forall i, k :: 0 <= i < |groups| && k in groups[i].content ==> k in data.skills
  }

  /** The display texts of `keys`, in order. */
  function Displays(data: Data, keys: seq<string>): seq<string>
    requires forall k :: k in keys ==> k in data.skills
  {
    if |keys| == 0 then [] else [data.skills[keys[0]]] + Displays(data, keys[1..])
  }

  /** One bold line per resolved group, its texts joined by ", ". */
  function Rendered(lines: seq<SkillLine>): seq<string>
  {
    if |lines| == 0 then []
    else [BoldItem(lines[0].category, Join(", ", lines[0].texts))] + Rendered(lines[1..])
  }

  /** The skill groups of a recipe with every key resolved. */
  function Resolved(data: Data, groups: seq<SkillGroup>): seq<SkillLine>
    requires AllKeysKnown(data, groups)
  {
    if |groups| == 0 then []
    else [SkillLine(groups[0].name, Displays(data, groups[0].content))] + Resolved(data, groups[1..])
  }

  /** The skills body as a reference definition: one bold line per group,
      lines joined by the line break. */
  function SkillsSpec(data: Data, groups: seq<SkillGroup>): string
    requires AllKeysKnown(data, groups)
  {
    Join(LineBreak, Rendered(Resolved(data, groups)))
  }

  /** Resolves the skill keys group by group, failing at the first unknown
      key in recipe order. */
  function ResolveGroups(data: Data, groups: seq<SkillGroup>): (r: Result<seq<SkillLine>>)
    ensures r.Ok? <==> AllKeysKnown(data, groups)
    ensures r.Ok? ==> r.value == Resolved(data, groups)
    ensures r.Err? ==> LookupAll("skills", SkillKeys(groups), data.skills) == Err(r.error)
  {
    if |groups| == 0 then Ok([])
    else
      LookupAllAppend("skills", groups[0].content, SkillKeys(groups[1..]), data.skills);
      match LookupAll("skills", groups[0].content, data.skills)
      case Err(e) =>
        assert !AllKeysKnown(data, groups) by {
          var k :| k in groups[0].content && k !in data.skills;
        }
        Err(e)
      case Ok(texts) =>
        DisplaysAreLookups(data, groups[0].content, texts);
        match ResolveGroups(data, groups[1..])
        case Err(e) =>
          assert !AllKeysKnown(data, groups) by {
            var i, k :| 0 <= i < |groups[1..]| && k in groups[1..][i].content && k !in data.skills;
            assert k in groups[i + 1].content;
          }
          Err(e)
        case Ok(rest) =>
          assert AllKeysKnown(data, groups) by {
            forall i, k | 0 <= i < |groups| && k in groups[i].content
              ensures k in data.skills
            {
              if i > 0 {
                assert k in groups[1..][i - 1].content;
              }
            }
          }
          Ok([SkillLine(groups[0].name, texts)] + rest)
  }

  /** build_skills: the skills section body, or the first unknown skill key. */
  function BuildSkills(data: Data, recipe: Recipe): (r: Result<string>)
    ensures r.Ok? <==> AllKeysKnown(data, recipe.skills)
    ensures r.Ok? ==> r.value == SkillsSpec(data, recipe.skills)
    ensures r.Err? ==> r.error.collection == "skills"
    ensures r.Err? ==> exists i :: FirstMissingAt(SkillKeys(recipe.skills), data.skills, i)
                               && SkillKeys(recipe.skills)[i] == r.error.key
  {
    match ResolveGroups(data, recipe.skills)
    case Err(e) => Err(e)
    case Ok(lines) =>
      SkillsBodyIsJoin(lines);
      Ok(SkillsBody(lines))
  }

  /** From a later position on, the inner loop emits ", " before each text. */
  lemma {:induction false} ContentFromIsJoin(texts: seq<string>, j: nat)
    requires 0 < j < |texts|
    ensures ContentFrom(texts, j) == ", " + Join(", ", texts[j..])
    decreases |texts| - j
  {
    if j + 1 < |texts| {
      ContentFromIsJoin(texts, j + 1);
      assert texts[j..][1..] == texts[j + 1..];
    } else {
      assert texts[j..] == [texts[j]];
    }
  }

  /** A group's content is its texts joined by ", ": in order, no leading or
      trailing comma, and empty for an empty group. */
  lemma GroupContentIsJoin(texts: seq<string>)
    ensures GroupContent(texts) == Join(", ", texts)
  {
    if |texts| == 1 {
      assert ContentFrom(texts, 0) == "" + texts[0] + ContentFrom(texts, 1);
      assert "" + texts[0] + "" == texts[0];
    } else if |texts| > 1 {
      ContentFromIsJoin(texts, 1);
      assert ContentFrom(texts, 0) == "" + texts[0] + ContentFrom(texts, 1);
      assert "" + texts[0] == texts[0];
    }
  }

  lemma {:induction false} LinesFromIsJoin(lines: seq<SkillLine>, i: nat)
    requires i <= |lines|
    ensures LinesFrom(lines, i) == Join(LineBreak, Rendered(lines[i..]))
    decreases |lines| - i
  {
    if i < |lines| {
      GroupContentIsJoin(lines[i].texts);
      LinesFromIsJoin(lines, i + 1);
      assert lines[i..][1..] == lines[i + 1..];
    }
  }

  /** Groups are separated by the line break; the last group has none after
      it, and no groups give an empty body. */
  lemma SkillsBodyIsJoin(lines: seq<SkillLine>)
    ensures SkillsBody(lines) == Join(LineBreak, Rendered(lines))
  {
    LinesFromIsJoin(lines, 0);
    assert lines[0..] == lines;
  }

  /** Looking keys up one by one yields their display texts. */
  lemma {:induction false} DisplaysAreLookups(data: Data, keys: seq<string>, texts: seq<string>)
    requires forall k :: k in keys ==> k in data.skills
    requires |texts| == |keys| && forall i :: 0 <= i < |keys| ==> texts[i] == data.skills[keys[i]]
    ensures texts == Displays(data, keys)
  {
    if |keys| > 0 {
      DisplaysAreLookups(data, keys[1..], texts[1..]);
      assert texts == [texts[0]] + texts[1..];
    }
  }

  /** Two groups, the second last: "Languages" with Alpha and Beta, then
      "Tools" with Gamma. */
  lemma TwoGroupExample(data: Data, recipe: Recipe)
    requires data.skills == map["a" := "Alpha", "b" := "Beta", "c" := "Gamma"]
    requires recipe.skills == [SkillGroup("Languages", ["a", "b"]), SkillGroup("Tools", ["c"])]
    ensures BuildSkills(data, recipe) == Ok(BoldItem("Languages", "Alpha, Beta") + LineBreak + BoldItem("Tools", "Gamma"))
  {
    var groups := recipe.skills;
    assert AllKeysKnown(data, groups) by {
      forall i, k | 0 <= i < |groups| && k in groups[i].content
        ensures k in data.skills
      {
        if i == 0 { assert k == "a" || k == "b"; } else { assert k == "c"; }
      }
    }
    assert ["a", "b"][1..] == ["b"];
    assert ["b"][1..] == [] && ["c"][1..] == [];
    assert Displays(data, ["b"]) == ["Beta"];
    assert Displays(data, ["a", "b"]) == ["Alpha"] + Displays(data, ["b"]) == ["Alpha", "Beta"];
    assert Displays(data, ["c"]) == ["Gamma"];
    assert groups[1..] == [SkillGroup("Tools", ["c"])] && groups[1..][1..] == [];
    var lines := [SkillLine("Languages", ["Alpha", "Beta"]), SkillLine("Tools", ["Gamma"])];
    assert Resolved(data, groups[1..]) == [SkillLine("Tools", ["Gamma"])];
    assert Resolved(data, groups) == [SkillLine("Languages", ["Alpha", "Beta"])] + Resolved(data, groups[1..]);
    assert Resolved(data, groups) == lines;
    assert Join(", ", ["Alpha", "Beta"]) == "Alpha, Beta" by {
      assert ["Alpha", "Beta"][1..] == ["Beta"];
    }
    assert lines[1..] == [SkillLine("Tools", ["Gamma"])] && lines[1..][1..] == [];
    assert Rendered(lines) == [BoldItem("Languages", "Alpha, Beta"), BoldItem("Tools", "Gamma")];
    assert [BoldItem("Languages", "Alpha, Beta"), BoldItem("Tools", "Gamma")][1..] == [BoldItem("Tools", "Gamma")];
    var x := BoldItem("Languages", "Alpha, Beta");
    var y := BoldItem("Tools", "Gamma");
    assert Join(LineBreak, [x, y]) == x + LineBreak + y;
    assert SkillsSpec(data, groups) == x + LineBreak + y;
  }
}
