/** The document assembler (build.py:34-35, 152-189): the summary section,
    the fixed section table, the entry-point import list and the text of
    every generated file. */
module Assembler {
  import opened Text
  import opened Tokens
  import opened Results
  import opened Resume
  import Skills
  import Projects
  import Experience
  import Education

  /** The five sections, one per row of `SECTIONS`. */
  datatype Part = SummaryPart | SkillsPart | ProjectsPart | ExperiencePart | EducationPart
  {
    /** The recipe key, which also names the section's generated file. */
    function Key(): string
    {
      match this
      case SummaryPart => "summary"
      case SkillsPart => "skills"
      case ProjectsPart => "projects"
      case ExperiencePart => "experience"
      case EducationPart => "education"
    }

    /** The section heading. */
    function Title(): string
    {
      match this
      case SummaryPart => "Objective"
      case SkillsPart => "Skills"
      case ProjectsPart => "Projects"
      case ExperiencePart => "Experience"
      case EducationPart => "Education"
    }

    /** The section type. */
    function Kind(): string
    {
      match this
      case SummaryPart | SkillsPart => Paragraph
      case ProjectsPart | ExperiencePart | EducationPart => Entries
    }
  }

  const Paragraph: string := "cvparagraph"
  const Entries: string := "cventries"

  /** The rows of `SECTIONS`, in order. */
  const Sections: seq<Part> := [SummaryPart, SkillsPart, ProjectsPart, ExperiencePart, EducationPart]

  /** build_summary: the named summary text verbatim. */
  function BuildSummary(data: Data, recipe: Recipe): (r: Result<string>)
    ensures r.Ok? <==> recipe.summary in data.summaries
    ensures r.Ok? ==> r.value == data.summaries[recipe.summary]
    ensures r.Err? ==> r.error == Missing("summaries", recipe.summary)
  {
    if recipe.summary in data.summaries then Ok(data.summaries[recipe.summary])
    else Err(Missing("summaries", recipe.summary))
  }

  /** Python truthiness of the recipe's entry for a part: a non-empty
      summary name or a non-empty list. */
  predicate Active(recipe: Recipe, part: Part)
  {
    match part
    case SummaryPart => recipe.summary != ""
    case SkillsPart => |recipe.skills| > 0
    case ProjectsPart => |recipe.projects| > 0
    case ExperiencePart => |recipe.experience| > 0
    case EducationPart => |recipe.education| > 0
  }

  /** The import loop of build.py:176-178 from row `n` of the table on. */
  function ImportsFrom(recipe: Recipe, n: nat): string
    decreases |Sections| - n
  {
    if n >= |Sections| then ""
    else
      var part := Sections[n];
      (if Active(recipe, part) then ImportLine(part.Key()) else "") + ImportsFrom(recipe, n + 1)
  }

  /** The content of the entry-point document. */
  function ImportList(recipe: Recipe): string
  {
    ImportsFrom(recipe, 0)
  }

  /** The rows of the table from `n` on whose part the recipe activates:
      exactly those, in increasing order. */
  function ActiveRows(recipe: Recipe, n: nat): (r: seq<nat>)
    ensures forall i :: 0 <= i < |r| ==> n <= r[i] < |Sections| && Active(recipe, Sections[r[i]])
    ensures forall j :: n <= j < |Sections| && Active(recipe, Sections[j]) ==> j in r
    ensures forall i, j :: 0 <= i < j < |r| ==> r[i] < r[j]
    decreases |Sections| - n
  {
    if n >= |Sections| then []
    else if Active(recipe, Sections[n]) then [n] + ActiveRows(recipe, n + 1)
    else ActiveRows(recipe, n + 1)
  }

  /** The file names the entry point imports, for some table rows. */
  function RowKeys(rows: seq<nat>): seq<string>
    requires forall i :: 0 <= i < |rows| ==> rows[i] < |Sections|
  {
    if |rows| == 0 then [] else [Sections[rows[0]].Key()] + RowKeys(rows[1..])
  }

  function ImportLines(names: seq<string>): seq<string>
  {
    if |names| == 0 then [] else [ImportLine(names[0])] + ImportLines(names[1..])
  }

  lemma {:induction false} ImportsFromActive(recipe: Recipe, n: nat)
    requires n <= |Sections|
    ensures ImportsFrom(recipe, n) == Concat(ImportLines(RowKeys(ActiveRows(recipe, n))))
    decreases |Sections| - n
  {
    if n < |Sections| {
      ImportsFromActive(recipe, n + 1);
      var rest := ActiveRows(recipe, n + 1);
      var part := Sections[n];
      if Active(recipe, part) {
        assert ActiveRows(recipe, n) == [n] + rest;
        ImportLinesCons(n, rest);
        assert ImportsFrom(recipe, n) == ImportLine(part.Key()) + ImportsFrom(recipe, n + 1);
      } else {
        assert ActiveRows(recipe, n) == rest;
        assert ImportsFrom(recipe, n) == "" + ImportsFrom(recipe, n + 1);
      }
    }
  }

  lemma ImportLinesCons(n: nat, rest: seq<nat>)
    requires n < |Sections|
    requires forall i :: 0 <= i < |rest| ==> rest[i] < |Sections|
    ensures Concat(ImportLines(RowKeys([n] + rest))) ==
            ImportLine(Sections[n].Key()) + Concat(ImportLines(RowKeys(rest)))
  {
    RowKeysCons(n, rest);
    ConcatImportLinesCons(Sections[n].Key(), RowKeys(rest));
  }

  lemma RowKeysCons(n: nat, rest: seq<nat>)
    requires n < |Sections|
    requires forall i :: 0 <= i < |rest| ==> rest[i] < |Sections|
    ensures RowKeys([n] + rest) == [Sections[n].Key()] + RowKeys(rest)
  {
    assert ([n] + rest)[1..] == rest;
  }

  lemma ConcatImportLinesCons(key: string, keys: seq<string>)
    ensures Concat(ImportLines([key] + keys)) == ImportLine(key) + Concat(ImportLines(keys))
  {
    assert ([key] + keys)[1..] == keys;
  }

  /** Position of the first '.' in `s`, or `|s|`. */
  function NameEnd(s: string): (r: nat)
    ensures r <= |s|
    ensures forall i :: 0 <= i < r ==> s[i] != '.'
    ensures r < |s| ==> s[r] == '.'
  {
    if |s| == 0 || s[0] == '.' then 0 else 1 + NameEnd(s[1..])
  }

  /** Reads one import line off the front of `s`: the imported name and
      the text after the line. */
  function ParseLine(s: string): (r: Option<(string, string)>)
    ensures r.Some? ==> |r.value.1| < |s|
  {
    if !(ImportPrefix <= s) then None
    else
      var rest := s[|ImportPrefix|..];
      var n := NameEnd(rest);
      var after := rest[n..];
      if !(ImportSuffix <= after) then None
      else Some((rest[..n], after[|ImportSuffix|..]))
  }

  /** Reads an entry-point import list back into the file names it imports;
      `None` when the text is not a sequence of import lines. */
  function ParseImports(s: string): Option<seq<string>>
    decreases |s|
  {
    if |s| == 0 then Some([])
    else
      match ParseLine(s)
      case None => None
      case Some((name, tail)) =>
        match ParseImports(tail)
        case None => None
        case Some(names) => Some([name] + names)
  }

  lemma NameEndStopsAtSuffix(name: string, tail: string)
    requires forall i :: 0 <= i < |name| ==> name[i] != '.'
    requires |tail| > 0 && tail[0] == '.'
    ensures NameEnd(name + tail) == |name|
  {
    var s := name + tail;
    assert s[|name|] == '.';
    assert forall i :: 0 <= i < |name| ==> s[i] == name[i];
  }

  /** One import line in front of more text reads back as its name and
      that text. */
  lemma ParseImportLine(name: string, tail: string)
    requires forall i :: 0 <= i < |name| ==> name[i] != '.'
    ensures ParseLine(ImportLine(name) + tail) == Some((name, tail))
  {
    var s := ImportLine(name) + tail;
    assert s == ImportPrefix + (name + (ImportSuffix + tail));
    assert ImportPrefix <= s;
    var rest := s[|ImportPrefix|..];
    assert rest == name + (ImportSuffix + tail);
    NameEndStopsAtSuffix(name, ImportSuffix + tail);
    assert rest[..|name|] == name;
    var after := rest[|name|..];
    assert after == ImportSuffix + tail;
    assert ImportSuffix <= after;
    assert after[|ImportSuffix|..] == tail;
  }

  /** Import lines of dot-free names parse back to those names. */
  lemma {:induction false} ParseImportLines(names: seq<string>)
    requires forall k, i :: 0 <= k < |names| && 0 <= i < |names[k]| ==> names[k][i] != '.'
    ensures ParseImports(Concat(ImportLines(names))) == Some(names)
  {
    if |names| > 0 {
      var tail := Concat(ImportLines(names[1..]));
      ParseImportLines(names[1..]);
      ParseImportLine(names[0], tail);
      assert Concat(ImportLines(names)) == ImportLine(names[0]) + tail;
      assert [names[0]] + names[1..] == names;
    }
  }

  /** The entry point imports exactly the sections whose recipe entry is
      truthy, each once, in the fixed order of the table; the recipe's own
      order plays no part and inactive sections get no line. Stated from any
      row `n` on; the whole entry point is `n == 0`. */
  lemma ImportListIsActiveSections(recipe: Recipe, n: nat)
    requires n <= |Sections|
    ensures ParseImports(ImportsFrom(recipe, n)) == Some(RowKeys(ActiveRows(recipe, n)))
  {
    ImportsFromActive(recipe, n);
    var rows := ActiveRows(recipe, n);
    RowKeysDotFree(rows);
    ParseImportLines(RowKeys(rows));
  }

  lemma {:induction false} RowKeysDotFree(rows: seq<nat>)
    requires forall i :: 0 <= i < |rows| ==> rows[i] < |Sections|
    ensures forall k, i :: 0 <= k < |RowKeys(rows)| && 0 <= i < |RowKeys(rows)[k]| ==> RowKeys(rows)[k][i] != '.'
    ensures |RowKeys(rows)| == |rows|
  {
    if |rows| > 0 {
      RowKeysDotFree(rows[1..]);
      var key := Sections[rows[0]].Key();
      assert forall i :: 0 <= i < |key| ==> key[i] != '.';
      assert RowKeys(rows) == [key] + RowKeys(rows[1..]);
    }
  }

  /** The content of one part, as the builder of its table row computes it. */
  function PartContent(data: Data, recipe: Recipe, t: Templates, part: Part): Result<string>
  {
    match part
    case SummaryPart => BuildSummary(data, recipe)
    case SkillsPart => Skills.BuildSkills(data, recipe)
    case ProjectsPart => Projects.BuildProjects(data, recipe, t)
    case ExperiencePart => Experience.BuildExperience(data, recipe, t)
    case EducationPart => Education.BuildEducation(data, recipe, t)
  }

  /** The builder of `part` succeeds. */
  predicate Built(data: Data, recipe: Recipe, t: Templates, part: Part)
  {
    PartContent(data, recipe, t, part).Ok?
  }

  /** The generated file of a part: its name and its text, the section
      template filled with the part's heading, type and content. */
  function SectionFile(data: Data, recipe: Recipe, t: Templates, part: Part): (string, string)
    requires Built(data, recipe, t, part)
  {
    (part.Key(), t.section(SectionSlots(part.Title(), part.Kind(), PartContent(data, recipe, t, part).value)))
  }

  /** The text of every generated file: `resume.tex` and one section file
      per row of the table. */
  datatype Output = Output(resume: string, sections: seq<(string, string)>)

  /** The section-file loop of build.py:182-189 over some rows: every row
      is built, active or not, and the first failing builder aborts. */
  function SectionFiles(data: Data, recipe: Recipe, t: Templates, parts: seq<Part>): (r: Result<seq<(string, string)>>)
    ensures r.Ok? <==> forall j :: 0 <= j < |parts| ==> Built(data, recipe, t, parts[j])
    ensures r.Ok? ==> |r.value| == |parts|
    ensures r.Ok? ==> forall j :: 0 <= j < |parts| ==> r.value[j] == SectionFile(data, recipe, t, parts[j])
    ensures r.Err? ==> exists j :: 0 <= j < |parts| && !Built(data, recipe, t, parts[j])
                              && r.error == PartContent(data, recipe, t, parts[j]).error
                              && forall k :: 0 <= k < j ==> Built(data, recipe, t, parts[k])
  {
    if |parts| == 0 then Ok([])
    else if !Built(data, recipe, t, parts[0]) then Err(PartContent(data, recipe, t, parts[0]).error)
    else
      match SectionFiles(data, recipe, t, parts[1..])
      case Err(e) =>
        assert exists j :: 0 <= j < |parts| && !Built(data, recipe, t, parts[j])
                        && e == PartContent(data, recipe, t, parts[j]).error
                        && forall k :: 0 <= k < j ==> Built(data, recipe, t, parts[k]) by {
          var j :| 0 <= j < |parts[1..]| && !Built(data, recipe, t, parts[1..][j])
                   && e == PartContent(data, recipe, t, parts[1..][j]).error
                   && forall k :: 0 <= k < j ==> Built(data, recipe, t, parts[1..][k]);
          assert parts[1..][j] == parts[j + 1];
        }
        Err(e)
      case Ok(files) => Ok([SectionFile(data, recipe, t, parts[0])] + files)
  }

  /** A run of build.py for one recipe, minus its file-system effects: the
      entry point and the five section files, or the first failed lookup. */
  function Build(data: Data, recipe: Recipe, t: Templates): (r: Result<Output>)
    ensures r.Ok? <==> forall j :: 0 <= j < |Sections| ==> Built(data, recipe, t, Sections[j])
    ensures r.Ok? ==> r.value.resume == t.resume(ImportList(recipe))
    ensures r.Ok? ==> (|r.value.sections| == |Sections|
                       && forall j :: 0 <= j < |Sections| ==> r.value.sections[j].0 == Sections[j].Key())
    ensures r.Ok? ==> forall j :: 0 <= j < |Sections| ==> r.value.sections[j] == SectionFile(data, recipe, t, Sections[j])
    ensures r.Err? ==> exists j :: 0 <= j < |Sections| && !Built(data, recipe, t, Sections[j])
                              && r.error == PartContent(data, recipe, t, Sections[j]).error
                              && forall k :: 0 <= k < j ==> Built(data, recipe, t, Sections[k])
  {
    match SectionFiles(data, recipe, t, Sections)
    case Err(e) => Err(e)
    case Ok(files) => Ok(Output(t.resume(ImportList(recipe)), files))
  }

  /** Every section file is built, so a recipe with an empty summary name
      still needs a summary under that name: a run fails without one. */
  lemma InactiveSummaryStillLooksUp(data: Data, recipe: Recipe, t: Templates)
    requires recipe.summary == "" && "" !in data.summaries
    ensures !Active(recipe, SummaryPart)
    ensures Build(data, recipe, t) == Err(Missing("summaries", ""))
  {
  }
}
