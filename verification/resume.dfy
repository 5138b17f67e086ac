/** The data store, the recipe and the injected templates of the resume
    builder.

    A JSON object whose order matters (a points map) is an ordered list of
    key/value pairs, as Python dicts keep insertion order; a collection that
    is only ever subscripted (`DATA["projects"]`) is a `map`. */
module Resume {
  import opened Results

  /** A value of a points map: a bullet text, or a one-level group whose
      children are bullet texts. */
  datatype Point = Leaf(text: string) | Group(children: seq<(string, string)>)

  datatype Project = Project(
    href: string, link: string, name: string, date: string,
    tech: string,                        // "" is falsy: no technology line
    points: seq<(string, string)>)

  datatype Job = Job(name: string, employer: string, date: string, points: seq<(string, Point)>)

  datatype Education = Education(
    degree: string, institution: string, location: string, date: string,
    notation: string,                    // "standard" or any custom notation
    points: seq<(string, Point)>)

  /** `DATA` of data.json. */
  datatype Data = Data(
    summaries: map<string, string>,
    skills: map<string, string>,         // skill key to display text
    projects: map<string, Project>,
    experience: map<string, Job>,
    education: map<string, Education>)

  /** A skill group of a recipe: a category label and skill keys. */
  datatype SkillGroup = SkillGroup(name: string, content: seq<string>)

  /** A project or job named by a recipe, with the point keys to leave out. */
  datatype EntryRef = EntryRef(name: string, exclude: seq<string>)

  datatype EducationRef = EducationRef(name: string)

  /** One recipe of recipes.json, with its five section entries. */
  datatype Recipe = Recipe(
    summary: string,
    skills: seq<SkillGroup>,
    projects: seq<EntryRef>,
    experience: seq<EntryRef>,
    education: seq<EducationRef>)

  /** The keyword arguments each template file is formatted with. */
  datatype ProjectSlots = ProjectSlots(href: string, link: string, name: string, date: string, content: string)
  datatype JobSlots = JobSlots(name: string, employer: string, date: string, content: string)
  datatype EducationSlots = EducationSlots(degree: string, institution: string, location: string, date: string, content: string)
  datatype SectionSlots = SectionSlots(sectionName: string, sectionType: string, content: string)

  /** The template files, as the text each yields for its arguments, and
      the text Python's `str` gives a nested points group. */
  datatype Templates = Templates(
    resume: string -> string,
    section: SectionSlots -> string,
    project: ProjectSlots -> string,
    experience: JobSlots -> string,
    education: EducationSlots -> string,
    groupText: seq<(string, string)> -> string)

  /** The pairs of `ps` whose key is not in `exclude`, in order. */
  function Kept<V>(ps: seq<(string, V)>, exclude: seq<string>): (r: seq<(string, V)>)
    ensures |r| <= |ps|
    ensures forall i :: 0 <= i < |r| ==> r[i] in ps && r[i].0 !in exclude
    ensures forall i :: 0 <= i < |ps| && ps[i].0 !in exclude ==> ps[i] in r
  {
    if |ps| == 0 then []
    else if ps[0].0 in exclude then Kept(ps[1..], exclude)
    else [ps[0]] + Kept(ps[1..], exclude)
  }

  /** Filtering keeps the order of the pairs: the kept pairs of `a + b` are
      those of `a` followed by those of `b`. */
  lemma {:induction false} KeptAppend<V>(a: seq<(string, V)>, b: seq<(string, V)>, exclude: seq<string>)
    ensures Kept(a + b, exclude) == Kept(a, exclude) + Kept(b, exclude)
  {
    if |a| == 0 {
      assert a + b == b;
    } else {
      assert (a + b)[1..] == a[1..] + b;
      KeptAppend(a[1..], b, exclude);
    }
  }

  /** A single pair is kept, once, exactly when its key is not excluded. */
  lemma KeptSingle<V>(p: (string, V), exclude: seq<string>)
    ensures Kept([p], exclude) == if p.0 in exclude then [] else [p]
  {
    assert [p][1..] == [];
  }

  /** The values of an ordered map, in order. */
  function Values<V>(ps: seq<(string, V)>): (r: seq<V>)
    ensures |r| == |ps|
    ensures forall i :: 0 <= i < |ps| ==> r[i] == ps[i].1
  {
    if |ps| == 0 then [] else [ps[0].1] + Values(ps[1..])
  }

  /** The loop every entry section shares (build.py:64-65, 98-99, 122-123):
      look each named entity up in recipe order, render it with its recipe
      entry, and concatenate; the first unknown name aborts. */
  function BuildEntries<R, E>(collection: string, refs: seq<R>, name: R -> string,
                              m: map<string, E>, render: (E, R) -> string): (r: Result<string>)
    ensures r.Ok? <==> forall i :: 0 <= i < |refs| ==> name(refs[i]) in m
    ensures r.Err? ==> r.error.collection == collection
    ensures r.Err? ==> exists i :: 0 <= i < |refs| && name(refs[i]) == r.error.key && name(refs[i]) !in m
                              && forall j :: 0 <= j < i ==> name(refs[j]) in m
  {
    if |refs| == 0 then Ok("")
    else if name(refs[0]) !in m then Err(Missing(collection, name(refs[0])))
    else
      match BuildEntries(collection, refs[1..], name, m, render)
      case Err(e) =>
        assert exists i :: 0 <= i < |refs| && name(refs[i]) == e.key && name(refs[i]) !in m
                        && forall j :: 0 <= j < i ==> name(refs[j]) in m by {
          var i :| 0 <= i < |refs[1..]| && name(refs[1..][i]) == e.key && name(refs[1..][i]) !in m
                   && forall j :: 0 <= j < i ==> name(refs[1..][j]) in m;
          assert forall j :: 0 <= j < i + 1 ==> name(refs[j]) in m by {
            forall j | 0 <= j < i + 1 ensures name(refs[j]) in m {
              if j > 0 { assert refs[j] == refs[1..][j - 1]; }
            }
          }
        }
        Err(e)
      case Ok(rest) => Ok(render(m[name(refs[0])], refs[0]) + rest)
  }

  /** One known entity renders as its own template instance. */
  lemma BuildEntriesSingle<R, E>(collection: string, ref: R, name: R -> string,
                                 m: map<string, E>, render: (E, R) -> string)
    requires name(ref) in m
    ensures BuildEntries(collection, [ref], name, m, render) == Ok(render(m[name(ref)], ref))
  {
    assert [ref][1..] == [];
    assert render(m[name(ref)], ref) + "" == render(m[name(ref)], ref);
  }

  /** Entries are independent: the output for `a + b` is that of `a`
      followed by that of `b`, and an error in `a` comes first. */
  lemma {:induction false} BuildEntriesAppend<R, E>(collection: string, a: seq<R>, b: seq<R>,
                                                    name: R -> string, m: map<string, E>,
                                                    render: (E, R) -> string)
    ensures BuildEntries(collection, a + b, name, m, render) ==
      match BuildEntries(collection, a, name, m, render)
      case Err(e) => Err(e)
      case Ok(x) =>
        match BuildEntries(collection, b, name, m, render)
        case Err(e) => Err(e)
        case Ok(y) => Ok(x + y)
  {
    if |a| == 0 {
      assert a + b == b;
      match BuildEntries(collection, b, name, m, render)
      case Err(e) =>
      case Ok(y) => assert "" + y == y;
    } else {
      assert (a + b)[0] == a[0];
      assert (a + b)[1..] == a[1..] + b;
      if name(a[0]) in m {
        BuildEntriesAppend(collection, a[1..], b, name, m, render);
        match BuildEntries(collection, a[1..], name, m, render)
        case Err(e) =>
        case Ok(x) =>
          match BuildEntries(collection, b, name, m, render)
          case Err(e) =>
          case Ok(y) =>
            var head := render(m[name(a[0])], a[0]);
            assert head + (x + y) == (head + x) + y;
      }
    }
  }
}
