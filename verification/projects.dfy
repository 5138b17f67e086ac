/** The projects section (build.py:61-93): per project of the recipe, an
    optional Technologies bullet, then one `\item` per point whose key the
    recipe does not exclude, wrapped in the project template. */
module Projects {
  import opened Text
  import opened Tokens
  import opened Results
  import opened Resume

  /** What follows a bullet that is not the map's final point: a newline and
      the eight-blank indent. */
  const Separator: string := "\n" + Indent

  /** The Technologies bullet (build.py:68-74), present when `tech` is not
      empty. The label goes through the bold-item token, colon and all. */
  function TechBullet(tech: string): (r: string)
    ensures r == "" <==> tech == ""
  {
    if tech != "" then BulletItem(BoldItem("Technologies:", tech)) + Separator else ""
  }

  /** The points loop of build.py:76-83 from index `i` of the full points
      map on. Whether a kept point gets a newline depends on its index in
      the full map, not among the kept points. */
  function PointsFrom(points: seq<(string, string)>, exclude: seq<string>, i: nat): string
    decreases |points| - i
  {
    if i >= |points| then ""
    else
      var (key, value) := points[i];
      var piece :=
        if key in exclude then ""
        else BulletItem(value) + (if i < |points| - 1 then "\n" else "") + Indent;
      piece + PointsFrom(points, exclude, i + 1)
  }

  /** The body of one project entry (build.py:66-83). */
  function ProjectItems(p: Project, exclude: seq<string>): string
  {
    TechBullet(p.tech) + PointsFrom(p.points, exclude, 0)
  }

  /** One project entry: the project template filled in (build.py:85-91). */
  function ProjectEntry(p: Project, ref: EntryRef, t: Templates): string
  {
    t.project(ProjectSlots(p.href, p.link, p.name, p.date, ProjectItems(p, ref.exclude)))
  }

  /** build_projects: the entries of the recipe's projects in recipe order,
      or the first project name the data store lacks. */
  function BuildProjects(data: Data, recipe: Recipe, t: Templates): (r: Result<string>)
    ensures r.Ok? <==> forall i :: 0 <= i < |recipe.projects| ==> recipe.projects[i].name in data.projects
    ensures r.Err? ==> r.error.collection == "projects"
    ensures r.Err? ==> exists i :: 0 <= i < |recipe.projects| && recipe.projects[i].name == r.error.key
                              && r.error.key !in data.projects
                              && forall j :: 0 <= j < i ==> recipe.projects[j].name in data.projects
  {
    BuildEntries("projects", recipe.projects, (ref: EntryRef) => ref.name, data.projects,
                 (p, ref) => ProjectEntry(p, ref, t))
  }

  /** The bullets of some points, in order. */
  function Bullets(ps: seq<(string, string)>): (r: seq<string>)
  {
    if |ps| == 0 then [] else [BulletItem(ps[0].1)] + Bullets(ps[1..])
  }

  /** The final point of the map is excluded. */
  predicate LastExcluded(points: seq<(string, string)>, exclude: seq<string>)
  {
    |points| > 0 && points[|points| - 1].0 in exclude
  }

  /** Reference shape of the points part: the kept bullets joined by a
      newline and the indent, then the indent; when the final point of the
      map is excluded, the last kept bullet keeps its newline. */
  function PointsShape(kept: seq<(string, string)>, lastExcluded: bool): string
  {
    if |kept| == 0 then ""
    else Join(Separator, Bullets(kept)) + (if lastExcluded then "\n" else "") + Indent
  }

  lemma {:induction false} PointsFromShape(points: seq<(string, string)>, exclude: seq<string>, i: nat)
    requires i <= |points|
    ensures PointsFrom(points, exclude, i) == PointsShape(Kept(points[i..], exclude), LastExcluded(points, exclude))
    decreases |points| - i
  {
    if i < |points| {
      PointsFromShape(points, exclude, i + 1);
      var last := LastExcluded(points, exclude);
      var tail := PointsFrom(points, exclude, i + 1);
      var rest := Kept(points[i + 1..], exclude);
      assert tail == PointsShape(rest, last);
      assert points[i..][1..] == points[i + 1..];
      if points[i].0 !in exclude {
        var more := i < |points| - 1;
        assert Kept(points[i..], exclude) == [points[i]] + rest;
        assert PointsFrom(points, exclude, i) ==
          BulletItem(points[i].1) + (if more then "\n" else "") + Indent + tail;
        if more {
          KeptLast(points[i + 1..], exclude);
          assert points[i + 1..][|points[i + 1..]| - 1] == points[|points| - 1];
        }
        ShapeCons(points[i], rest, last, more);
      } else {
        assert Kept(points[i..], exclude) == rest;
        assert PointsFrom(points, exclude, i) == "" + tail;
      }
    } else {
      assert points[i..] == [];
    }
  }

  /** A non-empty map from which nothing is kept has its final point
      excluded. */
  lemma KeptLast(ps: seq<(string, string)>, exclude: seq<string>)
    requires |ps| > 0
    ensures Kept(ps, exclude) == [] ==> ps[|ps| - 1].0 in exclude
  {
    if ps[|ps| - 1].0 !in exclude {
      assert ps[|ps| - 1] in Kept(ps, exclude);
    }
  }

  /** One kept point in front of the shape: its bullet, a newline when more
      points of the map follow, the indent, then the rest. */
  lemma ShapeCons(p: (string, string), rest: seq<(string, string)>, lastExcluded: bool, more: bool)
    requires rest == [] ==> lastExcluded == more
    requires rest != [] ==> more
    ensures PointsShape([p] + rest, lastExcluded) ==
      BulletItem(p.1) + (if more then "\n" else "") + Indent + PointsShape(rest, lastExcluded)
  {
    assert ([p] + rest)[1..] == rest;
    assert Bullets([p] + rest) == [BulletItem(p.1)] + Bullets(rest);
    if rest == [] {
      ShapeSingle(BulletItem(p.1), lastExcluded);
    } else {
      ShapeMore(BulletItem(p.1), Bullets(rest), lastExcluded);
    }
  }

  lemma ShapeSingle(b: string, lastExcluded: bool)
    ensures Join(Separator, [b]) + (if lastExcluded then "\n" else "") + Indent ==
      b + (if lastExcluded then "\n" else "") + Indent + ""
  {
    var x := b + (if lastExcluded then "\n" else "") + Indent;
    assert x + "" == x;
  }

  lemma ShapeMore(b: string, bs: seq<string>, lastExcluded: bool)
    requires |bs| > 0
    ensures Join(Separator, [b] + bs) + (if lastExcluded then "\n" else "") + Indent ==
      b + "\n" + Indent + (Join(Separator, bs) + (if lastExcluded then "\n" else "") + Indent)
  {
    JoinConsRegroup(b, bs, "\n", Indent, if lastExcluded then "\n" else "");
  }

  /** A project body is the Technologies bullet when `tech` is not empty,
      then exactly one bullet per point the recipe keeps, in the data's
      point order, separated by a newline and the indent and followed by the
      indent; an excluded point contributes nothing, except that excluding
      the map's final point leaves a newline after the last kept bullet. */
  lemma ProjectItemsShape(p: Project, exclude: seq<string>)
    ensures ProjectItems(p, exclude) ==
      TechBullet(p.tech) + PointsShape(Kept(p.points, exclude), LastExcluded(p.points, exclude))
  {
    PointsFromShape(p.points, exclude, 0);
    assert p.points[0..] == p.points;
  }

  /** With nothing excluded, the bullets are newline-separated and the body
      ends in the indent alone. */
  lemma ProjectItemsNoExclusion(p: Project)
    requires |p.points| > 0
    ensures ProjectItems(p, []) == TechBullet(p.tech) + Join(Separator, Bullets(p.points)) + Indent
  {
    ProjectItemsShape(p, []);
    KeptNothing(p.points);
    assert !LastExcluded(p.points, []);
    assert PointsShape(p.points, false) == Join(Separator, Bullets(p.points)) + "" + Indent;
    assert Join(Separator, Bullets(p.points)) + "" == Join(Separator, Bullets(p.points));
  }

  /** The index quirk: when the final point is excluded and some point is
      kept, the body still ends in a newline and the indent. */
  lemma TrailingNewlineWhenLastExcluded(p: Project, exclude: seq<string>)
    requires LastExcluded(p.points, exclude)
    requires exists i :: 0 <= i < |p.points| && p.points[i].0 !in exclude
    ensures |ProjectItems(p, exclude)| >= |Separator|
    ensures ProjectItems(p, exclude)[|ProjectItems(p, exclude)| - |Separator|..] == Separator
  {
    ProjectItemsShape(p, exclude);
    var i :| 0 <= i < |p.points| && p.points[i].0 !in exclude;
    assert p.points[i] in Kept(p.points, exclude);
  }

  /** The body of a project depends on its points only through the kept
      points and whether the final point is excluded: the text of an
      excluded point never appears. */
  lemma ExcludedTextIrrelevant(p: Project, points: seq<(string, string)>, exclude: seq<string>)
    requires Kept(p.points, exclude) == Kept(points, exclude)
    requires LastExcluded(p.points, exclude) == LastExcluded(points, exclude)
    ensures ProjectItems(p, exclude) == ProjectItems(p.(points := points), exclude)
  {
    ProjectItemsShape(p, exclude);
    ProjectItemsShape(p.(points := points), exclude);
  }

  lemma {:induction false} KeptNothing(ps: seq<(string, string)>)
    ensures Kept(ps, []) == ps
  {
    if |ps| > 0 {
      KeptNothing(ps[1..]);
    }
  }

  /** Projects are rendered in recipe order, each as its own entry. */
  lemma BuildProjectsAppend(data: Data, recipe: Recipe, a: seq<EntryRef>, b: seq<EntryRef>, t: Templates)
    requires recipe.projects == a + b
    ensures BuildProjects(data, recipe, t) ==
      match BuildProjects(data, recipe.(projects := a), t)
      case Err(e) => Err(e)
      case Ok(x) =>
        match BuildProjects(data, recipe.(projects := b), t)
        case Err(e) => Err(e)
        case Ok(y) => Ok(x + y)
  {
    BuildEntriesAppend("projects", a, b, (ref: EntryRef) => ref.name, data.projects,
                       (p, ref) => ProjectEntry(p, ref, t));
  }

  /** A recipe naming one known project yields exactly its entry. */
  lemma BuildProjectsSingle(data: Data, recipe: Recipe, ref: EntryRef, t: Templates)
    requires recipe.projects == [ref] && ref.name in data.projects
    ensures BuildProjects(data, recipe, t) == Ok(ProjectEntry(data.projects[ref.name], ref, t))
  {
    BuildEntriesSingle("projects", ref, (ref: EntryRef) => ref.name, data.projects,
                       (p, ref) => ProjectEntry(p, ref, t));
  }
}
