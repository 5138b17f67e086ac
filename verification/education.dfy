/** The education section (build.py:120-149): per education record of the
    recipe, its points in one of two notations, wrapped in the education
    template. */
module Education {
  import opened Text
  import opened Tokens
  import opened Results
  import opened Resume

  /** The notation that renders one plain bullet per top-level point. */
  const Standard: string := "standard"

  /** The key that marks a record's main point. */
  const Main: string := "main"

  /** The text a point formats to: a leaf's own text, or what Python's `str`
      gives the nested group. */
  function PointText(p: Point, t: Templates): string
  {
    match p
    case Leaf(v) => v
    case Group(children) => t.groupText(children)
  }

  /** The children of a group in custom notation (build.py:135-139): a child
      keyed "main" gets the 1mm bullet, every other child the 5mm one. */
  function GroupLines(children: seq<(string, string)>): string
  {
    if |children| == 0 then ""
    else
      var (key, value) := children[0];
      (if key == Main then EduCustom2(value) else EduCustom3(value)) + GroupLines(children[1..])
  }

  /** One top-level point (build.py:127-139). */
  function EduPoint(notation: string, key: string, value: Point, t: Templates): string
  {
    if notation == Standard then EduStdPoint(PointText(value, t))
    else
      match value
      case Leaf(v) => (if key == Main then EduCustom1(v) else "") + EduCustom2(v)
      case Group(children) => GroupLines(children)
  }

  /** The points loop of build.py:125-139. */
  function EducationItems(notation: string, points: seq<(string, Point)>, t: Templates): string
  {
    if |points| == 0 then ""
    else EduPoint(notation, points[0].0, points[0].1, t) + EducationItems(notation, points[1..], t)
  }

  /** One education entry: the education template filled in
      (build.py:141-147). */
  function EducationEntry(e: Education, ref: EducationRef, t: Templates): string
  {
    t.education(EducationSlots(e.degree, e.institution, e.location, e.date,
                               EducationItems(e.notation, e.points, t)))
  }

  /** build_education: the entries of the recipe's records in recipe order,
      or the first record name the data store lacks. */
  function BuildEducation(data: Data, recipe: Recipe, t: Templates): (r: Result<string>)
    ensures r.Ok? <==> forall i :: 0 <= i < |recipe.education| ==> recipe.education[i].name in data.education
    ensures r.Err? ==> r.error.collection == "education"
    ensures r.Err? ==> exists i :: 0 <= i < |recipe.education| && recipe.education[i].name == r.error.key
                              && r.error.key !in data.education
                              && forall j :: 0 <= j < i ==> recipe.education[j].name in data.education
  {
    BuildEntries("education", recipe.education, (ref: EducationRef) => ref.name, data.education,
                 (e, ref) => EducationEntry(e, ref, t))
  }

  /** One plain bullet per text, in order. */
  function StdLines(texts: seq<string>): seq<string>
  {
    if |texts| == 0 then [] else [EduStdPoint(texts[0])] + StdLines(texts[1..])
  }

  /** The texts of some points, in order. */
  function PointTexts(values: seq<Point>, t: Templates): (r: seq<string>)
    ensures |r| == |values|
    ensures forall i :: 0 <= i < |values| ==> r[i] == PointText(values[i], t)
  {
    if |values| == 0 then [] else [PointText(values[0], t)] + PointTexts(values[1..], t)
  }

  /** In standard notation the body is exactly one plain bullet per
      top-level point, in the record's order, keys unused and groups
      flattened to their text. */
  lemma {:induction false} StandardOnePerPoint(points: seq<(string, Point)>, t: Templates)
    ensures EducationItems(Standard, points, t) == Concat(StdLines(PointTexts(Values(points), t)))
  {
    if |points| > 0 {
      StandardOnePerPoint(points[1..], t);
      assert Values(points)[1..] == Values(points[1..]);
    }
  }

  /** In standard notation the keys play no part: records with the same
      point values in the same order render the same. */
  lemma {:induction false} StandardIgnoresKeys(ps: seq<(string, Point)>, qs: seq<(string, Point)>, t: Templates)
    requires Values(ps) == Values(qs)
    ensures EducationItems(Standard, ps, t) == EducationItems(Standard, qs, t)
  {
    StandardOnePerPoint(ps, t);
    StandardOnePerPoint(qs, t);
  }

  /** In custom notation a key matters only by being "main" or not. */
  lemma {:induction false} CustomOnlyMainKeyMatters(notation: string, ps: seq<(string, Point)>,
                                                    qs: seq<(string, Point)>, t: Templates)
    requires notation != Standard
    requires Values(ps) == Values(qs)
    requires forall i :: 0 <= i < |ps| ==> (ps[i].0 == Main <==> qs[i].0 == Main)
    ensures EducationItems(notation, ps, t) == EducationItems(notation, qs, t)
  {
    if |ps| > 0 {
      assert Values(ps)[0] == Values(qs)[0];
      assert Values(ps[1..]) == Values(ps)[1..] == Values(qs)[1..] == Values(qs[1..]);
      CustomOnlyMainKeyMatters(notation, ps[1..], qs[1..], t);
    }
  }

  /** In custom notation a leaf keyed "main" gets an unbulleted introductory
      line of its own text before the bullet every other leaf gets; any
      other leaf is that 1mm bullet alone. */
  lemma MainLeafAddsIntro(notation: string, key: string, v: string, t: Templates)
    requires notation != Standard && key != Main
    ensures EduPoint(notation, key, Leaf(v), t) == EduCustom2(v)
    ensures EduPoint(notation, Main, Leaf(v), t) == EduCustom1(v) + EduCustom2(v)
    ensures EduPoint(notation, Main, Leaf(v), t) == EduCustom1(v) + EduPoint(notation, key, Leaf(v), t)
  {
    assert "" + EduCustom2(v) == EduCustom2(v);
  }

  /** Inside a group, the child keyed "main" gets the bullet of a plain
      top-level leaf, and every other child the deeper 5mm indent. */
  lemma GroupChildIndent(notation: string, key: string, childKey: string, v: string, t: Templates)
    requires notation != Standard && key != Main
    ensures EduPoint(notation, key, Group([(Main, v)]), t) == EduPoint(notation, key, Leaf(v), t)
    ensures childKey != Main ==> EduPoint(notation, key, Group([(childKey, v)]), t) == EduCustom3(v)
  {
    assert [(Main, v)][1..] == [];
    assert [(childKey, v)][1..] == [];
    assert GroupLines([(Main, v)]) == EduCustom2(v) + "";
    assert "" + EduCustom2(v) == EduCustom2(v) + "" == EduCustom2(v);
    assert EduCustom3(v) + "" == EduCustom3(v);
  }

  /** The children of a group render independently and in order. */
  lemma {:induction false} GroupLinesAppend(a: seq<(string, string)>, b: seq<(string, string)>)
    ensures GroupLines(a + b) == GroupLines(a) + GroupLines(b)
  {
    if |a| == 0 {
      assert a + b == b;
    } else {
      assert (a + b)[1..] == a[1..] + b;
      GroupLinesAppend(a[1..], b);
    }
  }

  /** Every child of a group is one line: the 1mm bullet when keyed "main",
      the 5mm bullet otherwise. */
  lemma GroupLinesSingle(key: string, v: string)
    ensures GroupLines([(key, v)]) == if key == Main then EduCustom2(v) else EduCustom3(v)
  {
    assert [(key, v)][1..] == [];
    assert EduCustom2(v) + "" == EduCustom2(v);
    assert EduCustom3(v) + "" == EduCustom3(v);
  }

  /** A record with one point renders exactly that point. */
  lemma EducationItemsSingle(notation: string, key: string, value: Point, t: Templates)
    ensures EducationItems(notation, [(key, value)], t) == EduPoint(notation, key, value, t)
  {
    assert [(key, value)][1..] == [];
    assert EduPoint(notation, key, value, t) + "" == EduPoint(notation, key, value, t);
  }

  /** Points render independently: the body of `a + b` is that of `a`
      followed by that of `b`. */
  lemma {:induction false} EducationItemsAppend(notation: string, a: seq<(string, Point)>,
                                                b: seq<(string, Point)>, t: Templates)
    ensures EducationItems(notation, a + b, t) == EducationItems(notation, a, t) + EducationItems(notation, b, t)
  {
    if |a| == 0 {
      assert a + b == b;
    } else {
      assert (a + b)[0] == a[0];
      assert (a + b)[1..] == a[1..] + b;
      EducationItemsAppend(notation, a[1..], b, t);
      var head := EduPoint(notation, a[0].0, a[0].1, t);
      assert EducationItems(notation, a + b, t) == head + EducationItems(notation, a[1..] + b, t);
      assert EducationItems(notation, a, t) == head + EducationItems(notation, a[1..], t);
    }
  }
}
