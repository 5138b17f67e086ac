/** The experience section (build.py:96-117): per job of the recipe, its
    points with the excluded top-level keys left out, wrapped in the
    experience template. */
module Experience {
  import opened Text
  import opened Tokens
  import opened Results
  import opened Resume

  /** The bullets of a group (build.py:105-106): one indented bullet per
      child value; the children's keys are never looked at. */
  function GroupBullets(children: seq<(string, string)>): string
  {
    if |children| == 0 then ""
    else IndentedBulletItem(children[0].1) + GroupBullets(children[1..])
  }

  /** One kept point (build.py:104-108). */
  function JobPoint(p: Point): string
  {
    match p
    case Leaf(v) => BulletItem(v) + "\\newline"
    case Group(children) => GroupBullets(children)
  }

  /** The points loop of build.py:102-108. */
  function JobItems(points: seq<(string, Point)>, exclude: seq<string>): string
  {
    if |points| == 0 then ""
    else (if points[0].0 in exclude then "" else JobPoint(points[0].1)) + JobItems(points[1..], exclude)
  }

  /** One job entry: the experience template filled in (build.py:110-115).
      The title is the job's own `name` field. */
  function JobEntry(j: Job, ref: EntryRef, t: Templates): string
  {
    t.experience(JobSlots(j.name, j.employer, j.date, JobItems(j.points, ref.exclude)))
  }

  /** build_experience: the entries of the recipe's jobs in recipe order, or
      the first job name the data store lacks. */
  function BuildExperience(data: Data, recipe: Recipe, t: Templates): (r: Result<string>)
    ensures r.Ok? <==> forall i :: 0 <= i < |recipe.experience| ==> recipe.experience[i].name in data.experience
    ensures r.Err? ==> r.error.collection == "experience"
    ensures r.Err? ==> exists i :: 0 <= i < |recipe.experience| && recipe.experience[i].name == r.error.key
                              && r.error.key !in data.experience
                              && forall j :: 0 <= j < i ==> recipe.experience[j].name in data.experience
  {
    BuildEntries("experience", recipe.experience, (ref: EntryRef) => ref.name, data.experience,
                 (j, ref) => JobEntry(j, ref, t))
  }

  /** Points render independently: the body of `a + b` is that of `a`
      followed by that of `b`. */
  lemma {:induction false} JobItemsAppend(a: seq<(string, Point)>, b: seq<(string, Point)>, exclude: seq<string>)
    ensures JobItems(a + b, exclude) == JobItems(a, exclude) + JobItems(b, exclude)
  {
    if |a| == 0 {
      assert a + b == b;
    } else {
      assert (a + b)[1..] == a[1..] + b;
      JobItemsAppend(a[1..], b, exclude);
    }
  }

  /** Excluding is filtering the top-level points and nothing else: the
      body equals that of the kept points with no exclusion. */
  lemma {:induction false} JobItemsFilterFirst(points: seq<(string, Point)>, exclude: seq<string>)
    ensures JobItems(points, exclude) == JobItems(Kept(points, exclude), [])
  {
    if |points| > 0 {
      JobItemsFilterFirst(points[1..], exclude);
      if points[0].0 !in exclude {
        assert ([points[0]] + Kept(points[1..], exclude))[1..] == Kept(points[1..], exclude);
      }
    }
  }

  /** Only the top-level keys are checked: two exclusion lists that agree
      on them give the same body, whatever child keys either one names. */
  lemma {:induction false} ChildKeysNeverFiltered(points: seq<(string, Point)>, ex1: seq<string>, ex2: seq<string>)
    requires forall i :: 0 <= i < |points| ==> (points[i].0 in ex1 <==> points[i].0 in ex2)
    ensures JobItems(points, ex1) == JobItems(points, ex2)
  {
    if |points| > 0 {
      ChildKeysNeverFiltered(points[1..], ex1, ex2);
    }
  }

  /** One indented bullet per text, in order. */
  function IndentedBullets(texts: seq<string>): (r: seq<string>)
    ensures |r| == |texts|
    ensures forall i :: 0 <= i < |texts| ==> r[i] == IndentedBulletItem(texts[i])
  {
    if |texts| == 0 then [] else [IndentedBulletItem(texts[0])] + IndentedBullets(texts[1..])
  }

  /** The rendering of kept points, one piece per point, in order. */
  function JobPoints(values: seq<Point>): (r: seq<string>)
    ensures |r| == |values|
    ensures forall i :: 0 <= i < |values| ==> r[i] == JobPoint(values[i])
  {
    if |values| == 0 then [] else [JobPoint(values[0])] + JobPoints(values[1..])
  }

  /** A group is the indented bullets of its child values, in child order,
      one per child. */
  lemma {:induction false} GroupBulletsAreIndentedBullets(children: seq<(string, string)>)
    ensures GroupBullets(children) == Concat(IndentedBullets(Values(children)))
  {
    if |children| > 0 {
      GroupBulletsAreIndentedBullets(children[1..]);
      assert Values(children)[1..] == Values(children[1..]);
      assert IndentedBullets(Values(children))[1..] == IndentedBullets(Values(children[1..]));
    }
  }

  /** The children of a group render independently and in order. */
  lemma {:induction false} GroupBulletsAppend(a: seq<(string, string)>, b: seq<(string, string)>)
    ensures GroupBullets(a + b) == GroupBullets(a) + GroupBullets(b)
  {
    if |a| == 0 {
      assert a + b == b;
    } else {
      assert (a + b)[1..] == a[1..] + b;
      GroupBulletsAppend(a[1..], b);
    }
  }

  /** A one-child group is exactly one indented bullet of the child's value,
      whatever its key. */
  lemma GroupBulletsSingle(key: string, value: string)
    ensures GroupBullets([(key, value)]) == IndentedBulletItem(value)
  {
    assert [(key, value)][1..] == [];
    assert IndentedBulletItem(value) + "" == IndentedBulletItem(value);
  }

  /** The body of a job is the concatenation of the renderings of the kept
      point values, in the job's point order. */
  lemma {:induction false} JobItemsAreKeptPoints(points: seq<(string, Point)>, exclude: seq<string>)
    ensures JobItems(points, exclude) == Concat(JobPoints(Values(Kept(points, exclude))))
  {
    if |points| > 0 {
      JobItemsAreKeptPoints(points[1..], exclude);
      var rest := Kept(points[1..], exclude);
      var tail := JobItems(points[1..], exclude);
      assert tail == Concat(JobPoints(Values(rest)));
      if points[0].0 !in exclude {
        var kept := [points[0]] + rest;
        assert Kept(points, exclude) == kept;
        JobPointsCons(points[0], rest);
        assert JobItems(points, exclude) == JobPoint(points[0].1) + tail;
      } else {
        assert Kept(points, exclude) == rest;
        assert JobItems(points, exclude) == "" + tail;
      }
    }
  }

  lemma JobPointsCons(p: (string, Point), rest: seq<(string, Point)>)
    ensures Concat(JobPoints(Values([p] + rest))) == JobPoint(p.1) + Concat(JobPoints(Values(rest)))
  {
    var kept := [p] + rest;
    assert kept[1..] == rest;
    assert Values(kept) == [p.1] + Values(rest);
    assert ([p.1] + Values(rest))[1..] == Values(rest);
    assert JobPoints(Values(kept)) == [JobPoint(p.1)] + JobPoints(Values(rest));
    assert ([JobPoint(p.1)] + JobPoints(Values(rest)))[1..] == JobPoints(Values(rest));
  }

  /** A group yields exactly one indented bullet per child: its length is
      the children's texts plus one bullet's markup each. */
  lemma {:induction false} GroupBulletsLength(children: seq<(string, string)>)
    ensures |GroupBullets(children)| == |Concat(Values(children))| + |children| * |IndentedBulletItem("")|
  {
    if |children| > 0 {
      GroupBulletsLength(children[1..]);
      assert Values(children) == [children[0].1] + Values(children[1..]);
    }
  }
}
