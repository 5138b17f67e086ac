/** Plain string assembly: concatenation of a list of pieces and joining
    with a separator, the two shapes every section builder produces. */
module Text {

  function Concat(ss: seq<string>): string
  {
    if |ss| == 0 then "" else ss[0] + Concat(ss[1..])
  }

  /** The pieces with `sep` between neighbours: none before the first piece,
      none after the last. */
  function Join(sep: string, ss: seq<string>): string
  {
    if |ss| == 0 then ""
    else if |ss| == 1 then ss[0]
    else ss[0] + sep + Join(sep, ss[1..])
  }

  /** `n` blanks. */
  function Spaces(n: nat): (r: string)
    ensures |r| == n
    ensures forall i :: 0 <= i < n ==> r[i] == ' '
  {
    if n == 0 then "" else " " + Spaces(n - 1)
  }

  /** A join of two or more pieces starts with the first piece and one
      separator; the separator's own parts and what follows the join can be
      regrouped around the rest. */
  lemma JoinConsRegroup(b: string, bs: seq<string>, nl: string, ind: string, end: string)
    requires |bs| > 0
    ensures Join(nl + ind, [b] + bs) + end + ind == b + nl + ind + (Join(nl + ind, bs) + end + ind)
  {
    assert ([b] + bs)[1..] == bs;
    var j := Join(nl + ind, bs);
    assert Join(nl + ind, [b] + bs) == b + (nl + ind) + j;
    var head := b + nl + ind;
    AppendAssoc(b, nl, ind);
    AppendAssoc(head, j, end);
    AppendAssoc(head, j + end, ind);
  }

  lemma AppendAssoc(a: string, b: string, c: string)
    ensures a + (b + c) == a + b + c
  {
  }
}
