/** Templates: similarity to a line, coverage and generalization
    (crates/logdrain/src/similarity.rs, crates/logdrain/src/cluster.rs:107-114 and 159-174). */
module Templates {
  import opened Tokenizer
  import opened Options

  type Template = seq<Token>

  predicate Agrees(stored: Token, tok: Token, w: string) {
    stored.text == w || stored.text == tok.text
  }

  function MatchCount(t: Template, line: seq<Token>, w: string): (n: nat)
    requires |t| == |line|
    ensures n <= |t|
  {
    if t == [] then 0
    else
      var last := |t| - 1;
      MatchCount(t[..last], line[..last], w) + if Agrees(t[last], line[last], w) then 1 else 0
  }

  /** The fraction of positions that match; 0 for differing lengths, 1 for two empty vectors. */
  function Similarity(t: Template, line: seq<Token>, w: string): real {
    if |t| != |line| then 0.0
    else if t == [] then 1.0
    else MatchCount(t, line, w) as real / |t| as real
  }

  /** The positions that match, wherever they stand. */
  ghost function Matching(t: Template, line: seq<Token>, w: string): set<int>
    requires |t| == |line|
  {
    set i | 0 <= i < |t| && (t[i].text == w || t[i].text == line[i].text)
  }

  lemma MatchingOneMore(t: Template, line: seq<Token>, w: string, last: nat)
    requires |t| == |line| == last + 1
    ensures last !in Matching(t[..last], line[..last], w)
    ensures Matching(t, line, w)
         == if Agrees(t[last], line[last], w) then Matching(t[..last], line[..last], w) + {last}
            else Matching(t[..last], line[..last], w)
  {
  }

  lemma {:induction false} MatchCountIsTheNumber(t: Template, line: seq<Token>, w: string)
    requires |t| == |line|
    ensures MatchCount(t, line, w) == |Matching(t, line, w)|
  {
    if t == [] {
      assert Matching(t, line, w) == {};
    } else {
      hide Matching;
      var last := |t| - 1;
      MatchCountIsTheNumber(t[..last], line[..last], w);
      MatchingOneMore(t, line, w, last);
    }
  }

  /** The loop of `similarity`. */
  method ComputeSimilarity(t: Template, line: seq<Token>, w: string) returns (sim: real)
    ensures sim == Similarity(t, line, w)
    ensures sim == if |t| != |line| then 0.0 else if t == [] then 1.0
                   else |set i | 0 <= i < |t| && (t[i].text == w || t[i].text == line[i].text)| as real / |t| as real
  {
    if |t| != |line| {
      return 0.0;
    }
    if t == [] {
      return 1.0;
    }
    var matches := 0;
    for i := 0 to |t|
      invariant matches == MatchCount(t[..i], line[..i], w)
    {
      assert t[..i + 1][..i] == t[..i] && line[..i + 1][..i] == line[..i];
      if t[i].text == w || t[i].text == line[i].text {
        matches := matches + 1;
      }
    }
    assert t[..|t|] == t && line[..|t|] == line;
    MatchCountIsTheNumber(t, line, w);
    sim := matches as real / |t| as real;
  }

  /** Every position is the wildcard or the line's own text. */
  predicate Covers(t: Template, line: seq<Token>, w: string) {
    |t| == |line| && forall i | 0 <= i < |t| :: Agrees(t[i], line[i], w)
  }

  /** The read-only test of the match path. */
  predicate WouldGeneralize(t: Template, line: seq<Token>, w: string) {
    exists i :: 0 <= i < |t| && i < |line| && t[i].text != w && t[i].text != line[i].text
  }

  /** Positions that differ from the line become the wildcard; delimiter flags stay. */
  function Generalize(t: Template, line: seq<Token>, w: string): (r: Template)
    requires |t| == |line|
    ensures |r| == |t|
  {
    seq(|t|, i requires 0 <= i < |t| => if Agrees(t[i], line[i], w) then t[i] else t[i].(text := w))
  }

  /** `b` is `a` with some texts replaced by the wildcard. */
  ghost predicate MoreGeneral(a: Template, b: Template, w: string) {
    && |a| == |b|
    && forall i | 0 <= i < |a| :: b[i] == a[i] || b[i] == a[i].(text := w)
  }

  // ---------------------------------------------------------------- similarity

  lemma {:induction false} MatchCountMonotone(a: Template, b: Template, line: seq<Token>, w: string)
    requires |a| == |line| && MoreGeneral(a, b, w)
    ensures MatchCount(a, line, w) <= MatchCount(b, line, w)
  {
    if a != [] {
      var last := |a| - 1;
      MatchCountMonotone(a[..last], b[..last], line[..last], w);
    }
  }

  lemma DivideMonotone(x: nat, y: nat, n: nat)
    requires n > 0
    ensures x as real / n as real <= y as real / n as real <==> x <= y
  {
    var d := 1.0 / n as real;
    assert d > 0.0;
    assert x as real / n as real == x as real * d && y as real / n as real == y as real * d;
    if x <= y {
      assert x as real * d <= y as real * d;
    } else {
      assert (x as real - y as real) * d > 0.0;
    }
  }

  /** Generalizing a template never lowers its similarity to any line. */
  lemma SimilarityMonotone(a: Template, b: Template, line: seq<Token>, w: string)
    requires MoreGeneral(a, b, w)
    ensures Similarity(a, line, w) <= Similarity(b, line, w)
  {
    if |a| == |line| && a != [] {
      MatchCountMonotone(a, b, line, w);
      DivideMonotone(MatchCount(a, line, w), MatchCount(b, line, w), |a|);
    }
  }

  lemma {:induction false} MatchCountFull(t: Template, line: seq<Token>, w: string)
    requires |t| == |line|
    ensures MatchCount(t, line, w) == |t| <==> Covers(t, line, w)
  {
    if t != [] {
      var last := |t| - 1;
      MatchCountFull(t[..last], line[..last], w);
      assert Covers(t, line, w) <==> Covers(t[..last], line[..last], w) && Agrees(t[last], line[last], w) by {
        if Covers(t[..last], line[..last], w) && Agrees(t[last], line[last], w) {
          forall i | 0 <= i < |t|
            ensures Agrees(t[i], line[i], w)
          {
            if i < last { assert t[i] == t[..last][i] && line[i] == line[..last][i]; }
          }
        }
      }
    }
  }

  /** Similarity lies in [0, 1], and among vectors of one length it is 1 exactly on coverage. */
  lemma SimilarityRange(t: Template, line: seq<Token>, w: string)
    ensures 0.0 <= Similarity(t, line, w) <= 1.0
    ensures |t| == |line| ==> (Similarity(t, line, w) == 1.0 <==> Covers(t, line, w))
  {
    if |t| == |line| && t != [] {
      var n := |t|;
      MatchCountFull(t, line, w);
      DivideMonotone(0, MatchCount(t, line, w), n);
      DivideMonotone(MatchCount(t, line, w), n, n);
      DivideMonotone(n, MatchCount(t, line, w), n);
      assert n as real / n as real == 1.0;
    }
  }

  // ---------------------------------------------------------------- generalization

  lemma GeneralizeIsMoreGeneral(t: Template, line: seq<Token>, w: string)
    requires |t| == |line|
    ensures MoreGeneral(t, Generalize(t, line, w), w) && Covers(Generalize(t, line, w), line, w)
    ensures Generalize(t, line, w) == t <==> Covers(t, line, w)
    ensures WouldGeneralize(t, line, w) <==> !Covers(t, line, w)
  {
    var g := Generalize(t, line, w);
    if g == t {
      forall i | 0 <= i < |t|
        ensures Agrees(t[i], line[i], w)
      {
        assert g[i] == t[i];
      }
    }
    if !Covers(t, line, w) {
      var i :| 0 <= i < |t| && !Agrees(t[i], line[i], w);
      assert t[i].text != w && t[i].text != line[i].text;
    }
  }

  lemma MoreGeneralTransitive(a: Template, b: Template, c: Template, w: string)
    requires MoreGeneral(a, b, w) && MoreGeneral(b, c, w)
    ensures MoreGeneral(a, c, w)
  {
    forall i | 0 <= i < |a|
      ensures c[i] == a[i] || c[i] == a[i].(text := w)
    {
      assert b[i] == a[i] || b[i] == a[i].(text := w);
      assert c[i] == b[i] || c[i] == b[i].(text := w);
    }
  }

  lemma CoversMonotone(a: Template, b: Template, line: seq<Token>, w: string)
    requires MoreGeneral(a, b, w) && Covers(a, line, w)
    ensures Covers(b, line, w)
  {
    forall i | 0 <= i < |b|
      ensures Agrees(b[i], line[i], w)
    {
      assert Agrees(a[i], line[i], w);
      assert b[i] == a[i] || b[i] == a[i].(text := w);
    }
  }

  /** The invariant the index rests on: generalizing against a line of the same leaf keeps the
      template's own descent keys, although numeric texts and literal wildcards may differ. */
  lemma GeneralizeKeepsKey(o: Options, t: Template, line: seq<Token>)
    requires o.Valid() && KeyOf(o, t) == KeyOf(o, line)
    ensures KeyOf(o, Generalize(t, line, o.wildcard)) == KeyOf(o, t)
  {
    var g := Generalize(t, line, o.wildcard);
    forall i | 0 <= i < |DescentKeys(o, t)|
      ensures DescentKeys(o, g)[i] == DescentKeys(o, t)[i]
    {
      assert DescentKey(o, t[i].text) == DescentKeys(o, t)[i] == DescentKeys(o, line)[i] == DescentKey(o, line[i].text);
    }
    assert DescentKeys(o, g) == DescentKeys(o, t);
  }

  // ---------------------------------------------------------------- how often a template can change

  function NonWild(t: Template, w: string): (n: nat)
    ensures n <= |t|
  {
    if t == [] then 0
    else NonWild(t[..|t| - 1], w) + if t[|t| - 1].text != w then 1 else 0
  }

  function NonWildKeys(keys: seq<string>, w: string): (n: nat)
    ensures n <= |keys|
  {
    if keys == [] then 0
    else NonWildKeys(keys[..|keys| - 1], w) + if keys[|keys| - 1] != w then 1 else 0
  }

  /** Each change strictly reduces the number of non-wildcard positions. */
  lemma {:induction false} NonWildDecreases(a: Template, b: Template, w: string)
    requires MoreGeneral(a, b, w)
    ensures NonWild(b, w) <= NonWild(a, w)
    ensures a != b ==> NonWild(b, w) < NonWild(a, w)
  {
    if a != [] {
      var last := |a| - 1;
      NonWildDecreases(a[..last], b[..last], w);
      assert b[last] == a[last] || b[last] == a[last].(text := w);
      assert a == a[..last] + [a[last]] && b == b[..last] + [b[last]];
    }
  }

  /** Positions whose key is not the wildcard never become the wildcard. */
  lemma NonWildAtLeastKeys(o: Options, t: Template)
    requires o.Valid()
    ensures NonWildKeys(DescentKeys(o, t), o.wildcard) <= NonWild(t, o.wildcard)
  {
    var n := |DescentKeys(o, t)|;
    NonWildPrefix(o, t, n);
    NonWildGrows(t, n, |t|, o.wildcard);
    assert DescentKeys(o, t)[..n] == DescentKeys(o, t) && t[..|t|] == t;
  }

  lemma {:induction false} NonWildPrefix(o: Options, t: Template, k: nat)
    requires o.Valid() && k <= |DescentKeys(o, t)|
    ensures NonWildKeys(DescentKeys(o, t)[..k], o.wildcard) <= NonWild(t[..k], o.wildcard)
  {
    if k > 0 {
      NonWildPrefix(o, t, k - 1);
      assert t[..k][..k - 1] == t[..k - 1];
      assert DescentKeys(o, t)[..k][..k - 1] == DescentKeys(o, t)[..k - 1];
    }
  }

  lemma {:induction false} NonWildGrows(t: Template, k: nat, n: nat, w: string)
    requires k <= n <= |t|
    ensures NonWild(t[..k], w) <= NonWild(t[..n], w)
    decreases n
  {
    if k < n {
      NonWildGrows(t, k, n - 1, w);
      assert t[..n][..n - 1] == t[..n - 1];
    }
  }

  // ---------------------------------------------------------------- least general template

  /** The lines agree on the text at position `i`. */
  ghost predicate SameTextAt(lines: set<seq<Token>>, i: nat) {
    forall a: seq<Token>, b: seq<Token> | a in lines && b in lines && i < |a| && i < |b| :: a[i].text == b[i].text
  }

  /** `t` is the least general template of `lines` with the delimiter flags of `creator`: the common
      text where all lines agree and the wildcard where two differ. */
  ghost predicate LeastGeneral(t: Template, creator: seq<Token>, lines: set<seq<Token>>, w: string) {
    && |t| == |creator|
    && (forall i | 0 <= i < |t| ::
          && t[i] == creator[i].(text := t[i].text)
          && (SameTextAt(lines, i) ==> t[i].text == creator[i].text)
          && (!SameTextAt(lines, i) ==> t[i].text == w))
  }

  function FoldGeneralize(t: Template, lines: seq<seq<Token>>, w: string): (r: Template)
    requires forall k | 0 <= k < |lines| :: |lines[k]| == |t|
    ensures |r| == |t|
  {
    if lines == [] then t
    else Generalize(FoldGeneralize(t, lines[..|lines| - 1], w), lines[|lines| - 1], w)
  }

  ghost function LineSet(creator: seq<Token>, lines: seq<seq<Token>>): set<seq<Token>> {
    {creator} + set k | 0 <= k < |lines| :: lines[k]
  }

  /** Generalizing in any order reaches the least general template of the lines. */
  lemma {:induction false} FoldIsLeastGeneral(creator: seq<Token>, lines: seq<seq<Token>>, w: string)
    requires forall k | 0 <= k < |lines| :: |lines[k]| == |creator|
    ensures LeastGeneral(FoldGeneralize(creator, lines, w), creator, LineSet(creator, lines), w)
  {
    if lines != [] {
      var before := lines[..|lines| - 1];
      var line := lines[|lines| - 1];
      var t := FoldGeneralize(creator, before, w);
      var r := FoldGeneralize(creator, lines, w);
      FoldIsLeastGeneral(creator, before, w);
      assert LineSet(creator, lines) == LineSet(creator, before) + {line} by {
        forall x | x in LineSet(creator, lines)
          ensures x in LineSet(creator, before) + {line}
        {
          if x != creator {
            var k :| 0 <= k < |lines| && lines[k] == x;
            if k < |before| { assert before[k] == x; }
          }
        }
        forall x | x in LineSet(creator, before)
          ensures x in LineSet(creator, lines)
        {
          if x != creator {
            var k :| 0 <= k < |before| && before[k] == x;
            assert lines[k] == x;
          }
        }
      }
      forall i | 0 <= i < |r|
        ensures r[i] == creator[i].(text := r[i].text)
        ensures SameTextAt(LineSet(creator, lines), i) ==> r[i].text == creator[i].text
        ensures !SameTextAt(LineSet(creator, lines), i) ==> r[i].text == w
      {
        LeastGeneralStep(creator, LineSet(creator, before), line, i);
        assert t[i] == creator[i].(text := t[i].text);
      }
    }
  }

  lemma LeastGeneralStep(creator: seq<Token>, lines: set<seq<Token>>, line: seq<Token>, i: nat)
    requires creator in lines && i < |creator| == |line|
    ensures SameTextAt(lines + {line}, i) <==> SameTextAt(lines, i) && line[i].text == creator[i].text
  {
    if SameTextAt(lines, i) && line[i].text == creator[i].text {
      forall a: seq<Token>, b: seq<Token> | a in lines + {line} && b in lines + {line} && i < |a| && i < |b|
        ensures a[i].text == b[i].text
      {
        assert a[i].text == creator[i].text && b[i].text == creator[i].text;
      }
    }
    if SameTextAt(lines + {line}, i) {
      assert line in lines + {line} && creator in lines + {line};
    }
  }
}
