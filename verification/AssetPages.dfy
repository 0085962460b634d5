/** Reading the whole asset list of a release, page by page. */
module AssetPages {
  import opened Basics

  const PAGE := 100
  const BOUND := 300

  /** The pages up to and including the first short one, joined; all of them when none is short. */
  function Joined<T>(pages: seq<seq<T>>): seq<T> {
    if pages == [] then []
    else if |pages[0]| < PAGE then pages[0]
    else pages[0] + Joined(pages[1..])
  }

  /** Whether some page ends the list, every page up to there being no longer than a page may be. */
  predicate Ends<T>(pages: seq<seq<T>>) {
    pages != [] && |pages[0]| <= PAGE && (|pages[0]| < PAGE || Ends(pages[1..]))
  }

  /** What the lookup answers to any four pages. */
  function Whole<T>(pages: seq<seq<T>>): Option<seq<T>> {
    if Ends(pages) && |Joined(pages)| <= BOUND then Some(Joined(pages)) else None
  }

  /** The lookup: the pages joined up to the first short one, refused when there is none or the bound is passed. */
  method ReadAll<T>(pages: seq<seq<T>>) returns (r: Option<seq<T>>)
    requires |pages| == 4
    ensures r == Whole(pages)
  {
    var assets: seq<T> := [];
    for p := 0 to 4
      invariant |assets| <= BOUND && Joined(pages) == assets + Joined(pages[p..])
      invariant Ends(pages) <==> Ends(pages[p..])
    {
      var rows := pages[p];
      assert pages[p..][0] == rows && pages[p..][1..] == pages[p + 1..];
      if |rows| > PAGE || |assets| + |rows| > BOUND { return None; }
      assets := assets + rows;
      if |rows| < PAGE { return Some(assets); }
    }
    return None;
  }

  function Least(a: nat, b: nat): nat { if a < b then a else b }

  /** What a server answers for page `p` of a list that does not change meanwhile, counting from one. */
  function Served<T>(total: seq<T>, p: nat): seq<T>
    requires p > 0
  {
    total[Least(PAGE * (p - 1), |total|)..Least(PAGE * p, |total|)]
  }

  /** The `n` answers from page `p` on. */
  function Answers<T>(total: seq<T>, p: nat, n: nat): (pages: seq<seq<T>>)
    requires p > 0
    ensures |pages| == n
    decreases n
  {
    if n == 0 then [] else [Served(total, p)] + Answers(total, p + 1, n - 1)
  }

  lemma {:induction false} AnswersJoin<T>(total: seq<T>, p: nat, n: nat)
    requires 0 < p && PAGE * (p - 1) <= |total|
    ensures Ends(Answers(total, p, n)) <==> |total| < PAGE * (p - 1 + n)
    ensures Ends(Answers(total, p, n)) ==> Joined(Answers(total, p, n)) == total[PAGE * (p - 1)..]
    decreases n
  {
    if n > 0 {
      AnswersStep(total, p, n);
      hide Answers, Ends, Joined, Served;
      if |total| >= PAGE * p {
        AnswersJoin(total, p + 1, n - 1);
        assert total[PAGE * (p - 1)..PAGE * p] + total[PAGE * p..] == total[PAGE * (p - 1)..];
      }
    }
  }

  lemma AnswersStep<T>(total: seq<T>, p: nat, n: nat)
    requires 0 < p && PAGE * (p - 1) <= |total| && n > 0
    ensures
      var pages, more := Answers(total, p, n), Answers(total, p + 1, n - 1);
      if |total| < PAGE * p then Ends(pages) && Joined(pages) == total[PAGE * (p - 1)..]
      else (Ends(pages) <==> Ends(more)) && Joined(pages) == total[PAGE * (p - 1)..PAGE * p] + Joined(more)
  {
    var pages := Answers(total, p, n);
    assert pages[0] == Served(total, p) && pages[1..] == Answers(total, p + 1, n - 1);
  }

  /** Over an unchanging list the lookup returns every asset, and refuses exactly those with more than the bound. */
  lemma UnchangingList<T>(total: seq<T>)
    ensures Whole(Answers(total, 1, 4)) == if |total| <= BOUND then Some(total) else None
  {
    AnswersJoin(total, 1, 4);
    assert total[0..] == total;
  }
}
