/** The case-insensitive production-line search shared by the training
    centre and the unified app: `lines.filter(line =>
    line.toLowerCase().includes(term.toLowerCase()))`. */
module LineSearch {
  import opened Text

  /** The lines whose name contains the term, ignoring ASCII case, in their
      original order. */
  function FilterLines(lines: seq<string>, term: string): (r: seq<string>)
    ensures |r| <= |lines|
    ensures forall x :: x in r <==> x in lines && MatchesIgnoringCase(x, term)
    ensures forall x :: multiset(r)[x] == if MatchesIgnoringCase(x, term) then multiset(lines)[x] else 0
  {
    if |lines| == 0 then []
    else
      assert lines == [lines[0]] + lines[1..];
      var rest := FilterLines(lines[1..], term);
      if MatchesIgnoringCase(lines[0], term) then [lines[0]] + rest else rest
  }

  /** Filtering distributes over concatenation, so the kept lines keep their
      relative order. */
  lemma {:induction false} FilterLinesConcat(a: seq<string>, b: seq<string>, term: string)
    ensures FilterLines(a + b, term) == FilterLines(a, term) + FilterLines(b, term)
  {
    if |a| > 0 {
      assert (a + b)[1..] == a[1..] + b;
      FilterLinesConcat(a[1..], b, term);
    } else {
      assert a + b == b;
    }
  }

  /** Every line contains the empty term, so an empty search keeps every line. */
  lemma {:induction false} FilterLinesEmptyTerm(lines: seq<string>)
    ensures FilterLines(lines, "") == lines
  {
    if |lines| > 0 {
      IncludesEmpty(Lower(lines[0]));
      assert Lower("") == "";
      FilterLinesEmptyTerm(lines[1..]);
      assert lines == [lines[0]] + lines[1..];
    }
  }

  /** The search does not depend on the case of the term. */
  lemma {:induction false} FilterLinesIgnoresTermCase(lines: seq<string>, term: string)
    ensures FilterLines(lines, Lower(term)) == FilterLines(lines, term)
  {
    LowerIdempotent(term);
    if |lines| > 0 {
      FilterLinesIgnoresTermCase(lines[1..], term);
    }
  }
}
