/** The training centre page: a category-grouped production-line search,
    line selection, and a natural-language command whose submission starts
    a 3D-printing progress ticker and, five seconds later, an assembly
    ticker. Each ticker fires every 500 ms and adds 10 until the bar is
    full, then stops on its next firing. */
module TrainingCentre {
  import opened Numbers
  import opened Wrappers
  import opened Text
  import opened LineSearch
  import opened ProgressBadge

  datatype Category = Category(name: string, lines: seq<string>)

  /** The category's lines narrowed to the search term. */
  function Narrow(c: Category, term: string): Category
  {
    Category(c.name, FilterLines(c.lines, term))
  }

  /** Every category narrowed, empty or not, in order. */
  function NarrowAll(cats: seq<Category>, term: string): (r: seq<Category>)
    ensures |r| == |cats|
    ensures forall k :: 0 <= k < |cats| ==> r[k] == Narrow(cats[k], term)
  {
    if |cats| == 0 then [] else [Narrow(cats[0], term)] + NarrowAll(cats[1..], term)
  }

  /** `filteredLines`: each category narrowed to its matching lines, and the
      categories left without lines dropped. */
  function FilterCategories(cats: seq<Category>, term: string): (r: seq<Category>)
    ensures |r| <= |cats|
    ensures forall k :: 0 <= k < |r| ==> |r[k].lines| > 0
    ensures forall d :: d in r <==> d in NarrowAll(cats, term) && |d.lines| > 0
  {
    if |cats| == 0 then []
    else
      var d := Narrow(cats[0], term);
      var rest := FilterCategories(cats[1..], term);
      if |d.lines| > 0 then
        assert forall x :: x in [d] + rest <==> x == d || x in rest;
        [d] + rest
      else rest
  }

  /** A category survives the search exactly when one of its lines matches. */
  lemma CategorySurvives(cats: seq<Category>, term: string, c: Category)
    requires c in cats
    ensures Narrow(c, term) in FilterCategories(cats, term) <==>
              exists line :: line in c.lines && MatchesIgnoringCase(line, term)
  {
    var k :| 0 <= k < |cats| && cats[k] == c;
    assert NarrowAll(cats, term)[k] == Narrow(c, term);
    if exists line :: line in c.lines && MatchesIgnoringCase(line, term) {
      var line :| line in c.lines && MatchesIgnoringCase(line, term);
      assert line in Narrow(c, term).lines;
    }
  }

  /** Surviving categories keep their relative order. */
  lemma {:induction false} FilterCategoriesConcat(a: seq<Category>, b: seq<Category>, term: string)
    ensures FilterCategories(a + b, term) == FilterCategories(a, term) + FilterCategories(b, term)
  {
    if |a| > 0 {
      assert (a + b)[1..] == a[1..] + b;
      FilterCategoriesConcat(a[1..], b, term);
    } else {
      assert a + b == b;
    }
  }

  /** The categories that have at least one line, in order. */
  function WithLines(cats: seq<Category>): (r: seq<Category>)
    ensures forall c :: c in r <==> c in cats && |c.lines| > 0
  {
    if |cats| == 0 then []
    else
      assert cats == [cats[0]] + cats[1..];
      if |cats[0].lines| > 0 then [cats[0]] + WithLines(cats[1..]) else WithLines(cats[1..])
  }

  /** An empty search shows every category that has lines, unchanged. */
  lemma {:induction false} FilterCategoriesEmptyTerm(cats: seq<Category>)
    ensures FilterCategories(cats, "") == WithLines(cats)
  {
    if |cats| > 0 {
      FilterLinesEmptyTerm(cats[0].lines);
      FilterCategoriesEmptyTerm(cats[1..]);
    }
  }

  /** One progress bar and the number of its tickers still running. */
  datatype Bar = Bar(value: int, tickers: nat)

  /** The values a bar takes: a multiple of 10 between 0 and 100. */
  predicate ValidBar(b: Bar)
  {
    0 <= b.value <= 100 && b.value % 10 == 0
  }

  const TickMs: nat := 500
  const AssemblyDelayMs: nat := 5000

  /** One firing of one of the bar's tickers: a full bar stays full and that
      ticker stops; any other bar grows by 10. Without a ticker nothing fires. */
  function BarTick(b: Bar): (r: Bar)
    ensures b.tickers == 0 ==> r == b
    ensures b.tickers > 0 && b.value >= 100 ==> r.value == 100 && r.tickers == b.tickers - 1
    ensures b.tickers > 0 && b.value < 100 ==> r.value == b.value + 10 && r.tickers == b.tickers
    ensures ValidBar(b) ==> ValidBar(r)
  {
    if b.tickers == 0 then b
    else if b.value >= 100 then Bar(100, b.tickers - 1)
    else Bar(b.value + 10, b.tickers)
  }

  datatype Centre = Centre(
    selectedLine: Option<string>,
    command: string,
    printing: Bar,
    assembly: Bar,
    pendingAssemblyStarts: nat)

  const InitialCentre: Centre := Centre(None, "", Bar(0, 0), Bar(0, 0), 0)

  datatype Event =
    | SelectLine(line: string)
    | EditCommand(text: string)
    | Submit
    | PrintTick
    | AssemblyStart
    | AssemblyTick

  predicate ValidCentre(s: Centre)
  {
    ValidBar(s.printing) && ValidBar(s.assembly)
  }

  /** One event. `SelectLine` is `handleLineSelect`; `Submit` is
      `handleCommandSubmit`, which resets both bars, starts a print ticker
      and arms the 5000 ms timeout; `AssemblyStart` is that timeout firing. */
  function Step(s: Centre, e: Event): (r: Centre)
    ensures ValidCentre(s) ==> ValidCentre(r)
    ensures e.SelectLine? ==>
              r.selectedLine == Some(e.line) && r.printing.value == 0 && r.assembly.value == 0
    ensures e.Submit? ==>
              && r.printing == Bar(0, s.printing.tickers + 1) && r.assembly.value == 0
              && r.pendingAssemblyStarts == s.pendingAssemblyStarts + 1
    ensures !e.Submit? && !e.AssemblyStart? ==>
              r.printing.tickers <= s.printing.tickers && r.assembly.tickers <= s.assembly.tickers
  {
    match e
    case SelectLine(line) =>
      s.(selectedLine := Some(line), printing := s.printing.(value := 0), assembly := s.assembly.(value := 0))
    case EditCommand(text) => s.(command := text)
    case Submit =>
      s.(printing := Bar(0, s.printing.tickers + 1), assembly := s.assembly.(value := 0),
         pendingAssemblyStarts := s.pendingAssemblyStarts + 1)
    case PrintTick => s.(printing := BarTick(s.printing))
    case AssemblyStart =>
      if s.pendingAssemblyStarts == 0 then s
      else s.(assembly := s.assembly.(tickers := s.assembly.tickers + 1),
              pendingAssemblyStarts := s.pendingAssemblyStarts - 1)
    case AssemblyTick => s.(assembly := BarTick(s.assembly))
  }

  function Run(s: Centre, events: seq<Event>): Centre
    decreases |events|
  {
    if |events| == 0 then s else Run(Step(s, events[0]), events[1..])
  }

  /** However submissions, selections and tickers interleave, and however
      many tickers run at once, both bars stay multiples of 10 within
      [0, 100]. */
  lemma {:induction false} RunKeepsBarsValid(s: Centre, events: seq<Event>)
    requires ValidCentre(s)
    ensures ValidCentre(Run(s, events))
    decreases |events|
  {
    if |events| > 0 {
      RunKeepsBarsValid(Step(s, events[0]), events[1..]);
    }
  }

  /** `n` firings of the bar's tickers. */
  function Ticks(b: Bar, n: nat): Bar
    decreases n
  {
    if n == 0 then b else Ticks(BarTick(b), n - 1)
  }


  /** A lone ticker started on an empty bar shows 10·n after n firings, is
      full after exactly 10, and stops on the 11th. */
  lemma {:induction false} LoneTicker(n: nat)
    ensures Ticks(Bar(0, 1), n) == Bar(Min(10 * n, 100), if n <= 10 then 1 else 0)
  {
    var k := 0;
    while k < n
      invariant 0 <= k <= n
      invariant Ticks(Bar(0, 1), n) == Ticks(Bar(Min(10 * k, 100), if k <= 10 then 1 else 0), n - k)
    {
      k := k + 1;
    }
  }

  /** The bars `t` ms after a submission in an otherwise quiet page: the
      print ticker has fired once per 500 ms, the assembly ticker once per
      500 ms since the 5000 ms timeout. */
  function PrintAt(t: nat): Bar
  {
    Ticks(Bar(0, 1), t / TickMs)
  }

  function AssemblyAt(t: nat): Bar
  {
    if t < AssemblyDelayMs then Bar(0, 0) else Ticks(Bar(0, 1), (t - AssemblyDelayMs) / TickMs)
  }

  /** Assembly follows print five seconds behind: both badges read
      "Complete" from 5000 ms and 10000 ms after submission respectively,
      and never before. */
  lemma SubmissionTimeline(t: nat)
    ensures PrintAt(t).value == Min(10 * (t / TickMs), 100)
    ensures t >= AssemblyDelayMs ==> AssemblyAt(t).value == PrintAt(t - AssemblyDelayMs).value
    ensures BadgeFor(PrintAt(t).value).text == CompleteText <==> t >= 5000
    ensures BadgeFor(AssemblyAt(t).value).text == CompleteText <==> t >= 10000
  {
    LoneTicker(t / TickMs);
    if t >= AssemblyDelayMs {
      LoneTicker((t - AssemblyDelayMs) / TickMs);
    }
  }

  /** Running two event sequences one after the other. */
  lemma {:induction false} RunConcat(s: Centre, a: seq<Event>, b: seq<Event>)
    ensures Run(s, a + b) == Run(Run(s, a), b)
    decreases |a|
  {
    if |a| > 0 {
      assert (a + b)[1..] == a[1..] + b;
      RunConcat(Step(s, a[0]), a[1..], b);
    } else {
      assert a + b == b;
    }
  }

  /** `n` firings of the print ticker change the print bar only, as `Ticks`. */
  lemma {:induction false} RunPrintTicks(s: Centre, n: nat)
    ensures Run(s, seq(n, _ => PrintTick)) == s.(printing := Ticks(s.printing, n))
    decreases n
  {
    if n > 0 {
      assert seq(n, _ => PrintTick)[1..] == seq(n - 1, _ => PrintTick);
      RunPrintTicks(Step(s, PrintTick), n - 1);
    }
  }

  /** `n` firings of the assembly ticker change the assembly bar only, as `Ticks`. */
  lemma {:induction false} RunAssemblyTicks(s: Centre, n: nat)
    ensures Run(s, seq(n, _ => AssemblyTick)) == s.(assembly := Ticks(s.assembly, n))
    decreases n
  {
    if n > 0 {
      assert seq(n, _ => AssemblyTick)[1..] == seq(n - 1, _ => AssemblyTick);
      RunAssemblyTicks(Step(s, AssemblyTick), n - 1);
    }
  }

  /** Print firings touch only the print bar and assembly events only the
      assembly bar, so their interleaving at equal instants does not matter. */
  lemma PrintCommutesWithAssembly(s: Centre, e: Event)
    requires e.AssemblyStart? || e.AssemblyTick?
    ensures Step(Step(s, PrintTick), e) == Step(Step(s, e), PrintTick)
  {
  }

  /** The event machine agrees with the timeline: after a submission on a
      fresh page, `n` print firings, the 5000 ms timeout and `m` assembly
      firings leave the print bar as `PrintAt(n * 500)` and the assembly bar
      as `AssemblyAt(5000 + m * 500)`. */
  lemma {:induction false} TimelineFollowsEvents(n: nat, m: nat)
    ensures var s := Run(InitialCentre, [Submit] + seq(n, _ => PrintTick) + [AssemblyStart]
                                         + seq(m, _ => AssemblyTick));
      && s.printing == PrintAt(n * TickMs)
      && s.assembly == AssemblyAt(AssemblyDelayMs + m * TickMs)
  {
    var prints := seq(n, _ => PrintTick);
    var ticks := seq(m, _ => AssemblyTick);
    var s1 := Step(InitialCentre, Submit);
    assert Run(InitialCentre, [Submit]) == s1;
    RunConcat(InitialCentre, [Submit], prints);
    RunPrintTicks(s1, n);
    var s2 := Run(InitialCentre, [Submit] + prints);
    assert s2.assembly == Bar(0, 0) && s2.pendingAssemblyStarts == 1;
    RunConcat(InitialCentre, [Submit] + prints, [AssemblyStart]);
    var s3 := Step(s2, AssemblyStart);
    assert Run(s2, [AssemblyStart]) == s3;
    RunConcat(InitialCentre, [Submit] + prints + [AssemblyStart], ticks);
    RunAssemblyTicks(s3, m);
    assert n * TickMs / TickMs == n;
    assert (AssemblyDelayMs + m * TickMs - AssemblyDelayMs) / TickMs == m;
  }
}
