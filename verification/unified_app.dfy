/** The unified app's non-rendering logic: the generated health history and
    its live one-second window, the production-line simulation ticker, the
    production-line search, the saved API keys, the line colour and the
    view reset. The health readings' vital signs come from `Math.random()`
    and are taken as given values. */
module UnifiedApp {
  import opened Wrappers
  import opened LineSearch

  /** The random vital signs of one reading, kept opaque. */
  datatype Vitals = Vitals(overallHealth: real, brainActivity: real, heartRate: real,
                           bloodPressure: real, oxygenSaturation: real)

  /** A reading; `time` is the instant its ISO `timestamp` string renders. */
  datatype Reading = Reading(time: int, vitals: Vitals)

  const MinuteMs: int := 60000

  /** `generateHealthData(count)` with one draw of vital signs per reading.
      The callback reads `Date.now()` afresh for every element, so `nows[i]`
      is the clock value reading `i` sees; it is stamped `(count - i)`
      minutes before that. */
  function GenerateHealthData(nows: seq<int>, draws: seq<Vitals>): (r: seq<Reading>)
    requires |nows| == |draws|
    ensures |r| == |draws|
    ensures forall i :: 0 <= i < |r| ==> r[i].vitals == draws[i]
    ensures forall i :: 0 <= i < |r| ==> r[i].time <= nows[i] - MinuteMs
    ensures |r| > 0 ==> r[|r| - 1].time == nows[|r| - 1] - MinuteMs
    ensures |r| > 0 ==> r[0].time == nows[0] - |r| * MinuteMs
  {
    seq(|draws|, i requires 0 <= i < |draws| => Reading(nows[i] - (|draws| - i) * MinuteMs, draws[i]))
  }

  /** A clock that never goes backwards. */
  predicate NonDecreasing(nows: seq<int>)
  {
    forall a, b :: 0 <= a <= b < |nows| ==> nows[a] <= nows[b]
  }

  /** With a clock that never goes backwards, later readings are at least a
      minute per position later than earlier ones, so the history is in
      strictly increasing time order; readings taken at the same clock
      value are exactly a minute per position apart. */
  lemma GeneratedTimesIncrease(nows: seq<int>, draws: seq<Vitals>, i: int, j: int)
    requires |nows| == |draws| && NonDecreasing(nows)
    requires 0 <= i < j < |draws|
    ensures var r := GenerateHealthData(nows, draws);
      && r[i].time + (j - i) * MinuteMs <= r[j].time
      && r[i].time < r[j].time
      && (nows[i] == nows[j] ==> r[i].time + (j - i) * MinuteMs == r[j].time)
  {
    var r := GenerateHealthData(nows, draws);
    var n := |draws|;
    assert r[i].time == nows[i] - (n - i) * MinuteMs;
    assert r[j].time == nows[j] - (n - j) * MinuteMs;
    assert (n - i) * MinuteMs == (n - j) * MinuteMs + (j - i) * MinuteMs;
    assert nows[i] <= nows[j];
  }

  /** One live tick: `[...prev.slice(1), newData]`. */
  function LiveUpdate(window: seq<Reading>, reading: Reading): (r: seq<Reading>)
    ensures |window| > 0 ==> |r| == |window|
    ensures |window| == 0 ==> r == [reading]
    ensures r[|r| - 1] == reading
    ensures |window| > 0 ==> r[..|r| - 1] == window[1..]
  {
    if |window| == 0 then [reading] else window[1..] + [reading]
  }

  function LiveUpdates(window: seq<Reading>, readings: seq<Reading>): seq<Reading>
    decreases |readings|
  {
    if |readings| == 0 then window else LiveUpdates(LiveUpdate(window, readings[0]), readings[1..])
  }

  /** After k ticks with k no more than the window's length, the window
      holds its last |window| - k readings followed by the k new ones. */
  lemma {:induction false} LiveWindowSlides(window: seq<Reading>, readings: seq<Reading>)
    requires |readings| <= |window|
    ensures LiveUpdates(window, readings) == window[|readings|..] + readings
    decreases |readings|
  {
    if |readings| > 0 {
      var next := LiveUpdate(window, readings[0]);
      LiveWindowSlides(next, readings[1..]);
      assert next[|readings| - 1..] == window[|readings|..] + [readings[0]];
      assert readings == [readings[0]] + readings[1..];
    }
  }

  /** The simulation's state: the running flag, both progress values and
      the number of intervals still running. */
  datatype Simulation = Simulation(running: bool, printing: int, assembly: int, tickers: nat)

  const InitialSimulation: Simulation := Simulation(false, 0, 0, 0)

  /** `toggleSimulation`: flips the flag; starting also resets both values
      and starts a ticker. Pausing leaves the tickers running. */
  function ToggleSimulation(s: Simulation): (r: Simulation)
    ensures r.running == !s.running
    ensures !s.running ==> r.printing == 0 && r.assembly == 0 && r.tickers == s.tickers + 1
    ensures s.running ==> r.printing == s.printing && r.assembly == s.assembly && r.tickers == s.tickers
  {
    if !s.running then Simulation(true, 0, 0, s.tickers + 1) else s.(running := false)
  }

  /** One firing of one ticker every 100 ms: below 100, assembly takes the
      old print value and print grows by one; at 100 both are 100 and the
      ticker stops. The flag is not consulted. */
  function SimulationTick(s: Simulation): (r: Simulation)
    ensures r.running == s.running
    ensures s.tickers == 0 ==> r == s
    ensures s.tickers > 0 && s.printing < 100 ==>
              r.printing == s.printing + 1 && r.assembly == s.printing && r.tickers == s.tickers
    ensures s.tickers > 0 && s.printing >= 100 ==>
              r.printing == 100 && r.assembly == 100 && r.tickers == s.tickers - 1
  {
    if s.tickers == 0 then s
    else if s.printing >= 100 then s.(printing := 100, assembly := 100, tickers := s.tickers - 1)
    else s.(printing := s.printing + 1, assembly := s.printing)
  }

  function SimulationTicks(s: Simulation, n: nat): Simulation
    decreases n
  {
    if n == 0 then s else SimulationTicks(SimulationTick(s), n - 1)
  }

  /** The values after `n` firings of a lone ticker. */
  function LoneTickerValues(n: nat): (int, int)
  {
    if n == 0 then (0, 0) else if n <= 100 then (n, n - 1) else (100, 100)
  }

  /** A lone ticker started by the toggle: assembly trails print by one
      until print reaches 100; one firing later both are 100 and the ticker
      is gone. Pausing in between changes none of this. */
  lemma {:induction false} LoneSimulationTicker(running: bool, n: nat)
    ensures var s := SimulationTicks(Simulation(running, 0, 0, 1), n);
      && (s.printing, s.assembly) == LoneTickerValues(n)
      && s.tickers == (if n <= 100 then 1 else 0)
      && s.running == running
  {
    var k := 0;
    while k < n
      invariant 0 <= k <= n
      invariant SimulationTicks(Simulation(running, 0, 0, 1), n) ==
        SimulationTicks(Simulation(running, LoneTickerValues(k).0, LoneTickerValues(k).1,
                                   if k <= 100 then 1 else 0), n - k)
    {
      k := k + 1;
    }
  }

  /** Within [0, 100], with assembly never ahead of print. */
  predicate SimulationBounds(s: Simulation)
  {
    0 <= s.assembly <= s.printing <= 100
  }

  /** Toggles and firings, in any order and with any number of tickers,
      keep the bounds. */
  lemma SimulationStepsKeepBounds(s: Simulation, toggle: bool)
    requires SimulationBounds(s)
    ensures SimulationBounds(if toggle then ToggleSimulation(s) else SimulationTick(s))
  {
  }

  /** `filteredLines` over the four line names. */
  const ProductionLineNames: seq<string> :=
    ["Electric Vehicle Assembly", "Aerospace Components", "Medical Devices", "Robotics Systems"]

  function FilteredLineNames(term: string): (r: seq<string>)
    ensures forall x :: x in r <==> x in ProductionLineNames && Text.MatchesIgnoringCase(x, term)
  {
    FilterLines(ProductionLineNames, term)
  }

  /** `getLineColor()`: the four lines have their own colour, anything else
      (including no selection) is gray. */
  function LineColor(selected: Option<string>): (colour: string)
    ensures colour != "gray" <==> selected.Some? && selected.value in ProductionLineNames
  {
    match selected
    case Some("Electric Vehicle Assembly") => "blue"
    case Some("Aerospace Components") => "silver"
    case Some("Medical Devices") => "red"
    case Some("Robotics Systems") => "green"
    case _ => "gray"
  }

  /** Distinct lines are drawn in distinct colours. */
  lemma LineColorsDistinct(a: string, b: string)
    requires a in ProductionLineNames && b in ProductionLineNames && a != b
    ensures LineColor(Some(a)) != LineColor(Some(b))
  {
  }

  /** The saved API keys in insertion order, the order
      `Object.entries(apiKeys)` lists them for these non-numeric names. */
  datatype ApiKey = ApiKey(provider: string, key: string)

  function Providers(keys: seq<ApiKey>): (r: seq<string>)
    ensures |r| == |keys|
    ensures forall i :: 0 <= i < |keys| ==> r[i] == keys[i].provider
  {
    if |keys| == 0 then [] else [keys[0].provider] + Providers(keys[1..])
  }

  /** No provider appears twice, as in a JavaScript object. */
  predicate UniqueProviders(keys: seq<ApiKey>)
  {
    forall i, j :: 0 <= i < j < |keys| ==> keys[i].provider != keys[j].provider
  }

  /** The keys as a lookup table. */
  function ToMap(keys: seq<ApiKey>): (m: map<string, string>)
    ensures forall p :: p in m <==> p in Providers(keys)
  {
    if |keys| == 0 then map[] else ToMap(keys[1..])[keys[0].provider := keys[0].key]
  }

  /** `{ ...prev, [provider]: key }`: an existing entry is overwritten in
      place, a new provider is appended. */
  function SetKey(keys: seq<ApiKey>, provider: string, key: string): (r: seq<ApiKey>)
    ensures |r| == if provider in Providers(keys) then |keys| else |keys| + 1
  {
    if |keys| == 0 then [ApiKey(provider, key)]
    else if keys[0].provider == provider then [ApiKey(provider, key)] + keys[1..]
    else [keys[0]] + SetKey(keys[1..], provider, key)
  }

  /** Saving a key sets the selected provider's entry and leaves every other
      provider's entry as it was. */
  lemma {:induction false} SetKeyUpdatesMap(keys: seq<ApiKey>, provider: string, key: string)
    ensures ToMap(SetKey(keys, provider, key)) == ToMap(keys)[provider := key]
    decreases |keys|
  {
    if |keys| > 0 {
      var k := keys[0];
      var rest := ToMap(keys[1..]);
      if k.provider != provider {
        ToMapCons(k, SetKey(keys[1..], provider, key));
        SetKeyUpdatesMap(keys[1..], provider, key);
        UpdatesCommute(rest, provider, key, k.provider, k.key);
      } else {
        ToMapCons(ApiKey(provider, key), keys[1..]);
        UpdateOverrides(rest, provider, k.key, key);
      }
    }
  }

  /** The table of a list is its tail's table with the head's entry set. */
  lemma ToMapCons(k: ApiKey, keys: seq<ApiKey>)
    ensures ToMap([k] + keys) == ToMap(keys)[k.provider := k.key]
  {
    assert ([k] + keys)[1..] == keys;
  }

  /** Setting two different providers' keys in either order gives the same table. */
  lemma UpdatesCommute(m: map<string, string>, a: string, x: string, b: string, y: string)
    requires a != b
    ensures m[a := x][b := y] == m[b := y][a := x]
  {
  }

  /** Setting a provider's key twice keeps only the second. */
  lemma UpdateOverrides(m: map<string, string>, a: string, x: string, y: string)
    ensures m[a := x][a := y] == m[a := y]
  {
  }

  /** The entries after a save: the provider's entry carries the new key,
      every other provider's entry is unchanged, and providers stay unique. */
  lemma {:induction false} SetKeyEntries(keys: seq<ApiKey>, provider: string, key: string)
    requires UniqueProviders(keys)
    ensures var r := SetKey(keys, provider, key);
      && UniqueProviders(r)
      && ApiKey(provider, key) in r
      && (forall e :: e in r && e.provider != provider <==> e in keys && e.provider != provider)
      && (forall e :: e in r && e.provider == provider ==> e.key == key)
  {
    SetKeyMembers(keys, provider, key);
    SetKeyStaysUnique(keys, provider, key);
  }

  /** The tail of a list with unique providers has unique providers. */
  lemma UniqueTail(keys: seq<ApiKey>)
    requires |keys| > 0 && UniqueProviders(keys)
    ensures UniqueProviders(keys[1..])
    ensures forall e :: e in keys[1..] ==> e.provider != keys[0].provider
  {
    forall i, j | 0 <= i < j < |keys| - 1
      ensures keys[1..][i].provider != keys[1..][j].provider
    {
      assert keys[1..][i] == keys[i + 1] && keys[1..][j] == keys[j + 1];
    }
  }

  /** The entries of the list a save produces. */
  lemma {:induction false} SetKeyMembers(keys: seq<ApiKey>, provider: string, key: string)
    requires UniqueProviders(keys)
    ensures var r := SetKey(keys, provider, key);
      && ApiKey(provider, key) in r
      && (forall e :: e in r && e.provider != provider <==> e in keys && e.provider != provider)
      && (forall e :: e in r && e.provider == provider ==> e.key == key)
    decreases |keys|
  {
    if |keys| > 0 {
      assert keys == [keys[0]] + keys[1..];
      UniqueTail(keys);
      if keys[0].provider != provider {
        SetKeyMembers(keys[1..], provider, key);
      }
    }
  }

  /** A save keeps providers unique. */
  lemma {:induction false} SetKeyStaysUnique(keys: seq<ApiKey>, provider: string, key: string)
    requires UniqueProviders(keys)
    ensures UniqueProviders(SetKey(keys, provider, key))
    decreases |keys|
  {
    if |keys| > 0 {
      UniqueTail(keys);
      var r := SetKey(keys, provider, key);
      var tail := r[1..];
      if keys[0].provider != provider {
        SetKeyStaysUnique(keys[1..], provider, key);
        SetKeyMembers(keys[1..], provider, key);
        assert tail == SetKey(keys[1..], provider, key);
      } else {
        assert tail == keys[1..];
      }
      assert forall e :: e in tail ==> e.provider != r[0].provider;
      forall i, j | 0 <= i < j < |r|
        ensures r[i].provider != r[j].provider
      {
        assert r[j] == tail[j - 1];
        if i > 0 {
          assert r[i] == tail[i - 1];
        }
      }
    }
  }

  /** Saving keeps the listing order: existing providers stay where they
      were and a new one comes last. */
  lemma {:induction false} SetKeyKeepsOrder(keys: seq<ApiKey>, provider: string, key: string)
    ensures Providers(SetKey(keys, provider, key)) ==
              if provider in Providers(keys) then Providers(keys) else Providers(keys) + [provider]
    decreases |keys|
  {
    if |keys| > 0 && keys[0].provider != provider {
      SetKeyKeepsOrder(keys[1..], provider, key);
    }
  }

  /** The product view's adjustable state. */
  datatype ProductView = ProductView(exploded: bool, zoom: real, showHologram: bool, capturedImage: Option<string>)

  const PlaceholderImage: string := "/placeholder.svg?height=300&width=300"
  const InitialView: ProductView := ProductView(false, 1.0, false, None)

  /** `handleExplode`. */
  function Explode(v: ProductView): (r: ProductView)
    ensures r.exploded == !v.exploded && r.(exploded := v.exploded) == v
  {
    v.(exploded := !v.exploded)
  }

  /** `handleCapture`. */
  function Capture(v: ProductView): (r: ProductView)
    ensures r.capturedImage.Some? && r.showHologram
    ensures r.exploded == v.exploded && r.zoom == v.zoom
  {
    v.(capturedImage := Some(PlaceholderImage), showHologram := true)
  }

  /** `handleReset`: the view as the page first shows it, whatever came before. */
  function Reset(v: ProductView): (r: ProductView)
    ensures r == InitialView
  {
    ProductView(false, 1.0, false, None)
  }

  /** Resetting forgets explosions and captures. */
  lemma ResetForgets(v: ProductView)
    ensures Reset(Explode(v)) == Reset(Capture(v)) == Reset(v)
    ensures Explode(Explode(v)) == v
  {
  }
}
