/** `internal/stats/stats.go`: the summary of a query's samples. For each of the two
    durations of a sample it gives the minimum, the maximum, the mean (Go's truncating
    division), the median of the sorted values, the population dispersion around the
    truncated mean, and its square root. All durations are `time.Duration`
    nanosecond counts. */
module Stats {
  import opened Driver
  import opened Numbers
  import opened Sequences
  import Sorting

  datatype Stats = Stats(
    minServerDuration: int, maxServerDuration: int, meanServerDuration: int,
    medianServerDuration: int, dispersionServerDuration: int, stdDevServerDuration: int,
    minClientDuration: int, maxClientDuration: int, meanClientDuration: int,
    medianClientDuration: int, dispersionClientDuration: int, stdDevClientDuration: int)

  /** The zero value `Stats{}`. */
  const Zero := Stats(0, 0, 0, 0, 0, 0, 0, 0, 0, 0, 0, 0)

  /** Which of the two durations of a sample a statistic is about. */
  datatype Dimension = Server | Client

  function Duration(t: ExecutionTime, d: Dimension): int {
    match d
    case Server => t.serverDuration
    case Client => t.clientDuration
  }

  /** The values of one dimension, in sample order. */
  function Durations(times: seq<ExecutionTime>, d: Dimension): (r: seq<int>)
    ensures |r| == |times|
    ensures forall i :: 0 <= i < |times| ==> r[i] == Duration(times[i], d)
  {
    if times == [] then []
    else Durations(times[..|times| - 1], d) + [Duration(times[|times| - 1], d)]
  }

  lemma DurationsAsMap(times: seq<ExecutionTime>, d: Dimension)
    ensures Durations(times, d) == Map(t => Duration(t, d), times)
  {
  }

  /** Smallest value, kept the way the loop keeps it: a later value replaces the
      current minimum only when it is strictly smaller. */
  function Min(xs: seq<int>): (r: int)
    requires |xs| > 0
    ensures r in xs
    ensures forall i :: 0 <= i < |xs| ==> r <= xs[i]
  {
    if |xs| == 1 then xs[0]
    else
      var m := Min(xs[..|xs| - 1]);
      assert forall i :: 0 <= i < |xs| - 1 ==> xs[..|xs| - 1][i] == xs[i];
      if xs[|xs| - 1] < m then xs[|xs| - 1] else m
  }

  /** Largest value: a later value replaces the current maximum only when it is
      strictly larger. */
  function Max(xs: seq<int>): (r: int)
    requires |xs| > 0
    ensures r in xs
    ensures forall i :: 0 <= i < |xs| ==> xs[i] <= r
  {
    if |xs| == 1 then xs[0]
    else
      var m := Max(xs[..|xs| - 1]);
      assert forall i :: 0 <= i < |xs| - 1 ==> xs[..|xs| - 1][i] == xs[i];
      if xs[|xs| - 1] > m then xs[|xs| - 1] else m
  }

  /** The sum divided by the count, truncated toward zero as Go's `/=` does. */
  function Mean(xs: seq<int>): int
    requires |xs| > 0
  {
    TruncDiv(Sum(xs), |xs|)
  }

  /** The squared deviation of each value from `m`. */
  function Squares(xs: seq<int>, m: int): seq<int> {
    Map(x => (x - m) * (x - m), xs)
  }

  /** The population dispersion: the sum of squared deviations from the truncated mean,
      divided by the count. */
  function Dispersion(xs: seq<int>): (r: int)
    requires |xs| > 0
    ensures r >= 0
  {
    SquaresNonNegative(xs, Mean(xs));
    TruncDiv(Sum(Squares(xs, Mean(xs))), |xs|)
  }

  /** A sum of squares is never negative. */
  lemma SquaresNonNegative(xs: seq<int>, m: int)
    ensures Sum(Squares(xs, m)) >= 0
  {
    var squares := Squares(xs, m);
    forall i | 0 <= i < |xs|
      ensures 0 <= squares[i]
    {
      var d := xs[i] - m;
      assert squares[i] == d * d;
      if d < 0 {
        assert d * d == (-d) * (-d);
      }
    }
    SumLowerBound(squares, 0);
  }

  /** The standard deviation, idealised as the integer square root of the dispersion. */
  function StdDev(xs: seq<int>): (r: nat)
    requires |xs| > 0
    ensures r * r <= Dispersion(xs) < (r + 1) * (r + 1)
  {
    IntSqrt(Dispersion(xs))
  }

  /** The middle of a sequence: the middle element for an odd length, and for an even
      length the lower middle element plus half (truncated) of the gap to the upper
      one, which cannot overflow the way the plain average could. */
  function MiddleOf(s: seq<int>): (r: int)
    requires |s| > 0
    ensures Sorted(s) && |s| % 2 == 1 ==> r == s[|s| / 2]
    ensures Sorted(s) && |s| % 2 == 0 ==> s[|s| / 2 - 1] <= r <= s[|s| / 2]
    ensures Sorted(s) && |s| % 2 == 0 ==> r == (s[|s| / 2 - 1] + s[|s| / 2]) / 2
  {
    var mid := |s| / 2;
    if |s| % 2 == 0 then
      s[mid - 1] + TruncDiv(s[mid] - s[mid - 1], 2)
    else s[mid]
  }

  /** `getMedianDuration` as a function of the values: 0 for no values, otherwise the
      middle of their sorted arrangement. */
  function Median(xs: seq<int>): int {
    if |xs| == 0 then 0 else MiddleOf(SortSeq(xs))
  }

  /** `GetStats` as a function of the samples. */
  function StatsOf(times: seq<ExecutionTime>): (r: Stats)
    ensures |times| == 0 ==> r == Zero
  {
    if |times| == 0 then Zero
    else
      var server, client := Durations(times, Server), Durations(times, Client);
      Stats(Min(server), Max(server), Mean(server), Median(server), Dispersion(server), StdDev(server),
            Min(client), Max(client), Mean(client), Median(client), Dispersion(client), StdDev(client))
  }

  /** One step of the second loop: the squared deviation of one more value is added. */
  lemma SquaresStep(xs: seq<int>, m: int, j: nat, diff: int)
    requires j < |xs| && diff == xs[j] - m
    ensures Sum(Squares(xs[..j + 1], m)) == Sum(Squares(xs[..j], m)) + diff * diff
  {
    assert Squares(xs[..j + 1], m)[..j] == Squares(xs[..j], m);
  }

  /** `getMedianDuration`: copies the chosen duration of every sample into a fresh
      array, sorts the array in place and reads the middle of it. The samples
      themselves are a value and cannot change. */
  method GetMedianDuration(times: seq<ExecutionTime>, d: Dimension) returns (r: int)
    ensures r == Median(Durations(times, d))
  {
    if |times| == 0 {
      return 0;
    }
    var durations := new int[|times|];
    for i := 0 to |times|
      invariant forall k :: 0 <= k < i ==> durations[k] == Duration(times[k], d)
    {
      durations[i] := Duration(times[i], d);
    }
    ghost var values := durations[..];
    assert values == Durations(times, d);
    Sorting.SortByKey(durations, Sorting.Id);
    ghost var sorted := durations[..];
    SortedIsSortSeq(sorted, values);
    r := ReadMiddle(durations);
  }

  /** The middle read of `getMedianDuration` on the sorted array. */
  method ReadMiddle(durations: array<int>) returns (r: int)
    requires durations.Length > 0
    ensures r == MiddleOf(durations[..])
  {
    var mid := durations.Length / 2;
    if durations.Length % 2 == 0 {
      r := durations[mid - 1] + TruncDiv(durations[mid] - durations[mid - 1], 2);
    } else {
      r := durations[mid];
    }
  }

  /** What the in-place sort leaves is the sorted arrangement of the values. */
  lemma SortedIsSortSeq(sorted: seq<int>, values: seq<int>)
    requires Sorting.SortedBy(sorted, Sorting.Id)
    requires multiset(sorted) == multiset(values)
    ensures sorted == SortSeq(values)
  {
    assert Sorted(sorted) by {
      assert Sorting.SortedBy(sorted, Sorting.Id);
    }
    SortedUnique(sorted, SortSeq(values));
  }

  /** The sum of one duration over the first `i` samples, accumulated by index. */
  function SumTo(times: seq<ExecutionTime>, d: Dimension, i: nat): int
    requires i <= |times|
  {
    if i == 0 then 0 else SumTo(times, d, i - 1) + Duration(times[i - 1], d)
  }

  lemma {:induction false} SumToIsSum(times: seq<ExecutionTime>, d: Dimension, i: nat)
    requires i <= |times|
    ensures SumTo(times, d, i) == Sum(Durations(times[..i], d))
  {
    if i > 0 {
      SumToIsSum(times, d, i - 1);
      assert times[..i][..i - 1] == times[..i - 1];
    }
  }

  /** What the first loop knows about one duration after `i` samples: `lo` and `hi`
      are the values of samples `loAt` and `hiAt`, no earlier sample lies outside
      them, and `sum` is the sum so far. */
  ghost predicate Running(times: seq<ExecutionTime>, d: Dimension, i: nat,
                          lo: int, loAt: nat, hi: int, hiAt: nat, sum: int)
  {
    && 1 <= i <= |times| && loAt < i && hiAt < i
    && lo == Duration(times[loAt], d) && hi == Duration(times[hiAt], d)
    && (forall k :: 0 <= k < i ==> lo <= Duration(times[k], d) <= hi)
    && sum == SumTo(times, d, i)
  }

  lemma RunningStart(times: seq<ExecutionTime>, d: Dimension)
    requires |times| > 0
    ensures var x := Duration(times[0], d); Running(times, d, 1, x, 0, x, 0, x)
  {
  }

  /** One iteration: a strictly smaller value becomes the minimum, a strictly larger
      one the maximum, and every value is added to the sum. */
  lemma RunningStep(times: seq<ExecutionTime>, d: Dimension, i: nat,
                    lo: int, loAt: nat, hi: int, hiAt: nat, sum: int,
                    lo': int, loAt': nat, hi': int, hiAt': nat, sum': int)
    requires Running(times, d, i, lo, loAt, hi, hiAt, sum) && i < |times|
    requires var x := Duration(times[i], d);
             && (if x < lo then lo' == x && loAt' == i else lo' == lo && loAt' == loAt)
             && (if x > hi then hi' == x && hiAt' == i else hi' == hi && hiAt' == hiAt)
             && sum' == sum + x
    ensures Running(times, d, i + 1, lo', loAt', hi', hiAt', sum')
  {
  }

  /** After the last sample the loop holds the minimum, the maximum and the sum. */
  lemma RunningDone(times: seq<ExecutionTime>, d: Dimension,
                    lo: int, loAt: nat, hi: int, hiAt: nat, sum: int)
    requires Running(times, d, |times|, lo, loAt, hi, hiAt, sum)
    ensures lo == Min(Durations(times, d)) && hi == Max(Durations(times, d))
    ensures sum == Sum(Durations(times, d))
  {
    var xs := Durations(times, d);
    assert xs[loAt] == lo && xs[hiAt] == hi;
    SumToIsSum(times, d, |times|);
    assert times[..|times|] == times;
  }

  /** The first loop of `GetStats`: starting from the first sample, it keeps the
      running minimum, maximum and sum of both durations. The ghost indices record
      where the current minimum and maximum were found. */
  method ExtremesAndSums(times: seq<ExecutionTime>)
    returns (minServer: int, maxServer: int, sumServer: int, minClient: int, maxClient: int, sumClient: int)
    requires |times| > 0
    ensures var server := Durations(times, Server);
            minServer == Min(server) && maxServer == Max(server) && sumServer == Sum(server)
    ensures var client := Durations(times, Client);
            minClient == Min(client) && maxClient == Max(client) && sumClient == Sum(client)
  {
    minServer, maxServer, sumServer := times[0].serverDuration, times[0].serverDuration, times[0].serverDuration;
    minClient, maxClient, sumClient := times[0].clientDuration, times[0].clientDuration, times[0].clientDuration;
    ghost var minServerAt, maxServerAt, minClientAt, maxClientAt: nat := 0, 0, 0, 0;
    RunningStart(times, Server);
    RunningStart(times, Client);
    var i := 1;
    while i < |times|
      invariant Running(times, Server, i, minServer, minServerAt, maxServer, maxServerAt, sumServer)
      invariant Running(times, Client, i, minClient, minClientAt, maxClient, maxClientAt, sumClient)
      decreases |times| - i
    {
      ghost var server := (minServer, minServerAt, maxServer, maxServerAt, sumServer);
      ghost var client := (minClient, minClientAt, maxClient, maxClientAt, sumClient);
      var t := times[i];
      if t.serverDuration < minServer {
        minServer, minServerAt := t.serverDuration, i;
      }
      if t.serverDuration > maxServer {
        maxServer, maxServerAt := t.serverDuration, i;
      }
      if t.clientDuration < minClient {
        minClient, minClientAt := t.clientDuration, i;
      }
      if t.clientDuration > maxClient {
        maxClient, maxClientAt := t.clientDuration, i;
      }
      sumServer := sumServer + t.serverDuration;
      sumClient := sumClient + t.clientDuration;
      RunningStep(times, Server, i, server.0, server.1, server.2, server.3, server.4,
                  minServer, minServerAt, maxServer, maxServerAt, sumServer);
      RunningStep(times, Client, i, client.0, client.1, client.2, client.3, client.4,
                  minClient, minClientAt, maxClient, maxClientAt, sumClient);
      i := i + 1;
    }
    RunningDone(times, Server, minServer, minServerAt, maxServer, maxServerAt, sumServer);
    RunningDone(times, Client, minClient, minClientAt, maxClient, maxClientAt, sumClient);
  }

  /** The second loop of `GetStats`: the sums of squared deviations of both durations
      from the given means. */
  method SquaredDeviationSums(times: seq<ExecutionTime>, meanServer: int, meanClient: int)
    returns (dispersionServer: int, dispersionClient: int)
    ensures dispersionServer == Sum(Squares(Durations(times, Server), meanServer))
    ensures dispersionClient == Sum(Squares(Durations(times, Client), meanClient))
  {
    ghost var server, client := Durations(times, Server), Durations(times, Client);
    dispersionServer, dispersionClient := 0, 0;
    for j := 0 to |times|
      invariant dispersionServer == Sum(Squares(server[..j], meanServer))
      invariant dispersionClient == Sum(Squares(client[..j], meanClient))
    {
      var t := times[j];
      var serverDurationDiff := t.serverDuration - meanServer;
      SquaresStep(server, meanServer, j, serverDurationDiff);
      dispersionServer := dispersionServer + serverDurationDiff * serverDurationDiff;
      var clientDurationDiff := t.clientDuration - meanClient;
      SquaresStep(client, meanClient, j, clientDurationDiff);
      dispersionClient := dispersionClient + clientDurationDiff * clientDurationDiff;
    }
    assert server[..|times|] == server && client[..|times|] == client;
  }

  /** `GetStats`: the statistics of both dimensions. It returns `Stats{}` for no
      samples; otherwise it runs the two loops of the source (extremes and sums, then
      squared deviations from the truncated means), divides, takes square roots and
      computes the two medians. */
  method GetStats(times: seq<ExecutionTime>) returns (result: Stats)
    ensures result == StatsOf(times)
    ensures |times| == 0 ==> result == Zero
  {
    if |times| == 0 {
      return Zero;
    }
    var n := |times|;
    var minServer, maxServer, meanServer, minClient, maxClient, meanClient := ExtremesAndSums(times);
    meanServer := TruncDiv(meanServer, n);
    meanClient := TruncDiv(meanClient, n);

    var dispersionServer, dispersionClient := SquaredDeviationSums(times, meanServer, meanClient);
    dispersionServer := TruncDiv(dispersionServer, n);
    dispersionClient := TruncDiv(dispersionClient, n);
    assert dispersionServer == Dispersion(Durations(times, Server));
    assert dispersionClient == Dispersion(Durations(times, Client));
    var stdDevServer := IntSqrt(dispersionServer);
    var stdDevClient := IntSqrt(dispersionClient);

    var medianServer := GetMedianDuration(times, Server);
    var medianClient := GetMedianDuration(times, Client);
    result := Stats(minServer, maxServer, meanServer, medianServer, dispersionServer, stdDevServer,
                    minClient, maxClient, meanClient, medianClient, dispersionClient, stdDevClient);
  }

  /** The mean and the median of non-empty values lie between their minimum and their
      maximum. */
  lemma CentresBetween(xs: seq<int>)
    requires |xs| > 0
    ensures Min(xs) <= Mean(xs) <= Max(xs)
    ensures Min(xs) <= Median(xs) <= Max(xs)
  {
    assert Min(xs) <= Mean(xs) <= Max(xs) by {
      SumLowerBound(xs, Min(xs));
      SumUpperBound(xs, Max(xs));
      TruncDivBetween(Sum(xs), |xs|, Min(xs), Max(xs));
    }
    assert Min(xs) <= Median(xs) <= Max(xs) by {
      var s := SortSeq(xs);
      assert |s| == |multiset(s)| == |multiset(xs)| == |xs|;
      var mid := |s| / 2;
      assert s[mid] in multiset(s);
      Bounded(xs, s[mid]);
      if |s| % 2 == 0 {
        assert s[mid - 1] in multiset(s);
        Bounded(xs, s[mid - 1]);
      }
    }
  }

  /** Any of the values lies between their minimum and their maximum. */
  lemma Bounded(xs: seq<int>, v: int)
    requires v in multiset(xs)
    ensures Min(xs) <= v <= Max(xs)
  {
    var k := IndexOf(xs, v);
  }

  /** For non-negative durations Go's truncating mean is the ordinary floor of the
      quotient. */
  lemma MeanOfNonNegative(xs: seq<int>)
    requires |xs| > 0
    requires forall i :: 0 <= i < |xs| ==> 0 <= xs[i]
    ensures Mean(xs) == Sum(xs) / |xs|
  {
    SumLowerBound(xs, 0);
  }

  /** The bounds every summary of at least one sample satisfies, in both dimensions. */
  lemma StatsBounds(times: seq<ExecutionTime>)
    requires |times| > 0
    ensures var r := StatsOf(times);
            && r.minServerDuration <= r.meanServerDuration <= r.maxServerDuration
            && r.minServerDuration <= r.medianServerDuration <= r.maxServerDuration
            && r.minClientDuration <= r.meanClientDuration <= r.maxClientDuration
            && r.minClientDuration <= r.medianClientDuration <= r.maxClientDuration
            && r.dispersionServerDuration >= 0 && r.dispersionClientDuration >= 0
  {
    CentresBetween(Durations(times, Server));
    CentresBetween(Durations(times, Client));
  }

  /** Values that are all equal to `c` have `c` as minimum, maximum, mean and median, and
      no dispersion. */
  lemma ConstantValues(xs: seq<int>, c: int)
    requires |xs| > 0
    requires forall i :: 0 <= i < |xs| ==> xs[i] == c
    ensures Min(xs) == Max(xs) == Mean(xs) == Median(xs) == c
    ensures Dispersion(xs) == 0 && StdDev(xs) == 0
  {
    assert Min(xs) == Max(xs) == c by {
      assert xs[0] == c;
    }
    assert Mean(xs) == c by {
      SumLowerBound(xs, c);
      SumUpperBound(xs, c);
      TruncDivBetween(Sum(xs), |xs|, c, c);
    }
    assert Median(xs) == c by {
      CentresBetween(xs);
    }
    assert Sum(Squares(xs, Mean(xs))) == 0 by {
      NoDeviation(xs, c);
    }
    assert TruncDiv(0, |xs|) == 0;
    assert IntSqrt(0) == 0;
  }

  /** Values all equal to `c` deviate from `c` by nothing. */
  lemma NoDeviation(xs: seq<int>, c: int)
    requires forall i :: 0 <= i < |xs| ==> xs[i] == c
    ensures Sum(Squares(xs, c)) == 0
  {
    var squares := Squares(xs, c);
    forall i | 0 <= i < |xs|
      ensures squares[i] == 0
    {
      var d := xs[i] - c;
      assert d == 0;
      assert squares[i] == d * d;
    }
    SumLowerBound(squares, 0);
    SumUpperBound(squares, 0);
  }

  /** The statistics of one dimension depend only on the multiset of its values. */
  lemma ValuesPermutation(xs: seq<int>, ys: seq<int>)
    requires |xs| > 0
    requires multiset(xs) == multiset(ys)
    ensures |ys| == |xs|
    ensures Min(ys) == Min(xs) && Max(ys) == Max(xs) && Mean(ys) == Mean(xs)
    ensures Median(ys) == Median(xs) && Dispersion(ys) == Dispersion(xs) && StdDev(ys) == StdDev(xs)
  {
    assert |ys| == |multiset(ys)| == |multiset(xs)| == |xs|;
    assert Min(xs) in multiset(ys) && Min(ys) in multiset(xs);
    assert Max(xs) in multiset(ys) && Max(ys) in multiset(xs);
    SumPermutation(xs, ys);
    MapPermutation(x => (x - Mean(xs)) * (x - Mean(xs)), xs, ys);
    SumPermutation(Squares(xs, Mean(xs)), Squares(ys, Mean(ys)));
    SortedUnique(SortSeq(xs), SortSeq(ys));
  }

  /** Reordering the samples changes none of the statistics: the median sorts a copy
      and every other figure is a function of the multiset of values. */
  lemma StatsPermutation(times: seq<ExecutionTime>, reordered: seq<ExecutionTime>)
    requires multiset(times) == multiset(reordered)
    ensures StatsOf(reordered) == StatsOf(times)
  {
    assert |reordered| == |multiset(reordered)| == |multiset(times)| == |times|;
    if |times| > 0 {
      MapPermutation(t => Duration(t, Server), times, reordered);
      MapPermutation(t => Duration(t, Client), times, reordered);
      DurationsAsMap(times, Server);
      DurationsAsMap(times, Client);
      DurationsAsMap(reordered, Server);
      DurationsAsMap(reordered, Client);
      ValuesPermutation(Durations(times, Server), Durations(reordered, Server));
      ValuesPermutation(Durations(times, Client), Durations(reordered, Client));
    }
  }

  /** One second in nanoseconds. */
  const Second := 1_000_000_000

  /** `k` evenly spaced values `c, 2c, …, k·c`. */
  function Ramp(k: nat, c: int): (r: seq<int>)
    ensures |r| == k && forall i :: 0 <= i < k ==> r[i] == c * (i + 1)
  {
    seq(k, i => c * (i + 1))
  }

  lemma {:induction false} RampSum(k: nat, c: int)
    ensures 2 * Sum(Ramp(k, c)) == c * k * (k + 1)
  {
    if k > 0 {
      assert Ramp(k, c)[..k - 1] == Ramp(k - 1, c);
      RampSum(k - 1, c);
      assert c * k * (k + 1) == c * (k - 1) * k + 2 * (c * k);
    }
  }

  /** The samples of the source's test: eleven runs of 1s, 2s, …, 11s, with equal
      client and server durations. */
  function TestTimes(): (r: seq<ExecutionTime>)
    ensures |r| == 11
  {
    seq(11, i => ExecutionTime(Second * (i + 1), Second * (i + 1)))
  }

  lemma RampStats(xs: seq<int>)
    requires xs == Ramp(11, Second)
    ensures Min(xs) == Second && Max(xs) == 11 * Second
    ensures Mean(xs) == 6 * Second && Median(xs) == 6 * Second
  {
    RampSum(11, Second);
    assert Sorted(xs);
    SortedUnique(xs, SortSeq(xs));
  }

  /** The expectations of the source's test: minimum 1s, maximum 11s, mean and median
      6s, for both durations. */
  lemma TestTimesStats()
    ensures var r := StatsOf(TestTimes());
            && r.minServerDuration == Second && r.maxServerDuration == 11 * Second
            && r.meanServerDuration == 6 * Second && r.medianServerDuration == 6 * Second
            && r.minClientDuration == Second && r.maxClientDuration == 11 * Second
            && r.meanClientDuration == 6 * Second && r.medianClientDuration == 6 * Second
  {
    assert Durations(TestTimes(), Server) == Ramp(11, Second);
    assert Durations(TestTimes(), Client) == Ramp(11, Second);
    RampStats(Ramp(11, Second));
  }
}
