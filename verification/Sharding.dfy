/** Duration-balanced pytest shards: weights, heaviest-first greedy packing and validation. */
module Sharding {
  import opened Ordering
  import opened Packing

  type Path = string

  datatype Shard = Shard(files: seq<Path>, estimatedSeconds: real)

  datatype PartitionError =
    | ShardCountNotPositive
    | NoTestFiles
    | MoreShardsThanFiles
    | DuplicateFiles
    | DefaultNotPositive

  datatype Outcome =
    | Partitioned(shards: seq<Shard>, unknownWeight: real)
    | Rejected(error: PartitionError)

  // ----- weights

  predicate RealLe(x: real, y: real) { x <= y }

  /** Nearest-rank 75th percentile. */
  function P75(values: seq<real>): real
    requires values != []
  {
    SortPermutes(values, RealLe);
    Sort(values, RealLe)[(3 * |values| + 3) / 4 - 1]
  }

  function KnownDurations(files: seq<Path>, durations: map<Path, real>): seq<real> {
    if files == [] then []
    else (if files[0] in durations then [durations[files[0]]] else []) + KnownDurations(files[1..], durations)
  }

  function UnknownWeight(files: seq<Path>, durations: map<Path, real>, default: real): real {
    var known := KnownDurations(files, durations);
    if known == [] then default else P75(known)
  }

  function Weight(durations: map<Path, real>, unknown: real, p: Path): real {
    if p in durations then durations[p] else unknown
  }

  function Weights(files: seq<Path>, durations: map<Path, real>, unknown: real): (ws: seq<real>)
    ensures |ws| == |files|
  {
    seq(|files|, i requires 0 <= i < |files| => Weight(durations, unknown, files[i]))
  }

  /** Heavier files first, then by path. */
  predicate Before(durations: map<Path, real>, unknown: real, a: Path, b: Path) {
    var x, y := Weight(durations, unknown, a), Weight(durations, unknown, b);
    x > y || (x == y && TextLe(a, b))
  }

  function BeforeOrder(durations: map<Path, real>, unknown: real): (Path, Path) -> bool {
    (a, b) => Before(durations, unknown, a, b)
  }

  function DispatchOrder(files: seq<Path>, durations: map<Path, real>, unknown: real): (order: seq<Path>)
    ensures multiset(order) == multiset(files) && |order| == |files|
  {
    SortPermutes(files, BeforeOrder(durations, unknown));
    Sort(files, BeforeOrder(durations, unknown))
  }

  /** The files of shard `s`, in dispatch order. */
  function FilesOf(order: seq<Path>, owner: seq<nat>, s: nat): seq<Path>
    requires |order| == |owner|
  {
    if order == [] then []
    else
      var n := |order| - 1;
      FilesOf(order[..n], owner[..n], s) + if owner[n] == s then [order[n]] else []
  }

  predicate HasDuplicates(files: seq<Path>) {
    |set f | f in files| != |files|
  }

  /** The shards greedy packing gives for files already in dispatch order. */
  function Pack(order: seq<Path>, m: nat, ws: seq<real>): (shards: seq<Shard>)
    requires 0 < m && |ws| == |order|
    ensures |shards| == m
  {
    var owner := Greedy(ws, m);
    seq(m, i requires 0 <= i < m => Shard(Sort(FilesOf(order, owner, i), TextLe), Load(ws, owner, i)))
  }

  /** What partitioning must return; the method below computes it in place. */
  function Partition(files: seq<Path>, m: int, durations: map<Path, real>, default: real): Outcome {
    if m <= 0 then Rejected(ShardCountNotPositive)
    else if files == [] then Rejected(NoTestFiles)
    else if m > |files| then Rejected(MoreShardsThanFiles)
    else if HasDuplicates(files) then Rejected(DuplicateFiles)
    else if default <= 0.0 then Rejected(DefaultNotPositive)
    else
      var unknown := UnknownWeight(files, durations, default);
      var order := DispatchOrder(files, durations, unknown);
      Partitioned(Pack(order, m, Weights(order, durations, unknown)), unknown)
  }

  /** A partition is made exactly of a positive number of shards, no more than there are files, of distinct files, with
      a positive default; the first of these that fails is what is reported. */
  lemma PartitionedIff(files: seq<Path>, m: int, durations: map<Path, real>, default: real)
    ensures var outcome, distinct := Partition(files, m, durations, default),
                                     forall i, j :: 0 <= i < j < |files| ==> files[i] != files[j];
            && (outcome.Partitioned? <==> 0 < m <= |files| && distinct && 0.0 < default)
            && (outcome == Rejected(ShardCountNotPositive) <==> m <= 0)
            && (outcome == Rejected(NoTestFiles) <==> 0 < m && |files| == 0)
            && (outcome == Rejected(MoreShardsThanFiles) <==> 0 < |files| < m)
            && (outcome == Rejected(DuplicateFiles) <==> 0 < m <= |files| && !distinct)
            && (outcome == Rejected(DefaultNotPositive) <==> 0 < m <= |files| && distinct && default <= 0.0)
  {
    DuplicatesIff(files);
  }

  lemma {:induction false} DuplicatesIff(files: seq<Path>)
    ensures !HasDuplicates(files) <==> forall i, j :: 0 <= i < j < |files| ==> files[i] != files[j]
    ensures |set f | f in files| <= |files|
  {
    if files != [] {
      var rest := files[1..];
      DuplicatesIff(rest);
      assert (set f | f in files) == (set f | f in rest) + {files[0]};
      assert forall i :: 0 <= i < |rest| ==> rest[i] == files[i + 1];
      if files[0] in rest {
        var k :| 0 <= k < |rest| && rest[k] == files[0];
        assert files[0] == files[k + 1];
      }
    }
  }

  /** The index with the smallest total, the lowest one among ties. */
  method LightestShard(totals: array<real>, ghost ws: seq<real>, ghost owner: seq<nat>) returns (index: nat)
    requires 0 < totals.Length && |ws| == |owner|
    requires forall k: nat :: k < totals.Length ==> totals[k] == Load(ws, owner, k)
    ensures index < totals.Length && index == PickLightest(ws, owner, totals.Length)
  {
    index := 0;
    for k := 1 to totals.Length
      invariant index < k
      invariant index == PickLightest(ws, owner, k)
    {
      if totals[k] < totals[index] {
        index := k;
      }
    }
  }

  method PartitionTestFiles(files: seq<Path>, m: int, durations: map<Path, real>, default: real)
    returns (outcome: Outcome)
    ensures outcome == Partition(files, m, durations, default)
  {
    if m <= 0 { return Rejected(ShardCountNotPositive); }
    if files == [] { return Rejected(NoTestFiles); }
    if m > |files| { return Rejected(MoreShardsThanFiles); }
    if HasDuplicates(files) { return Rejected(DuplicateFiles); }
    if default <= 0.0 { return Rejected(DefaultNotPositive); }
    var unknown := UnknownWeight(files, durations, default);
    var order := DispatchOrder(files, durations, unknown);
    var shards := PackInPlace(order, m, durations, unknown);
    outcome := Partitioned(shards, unknown);
  }

  method PackInPlace(order: seq<Path>, m: nat, durations: map<Path, real>, unknown: real) returns (shards: seq<Shard>)
    requires 0 < m
    ensures shards == Pack(order, m, Weights(order, durations, unknown))
  {
    var shardFiles, shardTotals := Distribute(order, m, durations, unknown);
    shards := [];
    for k := 0 to m
      invariant |shards| == k
      invariant forall j :: 0 <= j < k ==> shards[j] == Shard(Sort(shardFiles[j], TextLe), shardTotals[j])
    {
      shards := shards + [Shard(Sort(shardFiles[k], TextLe), shardTotals[k])];
    }
  }

  method Distribute(order: seq<Path>, m: nat, durations: map<Path, real>, unknown: real)
    returns (shardFiles: array<seq<Path>>, shardTotals: array<real>)
    requires 0 < m
    ensures Packed(shardFiles[..], shardTotals[..], order, Weights(order, durations, unknown), m)
  {
    ghost var ws := Weights(order, durations, unknown);
    hide Packed, Greedy;
    shardFiles := new seq<Path>[m](_ => []);
    shardTotals := new real[m](_ => 0.0);
    NothingPacked(shardFiles[..], shardTotals[..], m);
    assert order[..0] == [] && ws[..0] == [];
    for i := 0 to |order|
      invariant Packed(shardFiles[..], shardTotals[..], order[..i], ws[..i], m)
    {
      TotalsAreLoads(shardFiles[..], shardTotals[..], order[..i], ws[..i], m);
      var index := LightestShard(shardTotals, ws[..i], Greedy(ws[..i], m));
      PackedGrows(shardFiles[..], shardTotals[..], order, ws, i, m);
      ghost var files, totals := shardFiles[..], shardTotals[..];
      shardFiles[index] := shardFiles[index] + [order[i]];
      shardTotals[index] := shardTotals[index] + Weight(durations, unknown, order[i]);
      assert shardFiles[..] == files[index := files[index] + [order[i]]];
      assert shardTotals[..] == totals[index := totals[index] + ws[i]];
    }
    assert ws[..|order|] == ws && order[..|order|] == order;
  }

  lemma TotalsAreLoads(files: seq<seq<Path>>, totals: seq<real>, order: seq<Path>, ws: seq<real>, m: nat)
    requires 0 < m && |order| == |ws| && Packed(files, totals, order, ws, m)
    ensures forall k: nat :: k < m ==> totals[k] == Load(ws, Greedy(ws, m), k)
  {
  }

  /** The per-shard lists and totals after packing `order`. */
  ghost predicate Packed(files: seq<seq<Path>>, totals: seq<real>, order: seq<Path>, ws: seq<real>, m: nat)
    requires 0 < m && |order| == |ws|
  {
    && |files| == |totals| == m
    && forall k: nat :: k < m ==>
         && files[k] == FilesOf(order, Greedy(ws, m), k)
         && totals[k] == Load(ws, Greedy(ws, m), k)
  }

  lemma NothingPacked(files: seq<seq<Path>>, totals: seq<real>, m: nat)
    requires 0 < m && |files| == |totals| == m && forall k: nat :: k < m ==> files[k] == [] && totals[k] == 0.0
    ensures Packed(files, totals, [], [], m)
  {
  }

  lemma PackedGrows(files: seq<seq<Path>>, totals: seq<real>, order: seq<Path>, ws: seq<real>, i: nat, m: nat)
    requires 0 < m && |order| == |ws| && i < |ws|
    requires Packed(files, totals, order[..i], ws[..i], m)
    ensures var s := PickLightest(ws[..i], Greedy(ws[..i], m), m);
            Packed(files[s := files[s] + [order[i]]], totals[s := totals[s] + ws[i]], order[..i + 1], ws[..i + 1], m)
  {
    var owner := Greedy(ws[..i], m);
    var s := PickLightest(ws[..i], owner, m);
    assert ws[..i + 1][..i] == ws[..i] && order[..i + 1][..i] == order[..i];
    assert Greedy(ws[..i + 1], m) == owner + [s];
    assert (owner + [s])[..i] == owner;
  }

  // ----- orders

  lemma RealIsTotalOrder()
    ensures TotalOrder(RealLe)
  {
  }

  lemma BeforeIsTotalOrder(durations: map<Path, real>, unknown: real)
    ensures TotalOrder(BeforeOrder(durations, unknown))
  {
    TextIsTotalOrder();
    var le := BeforeOrder(durations, unknown);
    forall x: Path, y: Path ensures (le(x, y) || le(y, x)) && (le(x, y) && le(y, x) ==> x == y) {
    }
    forall x: Path, y: Path, z: Path | le(x, y) && le(y, z) ensures le(x, z) {
    }
  }

  // ----- nearest-rank P75

  ghost function Below(x: real): real -> real { v => if v < x then 1.0 else 0.0 }

  ghost function UpTo(x: real): real -> real { v => if v <= x then 1.0 else 0.0 }

  lemma {:induction false} CountsInSorted(s: seq<real>, k: nat)
    requires Sorted(s, RealLe) && k < |s|
    ensures SumOf(s, Below(s[k])) <= k as real && (k + 1) as real <= SumOf(s, UpTo(s[k]))
  {
    if k == 0 {
      NoneBelow(s, s[0]);
    } else {
      CountsInSorted(s[1..], k - 1);
    }
  }

  lemma {:induction false} NoneBelow(s: seq<real>, x: real)
    requires forall i :: 0 <= i < |s| ==> x <= s[i]
    ensures SumOf(s, Below(x)) == 0.0 <= SumOf(s, UpTo(x))
    ensures s != [] && s[0] == x ==> 1.0 <= SumOf(s, UpTo(x))
  {
    if s != [] {
      NoneBelow(s[1..], x);
    }
  }

  /** The percentile is one of the values; at least three quarters of the values reach no higher,
      and fewer than three quarters lie strictly below it. */
  lemma P75IsNearestRank(values: seq<real>)
    requires values != []
    ensures P75(values) in values
    ensures 3.0 * |values| as real <= 4.0 * SumOf(values, UpTo(P75(values)))
    ensures 4.0 * SumOf(values, Below(P75(values))) < 3.0 * |values| as real
  {
    hide SumOf, Sort;
    var s, k := Sort(values, RealLe), (3 * |values| + 3) / 4 - 1;
    SortPermutes(values, RealLe);
    RealIsTotalOrder();
    SortSorts(values, RealLe);
    CountsInSorted(s, k);
    SumOfPermutes(values, s, Below(s[k]));
    SumOfPermutes(values, s, UpTo(s[k]));
    assert s[k] in multiset(values);
    assert 3 * |values| <= 4 * (k + 1) && 4 * k < 3 * |values|;
  }

  // ----- exact cover

  /** One at every position of `p`. */
  ghost function Occurrences(order: seq<Path>, p: Path): (r: seq<real>)
    ensures |r| == |order|
  {
    seq(|order|, i requires 0 <= i < |order| => if order[i] == p then 1.0 else 0.0)
  }

  lemma OccurrencesOfPrefix(order: seq<Path>, p: Path, n: nat)
    requires n <= |order|
    ensures Occurrences(order, p)[..n] == Occurrences(order[..n], p)
  {
  }

  /** One more file adds to its shard's count what it adds to the shard's load. */
  lemma OneMoreOccurrence(order: seq<Path>, owner: seq<nat>, s: nat, p: Path)
    requires |order| == |owner| && order != []
    ensures var n := |order| - 1;
            var added: nat := if owner[n] == s && order[n] == p then 1 else 0;
            && multiset(FilesOf(order, owner, s))[p] == multiset(FilesOf(order[..n], owner[..n], s))[p] + added
            && Load(Occurrences(order, p), owner, s) == Load(Occurrences(order[..n], p), owner[..n], s) + added as real
  {
    var n := |order| - 1;
    OccurrencesOfPrefix(order, p, n);
    CountOfAppend(FilesOf(order[..n], owner[..n], s), if owner[n] == s then [order[n]] else [], p);
  }

  lemma {:induction false} OccurrencesInShard(order: seq<Path>, owner: seq<nat>, s: nat, p: Path)
    requires |order| == |owner|
    ensures multiset(FilesOf(order, owner, s))[p] as real == Load(Occurrences(order, p), owner, s)
  {
    if order == [] {
      NoOccurrences(owner, s, p);
    } else {
      hide Load, FilesOf, Occurrences;
      OccurrencesInShard(order[..|order| - 1], owner[..|order| - 1], s, p);
      OneMoreOccurrence(order, owner, s, p);
    }
  }

  lemma NoOccurrences(owner: seq<nat>, s: nat, p: Path)
    requires owner == []
    ensures multiset(FilesOf([], owner, s))[p] as real == Load(Occurrences([], p), owner, s)
  {
  }

  lemma {:induction false} OccurrencesInAll(order: seq<Path>, p: Path)
    ensures multiset(order)[p] as real == Sum(Occurrences(order, p))
  {
    if order != [] {
      var n := |order| - 1;
      OccurrencesInAll(order[..n], p);
      OccurrencesOfPrefix(order, p, n);
      assert order == order[..n] + [order[n]];
    }
  }

  /** All files of all shards, shard by shard. */
  ghost function AllFiles(shards: seq<Shard>): seq<Path> {
    FilesOfFirst(shards, |shards|)
  }

  ghost function FilesOfFirst(shards: seq<Shard>, n: nat): seq<Path>
    requires n <= |shards|
  {
    if n == 0 then [] else FilesOfFirst(shards, n - 1) + shards[n - 1].files
  }

  /** What `validate_partitions` accepts: nothing twice, nothing missing, nothing unexpected. */
  ghost predicate ValidPartition(files: seq<Path>, shards: seq<Shard>) {
    && (forall p :: multiset(AllFiles(shards))[p] <= 1)
    && (forall p :: p in files <==> p in AllFiles(shards))
  }

  lemma {:induction false} OccurrencesInShards(shards: seq<Shard>, order: seq<Path>, owner: seq<nat>, p: Path, n: nat)
    requires |order| == |owner| && n <= |shards|
    requires forall i: nat :: i < |shards| ==> multiset(shards[i].files) == multiset(FilesOf(order, owner, i))
    ensures multiset(FilesOfFirst(shards, n))[p] as real == SumLoads(Occurrences(order, p), owner, n)
  {
    hide Load, FilesOf, Occurrences;
    if n > 0 {
      OccurrencesInShards(shards, order, owner, p, n - 1);
      OccurrencesInShard(order, owner, n - 1, p);
      CountOfAppend(FilesOfFirst(shards, n - 1), shards[n - 1].files, p);
    }
  }

  lemma CountOfAppend(s: seq<Path>, t: seq<Path>, p: Path)
    ensures multiset(s + t)[p] == multiset(s)[p] + multiset(t)[p]
  {
  }

  lemma {:induction false} DistinctCounts(files: seq<Path>)
    ensures |set f | f in files| <= |files|
    ensures !HasDuplicates(files) ==> forall p :: multiset(files)[p] <= 1
  {
    if files != [] {
      var rest := files[1..];
      DistinctCounts(rest);
      assert files == [files[0]] + rest;
      assert (set f | f in files) == (set f | f in rest) + {files[0]};
      if files[0] in rest {
        assert (set f | f in files) == (set f | f in rest);
      } else {
        assert multiset(rest)[files[0]] == 0;
      }
    }
  }

  lemma PackCovers(order: seq<Path>, m: nat, ws: seq<real>)
    requires 0 < m && |ws| == |order|
    ensures multiset(AllFiles(Pack(order, m, ws))) == multiset(order)
  {
    var shards, owner := Pack(order, m, ws), Greedy(ws, m);
    forall i: nat | i < m ensures multiset(shards[i].files) == multiset(FilesOf(order, owner, i)) {
      SortPermutes(FilesOf(order, owner, i), TextLe);
    }
    forall p ensures multiset(AllFiles(shards))[p] == multiset(order)[p] {
      OccurrencesInShards(shards, order, owner, p, m);
      OccurrencesInAll(order, p);
      SumLoadsIsSum(Occurrences(order, p), owner, m);
    }
  }

  lemma SameElements(s: seq<Path>, t: seq<Path>)
    requires multiset(s) == multiset(t)
    ensures |s| == |t| && forall p :: p in s <==> p in t
  {
    assert |multiset(s)| == |s| && |multiset(t)| == |t|;
    forall p ensures p in s <==> p in t {
      assert p in s <==> p in multiset(s);
      assert p in t <==> p in multiset(t);
    }
  }

  /** Every discovered file runs in exactly one shard, so the final validation never fails. */
  lemma PartitionIsExactCover(files: seq<Path>, m: int, durations: map<Path, real>, default: real)
    requires Partition(files, m, durations, default).Partitioned?
    ensures var shards := Partition(files, m, durations, default).shards;
            && |shards| == m
            && multiset(AllFiles(shards)) == multiset(files)
            && ValidPartition(files, shards)
  {
    var unknown := UnknownWeight(files, durations, default);
    var order := DispatchOrder(files, durations, unknown);
    PackCovers(order, m, Weights(order, durations, unknown));
    DistinctCounts(files);
    SameElements(files, AllFiles(Partition(files, m, durations, default).shards));
  }

  // ----- the reported totals, balance, and no idle shard

  ghost function WeightOf(durations: map<Path, real>, unknown: real): Path -> real {
    p => Weight(durations, unknown, p)
  }

  lemma {:induction false} LoadIsSumOfFiles(order: seq<Path>, owner: seq<nat>, s: nat, durations: map<Path, real>,
                                            unknown: real)
    requires |order| == |owner|
    ensures Load(Weights(order, durations, unknown), owner, s)
         == SumOf(FilesOf(order, owner, s), WeightOf(durations, unknown))
  {
    if order != [] {
      var n := |order| - 1;
      LoadIsSumOfFiles(order[..n], owner[..n], s, durations, unknown);
      assert Weights(order, durations, unknown)[..n] == Weights(order[..n], durations, unknown);
      var before := FilesOf(order[..n], owner[..n], s);
      SumOfAppend(before, order[n], WeightOf(durations, unknown));
      assert before + [] == before;
    }
  }

  /** Each shard's estimate is the sum of its own files' weights, and its files are in path order. */
  lemma EstimateIsSumOfFiles(files: seq<Path>, m: int, durations: map<Path, real>, default: real, s: nat)
    requires Partition(files, m, durations, default).Partitioned? && s < m
    ensures var p := Partition(files, m, durations, default);
            && p.shards[s].estimatedSeconds == SumOf(p.shards[s].files, WeightOf(durations, p.unknownWeight))
            && Sorted(p.shards[s].files, TextLe)
  {
    hide UnknownWeight, Greedy, Load, FilesOf, SumOf, Sort, Sorted;
    var unknown := UnknownWeight(files, durations, default);
    var order := DispatchOrder(files, durations, unknown);
    var owner := Greedy(Weights(order, durations, unknown), m);
    var mine := FilesOf(order, owner, s);
    LoadIsSumOfFiles(order, owner, s, durations, unknown);
    SortPermutes(mine, TextLe);
    SumOfPermutes(mine, Sort(mine, TextLe), WeightOf(durations, unknown));
    TextIsTotalOrder();
    SortSorts(mine, TextLe);
  }

  ghost function WeightOn(durations: map<Path, real>, unknown: real, assign: Path -> nat, s: nat): Path -> real {
    f => if assign(f) == s then Weight(durations, unknown, f) else 0.0
  }

  ghost function OwnersUnder(order: seq<Path>, assign: Path -> nat): (owner: seq<nat>)
    ensures |owner| == |order|
  {
    seq(|order|, i requires 0 <= i < |order| => assign(order[i]))
  }

  /** The weight shard `s` would carry if every file `f` ran on shard `assign(f)`. */
  ghost function AssignedLoad(files: seq<Path>, durations: map<Path, real>, unknown: real, assign: Path -> nat,
                              s: nat): real
  {
    SumOf(files, WeightOn(durations, unknown, assign, s))
  }

  lemma {:induction false} LoadOfAssignment(order: seq<Path>, durations: map<Path, real>, unknown: real,
                                            assign: Path -> nat, s: nat)
    ensures Load(Weights(order, durations, unknown), OwnersUnder(order, assign), s)
         == AssignedLoad(order, durations, unknown, assign, s)
  {
    if order != [] {
      var n := |order| - 1;
      LoadOfAssignment(order[..n], durations, unknown, assign, s);
      assert Weights(order, durations, unknown)[..n] == Weights(order[..n], durations, unknown);
      assert OwnersUnder(order, assign)[..n] == OwnersUnder(order[..n], assign);
      assert order[..n] + [order[n]] == order;
      SumOfAppend(order[..n], order[n], WeightOn(durations, unknown, assign, s));
    }
  }

  lemma UnknownWeightPositive(files: seq<Path>, durations: map<Path, real>, default: real)
    requires 0.0 < default && forall p :: p in durations ==> 0.0 < durations[p]
    ensures 0.0 < UnknownWeight(files, durations, default)
  {
    var known := KnownDurations(files, durations);
    KnownPositive(files, durations);
    if known != [] {
      P75IsNearestRank(known);
    }
  }

  lemma {:induction false} KnownPositive(files: seq<Path>, durations: map<Path, real>)
    requires forall p :: p in durations ==> 0.0 < durations[p]
    ensures forall x :: x in KnownDurations(files, durations) ==> 0.0 < x
  {
    if files != [] {
      KnownPositive(files[1..], durations);
    }
  }

  lemma DispatchOrderDescends(files: seq<Path>, durations: map<Path, real>, unknown: real)
    ensures var ws := Weights(DispatchOrder(files, durations, unknown), durations, unknown);
            forall i, j :: 0 <= i < j < |ws| ==> ws[j] <= ws[i]
  {
    BeforeIsTotalOrder(durations, unknown);
    SortSorts(files, BeforeOrder(durations, unknown));
  }

  /** No shard is heavier than `4/3 - 1/(3m)` times the heaviest shard of any other assignment of the
      same files to `m` shards. */
  lemma PartitionIsBalanced(files: seq<Path>, m: int, durations: map<Path, real>, default: real,
                            assign: Path -> nat, limit: real, s: nat)
    requires forall p :: p in durations ==> 0.0 < durations[p]
    requires Partition(files, m, durations, default).Partitioned? && s < m
    requires forall f :: f in files ==> assign(f) < m
    requires var unknown := Partition(files, m, durations, default).unknownWeight;
             forall k: nat :: k < m ==> AssignedLoad(files, durations, unknown, assign, k) <= limit
    ensures Partition(files, m, durations, default).shards[s].estimatedSeconds <= GrahamBound(m, limit)
  {
    hide Load, Greedy, GrahamBound, UnknownWeight;
    var unknown := UnknownWeight(files, durations, default);
    var order := DispatchOrder(files, durations, unknown);
    var ws := Weights(order, durations, unknown);
    UnknownWeightPositive(files, durations, default);
    DispatchOrderDescends(files, durations, unknown);
    var other := OwnersUnder(order, assign);
    forall i | 0 <= i < |order| ensures assign(order[i]) < m {
      assert order[i] in multiset(order);
    }
    forall k: nat | k < m ensures Load(ws, other, k) <= limit {
      LoadOfAssignment(order, durations, unknown, assign, k);
      SumOfPermutes(order, files, WeightOn(durations, unknown, assign, k));
      assert AssignedLoad(files, durations, unknown, assign, k) <= limit;
    }
    LoadNonNegative(ws, other, 0);
    GreedyBound(ws, m, other, limit, s);
  }

  /** With positive durations no shard is left empty. */
  lemma NoShardIsEmpty(files: seq<Path>, m: int, durations: map<Path, real>, default: real, s: nat)
    requires forall p :: p in durations ==> 0.0 < durations[p]
    requires Partition(files, m, durations, default).Partitioned? && s < m
    ensures Partition(files, m, durations, default).shards[s].files != []
    ensures 0.0 < Partition(files, m, durations, default).shards[s].estimatedSeconds
  {
    var unknown := UnknownWeight(files, durations, default);
    var order := DispatchOrder(files, durations, unknown);
    var ws := Weights(order, durations, unknown);
    UnknownWeightPositive(files, durations, default);
    GreedyOpensShards(ws, m);
    EstimateIsSumOfFiles(files, m, durations, default, s);
  }

  // ----- the partition depends only on which files there are

  ghost function Lasting(durations: map<Path, real>, x: real): Path -> real {
    p => if p in durations && durations[p] == x then 1.0 else 0.0
  }

  lemma {:induction false} KnownCounts(s: seq<Path>, durations: map<Path, real>, x: real)
    ensures multiset(KnownDurations(s, durations))[x] as real == SumOf(s, Lasting(durations, x))
  {
    if s != [] {
      KnownCounts(s[1..], durations, x);
    }
  }

  lemma KnownIsMultiset(s: seq<Path>, t: seq<Path>, durations: map<Path, real>)
    requires multiset(s) == multiset(t)
    ensures multiset(KnownDurations(s, durations)) == multiset(KnownDurations(t, durations))
  {
    forall x ensures multiset(KnownDurations(s, durations))[x] == multiset(KnownDurations(t, durations))[x] {
      KnownCounts(s, durations, x);
      KnownCounts(t, durations, x);
      SumOfPermutes(s, t, Lasting(durations, x));
    }
  }

  lemma UnknownWeightIgnoresOrder(s: seq<Path>, t: seq<Path>, durations: map<Path, real>, default: real)
    requires multiset(s) == multiset(t)
    ensures UnknownWeight(s, durations, default) == UnknownWeight(t, durations, default)
  {
    KnownIsMultiset(s, t, durations);
    var ks, kt := KnownDurations(s, durations), KnownDurations(t, durations);
    assert |multiset(ks)| == |ks| && |multiset(kt)| == |kt|;
    RealIsTotalOrder();
    SortCanonical(ks, kt, RealLe);
  }

  lemma DispatchOrderIgnoresOrder(s: seq<Path>, t: seq<Path>, durations: map<Path, real>, unknown: real)
    requires multiset(s) == multiset(t)
    ensures DispatchOrder(s, durations, unknown) == DispatchOrder(t, durations, unknown)
  {
    BeforeIsTotalOrder(durations, unknown);
    SortCanonical(s, t, BeforeOrder(durations, unknown));
  }

  /** Listing the same files in another order changes nothing. */
  lemma PartitionIgnoresInputOrder(s: seq<Path>, t: seq<Path>, m: int, durations: map<Path, real>, default: real)
    requires multiset(s) == multiset(t)
    ensures Partition(s, m, durations, default) == Partition(t, m, durations, default)
  {
    SameElements(s, t);
    assert (set f | f in s) == (set f | f in t);
    assert HasDuplicates(s) == HasDuplicates(t);
    UnknownWeightIgnoresOrder(s, t, durations, default);
    DispatchOrderIgnoresOrder(s, t, durations, UnknownWeight(s, durations, default));
  }
}
