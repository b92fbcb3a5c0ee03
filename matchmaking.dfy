/** Matchmaking: the Monte-Carlo win count over the candidates' rating beliefs and
    the roulette selection of the two fighters. The Gaussian samples and the
    uniform draws are inputs. */
module Matchmaking {
  import opened Wrappers
  import opened Roster

  ghost predicate StrictlyIncreasing(ks: seq<nat>)
  {
    forall i, j :: 0 <= i < j < |ks| ==> ks[i] < ks[j]
  }

  function InsertKey(ks: seq<nat>, k: nat): (r: seq<nat>)
    requires StrictlyIncreasing(ks)
    ensures StrictlyIncreasing(r)
    ensures forall x :: x in r <==> x in ks || x == k
  {
    if ks == [] then [k]
    else if k < ks[0] then [k] + ks
    else if k == ks[0] then ks
    else
      var rest := InsertKey(ks[1..], k);
      assert forall j :: 0 <= j < |ks| - 1 ==> ks[1..][j] == ks[j + 1] > ks[0];
      assert forall x :: x in ks[1..] ==> x > ks[0];
      assert forall j :: 0 <= j < |rest| ==> rest[j] in rest;
      [ks[0]] + rest
  }

  /** The keys of the distribution object: one per distinct candidate id, in the
      ascending order in which JavaScript enumerates integer-like keys. */
  function Keys(cands: seq<Candidate>): (r: seq<nat>)
    ensures StrictlyIncreasing(r)
    ensures forall k :: k in r <==> exists i :: 0 <= i < |cands| && cands[i].id == k
  {
    if cands == [] then []
    else
      var front := cands[..|cands| - 1];
      assert forall i :: 0 <= i < |front| ==> front[i] == cands[i];
      InsertKey(Keys(front), cands[|cands| - 1].id)
  }

  /** The index of the first maximal sample: `Math.max` of the samples, then the first
      key whose sample equals it. */
  function FirstMax(v: seq<real>): (j: nat)
    requires |v| > 0
    ensures j < |v|
    ensures forall k :: 0 <= k < |v| ==> v[k] <= v[j]
    ensures forall k :: 0 <= k < j ==> v[k] < v[j]
  {
    if |v| == 1 then 0
    else
      var j := FirstMax(v[..|v| - 1]);
      if v[|v| - 1] > v[j] then |v| - 1 else j
  }

  ghost predicate Rectangular(samples: seq<seq<real>>, n: nat)
  {
    forall i :: 0 <= i < |samples| ==> |samples[i]| == n
  }

  /** The win counts, aligned with the keys, after the given iterations: each
      iteration credits the first key holding the largest sample. With no keys at all
      nothing is credited (the source then credits a junk key that can never be
      selected). */
  function Tally(samples: seq<seq<real>>, n: nat): (counts: seq<nat>)
    requires Rectangular(samples, n)
    ensures |counts| == n
  {
    if samples == [] then seq(n, _ => 0)
    else
      var counts := Tally(samples[..|samples| - 1], n);
      if n == 0 then counts
      else
        var w := FirstMax(samples[|samples| - 1]);
        counts[w := counts[w] + 1]
  }

  function Sum(s: seq<nat>): nat
  {
    if s == [] then 0 else Sum(s[..|s| - 1]) + s[|s| - 1]
  }

  lemma {:induction false} SumZeros(n: nat)
    ensures Sum(seq(n, _ => 0)) == 0
  {
    if n > 0 {
      assert seq(n, _ => 0)[..n - 1] == seq(n - 1, _ => 0);
      SumZeros(n - 1);
    }
  }

  lemma {:induction false} SumIncrement(s: seq<nat>, w: nat)
    requires w < |s|
    ensures Sum(s[w := s[w] + 1]) == Sum(s) + 1
  {
    var t := s[w := s[w] + 1];
    if w == |s| - 1 {
      assert t[..|t| - 1] == s[..|s| - 1];
    } else {
      assert t[..|t| - 1] == s[..|s| - 1][w := s[w] + 1];
      SumIncrement(s[..|s| - 1], w);
    }
  }

  /** Every iteration credits exactly one key, so the counts add up to the number of
      iterations (`sampleAmount`). */
  lemma {:induction false} TallySum(samples: seq<seq<real>>, n: nat)
    requires Rectangular(samples, n)
    requires n > 0
    ensures Sum(Tally(samples, n)) == |samples|
  {
    if samples == [] {
      SumZeros(n);
    } else {
      var front := samples[..|samples| - 1];
      TallySum(front, n);
      SumIncrement(Tally(front, n), FirstMax(samples[|samples| - 1]));
    }
  }

  /** The Monte-Carlo loop: one increment per vector of samples. */
  method CountWins(keys: seq<nat>, samples: seq<seq<real>>) returns (counts: seq<nat>)
    requires Rectangular(samples, |keys|)
    ensures counts == Tally(samples, |keys|)
    ensures |keys| > 0 ==> Sum(counts) == |samples|
  {
    counts := seq(|keys|, _ => 0);
    var i := 0;
    while i < |samples|
      invariant i <= |samples|
      invariant counts == Tally(samples[..i], |keys|)
    {
      assert samples[..i + 1][..i] == samples[..i];
      if |keys| > 0 {
        var winner := FirstMax(samples[i]);
        counts := counts[winner := counts[winner] + 1];
      }
      i := i + 1;
    }
    assert samples[..i] == samples;
    if |keys| > 0 {
      TallySum(samples, |keys|);
    }
  }

  /** Roulette selection from the keys at and after the current position, with the
      running sum `acc` of the counts of the non-excluded keys already passed: the first
      non-excluded key at which the running sum reaches `r`. */
  function Roulette(keys: seq<nat>, counts: seq<nat>, excluded: Option<nat>, r: int, acc: int): Option<nat>
    requires |keys| == |counts|
  {
    if keys == [] then None
    else if excluded == Some(keys[0]) then Roulette(keys[1..], counts[1..], excluded, r, acc)
    else if acc + counts[0] >= r then Some(keys[0])
    else Roulette(keys[1..], counts[1..], excluded, r, acc + counts[0])
  }

  /** `randomlySelectFromDistribution(excluded)` with the draw `r`. */
  method RandomlySelectFromDistribution(keys: seq<nat>, counts: seq<nat>, excluded: Option<nat>, r: int)
    returns (key: Option<nat>)
    requires |keys| == |counts|
    ensures key == Roulette(keys, counts, excluded, r, 0)
  {
    var acc := 0;
    var i := 0;
    while i < |keys|
      invariant i <= |keys|
      invariant Roulette(keys, counts, excluded, r, 0) == Roulette(keys[i..], counts[i..], excluded, r, acc)
    {
      if excluded != Some(keys[i]) {
        acc := acc + counts[i];
        if acc >= r {
          return Some(keys[i]);
        }
      }
      i := i + 1;
    }
    return None;
  }

  /** The total count of the keys other than the excluded one. */
  function Mass(keys: seq<nat>, counts: seq<nat>, excluded: Option<nat>): nat
    requires |keys| == |counts|
  {
    if keys == [] then 0
    else (if excluded == Some(keys[0]) then 0 else counts[0]) + Mass(keys[1..], counts[1..], excluded)
  }

  /** The selection is a key of the distribution and never the excluded one. */
  lemma {:induction false} RouletteAvoidsExcluded(keys: seq<nat>, counts: seq<nat>, excluded: Option<nat>, r: int, acc: int)
    requires |keys| == |counts|
    ensures var k := Roulette(keys, counts, excluded, r, acc);
            k.Some? ==> k.value in keys && k != excluded
  {
    if keys != [] {
      RouletteAvoidsExcluded(keys[1..], counts[1..], excluded, r, acc);
      RouletteAvoidsExcluded(keys[1..], counts[1..], excluded, r, acc + counts[0]);
      assert forall x :: x in keys[1..] ==> x in keys;
    }
  }

  /** A draw at most the remaining mass always selects a key; a draw of at least 1
      selects a key with a positive count. */
  lemma {:induction false} RouletteHits(keys: seq<nat>, counts: seq<nat>, excluded: Option<nat>, r: int, acc: int)
    requires |keys| == |counts|
    requires exists i :: 0 <= i < |keys| && Some(keys[i]) != excluded
    requires r <= acc + Mass(keys, counts, excluded)
    ensures var k := Roulette(keys, counts, excluded, r, acc);
            && k.Some?
            && (acc < r ==> exists i :: 0 <= i < |keys| && keys[i] == k.value && counts[i] > 0)
  {
    var k := Roulette(keys, counts, excluded, r, acc);
    if excluded == Some(keys[0]) {
      var i :| 0 <= i < |keys| && Some(keys[i]) != excluded;
      assert keys[1..][i - 1] == keys[i];
      RouletteHits(keys[1..], counts[1..], excluded, r, acc);
      if acc < r {
        var j :| 0 <= j < |keys| - 1 && keys[1..][j] == k.value && counts[1..][j] > 0;
        assert keys[j + 1] == k.value && counts[j + 1] > 0;
      }
    } else if acc + counts[0] < r {
      assert |keys| > 1;
      if forall i :: 0 <= i < |keys| - 1 ==> Some(keys[1..][i]) == excluded {
        MassAllExcluded(keys[1..], counts[1..], excluded);
      }
      RouletteHits(keys[1..], counts[1..], excluded, r, acc + counts[0]);
      var j :| 0 <= j < |keys| - 1 && keys[1..][j] == k.value && counts[1..][j] > 0;
      assert keys[j + 1] == k.value && counts[j + 1] > 0;
    } else {
      assert keys[0] == k.value;
    }
  }

  lemma {:induction false} MassAllExcluded(keys: seq<nat>, counts: seq<nat>, excluded: Option<nat>)
    requires |keys| == |counts|
    requires forall i :: 0 <= i < |keys| ==> Some(keys[i]) == excluded
    ensures Mass(keys, counts, excluded) == 0
  {
    if keys != [] {
      assert Some(keys[0]) == excluded;
      MassAllExcluded(keys[1..], counts[1..], excluded);
    }
  }

  /** A draw beyond the remaining mass selects nothing (`undefined`). */
  lemma {:induction false} RouletteMisses(keys: seq<nat>, counts: seq<nat>, excluded: Option<nat>, r: int, acc: int)
    requires |keys| == |counts|
    requires r > acc + Mass(keys, counts, excluded)
    ensures Roulette(keys, counts, excluded, r, acc) == None
  {
    if keys != [] {
      RouletteMisses(keys[1..], counts[1..], excluded, r, if excluded == Some(keys[0]) then acc else acc + counts[0]);
    }
  }

  /** `distribution[excluded] ?? 0`: the count of a key, 0 for `undefined` or a missing key. */
  function CountOf(keys: seq<nat>, counts: seq<nat>, k: Option<nat>): nat
    requires |keys| == |counts|
  {
    if keys == [] || k.None? then 0
    else if keys[0] == k.value then counts[0]
    else CountOf(keys[1..], counts[1..], k)
  }

  lemma {:induction false} SumFront(s: seq<nat>)
    requires s != []
    ensures Sum(s) == s[0] + Sum(s[1..])
  {
    if |s| > 1 {
      SumFront(s[..|s| - 1]);
      assert s[..|s| - 1][1..] == s[1..][..|s| - 2];
    }
  }

  /** The bound of the source's draw, `sampleAmount - excludedValue`, is exactly the
      remaining mass: all the counts less the excluded key's. */
  lemma {:induction false} MassIsTotalLessExcluded(keys: seq<nat>, counts: seq<nat>, excluded: Option<nat>)
    requires |keys| == |counts|
    requires StrictlyIncreasing(keys)
    ensures Mass(keys, counts, excluded) + CountOf(keys, counts, excluded) == Sum(counts)
  {
    if keys != [] {
      SumFront(counts);
      MassIsTotalLessExcluded(keys[1..], counts[1..], excluded);
      if excluded == Some(keys[0]) {
        NotAKey(keys[1..], counts[1..], keys[0]);
      }
    }
  }

  lemma {:induction false} NotAKey(keys: seq<nat>, counts: seq<nat>, k: nat)
    requires |keys| == |counts|
    requires forall j :: 0 <= j < |keys| ==> keys[j] > k
    ensures CountOf(keys, counts, Some(k)) == 0
  {
    if keys != [] {
      NotAKey(keys[1..], counts[1..], k);
    }
  }

  /** The fighters of a battle: `a` drawn with nothing excluded, then `b` drawn with
      `a`'s key excluded (with nothing excluded when `a` is undefined). */
  function Pairing(cands: seq<Candidate>, samples: seq<seq<real>>, drawA: int, drawB: int): (Option<nat>, Option<nat>)
    requires Rectangular(samples, |Keys(cands)|)
  {
    var keys := Keys(cands);
    var counts := Tally(samples, |keys|);
    var a := Roulette(keys, counts, None, drawA, 0);
    (a, Roulette(keys, counts, a, drawB, 0))
  }

  /** The two fighters are never the same id, and both are ids of the roster. */
  lemma PairingDistinct(cands: seq<Candidate>, samples: seq<seq<real>>, drawA: int, drawB: int)
    requires Rectangular(samples, |Keys(cands)|)
    ensures var (a, b) := Pairing(cands, samples, drawA, drawB);
            && (a.Some? ==> FindIndex(cands, a).Some?)
            && (b.Some? ==> FindIndex(cands, b).Some? && b != a)
  {
    var keys := Keys(cands);
    var counts := Tally(samples, |keys|);
    var a := Roulette(keys, counts, None, drawA, 0);
    RouletteAvoidsExcluded(keys, counts, None, drawA, 0);
    RouletteAvoidsExcluded(keys, counts, a, drawB, 0);
  }

  /** With at least one candidate and a draw for `a` in the source's range
      `0..sampleAmount`, `a` is found; when the roster holds another id and the draw
      for `b` is in `0..sampleAmount - count(a)`, `b` is found as well. */
  lemma PairingFound(cands: seq<Candidate>, samples: seq<seq<real>>, drawA: int, drawB: int)
    requires Rectangular(samples, |Keys(cands)|)
    requires |cands| > 0
    requires 0 <= drawA <= |samples|
    ensures var (a, b) := Pairing(cands, samples, drawA, drawB);
            var keys := Keys(cands);
            && a.Some?
            && (((exists i :: 0 <= i < |cands| && cands[i].id != a.value) &&
                 0 <= drawB <= |samples| - CountOf(keys, Tally(samples, |keys|), a)) ==> b.Some?)
  {
    var keys := Keys(cands);
    var n := |keys|;
    assert cands[0].id in keys;
    var counts := Tally(samples, n);
    TallySum(samples, n);
    MassIsTotalLessExcluded(keys, counts, None);
    RouletteHits(keys, counts, None, drawA, 0);
    var a := Roulette(keys, counts, None, drawA, 0);
    if (exists i :: 0 <= i < |cands| && cands[i].id != a.value) &&
       0 <= drawB <= |samples| - CountOf(keys, counts, a) {
      var i :| 0 <= i < |cands| && cands[i].id != a.value;
      assert cands[i].id in keys;
      var j :| 0 <= j < n && keys[j] == cands[i].id;
      assert Some(keys[j]) != a;
      MassIsTotalLessExcluded(keys, counts, a);
      RouletteHits(keys, counts, a, drawB, 0);
    }
  }

  /** With a single distinct id there is no opponent: `b` is always undefined. */
  lemma PairingSingleId(cands: seq<Candidate>, samples: seq<seq<real>>, drawA: int, drawB: int)
    requires Rectangular(samples, |Keys(cands)|)
    requires forall i :: 0 <= i < |cands| ==> cands[i].id == cands[0].id
    requires 0 <= drawA <= |samples|
    ensures Pairing(cands, samples, drawA, drawB).1 == None
  {
    if cands != [] {
      PairingFound(cands, samples, drawA, drawB);
    }
    var keys := Keys(cands);
    var counts := Tally(samples, |keys|);
    var a := Roulette(keys, counts, None, drawA, 0);
    RouletteAvoidsExcluded(keys, counts, None, drawA, 0);
    RouletteAvoidsExcluded(keys, counts, a, drawB, 0);
  }
}
