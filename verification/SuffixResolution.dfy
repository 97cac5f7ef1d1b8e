/** From a script URL to the file it names (codescan/extract_frontend.go, resolveURL). */
module SuffixResolution {
  import opened Wrappers
  import opened Text

  /** The URL without its first i segments. */
  function Suffix(segs: seq<string>, i: nat): string
    requires i < |segs|
  {
    "/" + Join(segs[i..], '/')
  }

  predicate HasSuffix(s: string, suffix: string) {
    |suffix| <= |s| && s[|s| - |suffix|..] == suffix
  }

  /** The candidates, by position, that end with the URL without its first i segments. */
  function Hits(candidates: seq<string>, segs: seq<string>, i: nat): set<nat>
    requires i < |segs|
  {
    set k: nat | k < |candidates| && HasSuffix(candidates[k], Suffix(segs, i))
  }

  lemma SuffixOfSuffix(segs: seq<string>, i: nat)
    requires i + 1 < |segs|
    ensures HasSuffix(Suffix(segs, i), Suffix(segs, i + 1))
  {
    assert segs[i..][1..] == segs[i + 1..];
    assert Suffix(segs, i) == ("/" + segs[i]) + Suffix(segs, i + 1);
  }

  lemma SuffixTransitive(a: string, b: string, c: string)
    requires HasSuffix(a, b) && HasSuffix(b, c)
    ensures HasSuffix(a, c)
  {
    assert a[|a| - |b|..][|b| - |c|..] == a[|a| - |c|..];
  }

  /** Dropping segments only adds candidates. */
  lemma {:induction false} HitsGrow(candidates: seq<string>, segs: seq<string>, i: nat, j: nat)
    requires i <= j < |segs|
    ensures Hits(candidates, segs, i) <= Hits(candidates, segs, j)
  {
    if i < j {
      HitsGrow(candidates, segs, i, j - 1);
      SuffixOfSuffix(segs, j - 1);
      forall k | k in Hits(candidates, segs, j - 1) ensures k in Hits(candidates, segs, j) {
        SuffixTransitive(candidates[k], Suffix(segs, j - 1), Suffix(segs, j));
      }
    }
  }

  /** Some number of dropped segments leaves exactly candidate k. */
  ghost predicate Singled(candidates: seq<string>, segs: seq<string>, k: nat) {
    exists i: nat :: i < |segs| && Hits(candidates, segs, i) == {k}
  }

  /** i is the fewest segments to drop before any candidate matches: the longest suffix one ends with. */
  ghost predicate FirstMatch(candidates: seq<string>, segs: seq<string>, i: nat) {
    && i < |segs|
    && Hits(candidates, segs, i) != {}
    && forall j: nat :: j < i ==> Hits(candidates, segs, j) == {}
  }

  /** A candidate is singled out by some suffix exactly when it alone ends with the longest suffix any candidate ends with. */
  lemma SingledByTheLongestSuffix(candidates: seq<string>, segs: seq<string>, i: nat, k: nat)
    requires FirstMatch(candidates, segs, i)
    ensures Singled(candidates, segs, k) <==> Hits(candidates, segs, i) == {k}
  {
    if Singled(candidates, segs, k) {
      var j: nat :| j < |segs| && Hits(candidates, segs, j) == {k};
      HitsGrow(candidates, segs, i, j);
      var m :| m in Hits(candidates, segs, i);
      assert m in Hits(candidates, segs, j);
    }
  }

  // ---- in terms of the text ----

  /** The text itself, or what stands behind one of its slashes. */
  ghost predicate IsTail(url: string, tail: string) {
    tail == url || exists front: string :: url == front + "/" + tail
  }

  lemma {:induction false} TailOfSegments(url: string, i: nat)
    requires i < |Split(url, '/')|
    ensures IsTail(url, Join(Split(url, '/')[i..], '/'))
    decreases i
  {
    var segs := Split(url, '/');
    JoinSplit(url, '/');
    if i == 0 {
      assert segs[0..] == segs;
    } else {
      TailOfSegments(url, i - 1);
      var more, tail := Join(segs[i - 1..], '/'), Join(segs[i..], '/');
      assert segs[i - 1..][1..] == segs[i..] && segs[i - 1..][0] == segs[i - 1];
      assert more == segs[i - 1] + "/" + tail;
      if more == url {
        assert url == segs[i - 1] + "/" + tail;
      } else {
        var front: string :| url == front + "/" + more;
        assert url == (front + "/" + segs[i - 1]) + "/" + tail;
      }
    }
  }

  lemma {:induction false} SegmentsOfTail(front: string, tail: string) returns (i: nat)
    ensures i < |Split(front + "/" + tail, '/')| && Split(front + "/" + tail, '/')[i..] == Split(tail, '/')
    decreases |front|
  {
    var url := front + "/" + tail;
    if front == "" {
      assert url[1..] == tail;
      return 1;
    }
    assert url[1..] == front[1..] + "/" + tail && url[0] == front[0];
    i := SegmentsOfTail(front[1..], tail);
    var rest := Split(url[1..], '/');
    if front[0] == '/' {
      assert Split(url, '/')[i + 1..] == rest[i..];
      i := i + 1;
    } else if i == 0 {
      FirstSegmentIsWhole(front[1..], tail);
    } else {
      assert Split(url, '/')[i..] == rest[i..];
    }
  }

  /** Text with a slash has more segments than what stands behind the slash. */
  lemma {:induction false} FirstSegmentIsWhole(front: string, tail: string)
    ensures |Split(front + "/" + tail, '/')| > |Split(tail, '/')|
  {
    var url := front + "/" + tail;
    if front == "" {
      assert url[1..] == tail;
    } else {
      assert url[1..] == front[1..] + "/" + tail;
      FirstSegmentIsWhole(front[1..], tail);
    }
  }

  predicate EndsWithPath(file: string, tail: string) {
    HasSuffix(file, "/" + tail)
  }

  ghost predicate OnlyOneEnds(candidates: seq<string>, tail: string, k: nat) {
    forall j: nat :: j < |candidates| && EndsWithPath(candidates[j], tail) <==> j == k
  }

  /** Singled out means: some tail of the URL, cut at a slash, is the end of this candidate's path and of no other's. */
  lemma SingledMeans(candidates: seq<string>, url: string, k: nat)
    ensures Singled(candidates, Split(url, '/'), k) <==>
      exists tail :: IsTail(url, tail) && OnlyOneEnds(candidates, tail, k)
  {
    var segs := Split(url, '/');
    if Singled(candidates, segs, k) {
      var i: nat :| i < |segs| && Hits(candidates, segs, i) == {k};
      TailOfSegments(url, i);
      HitsEnd(candidates, segs, i, k);
    }
    if tail :| IsTail(url, tail) && OnlyOneEnds(candidates, tail, k) {
      var i: nat := 0;
      if tail != url {
        var front: string :| url == front + "/" + tail;
        i := SegmentsOfTail(front, tail);
      }
      JoinSplit(tail, '/');
      assert Split(tail, '/')[0..] == Split(tail, '/');
      HitsEnd(candidates, segs, i, k);
    }
  }

  lemma HitsEnd(candidates: seq<string>, segs: seq<string>, i: nat, k: nat)
    requires i < |segs|
    ensures Hits(candidates, segs, i) == {k} <==> OnlyOneEnds(candidates, Join(segs[i..], '/'), k)
  {
    var tail := Join(segs[i..], '/');
    assert forall j: nat :: j in Hits(candidates, segs, i) <==> j < |candidates| && EndsWithPath(candidates[j], tail);
    if OnlyOneEnds(candidates, tail, k) {
      assert forall j: nat :: j in Hits(candidates, segs, i) <==> j == k;
    }
  }

  /** One sweep over the candidates. */
  method CountHits(candidates: seq<string>, segs: seq<string>, i: nat) returns (n: nat, hit: nat)
    requires i < |segs|
    ensures n == |Hits(candidates, segs, i)|
    ensures n > 0 ==> hit in Hits(candidates, segs, i)
  {
    var suffix := Suffix(segs, i);
    n, hit := 0, 0;
    ghost var seen: set<nat> := {};
    for k := 0 to |candidates|
      invariant seen == (set m: nat | m < k && HasSuffix(candidates[m], suffix)) && n == |seen|
      invariant n > 0 ==> hit in seen
    {
      if HasSuffix(candidates[k], suffix) {
        seen := seen + {k};
        hit := k;
        n := n + 1;
      }
    }
    assert seen == Hits(candidates, segs, i);
  }

  lemma OneHit(hits: set<nat>, hit: nat)
    requires |hits| == 1 && hit in hits
    ensures hits == {hit}
  {
    assert |hits - {hit}| == 0;
  }

  /**
   `url` is cleaned and cut at its query; `direct` is the file at that very path, if there is one. Otherwise the answer is
   the candidate that some suffix of the URL singles out: giving up at the first ambiguity loses none.
   */
  method ResolveURL(url: string, direct: Option<string>, candidates: seq<string>) returns (file: Option<string>)
    ensures url == "" || url == "." ==> file == None
    ensures url != "" && url != "." && direct.Some? ==> file == direct
    ensures url != "" && url != "." && direct.None? ==>
      && (forall k | 0 <= k < |candidates| && Singled(candidates, Split(url, '/'), k) :: file == Some(candidates[k]))
      && (file.Some? ==> exists k: nat :: k < |candidates| && Singled(candidates, Split(url, '/'), k))
  {
    if url == "" || url == "." {
      return None;
    }
    if direct.Some? {
      return direct;
    }
    var segs := Split(url, '/');
    for i := 0 to |segs|
      invariant forall j: nat :: j < i ==> Hits(candidates, segs, j) == {}
    {
      var n, hit := CountHits(candidates, segs, i);
      if n >= 1 {
        assert FirstMatch(candidates, segs, i);
        forall k: nat ensures Singled(candidates, segs, k) <==> Hits(candidates, segs, i) == {k} {
          SingledByTheLongestSuffix(candidates, segs, i, k);
        }
      }
      if n == 1 {
        OneHit(Hits(candidates, segs, i), hit);
        return Some(candidates[hit]);
      }
      if n > 1 {
        return None;
      }
    }
    return None;
  }
}
