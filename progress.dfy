/** The progress page: the trend label computed from the overall wellness of
    the progress entries (`getTrend`), and the grouping of the user's
    assessments by platform (`assessmentsByPlatform`).

    The entries' wellness values are given as reals; parsing them from
    strings is not modelled. */
module Progress {

  // ---------------------------------------------------------------------------
  // The trend

  datatype Trend = Improving | Declining | Stable

  /** The `reduce` sum, adding from the front. */
  function Sum(xs: seq<real>): real {
    if xs == [] then 0.0 else Sum(xs[..|xs| - 1]) + xs[|xs| - 1]
  }

  function Average(xs: seq<real>): real
    requires |xs| > 0
  {
    Sum(xs) / |xs| as real
  }

  function Min(a: nat, b: nat): nat { if a <= b then a else b }

  /** `data.slice(0, 3)`: the first three entries, or all when fewer. */
  function Recent(data: seq<real>): seq<real> {
    data[..Min(3, |data|)]
  }

  /** `data.slice(-3)`: the last three entries, or all when fewer. */
  function Older(data: seq<real>): seq<real> {
    data[|data| - Min(3, |data|)..]
  }

  /** `getTrend(data)`. With fewer than two entries the trend is stable;
      otherwise exactly one label applies: improving when the recent average
      exceeds the older one by more than half a point, declining when it falls
      short by more than half a point, stable within half a point either way. */
  function GetTrend(data: seq<real>): (t: Trend)
    ensures |data| < 2 ==> t == Stable
    ensures |data| >= 2 ==>
      var recentAvg, olderAvg := Average(Recent(data)), Average(Older(data));
      && (t == Improving <==> recentAvg - olderAvg > 0.5)
      && (t == Declining <==> olderAvg - recentAvg > 0.5)
      && (t == Stable <==> -0.5 <= recentAvg - olderAvg <= 0.5)
  {
    if |data| < 2 then Stable
    else
      var recentAvg := Average(Recent(data));
      var olderAvg := Average(Older(data));
      if recentAvg > olderAvg + 0.5 then Improving
      else if recentAvg < olderAvg - 0.5 then Declining
      else Stable
  }

  /** With three entries or fewer both windows are the whole list, so the
      trend is always stable. */
  lemma ShortIsStable(data: seq<real>)
    requires |data| <= 3
    ensures GetTrend(data) == Stable
  {
    if |data| >= 2 {
      assert Recent(data) == data;
      assert Older(data) == data;
    }
  }

  function Reverse<T>(xs: seq<T>): (r: seq<T>)
    ensures |r| == |xs|
  {
    if xs == [] then [] else Reverse(xs[1..]) + [xs[0]]
  }

  lemma {:induction false} ReverseAt<T>(xs: seq<T>, i: nat)
    requires i < |xs|
    ensures Reverse(xs)[i] == xs[|xs| - 1 - i]
  {
    if i < |xs| - 1 {
      ReverseAt(xs[1..], i);
    }
  }

  lemma {:induction false} SumAppend(a: seq<real>, b: seq<real>)
    ensures Sum(a + b) == Sum(a) + Sum(b)
    decreases |b|
  {
    if b == [] {
      assert a + b == a;
    } else {
      var init := b[..|b| - 1];
      assert (a + b)[..|a + b| - 1] == a + init;
      SumAppend(a, init);
    }
  }

  lemma {:induction false} SumReverse(xs: seq<real>)
    ensures Sum(Reverse(xs)) == Sum(xs)
  {
    if xs != [] {
      SumReverse(xs[1..]);
      SumAppend(Reverse(xs[1..]), [xs[0]]);
      assert xs == [xs[0]] + xs[1..];
      SumAppend([xs[0]], xs[1..]);
    }
  }

  /** The recent window of the reversed list is the older window reversed, and
      the other way round. */
  lemma WindowsSwap(data: seq<real>)
    ensures Recent(Reverse(data)) == Reverse(Older(data))
    ensures Older(Reverse(data)) == Reverse(Recent(data))
  {
    var n, k := |data|, Min(3, |data|);
    forall i | 0 <= i < k
      ensures Recent(Reverse(data))[i] == Reverse(Older(data))[i]
    {
      ReverseAt(data, i);
      ReverseAt(Older(data), i);
    }
    forall i | 0 <= i < k
      ensures Older(Reverse(data))[i] == Reverse(Recent(data))[i]
    {
      ReverseAt(data, n - k + i);
      ReverseAt(Recent(data), i);
    }
  }

  /** Reading the history in the opposite order swaps improving and declining
      and keeps stable. */
  lemma TrendReversal(data: seq<real>)
    ensures GetTrend(Reverse(data)) == Improving <==> GetTrend(data) == Declining
    ensures GetTrend(Reverse(data)) == Declining <==> GetTrend(data) == Improving
    ensures GetTrend(Reverse(data)) == Stable <==> GetTrend(data) == Stable
  {
    if |data| >= 2 {
      WindowsSwap(data);
      SumReverse(Recent(data));
      SumReverse(Older(data));
    }
  }

  // ---------------------------------------------------------------------------
  // Grouping by platform

  /** An assessment as the page receives it; only the platform matters here. */
  datatype Assessment = Assessment(id: string, platform: string, overallScore: real)

  /** The assessments of platform `p`, in input order. */
  function OfPlatform(s: seq<Assessment>, p: string): seq<Assessment> {
    if s == [] then []
    else
      var init := OfPlatform(s[..|s| - 1], p);
      if s[|s| - 1].platform == p then init + [s[|s| - 1]] else init
  }

  function PlatformsOf(s: seq<Assessment>): set<string> {
    set i | 0 <= i < |s| :: s[i].platform
  }

  /** The platforms in the order they first occur: the order in which the
      grouping object gains its keys. */
  function FirstAppearance(s: seq<Assessment>): seq<string> {
    if s == [] then []
    else
      var init := FirstAppearance(s[..|s| - 1]);
      var p := s[|s| - 1].platform;
      if p in init then init else init + [p]
  }

  /** The `reduce` over the assessments: a group is created the first time a
      platform is met, and each assessment is pushed onto its platform's
      group. `order` lists the keys in the order they were created. */
  method GroupByPlatform(assessments: seq<Assessment>) returns (groups: map<string, seq<Assessment>>, order: seq<string>)
    ensures groups.Keys == PlatformsOf(assessments)
    ensures forall p :: p in groups ==> groups[p] == OfPlatform(assessments, p)
    ensures order == FirstAppearance(assessments)
  {
    groups := map[];
    order := [];
    var i := 0;
    while i < |assessments|
      invariant 0 <= i <= |assessments|
      invariant groups.Keys == PlatformsOf(assessments[..i])
      invariant forall p :: p in groups ==> groups[p] == OfPlatform(assessments[..i], p)
      invariant order == FirstAppearance(assessments[..i])
      invariant forall p :: p in order <==> p in groups
    {
      var assessment := assessments[i];
      assert assessments[..i + 1] == assessments[..i] + [assessment];
      OfPlatformMembers(assessments[..i], assessment.platform);
      if assessment.platform !in groups {
        groups := groups[assessment.platform := []];
        order := order + [assessment.platform];
      }
      groups := groups[assessment.platform := groups[assessment.platform] + [assessment]];
      i := i + 1;
    }
    assert assessments[..i] == assessments;
  }

  /** A group holds exactly the assessments of its platform. */
  lemma {:induction false} OfPlatformMembers(s: seq<Assessment>, p: string)
    ensures forall x :: x in OfPlatform(s, p) <==> x in s && x.platform == p
    ensures |OfPlatform(s, p)| > 0 <==> p in PlatformsOf(s)
  {
    if s != [] {
      var init := s[..|s| - 1];
      OfPlatformMembers(init, p);
      assert s == init + [s[|s| - 1]];
      assert PlatformsOf(s) == PlatformsOf(init) + {s[|s| - 1].platform};
    }
  }

  /** Grouping keeps input order: the group of a concatenation is the
      concatenation of the groups. */
  lemma {:induction false} OfPlatformAppend(s: seq<Assessment>, t: seq<Assessment>, p: string)
    ensures OfPlatform(s + t, p) == OfPlatform(s, p) + OfPlatform(t, p)
    decreases |t|
  {
    if t == [] {
      assert s + t == s;
    } else {
      var init := t[..|t| - 1];
      assert (s + t)[..|s + t| - 1] == s + init;
      OfPlatformAppend(s, init, p);
    }
  }

  /** The key order lists each platform that occurs, once. */
  lemma {:induction false} FirstAppearanceKeys(s: seq<Assessment>)
    ensures forall p :: p in FirstAppearance(s) <==> p in PlatformsOf(s)
    ensures forall i, j :: 0 <= i < j < |FirstAppearance(s)| ==> FirstAppearance(s)[i] != FirstAppearance(s)[j]
  {
    if s != [] {
      var init := s[..|s| - 1];
      FirstAppearanceKeys(init);
      assert PlatformsOf(s) == PlatformsOf(init) + {s[|s| - 1].platform};
    }
  }

  /** The sizes of the groups named in `ps`. */
  function GroupSizes(s: seq<Assessment>, ps: seq<string>): nat {
    if ps == [] then 0 else GroupSizes(s, ps[..|ps| - 1]) + |OfPlatform(s, ps[|ps| - 1])|
  }

  lemma {:induction false} GroupSizesOther(s: seq<Assessment>, a: Assessment, ps: seq<string>)
    requires a.platform !in ps
    ensures GroupSizes(s + [a], ps) == GroupSizes(s, ps)
  {
    if ps != [] {
      GroupSizesOther(s, a, ps[..|ps| - 1]);
      assert (s + [a])[..|s + [a]| - 1] == s;
    }
  }

  lemma {:induction false} GroupSizesOwn(s: seq<Assessment>, a: Assessment, ps: seq<string>)
    requires a.platform in ps
    requires forall i, j :: 0 <= i < j < |ps| ==> ps[i] != ps[j]
    ensures GroupSizes(s + [a], ps) == GroupSizes(s, ps) + 1
  {
    var init, last := ps[..|ps| - 1], ps[|ps| - 1];
    assert (s + [a])[..|s + [a]| - 1] == s;
    if last == a.platform {
      assert forall i :: 0 <= i < |init| ==> init[i] != last;
      GroupSizesOther(s, a, init);
    } else {
      assert a.platform in init;
      GroupSizesOwn(s, a, init);
    }
  }

  /** Every assessment lands in exactly one group: the group sizes, over the
      keys in creation order, add up to the number of assessments. */
  lemma {:induction false} GroupSizesSum(s: seq<Assessment>)
    ensures GroupSizes(s, FirstAppearance(s)) == |s|
  {
    if s != [] {
      var init, a := s[..|s| - 1], s[|s| - 1];
      assert s == init + [a];
      GroupSizesSum(init);
      FirstAppearanceKeys(init);
      var ps := FirstAppearance(init);
      if a.platform in ps {
        GroupSizesOwn(init, a, ps);
      } else {
        GroupSizesOther(init, a, ps);
        assert (init + [a])[..|init + [a]| - 1] == init;
        assert OfPlatform(init + [a], a.platform) == OfPlatform(init, a.platform) + [a];
        OfPlatformMembers(init, a.platform);
        assert FirstAppearance(s)[..|FirstAppearance(s)| - 1] == ps;
      }
    }
  }
}
