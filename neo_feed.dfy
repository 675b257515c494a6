/** The near-Earth-object endpoints: the week's feed is flattened across
    dates, sorted by estimated maximum diameter (largest first, missing
    diameters counting as 0), counted and cut to 50; the hazardous-object
    listing is passed through with its length. The upstream reply and the
    clock are parameters. */
module NeoFeed {
  import opened Runtime

  /** A near-Earth object, reduced to what the transform reads: its
      `estimated_diameter.kilometers.estimated_diameter_max`, absent when any
      key on that path is missing. */
  datatype Neo = Neo(id: string, estimatedDiameterMaxKm: Option<real>)

  /** The sort key: the maximum diameter, 0 when missing. */
  function SizeKey(n: Neo): (key: real)
    ensures n.estimatedDiameterMaxKm.None? ==> key == 0.0
    ensures n.estimatedDiameterMaxKm.Some? ==> key == n.estimatedDiameterMaxKm.value
  {
    match n.estimatedDiameterMaxKm
    case Some(d) => d
    case None => 0.0
  }

  // ---------------------------------------------------------------- flatten

  /** Total number of objects across all dates. */
  function TotalCount(days: seq<seq<Neo>>): nat
  {
    if |days| == 0 then 0 else TotalCount(days[..|days| - 1]) + |days[|days| - 1]|
  }

  /** The per-date lists joined in the order the feed yields its dates: as
      long as all of them together. */
  function Flatten(days: seq<seq<Neo>>): (all: seq<Neo>)
    ensures |all| == TotalCount(days)
  {
    if |days| == 0 then [] else Flatten(days[..|days| - 1]) + days[|days| - 1]
  }

  /** Flattening distributes over joining the date lists. */
  lemma {:induction false} FlattenAppend(a: seq<seq<Neo>>, b: seq<seq<Neo>>)
    ensures Flatten(a + b) == Flatten(a) + Flatten(b)
    decreases |b|
  {
    if |b| == 0 {
      assert a + b == a;
    } else {
      var b' := b[..|b| - 1];
      assert (a + b)[..|a + b| - 1] == a + b';
      FlattenAppend(a, b');
    }
  }

  /** The flattened list is the first date's list followed by the rest. */
  lemma {:induction false} FlattenCons(days: seq<seq<Neo>>)
    requires |days| > 0
    ensures Flatten(days) == days[0] + Flatten(days[1..])
  {
    assert days == [days[0]] + days[1..];
    FlattenAppend([days[0]], days[1..]);
    assert [days[0]][..0] == [];
  }

  /** Nothing is lost or added: the flattened list holds every object of
      every date, as many times as the dates hold it. */
  lemma {:induction false} FlattenCount(days: seq<seq<Neo>>)
    ensures |Flatten(days)| == TotalCount(days)
    ensures forall i, n :: 0 <= i < |days| && n in days[i] ==> n in Flatten(days)
    ensures forall n :: n in Flatten(days) ==> exists i :: 0 <= i < |days| && n in days[i]
  {
    if |days| != 0 {
      var init, last := days[..|days| - 1], days[|days| - 1];
      FlattenCount(init);
      assert Flatten(days) == Flatten(init) + last;
      forall n | n in Flatten(days)
        ensures exists i :: 0 <= i < |days| && n in days[i]
      {
        if n !in last {
          var j :| 0 <= j < |init| && n in init[j];
          assert n in days[j];
        }
      }
      forall i, n | 0 <= i < |days| && n in days[i]
        ensures n in Flatten(days)
      {
        if i < |days| - 1 {
          assert n in init[i];
        }
      }
    }
  }

  // ---------------------------------------------------------------- sort

  /** Largest diameter first. */
  predicate NonIncreasing(s: seq<Neo>)
  {
    forall i, j :: 0 <= i < j < |s| ==> SizeKey(s[j]) <= SizeKey(s[i])
  }

  /** Places `x` before the first element that is not larger than it, so it
      precedes the equal elements, which came after it in the input. */
  function Insert(x: Neo, s: seq<Neo>): (r: seq<Neo>)
    ensures |r| == |s| + 1
    ensures multiset(r) == multiset(s) + multiset{x}
  {
    if |s| == 0 || SizeKey(s[0]) <= SizeKey(x) then [x] + s
    else
      assert s == [s[0]] + s[1..];
      [s[0]] + Insert(x, s[1..])
  }

  /** `list.sort(key=..., reverse=True)`: Python's sort is stable, and stays
      stable when reversed, so a stable insertion sort from the back of the
      list stands for it. */
  function SortBySizeDescending(s: seq<Neo>): (r: seq<Neo>)
    ensures |r| == |s|
    ensures multiset(r) == multiset(s)
  {
    if |s| == 0 then []
    else
      assert s == [s[0]] + s[1..];
      Insert(s[0], SortBySizeDescending(s[1..]))
  }

  lemma {:induction false} InsertNonIncreasing(x: Neo, s: seq<Neo>)
    requires NonIncreasing(s)
    ensures NonIncreasing(Insert(x, s))
    ensures |s| > 0 ==> Insert(x, s)[0] == x || Insert(x, s)[0] == s[0]
  {
    if |s| != 0 && SizeKey(x) < SizeKey(s[0]) {
      InsertNonIncreasing(x, s[1..]);
      var r := Insert(x, s);
      assert r == [s[0]] + Insert(x, s[1..]);
      forall j | 0 < j < |r|
        ensures SizeKey(r[j]) <= SizeKey(r[0])
      {
        assert r[j] in multiset(Insert(x, s[1..]));
        assert r[j] in multiset(s[1..]) + multiset{x};
        if r[j] != x {
          var k :| 0 <= k < |s[1..]| && s[1..][k] == r[j];
          assert s[k + 1] == r[j];
        }
      }
    }
  }

  /** The sorted list is non-increasing in size. */
  lemma {:induction false} SortedNonIncreasing(s: seq<Neo>)
    ensures NonIncreasing(SortBySizeDescending(s))
  {
    if |s| != 0 {
      SortedNonIncreasing(s[1..]);
      InsertNonIncreasing(s[0], SortBySizeDescending(s[1..]));
    }
  }

  /** The objects of size exactly `size`, in their order. */
  function WithSize(s: seq<Neo>, size: real): seq<Neo>
  {
    if |s| == 0 then []
    else (if SizeKey(s[0]) == size then [s[0]] else []) + WithSize(s[1..], size)
  }

  lemma {:induction false} InsertStable(x: Neo, s: seq<Neo>, size: real)
    requires NonIncreasing(s)
    ensures WithSize(Insert(x, s), size) == WithSize([x] + s, size)
  {
    if |s| != 0 && SizeKey(x) < SizeKey(s[0]) {
      InsertStable(x, s[1..], size);
      var r := Insert(x, s);
      assert r[1..] == Insert(x, s[1..]);
      assert ([x] + s)[1..] == s;
      assert ([x] + s[1..])[1..] == s[1..];
    }
  }

  /** The sort is stable: objects of equal size keep their relative order. */
  lemma {:induction false} SortStable(s: seq<Neo>, size: real)
    ensures WithSize(SortBySizeDescending(s), size) == WithSize(s, size)
  {
    if |s| != 0 {
      SortStable(s[1..], size);
      SortedNonIncreasing(s[1..]);
      InsertStable(s[0], SortBySizeDescending(s[1..]), size);
      var t := SortBySizeDescending(s[1..]);
      assert ([s[0]] + t)[1..] == t;
    }
  }

  // ---------------------------------------------------------------- endpoints

  /** The upstream feed call: the request failed, or a reply with a status
      and, when present, the `near_earth_objects` lists in the order the reply lists its
      dates (dict iteration order). */
  datatype FeedUpstream = FeedUnreachable | FeedReply(status: int, nearEarthObjects: Option<seq<seq<Neo>>>)

  datatype FeedResponse = FeedResponse(count: nat, asteroids: seq<Neo>, source: string, generatedAt: string)

  /** The most objects a feed response lists. */
  const PageSize: nat := 50

  function MinNat(a: nat, b: nat): nat
  {
    if b < a then b else a
  }

  /** `GET /`: flatten the dates, sort largest first, report the full count and
      the first 50. A failed request is a 503; a non-200 status raises a
      HTTPException that the generic handler turns into a 500, losing the
      upstream status. */
  method GetAsteroids(upstream: FeedUpstream, now: string) returns (r: Result<FeedResponse>)
    ensures upstream.FeedUnreachable? ==> r == Err(Http(503, Caused("Service unavailable: ", RequestFailed)))
    ensures upstream.FeedReply? && upstream.status != 200 ==>
      r == Err(Http(500, Caused("Internal server error: ", Http(upstream.status, Text("NASA API error")))))
    ensures upstream.FeedReply? && upstream.status == 200 ==> r.Ok?
    ensures r.Ok? ==>
      var days := if upstream.nearEarthObjects.Some? then upstream.nearEarthObjects.value else [];
      var all := Flatten(days);
      && r.value.count == |all| == TotalCount(days)
      && r.value.asteroids == SortBySizeDescending(all)[..MinNat(|all|, PageSize)]
      && |r.value.asteroids| == MinNat(r.value.count, PageSize)
      && NonIncreasing(r.value.asteroids)
      && multiset(r.value.asteroids) <= multiset(all)
      && r.value.source == "NASA NeoWs API"
      && r.value.generatedAt == now
  {
    match upstream
    case FeedUnreachable =>
      r := Err(Http(503, Caused("Service unavailable: ", RequestFailed)));
    case FeedReply(status, nearEarthObjects) =>
      if status != 200 {
        r := Err(Http(500, Caused("Internal server error: ", Http(status, Text("NASA API error")))));
        return;
      }
      var days := if nearEarthObjects.Some? then nearEarthObjects.value else [];
      var asteroids: seq<Neo> := [];
      var i := 0;
      while i < |days|
        invariant 0 <= i <= |days|
        invariant asteroids == Flatten(days[..i])
      {
        assert days[..i + 1][..i] == days[..i];
        asteroids := asteroids + days[i];
        i := i + 1;
      }
      assert days[..|days|] == days;
      FlattenCount(days);
      PageOfSorted(asteroids);
      asteroids := SortBySizeDescending(asteroids);
      r := Ok(FeedResponse(|asteroids|, asteroids[..MinNat(|asteroids|, PageSize)], "NASA NeoWs API", now));
  }

  /** A prefix of a non-increasing list is non-increasing and holds only
      objects of the list. */
  lemma Prefix(s: seq<Neo>, n: nat)
    requires n <= |s|
    ensures NonIncreasing(s) ==> NonIncreasing(s[..n])
    ensures multiset(s[..n]) <= multiset(s)
  {
    assert s == s[..n] + s[n..];
  }

  /** The page shown is non-increasing and holds only listed objects. */
  lemma PageOfSorted(all: seq<Neo>)
    ensures NonIncreasing(SortBySizeDescending(all)[..MinNat(|all|, PageSize)])
    ensures multiset(SortBySizeDescending(all)[..MinNat(|all|, PageSize)]) <= multiset(all)
  {
    SortedNonIncreasing(all);
    Prefix(SortBySizeDescending(all), MinNat(|all|, PageSize));
  }

  /** The upstream browse call: failed, or a reply with a status and, when
      present, the `near_earth_objects` list. */
  datatype BrowseUpstream = BrowseUnreachable | BrowseReply(status: int, nearEarthObjects: Option<seq<Neo>>)

  datatype HazardousResponse = HazardousResponse(count: nat, asteroids: seq<Neo>, source: string)

  /** `GET /potentially-hazardous`: the list is passed through unchanged with
      its length. The only handler is the generic one, so a failed request
      and a non-200 status both become a 500 whose detail is the error. */
  function GetHazardousAsteroids(upstream: BrowseUpstream): (r: Result<HazardousResponse>)
    ensures r.Ok? <==> upstream.BrowseReply? && upstream.status == 200
    ensures upstream.BrowseUnreachable? ==> r == Err(Http(500, Caused("", RequestFailed)))
    ensures upstream.BrowseReply? && upstream.status != 200 ==>
      r == Err(Http(500, Caused("", Http(upstream.status, Text("NASA API error")))))
    ensures r.Ok? ==>
      && r.value.count == |r.value.asteroids|
      && r.value.asteroids == (if upstream.nearEarthObjects.Some? then upstream.nearEarthObjects.value else [])
      && r.value.source == "NASA NeoWs API - PHAs only"
  {
    match upstream
    case BrowseUnreachable => Err(Http(500, Caused("", RequestFailed)))
    case BrowseReply(status, nearEarthObjects) =>
      if status != 200 then Err(Http(500, Caused("", Http(status, Text("NASA API error")))))
      else
        var neos := if nearEarthObjects.Some? then nearEarthObjects.value else [];
        Ok(HazardousResponse(|neos|, neos, "NASA NeoWs API - PHAs only"))
  }
}
