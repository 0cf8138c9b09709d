/**
 * The home page's top-rated section: a copy of the hostel list sorted by
 * rating, highest first, cut to its first four entries.
 */
module HomePage {
  import opened Seqs
  import opened HostelSchema

  /** Ratings never increase along s. */
  predicate ByRatingDesc(s: seq<Hostel>) {
    forall i, j :: 0 <= i < j < |s| ==> s[i].rating >= s[j].rating
  }

  /** Places x into a list sorted by rating, ahead of every entry rated no
      higher, so among equal ratings the earlier hostel stays first. */
  function Insert(x: Hostel, s: seq<Hostel>): seq<Hostel>
    decreases |s|
  {
    if s == [] || s[0].rating <= x.rating then [x] + s
    else [s[0]] + Insert(x, s[1..])
  }

  lemma {:induction false} InsertPermutes(x: Hostel, s: seq<Hostel>)
    ensures multiset(Insert(x, s)) == multiset(s) + multiset{x}
    decreases |s|
  {
    if !(s == [] || s[0].rating <= x.rating) {
      InsertPermutes(x, s[1..]);
      assert s == [s[0]] + s[1..];
    }
  }

  lemma {:induction false} InsertSorted(x: Hostel, s: seq<Hostel>)
    requires ByRatingDesc(s)
    ensures ByRatingDesc(Insert(x, s))
    ensures |Insert(x, s)| == |s| + 1
    ensures Insert(x, s)[0] == if s == [] || s[0].rating <= x.rating then x else s[0]
    decreases |s|
  {
    if !(s == [] || s[0].rating <= x.rating) {
      var rest := Insert(x, s[1..]);
      InsertSorted(x, s[1..]);
      var r := [s[0]] + rest;
      assert rest[0].rating <= s[0].rating;
      forall i, j | 0 <= i < j < |r| ensures r[i].rating >= r[j].rating {
        if i == 0 {
          assert r[j] == rest[j - 1];
          assert rest[0].rating >= rest[j - 1].rating;
        } else {
          assert r[i] == rest[i - 1] && r[j] == rest[j - 1];
        }
      }
    }
  }

  /** The stable sort with comparator `b.rating - a.rating`. */
  function SortByRating(s: seq<Hostel>): (r: seq<Hostel>)
    ensures multiset(r) == multiset(s)
    ensures ByRatingDesc(r)
    decreases |s|
  {
    if s == [] then []
    else
      var rest := SortByRating(s[1..]);
      InsertHead(s, rest);
      Insert(s[0], rest)
  }

  /** Inserting the head into the sorted tail sorts the whole list. */
  lemma InsertHead(s: seq<Hostel>, rest: seq<Hostel>)
    requires s != [] && multiset(rest) == multiset(s[1..]) && ByRatingDesc(rest)
    ensures multiset(Insert(s[0], rest)) == multiset(s)
    ensures ByRatingDesc(Insert(s[0], rest))
  {
    InsertPermutes(s[0], rest);
    InsertSorted(s[0], rest);
    HeadTailMultiset(s);
  }

  lemma HeadTailMultiset<T>(s: seq<T>)
    requires s != []
    ensures multiset(s) == multiset(s[1..]) + multiset{s[0]}
  {
    assert s == [s[0]] + s[1..];
  }

  /** topRatedHostels: at most four hostels, highest rated first, taken from
      the list without repeating any entry more often than it occurs. */
  function TopRated(hostels: seq<Hostel>): (r: seq<Hostel>)
    ensures |r| <= 4 && |r| == if |hostels| < 4 then |hostels| else 4
    ensures ByRatingDesc(r)
    ensures forall h :: h in r ==> h in hostels
    ensures multiset(r) <= multiset(hostels)
  {
    var top := Take(SortByRating(hostels), 4);
    forall h | h in top ensures h in hostels {
      assert h in multiset(top);
    }
    top
  }

  /** A hostel that did not make the top four is rated no higher than any
      that did. */
  lemma {:induction false} LeftOutRatedNoHigher(hostels: seq<Hostel>, h: Hostel)
    requires h in hostels && h !in TopRated(hostels)
    ensures forall t :: t in TopRated(hostels) ==> h.rating <= t.rating
  {
    var sorted := SortByRating(hostels);
    assert h in multiset(sorted);
    var k :| 0 <= k < |sorted| && sorted[k] == h;
    var top := TopRated(hostels);
    assert forall i :: 0 <= i < |top| ==> top[i] == sorted[i] && top[i] in top;
    assert k >= |top|;
    forall t | t in top ensures h.rating <= t.rating {
      var i :| 0 <= i < |top| && top[i] == t;
      assert sorted[i] == t;
    }
  }
}
