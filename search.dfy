/** The search box of the profile list (`refresh_profile_list`): the listing is narrowed to
    profiles whose lower-cased name, or whose proxy address or port, contains the
    lower-cased, stripped search term. */
module Search {
  import opened Strings
  import opened ProfileStore

  /** The term as the list uses it: lower-cased, then stripped. */
  function SearchTerm(raw: string): string
  {
    Strip(Lower(raw))
  }

  /** Whether one profile is shown for a non-empty term. */
  predicate Matches(p: Profile, term: string)
  {
    Contains(Lower(p.name), term) || Contains(p.proxy.ip, term) || Contains(p.proxy.port, term)
  }

  /** The comprehension over the listing: the matching profiles, in listing order. */
  function Filter(profiles: seq<Profile>, term: string): (r: seq<Profile>)
    ensures |r| <= |profiles|
    ensures forall p :: p in r <==> p in profiles && Matches(p, term)
  {
    if profiles == [] then []
    else
      var rest := Filter(profiles[1..], term);
      if Matches(profiles[0], term) then [profiles[0]] + rest else rest
  }

  /** `refresh_profile_list`'s selection: every profile for an empty term, the
      matching ones otherwise. */
  function VisibleProfiles(profiles: seq<Profile>, raw: string): seq<Profile>
  {
    var term := SearchTerm(raw);
    if term == [] then profiles else Filter(profiles, term)
  }

  /** Filtering keeps listing order: the filter of a concatenation is the concatenation
      of the filters. */
  lemma {:induction false} FilterAppend(a: seq<Profile>, b: seq<Profile>, term: string)
    ensures Filter(a + b, term) == Filter(a, term) + Filter(b, term)
  {
    if a == [] {
      assert a + b == b;
    } else {
      assert (a + b)[1..] == a[1..] + b;
      FilterAppend(a[1..], b, term);
    }
  }

  /** Filtering twice with the same term changes nothing further. */
  lemma {:induction false} FilterIdempotent(profiles: seq<Profile>, term: string)
    ensures Filter(Filter(profiles, term), term) == Filter(profiles, term)
  {
    if profiles != [] {
      FilterIdempotent(profiles[1..], term);
    }
  }

  /** A blank or all-whitespace search shows the whole listing; otherwise exactly the
      matching profiles are shown, in listing order. */
  lemma VisibleProfilesSpec(profiles: seq<Profile>, raw: string)
    ensures SearchTerm(raw) == [] ==> VisibleProfiles(profiles, raw) == profiles
    ensures forall p :: p in VisibleProfiles(profiles, raw) <==>
      p in profiles && (SearchTerm(raw) == [] || Matches(p, SearchTerm(raw)))
  {
  }

  /** The empty term matches every profile, so filtering by it is the identity. */
  lemma {:induction false} FilterEmptyTerm(profiles: seq<Profile>)
    ensures Filter(profiles, []) == profiles
  {
    if profiles != [] {
      FilterEmptyTerm(profiles[1..]);
      assert Matches(profiles[0], []);
    }
  }
}
