/** The pure part of the two site-listing endpoints: which Hub'Eau sites match
    a search term, how `search_sites` ranks them, and how many are returned. */
module Sites {
  import opened Results
  import opened Text
  import opened Lists

  /** A site field as the JSON decoder hands it over: the key may be missing,
      may hold `null`, or may hold a string. */
  datatype Field = Missing | Null | Str(s: string)

  /** A site record, reduced to the four fields the search reads. */
  datatype Site = Site(
    name: Field,      // `libelle_site`
    commune: Field,   // `libelle_commune_site`
    code: Field,      // `code_site`
    river: Field)     // `libelle_cours_eau`

  /** `(site.get(k) or '').lower()`: a missing or null field reads as the
      empty string. */
  function Read(f: Field): (r: string)
    ensures f.Str? ==> r == Lower(f.s)
    ensures !f.Str? ==> r == ""
  {
    if f.Str? then Lower(f.s) else ""
  }

  // ---------------------------------------------------------------------
  // search_sites

  /** The `search_sites` filter: the (lower-cased) term occurs in the name,
      the commune, the code or the river. */
  predicate Matches(site: Site, term: string)
  {
    || Contains(Read(site.name), term)
    || Contains(Read(site.commune), term)
    || Contains(Read(site.code), term)
    || Contains(Read(site.river), term)
  }

  const NamePrefixScore: int := 100
  const NameScore: int := 50
  const RiverScore: int := 25
  const CommuneScore: int := 10

  /** `relevance_score`: 100 when the name starts with the term, else 50 when
      it contains it; plus 25 for the river and 10 for the commune. The code is
      not scored. */
  function RelevanceScore(site: Site, term: string): (score: int)
    ensures 0 <= score <= NamePrefixScore + RiverScore + CommuneScore
  {
    var name, river, commune := Read(site.name), Read(site.river), Read(site.commune);
    (if Contains(name, term) then (if StartsWith(name, term) then NamePrefixScore else NameScore) else 0)
    + (if Contains(river, term) then RiverScore else 0)
    + (if Contains(commune, term) then CommuneScore else 0)
  }

  /** The matching sites, best score first, ties in input order. */
  function Ranked(sites: seq<Site>, term: string): seq<Site>
  {
    SortDesc(Filter(sites, s => Matches(s, term)), s => RelevanceScore(s, term))
  }

  /** `search_sites` after the request: filter with the lower-cased term, sort
      by relevance, truncate to `limit`. */
  function SearchSites(sites: seq<Site>, searchTerm: string, limit: int): (r: seq<Site>)
    ensures var n := |Ranked(sites, Lower(searchTerm))|;
      && (limit >= 0 ==> |r| == if limit < n then limit else n)
      && (limit < 0 ==> |r| == if -limit < n then n + limit else 0)
    ensures r == Ranked(sites, Lower(searchTerm))[..|r|]
    ensures forall s :: s in r ==> s in sites && Matches(s, Lower(searchTerm))
  {
    var ranked := Ranked(sites, Lower(searchTerm));
    RankedMembers(sites, Lower(searchTerm));
    var r := Take(ranked, limit);
    assert forall s :: s in r ==> s in ranked;
    r
  }

  /** Only matching sites are ranked. */
  lemma RankedMembers(sites: seq<Site>, term: string)
    ensures forall s :: s in Ranked(sites, term) ==> s in sites && Matches(s, term)
  {
    var filtered := Filter(sites, s => Matches(s, term));
    forall s | s in Ranked(sites, term)
      ensures s in sites && Matches(s, term)
    {
      assert s in multiset(Ranked(sites, term));
      assert s in multiset(filtered);
      assert s in filtered;
    }
  }

  /** The score determines which fields matched: it is at least 100 exactly
      when the name starts with the term, at least 50 exactly when the name
      contains it, its remainder modulo 50 is at least 25 exactly when the
      river contains it, and its remainder modulo 25 is 10 exactly when the
      commune contains it. */
  lemma ScoreDecodes(site: Site, term: string)
    ensures var score := RelevanceScore(site, term);
      && (score >= 100 <==> StartsWith(Read(site.name), term))
      && (score >= 50 <==> Contains(Read(site.name), term))
      && (score % 50 >= 25 <==> Contains(Read(site.river), term))
      && (score % 25 == 10 <==> Contains(Read(site.commune), term))
  {
    var name := Read(site.name);
    if StartsWith(name, term) {
      StartsWithContains(name, term);
    }
    var a := if Contains(name, term) then (if StartsWith(name, term) then NamePrefixScore else NameScore) else 0;
    var r := if Contains(Read(site.river), term) then RiverScore else 0;
    var c := if Contains(Read(site.commune), term) then CommuneScore else 0;
    assert RelevanceScore(site, term) == a + r + c;
    ScoreParts(a, r, c);
  }

  /** The three parts of a score can be read back from their sum. */
  lemma ScoreParts(a: int, r: int, c: int)
    requires a == 0 || a == NameScore || a == NamePrefixScore
    requires r == 0 || r == RiverScore
    requires c == 0 || c == CommuneScore
    ensures a + r + c >= 100 <==> a == NamePrefixScore
    ensures a + r + c >= 50 <==> a != 0
    ensures (a + r + c) % 50 >= 25 <==> r == RiverScore
    ensures (a + r + c) % 25 == 10 <==> c == CommuneScore
  {
    var q := a / 50;
    assert a == 50 * q && 0 <= q <= 2;
    assert (a + r + c) % 50 == r + c;
    assert (r + c) % 25 == c;
  }

  /** A site that matches only through its code is kept but scores zero. */
  lemma CodeOnlyMatch(site: Site, term: string)
    requires Contains(Read(site.code), term)
    requires !Contains(Read(site.name), term) && !Contains(Read(site.commune), term)
    requires !Contains(Read(site.river), term)
    ensures Matches(site, term)
    ensures RelevanceScore(site, term) == 0
  {
  }

  /** The ranking keeps exactly the matching sites, each as often as it was
      listed. */
  lemma RankedKeepsMatches(sites: seq<Site>, term: string, s: Site)
    ensures multiset(Ranked(sites, term))[s] == if Matches(s, term) then multiset(sites)[s] else 0
  {
    FilterMultiset(sites, x => Matches(x, term), s);
  }

  /** Results come best score first. */
  lemma SearchOrdered(sites: seq<Site>, searchTerm: string, limit: int, i: nat, j: nat)
    requires i < j
    ensures var r, term := SearchSites(sites, searchTerm, limit), Lower(searchTerm);
      j < |r| ==> RelevanceScore(r[i], term) >= RelevanceScore(r[j], term)
  {
    var term := Lower(searchTerm);
    SortDescSorted(Filter(sites, s => Matches(s, term)), s => RelevanceScore(s, term));
  }

  /** Sites of equal score keep their input order: among the ranked sites of
      any one score, the order is the order of the input. */
  lemma RankedStable(sites: seq<Site>, term: string, k: int)
    ensures var key := s => RelevanceScore(s, term);
      WithKey(Ranked(sites, term), key, k) == WithKey(Filter(sites, s => Matches(s, term)), key, k)
  {
    SortDescStable(Filter(sites, s => Matches(s, term)), s => RelevanceScore(s, term), k);
  }

  /** With a limit no smaller than the number of sites nothing is cut: every
      matching site is returned. */
  lemma NothingCut(sites: seq<Site>, searchTerm: string, limit: int)
    requires limit >= |sites|
    ensures SearchSites(sites, searchTerm, limit) == Ranked(sites, Lower(searchTerm))
  {
  }

  /** An empty term matches every site with the same top score, so the first
      `limit` sites come back in their original order. */
  lemma EmptySearchKeepsOrder(sites: seq<Site>, limit: int)
    ensures SearchSites(sites, "", limit) == Take(sites, limit)
  {
    var term := Lower("");
    assert term == "";
    forall s | s in sites
      ensures Matches(s, term) && RelevanceScore(s, term) == 135
    {
      EmptyEverywhere(Read(s.name));
      EmptyEverywhere(Read(s.river));
      EmptyEverywhere(Read(s.commune));
    }
    FilterAll(sites, s => Matches(s, term));
    SortDescOfSorted(sites, s => RelevanceScore(s, term));
  }

  lemma {:induction false} FilterAll<T>(s: seq<T>, p: T -> bool)
    requires forall x :: x in s ==> p(x)
    ensures Filter(s, p) == s
  {
    if |s| > 0 {
      FilterAll(s[1..], p);
      assert [s[0]] + s[1..] == s;
    }
  }

  // ---------------------------------------------------------------------
  // get_sites

  /** The `get_sites` filter as it should be: the (lower-cased) term occurs
      in the name, the commune or the code. The river is not consulted. */
  predicate Listed(site: Site, term: string)
  {
    || Contains(Read(site.name), term)
    || Contains(Read(site.commune), term)
    || Contains(Read(site.code), term)
  }

  /** The sites `get_sites` keeps before truncating: all of them for an
      empty term, otherwise the listed ones in their upstream order. */
  function Listing(sites: seq<Site>, searchTerm: string): (r: seq<Site>)
    ensures |r| <= |sites|
    ensures forall s :: s in r ==> s in sites
    ensures searchTerm != "" ==> forall s :: s in r ==> Listed(s, Lower(searchTerm))
  {
    if searchTerm == "" then sites else Filter(sites, s => Listed(s, Lower(searchTerm)))
  }

  /** `get_sites` after the request, with null fields read as empty: the
      first `limit` sites of the listing, as `s[:limit]` counts them. */
  function GetSites(sites: seq<Site>, searchTerm: string, limit: int): (r: seq<Site>)
    ensures var n := |Listing(sites, searchTerm)|;
      && (limit >= 0 ==> |r| == if limit < n then limit else n)
      && (limit < 0 ==> |r| == if -limit < n then n + limit else 0)
    ensures r == Listing(sites, searchTerm)[..|r|]
    ensures forall s :: s in r ==> s in sites
    ensures searchTerm != "" ==> forall s :: s in r ==> Listed(s, Lower(searchTerm))
  {
    var r := Take(Listing(sites, searchTerm), limit);
    assert forall s :: s in r ==> s in Listing(sites, searchTerm);
    r
  }

  /** With a limit no smaller than the number of sites nothing is cut: every
      listed site is returned, as often as upstream sent it, and no other. */
  lemma GetSitesKeepsListed(sites: seq<Site>, searchTerm: string, limit: int, s: Site)
    requires searchTerm != "" && limit >= |sites|
    ensures multiset(GetSites(sites, searchTerm, limit))[s]
      == if Listed(s, Lower(searchTerm)) then multiset(sites)[s] else 0
  {
    FilterMultiset(sites, x => Listed(x, Lower(searchTerm)), s);
  }

  /** An empty search term returns the first `limit` sites unchanged. */
  lemma GetSitesEmptyTerm(sites: seq<Site>, limit: int)
    requires limit >= 0
    ensures GetSites(sites, "", limit) == sites[..if limit < |sites| then limit else |sites|]
  {
  }

  /** The river takes no part in `get_sites`: changing it never changes
      whether a site is listed. */
  lemma GetSitesIgnoresRiver(site: Site, river: Field, term: string)
    ensures Listed(site.(river := river), term) == Listed(site, term)
  {
  }

  /** The two endpoints agree except for the river: a site is found by
      `search_sites` exactly when `get_sites` lists it or its river matches. */
  lemma SearchExtendsList(site: Site, term: string)
    ensures Matches(site, term) <==> Listed(site, term) || Contains(Read(site.river), term)
  {
  }

  /** What `site.get(k, '').lower()` does: a missing key reads as the empty
      string, a string is lower-cased, and `null` has no `lower` and raises. */
  function ReadAsWritten(f: Field): (r: Result<string, Field>)
    ensures r.Failure? <==> f == Null
    ensures r.Success? ==> r.value == Read(f)
  {
    match f
    case Missing => Success("")
    case Null => Failure(Null)
    case Str(s) => Success(Lower(s))
  }

  /** The `get_sites` test of one site as written: the fields are read in
      order and the `or` stops at the first match, so a null field raises
      only if the fields before it did not match. */
  function ListedAsWritten(site: Site, term: string): (r: Result<bool, Field>)
    ensures r.Success? && r.value ==> Listed(site, term)
  {
    match ReadAsWritten(site.name)
    case Failure(e) => Failure(e)
    case Success(name) =>
      if Contains(name, term) then Success(true)
      else match ReadAsWritten(site.commune)
        case Failure(e) => Failure(e)
        case Success(commune) =>
          if Contains(commune, term) then Success(true)
          else match ReadAsWritten(site.code)
            case Failure(e) => Failure(e)
            case Success(code) => Success(Contains(code, term))
  }

  /** The `get_sites` loop as written: the first site whose test raises
      aborts the whole request. */
  function FilterAsWritten(sites: seq<Site>, term: string): (r: Result<seq<Site>, Field>)
    ensures r.Success? ==> forall s :: s in r.value ==> s in sites && Listed(s, term)
    ensures r.Failure? ==> exists i :: 0 <= i < |sites| && ListedAsWritten(sites[i], term).Failure?
  {
    if |sites| == 0 then Success([])
    else match ListedAsWritten(sites[0], term)
      case Failure(e) => Failure(e)
      case Success(keep) =>
        match FilterAsWritten(sites[1..], term)
        case Failure(e) => Failure(e)
        case Success(rest) => Success((if keep then [sites[0]] else []) + rest)
  }

  /** `get_sites` after the request, as written. */
  function GetSitesAsWritten(sites: seq<Site>, searchTerm: string, limit: int): (r: Result<seq<Site>, Field>)
    ensures searchTerm == "" ==> r == Success(Take(sites, limit))
  {
    if searchTerm == "" then Success(Take(sites, limit))
    else match FilterAsWritten(sites, Lower(searchTerm))
      case Failure(e) => Failure(e)
      case Success(listed) => Success(Take(listed, limit))
  }

  /** No null fields. */
  predicate NullFree(site: Site)
  {
    site.name != Null && site.commune != Null && site.code != Null
  }

  /** On sites without null fields the code as written and the corrected
      filter agree. */
  lemma {:induction false} AsWrittenAgreesWithoutNulls(sites: seq<Site>, term: string)
    requires forall i :: 0 <= i < |sites| ==> NullFree(sites[i])
    ensures FilterAsWritten(sites, term) == Success(Filter(sites, s => Listed(s, term)))
  {
    if |sites| > 0 {
      assert forall i :: 0 <= i < |sites[1..]| ==> NullFree(sites[1..][i]);
      AsWrittenAgreesWithoutNulls(sites[1..], term);
    }
  }

  /** A site whose name is null makes the request fail for any non-empty
      term, while the corrected filter goes on to the other fields. Here the
      site is found through its commune. */
  lemma NullNameAborts()
    ensures var site := Site(Null, Str("Grenoble"), Str("W1410010"), Missing);
      && GetSitesAsWritten([site], "gre", 100).Failure?
      && GetSites([site], "gre", 100) == [site]
  {
    var site := Site(Null, Str("Grenoble"), Str("W1410010"), Missing);
    assert Lower("gre") == "gre";
    assert Read(site.commune) == "grenoble";
    assert StartsWith(Read(site.commune), "gre");
    StartsWithContains(Read(site.commune), "gre");
    assert Filter([site], s => Listed(s, "gre")) == [site];
  }
}
