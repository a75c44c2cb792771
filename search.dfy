/** The tolerant shuttle filter (`filteredEVs`): a case-insensitive search
    over title and route, restricted to routes from the selected origin. */
module Search {
  import opened Text
  import opened Fleet

  /** The separator between a route's origin and its destination. */
  const RouteSeparator: string := " to "

  /** The query as the filter compares it: trimmed, then lower-cased. It is
      empty exactly when the query is blank, and has no capital letters. */
  function NormalizedQuery(query: string): (q: string)
    ensures q == "" <==> AllWhitespace(query)
    ensures forall i :: 0 <= i < |q| ==> !IsUpperAscii(q[i])
  {
    TrimEmptyIffBlank(query);
    LowerIsLower(Trim(query));
    Lower(Trim(query))
  }

  /** The origin token of a route: the text before the first " to " (matched
      case-sensitively, before lower-casing), trimmed and lower-cased. It is
      empty exactly when that origin is blank, in particular for an empty
      route (`selectedRoute || ""`), and has no capital letters. */
  function OriginToken(route: string): (token: string)
    ensures token == "" <==> AllWhitespace(BeforeFirst(route, RouteSeparator))
    ensures route == "" ==> token == ""
    ensures forall i :: 0 <= i < |token| ==> !IsUpperAscii(token[i])
  {
    var origin := BeforeFirst(route, RouteSeparator);
    TrimEmptyIffBlank(origin);
    LowerIsLower(Trim(origin));
    Lower(Trim(origin))
  }

  /** The filter's test for one shuttle, given the normalised query and the
      origin token. */
  predicate Matches(v: Vehicle, q: string, token: string)
    ensures q == "" && token == "" ==> Matches(v, q, token)
    ensures Matches(v, q, token) && token != "" ==> Contains(Lower(v.route), token)
  {
    && (q == "" || Contains(Lower(v.title), q) || Contains(Lower(v.route), q))
    && (token == "" || Contains(Lower(v.route), token))
  }

  /** `r` keeps some of the elements of `s`, in their order. */
  predicate IsSubsequence(r: seq<Vehicle>, s: seq<Vehicle>)
    decreases |s|
  {
    if s == [] then r == []
    else (r != [] && r[0] == s[0] && IsSubsequence(r[1..], s[1..])) || IsSubsequence(r, s[1..])
  }

  /** `evs.filter(...)`: the matching shuttles, in list order. */
  function SelectMatching(evs: seq<Vehicle>, q: string, token: string): (r: seq<Vehicle>)
    ensures IsSubsequence(r, evs)
    ensures forall v :: v in r ==> Matches(v, q, token)
    ensures forall v :: v in evs && Matches(v, q, token) ==> v in r
    ensures forall v :: multiset(r)[v] == if Matches(v, q, token) then multiset(evs)[v] else 0
  {
    if evs == [] then []
    else
      var rest := SelectMatching(evs[1..], q, token);
      assert evs == [evs[0]] + evs[1..];
      assert forall v :: v in evs ==> v == evs[0] || v in evs[1..];
      if Matches(evs[0], q, token) then [evs[0]] + rest else rest
  }

  /** `filteredEVs`: an order-preserving selection of `evs` in which every
      kept shuttle matches the query and runs from the selected origin. */
  function FilteredEVs(evs: seq<Vehicle>, query: string, selectedRoute: string): (r: seq<Vehicle>)
    ensures IsSubsequence(r, evs)
    ensures forall v :: v in r ==> Matches(v, NormalizedQuery(query), OriginToken(selectedRoute))
    ensures forall v :: v in evs && Matches(v, NormalizedQuery(query), OriginToken(selectedRoute)) ==> v in r
    ensures forall v :: multiset(r)[v] ==
              if Matches(v, NormalizedQuery(query), OriginToken(selectedRoute)) then multiset(evs)[v] else 0
    ensures forall v :: v in r && OriginToken(selectedRoute) != "" ==>
              Contains(Lower(v.route), OriginToken(selectedRoute))
  {
    SelectMatching(evs, NormalizedQuery(query), OriginToken(selectedRoute))
  }

  /** A shuttle the filter shows is one of the listed shuttles. */
  lemma FilteredFromList(evs: seq<Vehicle>, query: string, selectedRoute: string, v: Vehicle)
    requires v in FilteredEVs(evs, query, selectedRoute)
    ensures v in evs && HasId(evs, v.id)
  {
    SubsequenceMembers(FilteredEVs(evs, query, selectedRoute), evs, v);
  }

  /** Every element of a subsequence is an element of the whole. */
  lemma {:induction false} SubsequenceMembers(r: seq<Vehicle>, s: seq<Vehicle>, v: Vehicle)
    requires IsSubsequence(r, s) && v in r
    ensures exists i :: 0 <= i < |s| && s[i] == v
    decreases |s|
  {
    if r != [] && r[0] == s[0] && IsSubsequence(r[1..], s[1..]) {
      if v != r[0] {
        assert v in r[1..];
        SubsequenceMembers(r[1..], s[1..], v);
        var i :| 0 <= i < |s[1..]| && s[1..][i] == v;
        assert s[i + 1] == v;
      } else {
        assert s[0] == v;
      }
    } else {
      SubsequenceMembers(r, s[1..], v);
      var i :| 0 <= i < |s[1..]| && s[1..][i] == v;
      assert s[i + 1] == v;
    }
  }

  /** A subsequence is never longer than the sequence it is taken from. */
  lemma {:induction false} SubsequenceNoLonger(r: seq<Vehicle>, s: seq<Vehicle>)
    requires IsSubsequence(r, s)
    ensures |r| <= |s|
    decreases |s|
  {
    if s != [] {
      if r != [] && r[0] == s[0] && IsSubsequence(r[1..], s[1..]) {
        SubsequenceNoLonger(r[1..], s[1..]);
      } else {
        SubsequenceNoLonger(r, s[1..]);
      }
    }
  }

  /** When every shuttle matches, the filter keeps the whole list. */
  lemma {:induction false} SelectAllWhenAllMatch(evs: seq<Vehicle>, q: string, token: string)
    requires forall i :: 0 <= i < |evs| ==> Matches(evs[i], q, token)
    ensures SelectMatching(evs, q, token) == evs
  {
    if evs != [] {
      SelectAllWhenAllMatch(evs[1..], q, token);
    }
  }

  /** An all-whitespace query with an empty origin token keeps every shuttle. */
  lemma EmptyFilterKeepsAll(evs: seq<Vehicle>, query: string, selectedRoute: string)
    requires AllWhitespace(query) && OriginToken(selectedRoute) == ""
    ensures FilteredEVs(evs, query, selectedRoute) == evs
  {
    TrimEmptyIffBlank(query);
    SelectAllWhenAllMatch(evs, NormalizedQuery(query), OriginToken(selectedRoute));
  }

  /** The default route's origin token is "hostel 6". */
  lemma DefaultOriginToken()
    ensures OriginToken(InitialEVs[0].route) == "hostel 6"
  {
    SeedRouteOrigin(InitialEVs[0].route);
  }

  // The seed lemmas below take the seed strings as parameters, so that the
  // verifier works on them step by step instead of unfolding whole literals.

  /** The seed route's origin token is "hostel 6". */
  lemma SeedRouteOrigin(route: string)
    requires route == "Hostel 6 to Main gate"
    ensures OriginToken(route) == "hostel 6"
  {
    SeedRouteSplit(route);
    SeedOriginLowered(BeforeFirst(route, RouteSeparator));
  }

  /** The seed route splits at index 8, after "Hostel 6". */
  lemma SeedRouteSplit(route: string)
    requires route == "Hostel 6 to Main gate"
    ensures BeforeFirst(route, RouteSeparator) == "Hostel 6"
  {
    assert route[8..12] == RouteSeparator;
    forall i | 0 <= i < 8 ensures !StartsWith(route[i..], RouteSeparator) {
      if i == 6 {
        assert route[i..][1] == '6';
      } else {
        assert route[i..][0] == route[i] != ' ';
      }
    }
    BeforeFirstIsFirst(route, RouteSeparator, 8);
    assert route[..8] == "Hostel 6";
  }

  /** The seed origin, lower-cased (and trimmed), is "hostel 6". */
  lemma SeedOriginLowered(origin: string)
    requires origin == "Hostel 6"
    ensures Lower(origin) == "hostel 6"
    ensures Lower(Trim(origin)) == "hostel 6"
  {
  }

  /** The seed route has no digit 2. */
  lemma SeedRouteHasNoTwo(route: string)
    requires route == "Hostel 6 to Main gate"
    ensures '2' !in route
  {
  }

  /** The lower-cased seed route includes "hostel 6" and not "ev-02". */
  lemma SeedRouteLowered(route: string)
    requires route == "Hostel 6 to Main gate"
    ensures Contains(Lower(route), "hostel 6")
    ensures !Contains(Lower(route), "ev-02")
  {
    var lowered := Lower(route);
    SeedRouteSplit(route);
    LowerPrefix(route, 8);
    SeedOriginLowered(route[..8]);
    assert lowered[..8] == "hostel 6";
    SeedRouteHasNoTwo(route);
    LowerAbsent(route, '2');
    MissingCharNotContained(lowered, "ev-02", 4);
  }

  /** A lower-cased seed title includes "buggy", and includes "ev-02" only
      for EV-02. */
  lemma SeedTitleLowered(title: string, digit: char)
    requires title == "Buggy (EV-0" + [digit] + ")" && '0' <= digit <= '9'
    ensures Contains(Lower(title), "buggy")
    ensures Contains(Lower(title), "ev-02") <==> digit == '2'
  {
    var lowered := Lower(title);
    assert lowered == "buggy (ev-0" + [digit] + ")";
    assert lowered[..5] == "buggy";
    if digit == '2' {
      assert lowered[7..][..5] == "ev-02";
      ContainsInSuffix(lowered, "ev-02", 7);
    } else {
      MissingCharNotContained(lowered, "ev-02", 4);
    }
  }

  /** How one seed shuttle fares under the sample queries. */
  lemma SeedVehicleMatches(v: Vehicle, digit: char, q: string, token: string)
    requires v.title == "Buggy (EV-0" + [digit] + ")" && '0' <= digit <= '9'
    requires v.route == "Hostel 6 to Main gate" && token == "hostel 6"
    requires q == "" || q == "buggy" || q == "ev-02"
    ensures Matches(v, q, token) <==> q != "ev-02" || digit == '2'
  {
    SeedRouteLowered(v.route);
    SeedTitleLowered(v.title, digit);
  }

  /** The titles and routes of the seed shuttles. */
  predicate SeedShaped(evs: seq<Vehicle>) {
    && |evs| == 3
    && evs[0].title == "Buggy (EV-01)" && evs[1].title == "Buggy (EV-02)" && evs[2].title == "Buggy (EV-03)"
    && evs[0].route == "Hostel 6 to Main gate" && evs[1].route == "Hostel 6 to Main gate"
    && evs[2].route == "Hostel 6 to Main gate"
  }

  /** The seed shuttles, one by one, under a sample query. */
  lemma SeedMatches(evs: seq<Vehicle>, q: string, token: string)
    requires SeedShaped(evs) && token == "hostel 6"
    requires q == "" || q == "buggy" || q == "ev-02"
    ensures Matches(evs[0], q, token) <==> q != "ev-02"
    ensures Matches(evs[1], q, token)
    ensures Matches(evs[2], q, token) <==> q != "ev-02"
  {
    SeedVehicleMatches(evs[0], '1', q, token);
    SeedVehicleMatches(evs[1], '2', q, token);
    SeedVehicleMatches(evs[2], '3', q, token);
  }

  /** The selection the sample queries make from the seed shuttles. */
  lemma SeedSelection(evs: seq<Vehicle>, q: string, token: string)
    requires SeedShaped(evs) && token == "hostel 6"
    requires q == "" || q == "buggy" || q == "ev-02"
    ensures SelectMatching(evs, q, token) == if q == "ev-02" then [evs[1]] else evs
  {
    SeedMatches(evs, q, token);
    if q == "ev-02" {
      var tail := evs[1..];
      assert tail[1..] == [evs[2]];
      assert SelectMatching([evs[2]], q, token) == [];
      assert SelectMatching(tail, q, token) == [evs[1]];
    } else {
      SelectAllWhenAllMatch(evs, q, token);
    }
  }

  /** The sample query "buggy" is already normalised. */
  lemma BuggyNormalized(query: string)
    requires query == "buggy"
    ensures NormalizedQuery(query) == query
  {
  }

  /** The sample query "ev-02" is already normalised. */
  lemma Ev02Normalized(query: string)
    requires query == "ev-02"
    ensures NormalizedQuery(query) == query
  {
  }

  /** On the seed data with the default route, the empty query keeps all
      three shuttles. */
  lemma SeedEmptyQueryKeepsAll()
    ensures FilteredEVs(InitialEVs, "", InitialEVs[0].route) == InitialEVs
  {
    SeedRouteOrigin(InitialEVs[0].route);
    SeedSelection(InitialEVs, "", "hostel 6");
  }

  /** On the seed data with the default route, the query "buggy" keeps all
      three shuttles: every title contains it. */
  lemma SeedQueryBuggyKeepsAll()
    ensures FilteredEVs(InitialEVs, "buggy", InitialEVs[0].route) == InitialEVs
  {
    SeedRouteOrigin(InitialEVs[0].route);
    BuggyNormalized("buggy");
    SeedSelection(InitialEVs, "buggy", "hostel 6");
  }

  /** On the seed data with the default route, the query "ev-02" keeps
      exactly the shuttle with id 2. */
  lemma SeedQueryEv02()
    ensures FilteredEVs(InitialEVs, "ev-02", InitialEVs[0].route) == [InitialEVs[1]]
    ensures InitialEVs[1].id == 2
  {
    SeedRouteOrigin(InitialEVs[0].route);
    Ev02Normalized("ev-02");
    SeedSelection(InitialEVs, "ev-02", "hostel 6");
  }
}
