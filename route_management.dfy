/** The route management panel: its statistics, chiefly the average estimated
    time read out of each route's free-text `estimatedTime` with the regular
    expression `(\d+)\s*(hour|minute)s?`, and the arguments of its buttons. */
module RouteManagement {
  import opened Common
  import opened Pickup

  // ---------------------------------------------------------------------------
  // Characters

  /** `\d` matches only the ASCII digits. */
  predicate IsDigit(c: char)
  {
    '0' <= c <= '9'
  }

  /** `\s`, restricted to the ASCII white space and a few common Unicode spaces. */
  predicate IsSpace(c: char)
  {
    c == ' ' || c == '\t' || c == '\n' || c == '\U{B}' || c == '\U{C}' || c == '\r'
    || c == '\U{A0}' || c == '\U{FEFF}' || c == '\U{2028}' || c == '\U{2029}'
  }

  predicate AllDigits(s: string)
  {
    forall k :: 0 <= k < |s| ==> IsDigit(s[k])
  }

  // ---------------------------------------------------------------------------
  // The regular expression (\d+)\s*(hour|minute)s?

  /** The word captured by the second group. */
  datatype Unit = Hour | Minute

  /** A match: where it starts, the text of group 1 and the word of group 2.
      The optional trailing `s` changes neither group and is not recorded. */
  datatype TimeMatch = TimeMatch(start: nat, digits: string, unit: Unit)

  /** The end of the longest run of digits that starts at `i`. */
  function DigitRunEnd(s: string, i: nat): (j: nat)
    requires i <= |s|
    ensures i <= j <= |s|
    ensures forall k :: i <= k < j ==> IsDigit(s[k])
    ensures j == |s| || !IsDigit(s[j])
    decreases |s| - i
  {
    if i < |s| && IsDigit(s[i]) then DigitRunEnd(s, i + 1) else i
  }

  /** The end of the longest run of white space that starts at `j`. */
  function SpaceRunEnd(s: string, j: nat): (k: nat)
    requires j <= |s|
    ensures j <= k <= |s|
    ensures forall p :: j <= p < k ==> IsSpace(s[p])
    ensures k == |s| || !IsSpace(s[k])
    decreases |s| - j
  {
    if j < |s| && IsSpace(s[j]) then SpaceRunEnd(s, j + 1) else j
  }

  /** `(hour|minute)` at position `k`; the alternatives are tried in that order. */
  function UnitAt(s: string, k: nat): (r: Option<Unit>)
    requires k <= |s|
    ensures r == Some(Hour) <==> "hour" <= s[k..]
    ensures r == Some(Minute) <==> "minute" <= s[k..]
  {
    if "hour" <= s[k..] then
      assert "minute"[0] != s[k..][0];
      Some(Hour)
    else if "minute" <= s[k..] then Some(Minute)
    else None
  }

  /** The language of the expression, read off the pattern: digits on `[i, j)`,
      white space on `[j, k)`, then the unit word at `k`. */
  ghost predicate Matches(s: string, i: nat, j: nat, k: nat, u: Unit)
  {
    i < j <= k <= |s|
    && (forall p :: i <= p < j ==> IsDigit(s[p]))
    && (forall p :: j <= p < k ==> IsSpace(s[p]))
    && UnitAt(s, k) == Some(u)
  }

  /** The match the backtracking matcher reports when it starts at `i`:
      greedy digits, greedy white space, then the unit word. */
  function MatchAt(s: string, i: nat): (r: Option<TimeMatch>)
    requires i <= |s|
    ensures r.Some? ==> r.value.start == i && |r.value.digits| > 0 && AllDigits(r.value.digits)
    ensures r.Some? ==> i + |r.value.digits| == DigitRunEnd(s, i)
    ensures r.Some? ==> Matches(s, i, i + |r.value.digits|, SpaceRunEnd(s, i + |r.value.digits|), r.value.unit)
    ensures r.Some? ==> r.value.digits == s[i..i + |r.value.digits|]
  {
    var j := DigitRunEnd(s, i);
    if j == i then None
    else
      match UnitAt(s, SpaceRunEnd(s, j))
      case None => None
      case Some(u) => Some(TimeMatch(i, s[i..j], u))
  }

  /** A digit run that cannot be extended is the greedy one. */
  lemma {:induction false} DigitRunEndUnique(s: string, i: nat, j: nat)
    requires i <= j <= |s|
    requires forall p :: i <= p < j ==> IsDigit(s[p])
    requires j == |s| || !IsDigit(s[j])
    ensures DigitRunEnd(s, i) == j
    decreases j - i
  {
    if i < j {
      DigitRunEndUnique(s, i + 1, j);
    }
  }

  /** A white-space run that cannot be extended is the greedy one. */
  lemma {:induction false} SpaceRunEndUnique(s: string, j: nat, k: nat)
    requires j <= k <= |s|
    requires forall p :: j <= p < k ==> IsSpace(s[p])
    requires k == |s| || !IsSpace(s[k])
    ensures SpaceRunEnd(s, j) == k
    decreases k - j
  {
    if j < k {
      SpaceRunEndUnique(s, j + 1, k);
    }
  }

  /** Backtracking finds nothing the greedy attempt misses: every way the pattern
      can match at `i` is the greedy one, so `MatchAt` is exactly the match at `i`. */
  lemma MatchAtComplete(s: string, i: nat, j: nat, k: nat, u: Unit)
    requires Matches(s, i, j, k, u)
    ensures j == DigitRunEnd(s, i) && k == SpaceRunEnd(s, j)
    ensures MatchAt(s, i) == Some(TimeMatch(i, s[i..j], u))
  {
    assert k < |s| && (s[k] == 'h' || s[k] == 'm') by {
      assert UnitAt(s, k).Some?;
      if "hour" <= s[k..] { assert s[k..][0] == 'h'; } else { assert s[k..][0] == 'm'; }
    }
    // Where the digits stop there is white space or the unit's first letter, and
    // where the white space stops there is the unit's first letter: neither run
    // can be extended, so backtracking has nothing shorter to try.
    assert j == |s| || !IsDigit(s[j]);
    DigitRunEndUnique(s, i, j);
    SpaceRunEndUnique(s, j, k);
  }

  /** The leftmost match at or after `i`; `String.prototype.match` without the
      global flag reports the leftmost one. */
  function FirstMatchFrom(s: string, i: nat): (r: Option<TimeMatch>)
    requires i <= |s|
    ensures r.None? ==> forall p :: i <= p <= |s| ==> MatchAt(s, p).None?
    ensures r.Some? ==> i <= r.value.start <= |s| && MatchAt(s, r.value.start) == r
    ensures r.Some? ==> forall p :: i <= p < r.value.start ==> MatchAt(s, p).None?
    decreases |s| - i
  {
    match MatchAt(s, i)
    case Some(m) => Some(m)
    case None => if i == |s| then None else FirstMatchFrom(s, i + 1)
  }

  /** `estimatedTime.match(/(\d+)\s*(hour|minute)s?/)`. */
  function FirstMatch(s: string): (r: Option<TimeMatch>)
    ensures r.None? ==> forall p :: 0 <= p <= |s| ==> MatchAt(s, p).None?
    ensures r.Some? ==> r.value.start <= |s| && MatchAt(s, r.value.start) == r
    ensures r.Some? ==> forall p :: 0 <= p < r.value.start ==> MatchAt(s, p).None?
  {
    FirstMatchFrom(s, 0)
  }

  /** A match that starts inside a run of digits can start one digit earlier. */
  lemma MatchExtendsLeft(s: string, i: nat)
    requires 0 < i <= |s| && IsDigit(s[i - 1])
    requires MatchAt(s, i).Some?
    ensures MatchAt(s, i - 1).Some?
  {
    assert DigitRunEnd(s, i - 1) == DigitRunEnd(s, i);
  }

  /** The leftmost match starts where a maximal run of digits starts, and its
      first group is that whole run. */
  lemma FirstMatchIsWholeRun(s: string)
    requires FirstMatch(s).Some?
    ensures var m := FirstMatch(s).value;
      && (m.start == 0 || !IsDigit(s[m.start - 1]))
      && (m.start + |m.digits| == |s| || !IsDigit(s[m.start + |m.digits|]))
  {
    var m := FirstMatch(s).value;
    assert MatchAt(s, m.start) == Some(m);
    if m.start > 0 && IsDigit(s[m.start - 1]) {
      MatchExtendsLeft(s, m.start);
      assert false;
    }
  }

  // ---------------------------------------------------------------------------
  // Decimal numerals: parseInt on group 1, and the printing done by toFixed(0)

  function DigitValue(c: char): nat
    requires IsDigit(c)
  {
    (c as int) - ('0' as int)
  }

  function DigitChar(d: nat): (c: char)
    requires d < 10
    ensures IsDigit(c) && DigitValue(c) == d
  {
    ('0' as int + d) as char
  }

  /** `parseInt(ds)` for a string of digits: base 10, leading zeros allowed. */
  function ParseDecimal(ds: string): nat
    requires AllDigits(ds)
  {
    if ds == [] then 0
    else ParseDecimal(ds[..|ds| - 1]) * 10 + DigitValue(ds[|ds| - 1])
  }

  /** Leading zeros do not change the value read. */
  lemma {:induction false} LeadingZero(ds: string)
    requires AllDigits(ds)
    ensures AllDigits("0" + ds) && ParseDecimal("0" + ds) == ParseDecimal(ds)
  {
    if ds != [] {
      var init := ds[..|ds| - 1];
      assert ("0" + ds)[..|"0" + ds| - 1] == "0" + init;
      LeadingZero(init);
    }
  }

  /** The decimal numeral of `n`, without leading zeros. */
  function DecimalString(n: nat): (s: string)
    ensures |s| > 0 && AllDigits(s)
    ensures |s| > 1 ==> s[0] != '0'
  {
    if n < 10 then [DigitChar(n)]
    else DecimalString(n / 10) + [DigitChar(n % 10)]
  }

  /** Reading back the printed numeral gives the number. */
  lemma {:induction false} DecimalRoundTrip(n: nat)
    ensures ParseDecimal(DecimalString(n)) == n
  {
    var s := DecimalString(n);
    if n < 10 {
      assert s[..0] == [];
    } else {
      assert s[..|s| - 1] == DecimalString(n / 10);
      DecimalRoundTrip(n / 10);
    }
  }

  // ---------------------------------------------------------------------------
  // Minutes per route and the average

  /** What one route adds to the reduce's running sum: the first group read in
      base 10, times 60 for `hour`; 0 when the text does not match at all. */
  function RouteMinutes(estimatedTime: string): nat
  {
    match FirstMatch(estimatedTime)
    case None => 0
    case Some(m) =>
      var value := ParseDecimal(m.digits);
      if m.unit == Hour then value * 60 else value
  }

  /** The reduce over all routes, starting from 0. */
  function TotalMinutes(routes: seq<Route>): (t: nat)
    ensures forall i :: 0 <= i < |routes| ==> RouteMinutes(routes[i].estimatedTime) <= t
  {
    if routes == [] then 0
    else
      var init := routes[..|routes| - 1];
      assert forall i :: 0 <= i < |init| ==> init[i] == routes[i];
      TotalMinutes(init) + RouteMinutes(routes[|routes| - 1].estimatedTime)
  }

  /** `q` is `sum / count` rounded to the nearest integer, the larger one on a tie:
      `q - 1/2 <= sum / count < q + 1/2`. */
  predicate IsRoundedMean(q: nat, sum: nat, count: nat)
  {
    (2 * q - 1) * count <= 2 * sum < (2 * q + 1) * count
  }

  /** `(sum / count).toFixed(0)` on the exact quotient. */
  function RoundedQuotient(sum: nat, count: nat): (q: nat)
    requires count > 0
    ensures IsRoundedMean(q, sum, count)
  {
    var q := (2 * sum + count) / (2 * count);
    assert q * (2 * count) <= 2 * sum + count < (q + 1) * (2 * count);
    q
  }

  /** What follows the number on the card. */
  const Suffix: string := " minutes"

  /** The text of the "Avg. Estimated Time" card. */
  function AverageEstimatedTime(routes: seq<Route>): (r: string)
    ensures r == "N/A" <==> routes == []
  {
    if |routes| > 0 then DecimalString(RoundedQuotient(TotalMinutes(routes), |routes|)) + Suffix
    else "N/A"
  }

  /** The printed number followed by " minutes" reads back as that number. */
  lemma DisplayReadsBack(q: nat)
    ensures var r := DecimalString(q) + Suffix;
      && |r| > |Suffix| && r[|r| - |Suffix|..] == Suffix
      && AllDigits(r[..|r| - |Suffix|])
      && ParseDecimal(r[..|r| - |Suffix|]) == q
  {
    var d := DecimalString(q);
    var r := d + Suffix;
    assert r[..|r| - |Suffix|] == d;
    assert r[|r| - |Suffix|..] == Suffix;
    DecimalRoundTrip(q);
  }

  /** The card shows the mean minutes per route, rounded to the nearest integer,
      followed by " minutes". */
  lemma AverageMeaning(routes: seq<Route>)
    requires routes != []
    ensures var r := AverageEstimatedTime(routes);
      && |r| > |Suffix| && r[|r| - |Suffix|..] == Suffix
      && AllDigits(r[..|r| - |Suffix|])
      && IsRoundedMean(ParseDecimal(r[..|r| - |Suffix|]), TotalMinutes(routes), |routes|)
  {
    var q := RoundedQuotient(TotalMinutes(routes), |routes|);
    assert AverageEstimatedTime(routes) == DecimalString(q) + Suffix;
    DisplayReadsBack(q);
  }

  /** A route whose text first matches at `i` contributes the number there, in
      minutes: times 60 for "hour", as it is for "minute". */
  lemma RouteMinutesOfLeftmostMatch(s: string, i: nat, j: nat, k: nat, u: Unit)
    requires Matches(s, i, j, k, u)
    requires forall p: nat, j': nat, k': nat, u': Unit :: p < i ==> !Matches(s, p, j', k', u')
    ensures AllDigits(s[i..j])
    ensures RouteMinutes(s) == if u == Hour then ParseDecimal(s[i..j]) * 60 else ParseDecimal(s[i..j])
  {
    MatchAtComplete(s, i, j, k, u);
    var r := FirstMatch(s);
    assert r.Some?;
    var m := r.value;
    assert MatchAt(s, m.start).Some?;
    assert m.start >= i;
    assert m.start <= i;
    assert m == TimeMatch(i, s[i..j], u);
  }

  /** A route whose text does not match adds nothing to the sum but still counts
      in the divisor. */
  lemma UnparseableStillCounted(routes: seq<Route>, r: Route)
    requires FirstMatch(r.estimatedTime).None?
    ensures TotalMinutes(routes + [r]) == TotalMinutes(routes)
    ensures AverageEstimatedTime(routes + [r])
         == DecimalString(RoundedQuotient(TotalMinutes(routes), |routes| + 1)) + Suffix
  {
    assert (routes + [r])[..|routes|] == routes;
  }

  /** Only the leftmost match counts: "1 hour 30 minutes" is 60 minutes. */
  lemma OnlyFirstMatchCounts()
    ensures RouteMinutes("1 hour 30 minutes") == 60
  {
    var s := "1 hour 30 minutes";
    LeadingHourMatch(s, '1');
    assert ParseDecimal("1") == 1 by { assert "1"[..0] == []; }
  }

  /** The pattern is unanchored and its `s` optional: "2 hourly" is 120 minutes. */
  lemma UnanchoredSuffix()
    ensures RouteMinutes("2 hourly") == 120
  {
    var s := "2 hourly";
    LeadingHourMatch(s, '2');
    assert ParseDecimal("2") == 2 by { assert "2"[..0] == []; }
  }

  /** A text that starts with one digit, a space and "hour" adds that digit's hours. */
  lemma LeadingHourMatch(s: string, d: char)
    requires |s| >= 6 && s[0] == d && IsDigit(d) && s[1] == ' ' && s[2..6] == "hour"
    ensures RouteMinutes(s) == ParseDecimal([d]) * 60
  {
    assert "hour" <= s[2..];
    RouteMinutesOfLeftmostMatch(s, 0, 1, 2, Hour);
    assert s[0..1] == [d];
  }

  // ---------------------------------------------------------------------------
  // Statistics and buttons

  /** `assignments.map(assignment => assignment.routeId)`. */
  function AssignmentRouteIds(assignments: seq<Assignment>): (ids: seq<Id>)
    ensures |ids| == |assignments|
    ensures forall i :: 0 <= i < |assignments| ==> ids[i] == assignments[i].routeId
  {
    if assignments == [] then []
    else AssignmentRouteIds(assignments[..|assignments| - 1]) + [assignments[|assignments| - 1].routeId]
  }

  /** The three statistics cards of the panel. */
  datatype RouteStats = RouteStats(totalRoutes: nat, routesAssigned: nat, avgEstimatedTime: string)

  function Stats(routes: seq<Route>, assignments: seq<Assignment>): (s: RouteStats)
    ensures s.totalRoutes == |routes|
    ensures s.routesAssigned <= |assignments|
    ensures s.routesAssigned == 0 <==> assignments == []
    ensures s.avgEstimatedTime == "N/A" <==> routes == []
  {
    RouteStats(|routes|, |Distinct(AssignmentRouteIds(assignments))|, AverageEstimatedTime(routes))
  }

  /** "Routes assigned" counts distinct route ids of assignments, also ids no listed route has. */
  lemma RoutesAssignedCountsUnknownIds(a: Assignment)
    ensures Stats([], [a]).routesAssigned == 1
  {
    assert AssignmentRouteIds([a]) == [a.routeId];
    assert Distinct([a.routeId]) == {a.routeId};
  }

  /** "Routes assigned" is the number of distinct route ids among the assignments,
      whatever the routes are. */
  lemma RoutesAssignedIds(routes: seq<Route>, assignments: seq<Assignment>)
    ensures Stats(routes, assignments).routesAssigned
         == |set i | 0 <= i < |assignments| :: assignments[i].routeId|
  {
    var ids := AssignmentRouteIds(assignments);
    var named := set i | 0 <= i < |assignments| :: assignments[i].routeId;
    forall x ensures x in Distinct(ids) <==> x in named {
      if x in ids {
        var i :| 0 <= i < |ids| && ids[i] == x;
        assert assignments[i].routeId == x;
      }
    }
    assert Distinct(ids) == named;
  }

  /** What a button of the panel passes to its handler; `None` is a call with no argument. */
  datatype RouteRequest =
    | CreateRouteRequested
    | UpdateRouteRequested(routeId: Option<Id>)
    | DeleteRouteRequested(routeId: Option<Id>)

  /** The Create, Update and Delete buttons above the table. */
  function ActionButtons(): seq<RouteRequest>
  {
    [CreateRouteRequested, UpdateRouteRequested(None), DeleteRouteRequested(None)]
  }

  /** The edit and delete buttons on the row of `route`. */
  function RowButtons(route: Route): seq<RouteRequest>
  {
    [UpdateRouteRequested(Some(route.id)), DeleteRouteRequested(Some(route.id))]
  }

  /** Row buttons pass their route's id; the general Update and Delete buttons pass nothing. */
  lemma ButtonArguments(route: Route)
    ensures forall i :: 0 <= i < |RowButtons(route)| ==>
      !RowButtons(route)[i].CreateRouteRequested? && RowButtons(route)[i].routeId == Some(route.id)
    ensures ActionButtons()[1] == UpdateRouteRequested(None)
    ensures ActionButtons()[2] == DeleteRouteRequested(None)
  {
  }
}
