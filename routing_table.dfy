/**
 * The engine routing table: an insertion-ordered map from routes to the actor class that
 * handles requests on them. A route is an exact path or a regular expression; two routes are
 * the same route when their path strings are equal, whatever their kind.
 */
module Routing {
  import opened Wrappers

  /** The name of an actor class. */
  type ActorClass = string

  /** Whole-string match of a regular expression (pattern, input); the regex engine is a parameter. */
  type FullMatch = (string, string) -> bool

  datatype Route = Route(path: string, isRegex: bool)

  type Entry = (Route, ActorClass)

  datatype RoutingError = RouteAlreadyMapped

  /** Route equality: the path alone decides, the kind plays no part. */
  predicate SameRoute(a: Route, b: Route) {
    a.path == b.path
  }

  /**
   * Route equality is an equivalence on paths: an exact route and a regex route with the same
   * text are the same route, so neither can be added while the other is mapped.
   */
  lemma SameRouteIgnoresKind(a: Route, b: Route)
    ensures SameRoute(a, a)
    ensures SameRoute(a, b) == SameRoute(b, a)
    ensures SameRoute(a, b) == SameRoute(a.(isRegex := !a.isRegex), b)
    ensures SameRoute(Route(a.path, true), Route(a.path, false))
  {
  }

  /** An exact route matches only its own path; a regex route matches the paths it matches whole. */
  predicate RouteMatches(r: Route, path: string, fullMatch: FullMatch) {
    if r.isRegex then fullMatch(r.path, path) else r.path == path
  }

  predicate HasPath(routes: seq<Entry>, path: string) {
    exists i :: 0 <= i < |routes| && routes[i].0.path == path
  }

  /** No two entries are the same route. */
  predicate DistinctPaths(routes: seq<Entry>) {
    forall i, j :: 0 <= i < j < |routes| ==> routes[i].0.path != routes[j].0.path
  }

  /** Entry `i` is the first entry, in insertion order, whose route matches `path`. */
  predicate FirstMatchAt(routes: seq<Entry>, path: string, fullMatch: FullMatch, i: int) {
    0 <= i < |routes| && RouteMatches(routes[i].0, path, fullMatch) &&
    forall j :: 0 <= j < i ==> !RouteMatches(routes[j].0, path, fullMatch)
  }

  /** The handler a lookup finds: that of the first matching entry, or none when no entry matches. */
  function FirstMatch(routes: seq<Entry>, path: string, fullMatch: FullMatch): (r: Option<ActorClass>)
    ensures r.None? <==> forall i :: 0 <= i < |routes| ==> !RouteMatches(routes[i].0, path, fullMatch)
    ensures r.Some? ==> exists i :: FirstMatchAt(routes, path, fullMatch, i) && r.value == routes[i].1
  {
    if |routes| == 0 then None
    else if RouteMatches(routes[0].0, path, fullMatch) then
      assert FirstMatchAt(routes, path, fullMatch, 0);
      Some(routes[0].1)
    else
      var r := FirstMatch(routes[1..], path, fullMatch);
      if r.Some? then
        var k :| FirstMatchAt(routes[1..], path, fullMatch, k) && r.value == routes[1..][k].1;
        assert FirstMatchAt(routes, path, fullMatch, k + 1);
        r
      else
        assert forall i :: 1 <= i < |routes| ==> routes[i] == routes[1..][i - 1];
        r
  }

  /** The table with the entry for `path` taken out, the others in their order. */
  function Without(routes: seq<Entry>, path: string): (r: seq<Entry>)
    ensures |r| <= |routes|
    ensures forall i :: 0 <= i < |r| ==> r[i].0.path != path
  {
    if |routes| == 0 then []
    else if routes[0].0.path == path then Without(routes[1..], path)
    else [routes[0]] + Without(routes[1..], path)
  }

  /** The handler of the entry for `path`, whatever its kind. */
  function ClassFor(routes: seq<Entry>, path: string): (r: Option<ActorClass>)
    ensures r.Some? <==> HasPath(routes, path)
    ensures r.Some? ==> exists i :: 0 <= i < |routes| && routes[i].0.path == path && routes[i].1 == r.value
  {
    if |routes| == 0 then None
    else if routes[0].0.path == path then Some(routes[0].1)
    else
      var r := ClassFor(routes[1..], path);
      if r.Some? then
        var k :| 0 <= k < |routes[1..]| && routes[1..][k].0.path == path && routes[1..][k].1 == r.value;
        assert routes[k + 1] == routes[1..][k];
        r
      else
        assert !HasPath(routes, path) by {
          forall i | 0 <= i < |routes| ensures routes[i].0.path != path {
            if i > 0 { assert routes[i] == routes[1..][i - 1]; }
          }
        }
        r
  }

  /**
   * An entry added at the end is found only by paths no earlier entry matches: a later route
   * never takes precedence over an earlier one, exact or regex.
   */
  lemma {:induction false} FirstMatchAppend(routes: seq<Entry>, e: Entry, path: string, fullMatch: FullMatch)
    ensures FirstMatch(routes + [e], path, fullMatch) ==
            if FirstMatch(routes, path, fullMatch).Some? then FirstMatch(routes, path, fullMatch)
            else if RouteMatches(e.0, path, fullMatch) then Some(e.1)
            else None
  {
    if |routes| > 0 {
      assert (routes + [e])[1..] == routes[1..] + [e];
      FirstMatchAppend(routes[1..], e, path, fullMatch);
    }
  }

  /** Removing a route keeps exactly the other entries, in their order, and keeps the paths distinct. */
  lemma {:induction false} WithoutKeepsOthers(routes: seq<Entry>, path: string)
    ensures forall e :: e in Without(routes, path) <==> e in routes && e.0.path != path
    ensures DistinctPaths(routes) ==> DistinctPaths(Without(routes, path))
    ensures DistinctPaths(routes) ==>
      |Without(routes, path)| == if HasPath(routes, path) then |routes| - 1 else |routes|
  {
    if |routes| > 0 {
      WithoutKeepsOthers(routes[1..], path);
      var rest := Without(routes[1..], path);
      if DistinctPaths(routes) {
        assert DistinctPaths(routes[1..]) by {
          forall i, j | 0 <= i < j < |routes[1..]| ensures routes[1..][i].0.path != routes[1..][j].0.path {
            assert routes[1..][i] == routes[i + 1] && routes[1..][j] == routes[j + 1];
          }
        }
        if routes[0].0.path != path {
          forall i | 0 <= i < |rest| ensures rest[i].0.path != routes[0].0.path {
            assert rest[i] in routes[1..];
            var k :| 0 <= k < |routes[1..]| && routes[1..][k] == rest[i];
            assert routes[k + 1] == rest[i];
          }
        }
        if routes[0].0.path == path {
          assert !HasPath(routes[1..], path) by {
            forall k | 0 <= k < |routes[1..]| ensures routes[1..][k].0.path != path {
              assert routes[1..][k] == routes[k + 1];
            }
          }
        } else {
          assert HasPath(routes, path) <==> HasPath(routes[1..], path) by {
            if HasPath(routes, path) {
              var k :| 0 <= k < |routes| && routes[k].0.path == path;
              assert routes[1..][k - 1] == routes[k];
            }
            if HasPath(routes[1..], path) {
              var k :| 0 <= k < |routes[1..]| && routes[1..][k].0.path == path;
              assert routes[k + 1] == routes[1..][k];
            }
          }
        }
      }
    }
  }

  lemma FirstMatchStep(routes: seq<Entry>, path: string, fullMatch: FullMatch)
    requires |routes| > 0
    ensures FirstMatch(routes, path, fullMatch) ==
      if RouteMatches(routes[0].0, path, fullMatch) then Some(routes[0].1) else FirstMatch(routes[1..], path, fullMatch)
  {
  }

  /** The routing table of one engine, updated in place by the add and remove operations. */
  class RoutingTable {
    var routes: seq<Entry>

    ghost predicate Valid()
      reads this
    {
      DistinctPaths(routes)
    }

    constructor ()
      ensures Valid() && routes == []
    {
      routes := [];
    }

    /** The add shared by both kinds: a route already present (by path) is refused and nothing changes. */
    method Add(route: Route, actorClass: ActorClass) returns (o: Outcome<RoutingError>)
      requires Valid()
      modifies this
      ensures Valid()
      ensures o.Fail? <==> HasPath(old(routes), route.path)
      ensures o.Fail? ==> o.error == RouteAlreadyMapped && routes == old(routes)
      ensures o.Pass? ==> routes == old(routes) + [(route, actorClass)]
    {
      var i := 0;
      while i < |routes|
        invariant 0 <= i <= |routes|
        invariant forall j :: 0 <= j < i ==> routes[j].0.path != route.path
      {
        if SameRoute(routes[i].0, route) {
          return Fail(RouteAlreadyMapped);
        }
        i := i + 1;
      }
      routes := routes + [(route, actorClass)];
      return Pass;
    }

    /** Adds an exact path. */
    method AddRoute(path: string, actorClass: ActorClass) returns (o: Outcome<RoutingError>)
      requires Valid()
      modifies this
      ensures Valid()
      ensures o.Fail? <==> HasPath(old(routes), path)
      ensures o.Fail? ==> routes == old(routes)
      ensures o.Pass? ==> routes == old(routes) + [(Route(path, false), actorClass)]
    {
      o := Add(Route(path, false), actorClass);
    }

    /** Adds a URL pattern (a regular expression). */
    method AddRegexRoute(urlPattern: string, actorClass: ActorClass) returns (o: Outcome<RoutingError>)
      requires Valid()
      modifies this
      ensures Valid()
      ensures o.Fail? <==> HasPath(old(routes), urlPattern)
      ensures o.Fail? ==> routes == old(routes)
      ensures o.Pass? ==> routes == old(routes) + [(Route(urlPattern, true), actorClass)]
    {
      o := Add(Route(urlPattern, true), actorClass);
    }

    /** Scans the entries in insertion order and returns the handler of the first match; reads only. */
    method GetActorClassForPath(path: string, fullMatch: FullMatch) returns (r: Option<ActorClass>)
      ensures r == FirstMatch(routes, path, fullMatch)
      ensures r.None? <==> forall i :: 0 <= i < |routes| ==> !RouteMatches(routes[i].0, path, fullMatch)
    {
      var i := 0;
      while i < |routes|
        invariant 0 <= i <= |routes|
        invariant FirstMatch(routes, path, fullMatch) == FirstMatch(routes[i..], path, fullMatch)
      {
        FirstMatchStep(routes[i..], path, fullMatch);
        assert routes[i..][0] == routes[i] && routes[i..][1..] == routes[i + 1..];
        var route := routes[i].0;
        var matched := if route.isRegex then fullMatch(route.path, path) else route.path == path;
        if matched {
          assert FirstMatch(routes, path, fullMatch) == Some(routes[i].1);
          return Some(routes[i].1);
        }
        assert FirstMatch(routes, path, fullMatch) == FirstMatch(routes[i + 1..], path, fullMatch);
        i := i + 1;
      }
      return None;
    }

    /** Removes the entry whose path is `path`, exact or regex, and returns its handler if there was one. */
    method RemoveRoute(path: string) returns (removed: Option<ActorClass>)
      requires Valid()
      modifies this
      ensures Valid()
      ensures routes == Without(old(routes), path)
      ensures removed == ClassFor(old(routes), path)
      ensures !HasPath(routes, path)
    {
      WithoutKeepsOthers(routes, path);
      removed := ClassFor(routes, path);
      routes := Without(routes, path);
    }
  }
}
