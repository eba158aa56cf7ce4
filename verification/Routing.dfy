/** The zone table (`Route`, `RoutingTable`, src/astropath/data_plane/dispatcher.py:79-105),
    for any kind of provider `P`. */
module Routing {
  import opened Wrappers
  import opened Names

  datatype Route<P> = Route(zone: Name, provider: P, recordName: Name)

  /** Later routes replace earlier ones for the same zone, as in the dictionary they fill. */
  function TableOf<P>(routes: seq<Route<P>>): (m: map<Name, Route<P>>) {
    if routes == [] then map[]
    else
      var last := routes[|routes| - 1];
      TableOf(routes[..|routes| - 1])[last.zone := last]
  }

  /** `zone[i..]` is the longest configured suffix of `zone`. */
  ghost predicate LongestSuffix<P>(table: map<Name, Route<P>>, zone: Name, i: nat) {
    i <= |zone| && zone[i..] in table && forall j :: 0 <= j < i ==> zone[j..] !in table
  }

  function MatchFrom<P>(table: map<Name, Route<P>>, zone: Name): (r: Option<Route<P>>) {
    if zone in table then Some(table[zone])
    else if zone == [] then None
    else MatchFrom(table, zone[1..])
  }

  lemma {:induction false} MatchIsLongestSuffix<P>(table: map<Name, Route<P>>, zone: Name)
    ensures MatchFrom(table, zone).None? <==> forall i :: 0 <= i <= |zone| ==> zone[i..] !in table
    ensures MatchFrom(table, zone).Some? ==>
              exists i: nat :: LongestSuffix(table, zone, i) && MatchFrom(table, zone) == Some(table[zone[i..]])
  {
    assert zone[0..] == zone;
    if zone in table {
      assert LongestSuffix(table, zone, 0);
    } else if zone != [] {
      var parent := zone[1..];
      MatchIsLongestSuffix(table, parent);
      assert forall i :: 0 <= i <= |parent| ==> parent[i..] == zone[i + 1..];
      assert forall i :: 1 <= i <= |zone| ==> zone[i..] == parent[i - 1..];
      if MatchFrom(table, parent).Some? {
        var i: nat :| LongestSuffix(table, parent, i) && MatchFrom(table, parent) == Some(table[parent[i..]]);
        assert LongestSuffix(table, zone, i + 1);
      }
    }
  }

  class RoutingTable<P> {
    var byZone: map<Name, Route<P>>

    constructor (routes: seq<Route<P>>)
      ensures byZone == TableOf(routes)
    {
      byZone := map[];
      new;
      var i := 0;
      while i < |routes|
        invariant 0 <= i <= |routes| && byZone == TableOf(routes[..i])
      {
        assert routes[..i + 1][..i] == routes[..i];
        byZone := byZone[routes[i].zone := routes[i]];
        i := i + 1;
      }
      assert routes[..i] == routes;
    }

    /** Walk from `zone` through its parents up to and including the root. */
    method Match(zone: Name) returns (route: Option<Route<P>>)
      ensures route == MatchFrom(byZone, zone)
    {
      var candidate := zone;
      while true
        invariant MatchFrom(byZone, candidate) == MatchFrom(byZone, zone)
        decreases |candidate|
      {
        if candidate in byZone {
          return Some(byZone[candidate]);
        }
        if candidate == [] {
          return None;
        }
        candidate := candidate[1..];
      }
    }
  }

  predicate IsSuffix(s: Name, n: Name) {
    |s| <= |n| && n[|n| - |s|..] == s
  }

  ghost predicate DistinctZones<P>(routes: seq<Route<P>>) {
    forall i, j :: 0 <= i < j < |routes| ==> routes[i].zone != routes[j].zone
  }

  lemma {:induction false} TableHoldsRoutes<P>(routes: seq<Route<P>>)
    ensures forall zone :: zone in TableOf(routes) ==>
                             exists i :: 0 <= i < |routes| && routes[i].zone == zone
                                 && routes[i] == TableOf(routes)[zone]
    ensures forall i :: 0 <= i < |routes| ==> routes[i].zone in TableOf(routes)
    ensures DistinctZones(routes) ==> forall i :: 0 <= i < |routes| ==> TableOf(routes)[routes[i].zone] == routes[i]
  {
    if routes != [] {
      var before, last := routes[..|routes| - 1], routes[|routes| - 1];
      TableHoldsRoutes(before);
      forall zone | zone in TableOf(routes)
        ensures exists i :: 0 <= i < |routes| && routes[i].zone == zone && routes[i] == TableOf(routes)[zone]
      {
        if zone == last.zone {
          assert routes[|routes| - 1] == TableOf(routes)[zone];
        } else {
          var i :| 0 <= i < |before| && before[i].zone == zone && before[i] == TableOf(before)[zone];
          assert routes[i] == before[i];
        }
      }
      forall i | 0 <= i < |routes| ensures routes[i].zone in TableOf(routes) {
        if i < |before| { assert before[i] == routes[i]; }
      }
      if DistinctZones(routes) {
        forall i | 0 <= i < |routes| ensures TableOf(routes)[routes[i].zone] == routes[i] {
          if i < |before| {
            assert before[i] == routes[i];
            assert DistinctZones(before);
          }
        }
      }
    }
  }

  /** Among routes of one zone the last one counts. */
  lemma {:induction false} LastRouteCounts<P>(routes: seq<Route<P>>, i: nat)
    requires i < |routes| && forall j :: i < j < |routes| ==> routes[j].zone != routes[i].zone
    ensures routes[i].zone in TableOf(routes) && TableOf(routes)[routes[i].zone] == routes[i]
  {
    if i < |routes| - 1 { LastRouteCounts(routes[..|routes| - 1], i); }
  }

  /** Route `j` serves `name`: its zone is a suffix of the name, and the longest of them. */
  ghost predicate Serves<P>(routes: seq<Route<P>>, name: Name, j: nat) {
    && j < |routes| && IsSuffix(routes[j].zone, name)
    && forall k :: 0 <= k < |routes| && IsSuffix(routes[k].zone, name) ==> |routes[k].zone| <= |routes[j].zone|
  }

  /** Among routes with distinct zones the walk finds the one whose zone is the
      longest suffix of the name, and finds none exactly when no zone is a suffix. */
  lemma MatchServesLongest<P>(routes: seq<Route<P>>, name: Name)
    requires DistinctZones(routes)
    ensures MatchFrom(TableOf(routes), name).None? <==>
            forall k :: 0 <= k < |routes| ==> !IsSuffix(routes[k].zone, name)
    ensures forall j: nat :: Serves(routes, name, j) ==> MatchFrom(TableOf(routes), name) == Some(routes[j])
    ensures MatchFrom(TableOf(routes), name).Some? ==> exists j: nat :: Serves(routes, name, j)
  {
    var table := TableOf(routes);
    TableHoldsRoutes(routes);
    MatchIsLongestSuffix(table, name);
    forall k | 0 <= k < |routes| && IsSuffix(routes[k].zone, name)
      ensures MatchFrom(table, name).Some?
    {
      assert name[|name| - |routes[k].zone|..] in table;
    }
    if MatchFrom(table, name).Some? {
      var i: nat :| LongestSuffix(table, name, i) && MatchFrom(table, name) == Some(table[name[i..]]);
      var j :| 0 <= j < |routes| && routes[j].zone == name[i..] && routes[j] == table[name[i..]];
      forall k | 0 <= k < |routes| && IsSuffix(routes[k].zone, name) ensures |routes[k].zone| <= |routes[j].zone| {
        assert name[|name| - |routes[k].zone|..] in table;
      }
      assert Serves(routes, name, j);
      forall m: nat | Serves(routes, name, m) ensures MatchFrom(table, name) == Some(routes[m]) {
        assert |routes[m].zone| == |routes[j].zone| && routes[m].zone == routes[j].zone;
      }
    }
  }
}
