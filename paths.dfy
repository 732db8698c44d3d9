/** The paths table of `swaggerify`: one operation per (path, lower-cased
    method), filled route by route, a later route overwriting an earlier
    one with the same path and method. */
module Paths {
  import opened Json
  import opened Operations

  /** A registered route: its method, its path template and its handler. */
  datatype Route = Route(verb: string, path: string, handler: Handler)

  /** Path template to lower-cased method to operation descriptor. */
  type PathsTable = map<string, map<string, Object>>

  /** `str.lower` on one character, for the ASCII letters. */
  function LowerChar(c: char): char
  {
    if 'A' <= c <= 'Z' then (c as int - 'A' as int + 'a' as int) as char else c
  }

  /** `str.lower` as applied to an HTTP method name. */
  function Lower(s: string): (r: string)
    ensures |r| == |s|
    ensures forall i :: 0 <= i < |s| && 'A' <= s[i] <= 'Z' ==> r[i] as int == s[i] as int + 32
    ensures forall i :: 0 <= i < |r| ==> !('A' <= r[i] <= 'Z')
    ensures forall i :: 0 <= i < |s| && !('A' <= s[i] <= 'Z') ==> r[i] == s[i]
  {
    if s == [] then [] else [LowerChar(s[0])] + Lower(s[1..])
  }

  /** The methods already stored under `path` (the `defaultdict(dict)` default). */
  function Row(paths: PathsTable, path: string): map<string, Object>
  {
    if path in paths then paths[path] else map[]
  }

  /** One write into the table: `paths_config[path][key] = desc`. */
  datatype Entry = Entry(path: string, key: string, desc: Object)

  /** The write a route performs: its path, its method lower-cased, and the
      operation built from its handler. */
  function EntryOf(r: Route): Entry
  {
    Entry(r.path, Lower(r.verb), Operation(r.handler))
  }

  /** The writes of a sequence of routes, in order. */
  function Entries(routes: seq<Route>): (es: seq<Entry>)
    ensures |es| == |routes|
    ensures forall i :: 0 <= i < |routes| ==> es[i] == EntryOf(routes[i])
  {
    seq(|routes|, i requires 0 <= i < |routes| => EntryOf(routes[i]))
  }

  /** Does `e` write the entry `paths[path][key]`? */
  predicate Writes(e: Entry, path: string, key: string)
  {
    e.path == path && e.key == key
  }

  /** One write into the table: that entry is set, every other entry is
      left as it was. */
  function Store(paths: PathsTable, e: Entry): (p: PathsTable)
    ensures p.Keys == paths.Keys + {e.path}
    ensures p[e.path].Keys == Row(paths, e.path).Keys + {e.key}
    ensures p[e.path][e.key] == e.desc
    ensures forall k :: k in Row(paths, e.path) && k != e.key ==> p[e.path][k] == paths[e.path][k]
    ensures forall q :: q in paths && q != e.path ==> p[q] == paths[q]
  {
    paths[e.path := Row(paths, e.path)[e.key := e.desc]]
  }

  /** The table after the writes have been performed in order. */
  function Fill(entries: seq<Entry>): PathsTable
  {
    if entries == [] then map[]
    else Store(Fill(entries[..|entries| - 1]), entries[|entries| - 1])
  }

  /** The table `swaggerify` builds from the routes. */
  function PathsOf(routes: seq<Route>): PathsTable
  {
    Fill(Entries(routes))
  }

  /** Performing one more write extends the table by that write. */
  lemma FillStep(entries: seq<Entry>, i: nat)
    requires i < |entries|
    ensures Fill(entries[..i + 1]) == Store(Fill(entries[..i]), entries[i])
  {
    assert entries[..i + 1][..i] == entries[..i];
  }

  /** The route loop of `swaggerify`. */
  method BuildPaths(routes: seq<Route>) returns (paths: PathsTable)
    ensures paths == PathsOf(routes)
  {
    ghost var entries := Entries(routes);
    paths := map[];
    var i := 0;
    while i < |routes|
      invariant 0 <= i <= |routes|
      invariant paths == Fill(entries[..i])
    {
      var r := routes[i];
      var desc := DescribeRoute(r.handler);
      var row := if r.path in paths then paths[r.path] else map[];
      FillStep(entries, i);
      assert entries[i] == Entry(r.path, Lower(r.verb), desc);
      paths := paths[r.path := row[Lower(r.verb) := desc]];
      i := i + 1;
    }
    assert entries[..i] == entries;
  }

  /** A path is in the table exactly when some write has it. */
  lemma {:induction false} FillPaths(entries: seq<Entry>, path: string)
    ensures path in Fill(entries) <==> exists i :: 0 <= i < |entries| && entries[i].path == path
  {
    if entries != [] {
      var n := |entries| - 1;
      var init := entries[..n];
      FillPaths(init, path);
      if path in Fill(entries) {
        if path != entries[n].path {
          var i :| 0 <= i < |init| && init[i].path == path;
          assert entries[i].path == path;
        }
      } else {
        forall i | 0 <= i < |entries| ensures entries[i].path != path {
          if i < n {
            assert init[i] == entries[i];
          }
        }
      }
    }
  }

  /** A key is under a path exactly when some write sets that entry. */
  lemma {:induction false} FillKeys(entries: seq<Entry>, path: string, key: string)
    ensures (path in Fill(entries) && key in Fill(entries)[path])
        <==> exists i :: 0 <= i < |entries| && Writes(entries[i], path, key)
  {
    if entries != [] {
      var n := |entries| - 1;
      var init := entries[..n];
      FillKeys(init, path, key);
      if path in Fill(entries) && key in Fill(entries)[path] {
        if !Writes(entries[n], path, key) {
          var i :| 0 <= i < |init| && Writes(init[i], path, key);
          assert Writes(entries[i], path, key);
        }
      } else {
        forall i | 0 <= i < |entries| ensures !Writes(entries[i], path, key) {
          if i < n {
            assert init[i] == entries[i];
          }
        }
      }
    }
  }

  /** Last write wins: an entry holds the value of the last write to it. */
  lemma {:induction false} FillLastWins(entries: seq<Entry>, i: nat)
    requires i < |entries|
    requires forall j :: i < j < |entries| ==> !Writes(entries[j], entries[i].path, entries[i].key)
    ensures entries[i].path in Fill(entries) && entries[i].key in Fill(entries)[entries[i].path]
    ensures Fill(entries)[entries[i].path][entries[i].key] == entries[i].desc
  {
    var n := |entries| - 1;
    if i < n {
      var init := entries[..n];
      assert init[i] == entries[i];
      FillLastWins(init, i);
    }
  }

  /** `paths[path]` exists exactly when some route has that path. */
  lemma PathsOfPaths(routes: seq<Route>, path: string)
    ensures path in PathsOf(routes) <==> exists i :: 0 <= i < |routes| && routes[i].path == path
  {
    var es := Entries(routes);
    FillPaths(es, path);
    if exists i :: 0 <= i < |es| && es[i].path == path {
      var i :| 0 <= i < |es| && es[i].path == path;
      assert routes[i].path == path;
    }
  }

  /** `paths[path][m]` exists exactly when some route has that path and a
      method that lower-cases to `m`. */
  lemma PathsOfMethods(routes: seq<Route>, path: string, m: string)
    ensures (path in PathsOf(routes) && m in PathsOf(routes)[path])
        <==> exists i :: 0 <= i < |routes| && routes[i].path == path && Lower(routes[i].verb) == m
  {
    var es := Entries(routes);
    FillKeys(es, path, m);
    if exists i :: 0 <= i < |es| && Writes(es[i], path, m) {
      var i :| 0 <= i < |es| && Writes(es[i], path, m);
      assert routes[i].path == path && Lower(routes[i].verb) == m;
    }
  }

  /** A repeated (path, method) keeps only the last route's operation: the
      entry a route writes holds its operation when no later route has the
      same path and lower-cased method. */
  lemma PathsOfLastWins(routes: seq<Route>, i: nat)
    requires i < |routes|
    requires forall j :: i < j < |routes| ==>
      !(routes[j].path == routes[i].path && Lower(routes[j].verb) == Lower(routes[i].verb))
    ensures routes[i].path in PathsOf(routes)
    ensures Lower(routes[i].verb) in PathsOf(routes)[routes[i].path]
    ensures PathsOf(routes)[routes[i].path][Lower(routes[i].verb)] == Operation(routes[i].handler)
  {
    FillLastWins(Entries(routes), i);
  }

  /** Routes that share a path but not a method get independent entries,
      each holding its own route's operation. */
  lemma SamePathOtherMethod(routes: seq<Route>, i: nat, j: nat)
    requires i < |routes| && j < |routes|
    requires routes[i].path == routes[j].path && Lower(routes[i].verb) != Lower(routes[j].verb)
    requires forall k :: i < k < |routes| ==>
      !(routes[k].path == routes[i].path && Lower(routes[k].verb) == Lower(routes[i].verb))
    requires forall k :: j < k < |routes| ==>
      !(routes[k].path == routes[j].path && Lower(routes[k].verb) == Lower(routes[j].verb))
    ensures routes[i].path in PathsOf(routes)
    ensures Lower(routes[i].verb) in PathsOf(routes)[routes[i].path]
    ensures Lower(routes[j].verb) in PathsOf(routes)[routes[i].path]
    ensures PathsOf(routes)[routes[i].path][Lower(routes[i].verb)] == Operation(routes[i].handler)
    ensures PathsOf(routes)[routes[i].path][Lower(routes[j].verb)] == Operation(routes[j].handler)
  {
    PathsOfLastWins(routes, i);
    PathsOfLastWins(routes, j);
  }
}
