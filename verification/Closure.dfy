/**
 The import closure of the directory audit: a worklist over an edge map, against plain
 reachability.
 */
module Closure {
  type Edges = map<string, set<string>>

  /** A name without edges has none, as in a default dictionary. */
  function Targets(edges: Edges, name: string): set<string> {
    if name in edges then edges[name] else {}
  }

  /** `path` starts at a seed and follows edges. */
  ghost predicate Path(edges: Edges, seeds: set<string>, path: seq<string>) {
    && path != []
    && path[0] in seeds
    && forall k :: 0 <= k < |path| - 1 ==> path[k + 1] in Targets(edges, path[k])
  }

  ghost predicate Reachable(edges: Edges, seeds: set<string>, name: string) {
    exists path :: Path(edges, seeds, path) && path[|path| - 1] == name
  }

  ghost predicate Closed(edges: Edges, names: set<string>) {
    forall name, target :: name in names && target in Targets(edges, name) ==> target in names
  }

  lemma StepReachable(edges: Edges, seeds: set<string>, name: string, target: string)
    requires Reachable(edges, seeds, name) && target in Targets(edges, name)
    ensures Reachable(edges, seeds, target)
  {
    var path :| Path(edges, seeds, path) && path[|path| - 1] == name;
    assert Path(edges, seeds, path + [target]);
  }

  lemma SeedReachable(edges: Edges, seeds: set<string>, name: string)
    requires name in seeds
    ensures Reachable(edges, seeds, name)
  {
    assert Path(edges, seeds, [name]);
  }

  /** A closed set around the seeds holds every path that leaves them. */
  lemma {:induction false} PathStaysInside(edges: Edges, seeds: set<string>, names: set<string>, path: seq<string>, k: nat)
    requires seeds <= names && Closed(edges, names) && Path(edges, seeds, path) && k < |path|
    ensures path[k] in names
  {
    if k > 0 {
      PathStaysInside(edges, seeds, names, path, k - 1);
      assert path[k - 1 + 1] in Targets(edges, path[k - 1]);
    }
  }

  ghost function AllTargets(edges: Edges): set<string> {
    set name, target | name in edges && target in edges[name] :: target
  }

  /** Everything outside the worklist has its edges inside the set. */
  ghost predicate Explored(edges: Edges, code: set<string>, pending: seq<string>) {
    forall name, target :: name in code && name !in pending && target in Targets(edges, name) ==>
      target in code
  }

  ghost predicate AllReachable(edges: Edges, seeds: set<string>, names: set<string>) {
    forall name :: name in names ==> Reachable(edges, seeds, name)
  }

  /** `list(code)`: some order of the set. */
  method Listed(names: set<string>) returns (list: seq<string>)
    ensures forall name :: name in list <==> name in names
  {
    var rest := names;
    list := [];
    while rest != {}
      invariant rest <= names
      invariant forall name :: name in list <==> name in names - rest
    {
      var name :| name in rest;
      list, rest := list + [name], rest - {name};
    }
  }

  /** The worklist terminates with exactly what the seeds reach. */
  method Close(edges: Edges, seeds: set<string>) returns (code: set<string>)
    ensures forall name :: name in code <==> Reachable(edges, seeds, name)
    ensures forall names :: seeds <= names && Closed(edges, names) ==> code <= names
  {
    hide Reachable;
    hide Explored;
    hide Closed;
    hide AllReachable;
    hide AllTargets;
    hide Targets;
    code := seeds;
    var pending := Listed(code);
    ghost var universe := seeds + AllTargets(edges);
    Started(edges, seeds, pending);
    while pending != []
      invariant seeds <= code <= universe
      invariant forall name :: name in pending ==> name in code
      invariant AllReachable(edges, seeds, code)
      invariant Explored(edges, code, pending)
      decreases |universe - code|, |pending|
    {
      var name := pending[|pending| - 1];
      assert pending == pending[..|pending| - 1] + [name];
      pending := pending[..|pending| - 1];
      ghost var before := code;
      var found := Targets(edges, name) - code;
      code, pending := Extend(edges, seeds, name, code, pending, found);
      Progress(universe, before, found);
    }
    ExploredIsReachable(edges, seeds, code);
  }

  lemma Progress(universe: set<string>, code: set<string>, found: set<string>)
    requires found <= universe && found !! code
    ensures found != {} ==> |universe - (code + found)| < |universe - code|
    ensures found == {} ==> code + found == code
  {
    if found != {} {
      var x :| x in found;
      assert x in universe - code && x !in universe - (code + found);
      assert universe - (code + found) < universe - code;
      Shrinks(universe - (code + found), universe - code);
    }
  }

  lemma Started(edges: Edges, seeds: set<string>, pending: seq<string>)
    requires forall name :: name in pending <==> name in seeds
    ensures AllReachable(edges, seeds, seeds) && Explored(edges, seeds, pending)
  {
    forall name | name in seeds ensures Reachable(edges, seeds, name) {
      SeedReachable(edges, seeds, name);
    }
  }

  /** An empty worklist means the set is what the seeds reach, and the least closed set around them. */
  lemma ExploredIsReachable(edges: Edges, seeds: set<string>, code: set<string>)
    requires seeds <= code && AllReachable(edges, seeds, code) && Explored(edges, code, [])
    ensures forall name :: name in code <==> Reachable(edges, seeds, name)
    ensures forall names :: seeds <= names && Closed(edges, names) ==> code <= names
  {
    hide Reachable;
    assert Closed(edges, code);
    forall name | Reachable(edges, seeds, name) ensures name in code {
      ReachableInside(edges, seeds, code, name);
    }
    forall names | seeds <= names && Closed(edges, names) ensures code <= names {
      forall name | name in code ensures name in names {
        ReachableInside(edges, seeds, names, name);
      }
    }
  }

  /** The inner loop: add every new target of `name` to the set and the worklist. */
  method Extend(edges: Edges, ghost seeds: set<string>, name: string, code0: set<string>, pending0: seq<string>,
                found: set<string>)
    returns (code: set<string>, pending: seq<string>)
    requires name in code0 && found == Targets(edges, name) - code0
    requires AllReachable(edges, seeds, code0)
    requires Explored(edges, code0, pending0 + [name])
    requires forall other :: other in pending0 ==> other in code0
    ensures code == code0 + found
    ensures found == {} ==> pending == pending0
    ensures forall other :: other in pending ==> other in code
    ensures AllReachable(edges, seeds, code)
    ensures Explored(edges, code, pending)
    ensures found <= AllTargets(edges)
  {
    code, pending := code0, pending0;
    var rest := found;
    while rest != {}
      invariant rest <= found
      invariant code == code0 + (found - rest)
      invariant forall other :: other in pending <==> other in pending0 || other in found - rest
      invariant found == {} ==> pending == pending0
      invariant AllReachable(edges, seeds, code)
    {
      var target :| target in rest;
      StepReachable(edges, seeds, name, target);
      code, pending, rest := code + {target}, pending + [target], rest - {target};
    }
    forall other, target | other in code && other !in pending && target in Targets(edges, other)
      ensures target in code
    {
      if other != name {
        assert other !in pending0 + [name];
      }
    }
    assert found <= AllTargets(edges);
  }

  lemma ReachableInside(edges: Edges, seeds: set<string>, names: set<string>, name: string)
    requires seeds <= names && Closed(edges, names) && Reachable(edges, seeds, name)
    ensures name in names
  {
    var path :| Path(edges, seeds, path) && path[|path| - 1] == name;
    PathStaysInside(edges, seeds, names, path, |path| - 1);
  }

  lemma {:induction false} Shrinks<T>(small: set<T>, large: set<T>)
    requires small < large
    ensures |small| < |large|
  {
    var x :| x in large && x !in small;
    if small == {} {
      assert |large - {x}| >= 0;
    } else {
      var y :| y in small;
      Shrinks(small - {y}, large - {y});
    }
  }
}
