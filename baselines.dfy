/** The baseline crawlers of fk_dqn.py, against which the learnt policy is
    plotted: `dumb` (breadth first), `randomCrawl` (random frontier element)
    and `balanced` (one FIFO queue per parent language).  Each returns, after
    every newly visited page, the number of aligned pairs found so far. */
module Baselines {
  import opened Graph

  /** The pages of a sequence. */
  function Elems(s: seq<int>): set<int>
  {
    set x | x in s
  }

  /** The child pages of `id`, in link order (what the crawlers queue). */
  function Children(env: Env, id: int): (r: seq<int>)
    requires id in env
    ensures |r| == |env[id].links|
    ensures forall i :: 0 <= i < |r| ==> r[i] == env[id].links[i].child
  {
    seq(|env[id].links|, i requires 0 <= i < |env[id].links| => env[id].links[i].child)
  }

  /** Everything a breadth-first crawl queues after visiting `order`: the
      children of each visited page, page after page. */
  function Expand(env: Env, order: seq<int>): seq<int>
    requires forall x :: x in order ==> x in env
    decreases |order|
  {
    if order == [] then []
    else Expand(env, order[..|order| - 1]) + Children(env, order[|order| - 1])
  }

  /** The first occurrences of the elements of `s`, in order: the pages a
      crawl that skips already-visited pages actually visits. */
  function Dedup(s: seq<int>): (r: seq<int>)
    ensures Distinct(r)
    ensures forall x :: x in r <==> x in s
    ensures s != [] ==> r != [] && r[0] == s[0]
    decreases |s|
  {
    if s == [] then []
    else
      var front := s[..|s| - 1];
      var d := Dedup(front);
      assert forall x :: x in front ==> x in s;
      if s[|s| - 1] in d then d
      else
        assert s == [] + [s[0]] || |s| > 1;
        assert |s| > 1 ==> front[0] == s[0];
        d + [s[|s| - 1]]
  }

  /** The number of aligned pairs among the first `k` pages of `order`. */
  ghost function PrefixScore(env: Env, order: seq<int>, k: nat): nat
    requires k <= |order|
  {
    var v := Elems(order[..k]);
    if v <= env.Keys then NumParallelDocs(env, v) else 0
  }

  /** `ret` holds, for each prefix of the visit order, the number of aligned
      pairs among the pages visited by then. */
  ghost predicate Scores(env: Env, order: seq<int>, ret: seq<nat>)
  {
    && |ret| == |order|
    && Elems(order) <= env.Keys
    && (forall i :: 0 <= i < |ret| ==> ret[i] == PrefixScore(env, order, i + 1))
  }

  /** Each child of a visited page is visited or still waiting in `pending`. */
  ghost predicate Closed(env: Env, visited: set<int>, pending: set<int>)
    requires visited <= env.Keys
  {
    forall v, l :: v in visited && l in env[v].links ==> l.child in visited || l.child in pending
  }

  /** Every visited page is the crawl's first page or a child of a page
      visited before it. */
  ghost predicate Discovered(env: Env, first: int, order: seq<int>)
    requires forall x :: x in order ==> x in env
  {
    forall i :: 0 <= i < |order| ==> order[i] == first || exists j :: 0 <= j < i && order[i] in Children(env, order[j])
  }

  /** The curve a crawler returns never goes down, and its i-th point is at
      most i + 1. */
  lemma {:induction false} ScoresMonotone(env: Env, order: seq<int>, ret: seq<nat>)
    requires Scores(env, order, ret)
    ensures forall i, j :: 0 <= i <= j < |ret| ==> ret[i] <= ret[j]
    ensures forall i :: 0 <= i < |ret| ==> ret[i] <= i + 1
  {
    forall i, j | 0 <= i <= j < |ret| ensures ret[i] <= ret[j] {
      ElemsPrefix(order, i + 1, j + 1);
      NumParallelDocsMonotone(env, Elems(order[..i + 1]), Elems(order[..j + 1]));
    }
    forall i | 0 <= i < |ret| ensures ret[i] <= i + 1 {
      ElemsPrefix(order, i + 1, i + 1);
      ElemsCard(order[..i + 1]);
    }
  }

  lemma ElemsPrefix(s: seq<int>, i: nat, j: nat)
    requires i <= j <= |s|
    ensures Elems(s[..i]) <= Elems(s[..j]) <= Elems(s)
  {
    assert forall k :: 0 <= k < i ==> s[..i][k] == s[..j][k] == s[k];
  }

  lemma {:induction false} ElemsCard(s: seq<int>)
    ensures |Elems(s)| <= |s|
  {
    if s != [] {
      ElemsCard(s[1..]);
      assert Elems(s) == {s[0]} + Elems(s[1..]);
    }
  }

  /** One more visited page: the scores grow by the new count. */
  lemma ScoresStep(env: Env, order: seq<int>, ret: seq<nat>, node: int)
    requires Scores(env, order, ret) && node in env
    ensures Elems(order + [node]) == Elems(order) + {node}
    ensures Elems(order + [node]) <= env.Keys
    ensures Scores(env, order + [node], ret + [NumParallelDocs(env, Elems(order) + {node})])
  {
    assert Elems(order + [node]) == Elems(order) + {node};
    var o, r := order + [node], ret + [NumParallelDocs(env, Elems(order) + {node})];
    forall i | 0 <= i < |r|
      ensures r[i] == PrefixScore(env, o, i + 1)
    {
      if i < |ret| {
        assert o[..i + 1] == order[..i + 1];
        assert r[i] == ret[i];
      } else {
        assert o[..i + 1] == o;
      }
    }
  }

  lemma ExpandStep(env: Env, order: seq<int>, node: int)
    requires forall x :: x in order ==> x in env
    requires node in env
    ensures Expand(env, order + [node]) == Expand(env, order) + Children(env, node)
  {
    assert (order + [node])[..|order|] == order;
  }

  lemma DedupStep(s: seq<int>, x: int)
    ensures Dedup(s + [x]) == if x in Dedup(s) then Dedup(s) else Dedup(s) + [x]
  {
    assert (s + [x])[..|s|] == s;
  }

  /** The queue loop of `dumb` and `randomCrawl`: append the node's children. */
  method Enqueue(env: Env, todo: seq<int>, node: int) returns (r: seq<int>)
    requires node in env
    ensures r == todo + Children(env, node)
  {
    r := todo;
    for i := 0 to |env[node].links|
      invariant r == todo + Children(env, node)[..i]
    {
      r := r + [env[node].links[i].child];
    }
    assert Children(env, node)[..|env[node].links|] == Children(env, node);
  }

  /** Every link of the table lands on a page of the table (part of `WellFormed`). */
  ghost predicate ChildrenInEnv(env: Env)
  {
    forall id, l :: id in env && l in env[id].links ==> l.child in env
  }

  /** What every baseline keeps between two iterations: the visited set is
      the set of the visit order, which repeats no page and stays within
      `maxDocs`, and `ret` scores each prefix of it. */
  ghost predicate Visits(env: Env, maxDocs: nat, visited: set<int>, order: seq<int>, ret: seq<nat>)
  {
    && visited == Elems(order) && visited <= env.Keys
    && (forall x :: x in order ==> x in env)
    && Distinct(order) && |order| <= maxDocs
    && Scores(env, order, ret)
  }

  /** `Visits` for `dumb` and `randomCrawl`, plus: every queued page is a
      page of the table, and every child of a visited page is visited or
      queued. */
  ghost predicate Progress(env: Env, maxDocs: nat, visited: set<int>, order: seq<int>, todo: seq<int>, ret: seq<nat>)
  {
    && Visits(env, maxDocs, visited, order, ret)
    && (forall x :: x in todo ==> x in env)
    && Closed(env, visited, Elems(todo))
  }

  /** The queue bookkeeping of `dumb`: the visit order is the first
      occurrences of what has been popped, and what has been popped followed
      by the queue is everything queued so far, in order. */
  ghost predicate BfsQueue(env: Env, root: int, order: seq<int>, todo: seq<int>, popped: seq<int>)
  {
    && (forall x :: x in order ==> x in env)
    && [root] + Expand(env, order) == popped + todo
    && order == Dedup(popped)
    && (root in Elems(order) || root in todo)
  }

  /** Dropping an already visited page from the queue keeps `Closed`. */
  lemma ClosedSkip(env: Env, visited: set<int>, todo: seq<int>, i: nat)
    requires visited <= env.Keys && Closed(env, visited, Elems(todo))
    requires i < |todo| && todo[i] in visited
    ensures Closed(env, visited, Elems(todo[..i] + todo[i + 1..]))
  {
    var rest := todo[..i] + todo[i + 1..];
    assert todo == todo[..i] + [todo[i]] + todo[i + 1..];
    assert forall y :: y in todo && y != todo[i] ==> y in rest;
  }

  /** Visiting the page taken from position `i` and queueing its children
      keeps `Closed`. */
  lemma ClosedVisit(env: Env, visited: set<int>, todo: seq<int>, i: nat)
    requires visited <= env.Keys && Closed(env, visited, Elems(todo))
    requires i < |todo| && todo[i] in env
    ensures visited + {todo[i]} <= env.Keys
    ensures Closed(env, visited + {todo[i]}, Elems(todo[..i] + todo[i + 1..] + Children(env, todo[i])))
  {
    var node, rest := todo[i], todo[..i] + todo[i + 1..];
    var todo' := rest + Children(env, node);
    assert todo == todo[..i] + [node] + todo[i + 1..];
    assert forall y :: y in todo && y != node ==> y in rest;
    forall v, l | v in visited + {node} && l in env[v].links
      ensures l.child in visited + {node} || l.child in Elems(todo')
    {
      if v == node {
        var k :| 0 <= k < |env[node].links| && env[node].links[k] == l;
        assert todo'[|rest| + k] == l.child;
      } else if l.child != node && l.child !in visited {
        assert l.child in rest;
      }
    }
  }

  /** The queue bookkeeping of `dumb` when the head page is visited. */
  lemma QueueVisit(env: Env, root: int, order: seq<int>, popped: seq<int>, todo: seq<int>)
    requires forall x :: x in order ==> x in env
    requires todo != [] && todo[0] in env
    requires [root] + Expand(env, order) == popped + todo
    ensures [root] + Expand(env, order + [todo[0]]) == (popped + [todo[0]]) + (todo[1..] + Children(env, todo[0]))
  {
    ExpandStep(env, order, todo[0]);
    ShiftHead([root], Expand(env, order), popped, todo, Children(env, todo[0]));
  }

  /** Moving the head of the queue to the popped part, with `c` appended. */
  lemma ShiftHead(a: seq<int>, e: seq<int>, popped: seq<int>, todo: seq<int>, c: seq<int>)
    requires todo != [] && a + e == popped + todo
    ensures a + (e + c) == (popped + [todo[0]]) + (todo[1..] + c)
  {
    assert todo == [todo[0]] + todo[1..];
    calc {
      a + (e + c);
      (a + e) + c;
      (popped + todo) + c;
      (popped + [todo[0]]) + (todo[1..] + c);
    }
  }

  /** Dropping the visited page at position `i` of the queue keeps `Progress`. */
  lemma ProgressSkip(env: Env, maxDocs: nat, visited: set<int>, order: seq<int>, todo: seq<int>, ret: seq<nat>,
                     i: nat, rest: seq<int>)
    requires Progress(env, maxDocs, visited, order, todo, ret)
    requires i < |todo| && todo[i] in visited && rest == todo[..i] + todo[i + 1..]
    ensures Progress(env, maxDocs, visited, order, rest, ret)
  {
    ClosedSkip(env, visited, todo, i);
    assert forall y :: y in rest ==> y in todo;
  }

  /** Visiting the unvisited page at position `i` of the queue and queueing
      its children keeps `Progress`, with the new count appended to `ret`. */
  lemma ProgressVisit(env: Env, maxDocs: nat, visited: set<int>, order: seq<int>, todo: seq<int>, ret: seq<nat>,
                      i: nat, rest: seq<int>)
    requires ChildrenInEnv(env) && Progress(env, maxDocs, visited, order, todo, ret)
    requires i < |todo| && todo[i] !in visited && |order| < maxDocs && rest == todo[..i] + todo[i + 1..]
    ensures todo[i] in env && visited + {todo[i]} <= env.Keys
    ensures var node := todo[i];
            Progress(env, maxDocs, visited + {node}, order + [node], rest + Children(env, node),
                     ret + [NumParallelDocs(env, visited + {node})])
  {
    var node := todo[i];
    assert node in env;
    VisitsStep(env, maxDocs, visited, order, ret, node);
    assert Closed(env, visited + {node}, Elems(rest + Children(env, node))) by {
      ClosedVisit(env, visited, todo, i);
    }
    assert forall y :: y in rest + Children(env, node) ==> y in env by {
      assert forall y :: y in rest ==> y in todo;
      assert forall l :: l in env[node].links ==> l.child in env;
    }
  }

  /** Visiting one more, new page keeps `Visits`, with its count appended. */
  lemma VisitsStep(env: Env, maxDocs: nat, visited: set<int>, order: seq<int>, ret: seq<nat>, node: int)
    requires Visits(env, maxDocs, visited, order, ret)
    requires node in env && node !in visited && |order| < maxDocs
    ensures visited + {node} <= env.Keys
    ensures Visits(env, maxDocs, visited + {node}, order + [node], ret + [NumParallelDocs(env, visited + {node})])
  {
    assert Scores(env, order + [node], ret + [NumParallelDocs(env, visited + {node})]) by {
      ScoresStep(env, order, ret, node);
    }
    assert Distinct(order + [node]) by {
      assert node !in order;
    }
    assert Elems(order + [node]) == visited + {node};
  }

  lemma BfsQueueSkip(env: Env, root: int, order: seq<int>, todo: seq<int>, popped: seq<int>)
    requires BfsQueue(env, root, order, todo, popped)
    requires todo != [] && todo[0] in Elems(order)
    ensures BfsQueue(env, root, order, todo[1..], popped + [todo[0]])
  {
    var x := todo[0];
    assert order == Dedup(popped + [x]) by {
      DedupStep(popped, x);
    }
    assert [root] + Expand(env, order) == (popped + [x]) + todo[1..] by {
      assert popped + todo == (popped + [x]) + todo[1..];
    }
    assert root in Elems(order) || root in todo[1..] by {
      assert todo == [x] + todo[1..];
    }
  }

  lemma BfsQueueVisit(env: Env, root: int, order: seq<int>, todo: seq<int>, popped: seq<int>)
    requires BfsQueue(env, root, order, todo, popped)
    requires todo != [] && todo[0] in env && todo[0] !in Elems(order)
    ensures BfsQueue(env, root, order + [todo[0]], todo[1..] + Children(env, todo[0]), popped + [todo[0]])
  {
    var node := todo[0];
    assert order + [node] == Dedup(popped + [node]) by {
      DedupStep(popped, node);
    }
    assert [root] + Expand(env, order + [node]) == (popped + [node]) + (todo[1..] + Children(env, node)) by {
      QueueVisit(env, root, order, popped, todo);
    }
    assert root in Elems(order + [node]) || root in todo[1..] by {
      assert todo == [node] + todo[1..];
    }
    assert root in todo[1..] ==> root in todo[1..] + Children(env, node);
  }

  /** `dumb`: breadth-first crawl from `root`, skipping visited pages, until
      the queue is empty or `maxDocs` pages are visited.  `order` is the
      visit order. */
  method Dumb(env: Env, root: int, maxDocs: nat) returns (ret: seq<nat>, order: seq<int>)
    requires WellFormed(env) && root in env
    ensures Distinct(order) && |order| <= maxDocs && Elems(order) <= env.Keys
    ensures Scores(env, order, ret)
    ensures maxDocs > 0 ==> |order| > 0 && order[0] == root
    ensures |order| < maxDocs ==> root in Elems(order) && Closed(env, Elems(order), {})
    ensures exists popped :: && popped <= [root] + Expand(env, order)
                             && order == Dedup(popped)
                             && (|order| < maxDocs ==> popped == [root] + Expand(env, order))
  {
    assert ChildrenInEnv(env);
    ret, order := [], [];
    var todo := [root];
    var visited: set<int> := {};
    ghost var popped: seq<int> := [];
    while |todo| > 0 && |visited| < maxDocs
      invariant Progress(env, maxDocs, visited, order, todo, ret)
      invariant BfsQueue(env, root, order, todo, popped)
      invariant |visited| == |order|
      decreases env.Keys - visited, |todo|
    {
      var node, rest := todo[0], todo[1..];
      assert todo[..0] + todo[1..] == rest;
      if node in visited {
        ProgressSkip(env, maxDocs, visited, order, todo, ret, 0, rest);
        BfsQueueSkip(env, root, order, todo, popped);
        todo := rest;
      } else {
        DistinctCard(order);
        ProgressVisit(env, maxDocs, visited, order, todo, ret, 0, rest);
        BfsQueueVisit(env, root, order, todo, popped);
        visited := visited + {node};
        order := order + [node];
        todo := Enqueue(env, rest, node);
        var numParallelDocs := CountParallelDocs(env, visited);
        ret := ret + [numParallelDocs];
        DistinctCard(order);
      }
      popped := popped + [node];
    }
    BfsDone(env, root, maxDocs, visited, order, todo, popped, ret);
  }

  /** What the invariants of `dumb` give once its loop has stopped. */
  lemma BfsDone(env: Env, root: int, maxDocs: nat, visited: set<int>, order: seq<int>, todo: seq<int>,
                popped: seq<int>, ret: seq<nat>)
    requires Progress(env, maxDocs, visited, order, todo, ret)
    requires BfsQueue(env, root, order, todo, popped)
    requires |visited| == |order| && !(|todo| > 0 && |visited| < maxDocs)
    ensures maxDocs > 0 ==> |order| > 0 && order[0] == root
    ensures |order| < maxDocs ==> root in Elems(order) && Closed(env, Elems(order), {})
    ensures popped <= [root] + Expand(env, order)
    ensures |order| < maxDocs ==> popped == [root] + Expand(env, order)
  {
    assert ([root] + Expand(env, order))[..|popped|] == popped;
    if maxDocs > 0 && |order| < maxDocs {
      assert popped != [] by {
        assert popped + todo != [];
      }
    } else if maxDocs > 0 {
      assert popped != [] by {
        assert order == Dedup(popped) && |order| > 0;
      }
    }
    if |order| < maxDocs {
      assert todo == [];
      assert Elems(todo) == {};
    }
  }

  lemma {:induction false} DistinctCard(s: seq<int>)
    requires Distinct(s)
    ensures |Elems(s)| == |s|
  {
    if s != [] {
      assert Distinct(s[1..]) by {
        forall i, j | 0 <= i < j < |s[1..]| ensures s[1..][i] != s[1..][j] {
          assert s[1..][i] == s[i + 1] && s[1..][j] == s[j + 1];
        }
      }
      DistinctCard(s[1..]);
      assert s[0] !in Elems(s[1..]) by {
        forall k | 0 <= k < |s[1..]| ensures s[1..][k] != s[0] {
          assert s[1..][k] == s[k + 1];
        }
      }
      assert Elems(s) == {s[0]} + Elems(s[1..]);
    }
  }

  /** Where the pages of `randomCrawl` come from: the queue holds the root
      or children of visited pages, and every visited page after the first
      is a child of a page visited before it. */
  ghost predicate Origin(env: Env, root: int, order: seq<int>, todo: seq<int>)
  {
    && (forall x :: x in order ==> x in env)
    && (order == [] ==> todo == [root])
    && (order != [] ==> order[0] == root)
    && (forall x :: x in todo ==> x == root || exists j :: 0 <= j < |order| && x in Children(env, order[j]))
    && Discovered(env, root, order)
    && (root in Elems(order) || root in todo)
  }

  lemma OriginSkip(env: Env, root: int, order: seq<int>, todo: seq<int>, idx: nat, rest: seq<int>)
    requires Origin(env, root, order, todo)
    requires idx < |todo| && todo[idx] in Elems(order) && rest == todo[..idx] + todo[idx + 1..]
    ensures Origin(env, root, order, rest)
  {
    var x := todo[idx];
    assert order != [];
    assert todo == todo[..idx] + [x] + todo[idx + 1..];
    assert forall y :: y in rest ==> y in todo;
    assert forall y :: y in todo && y != x ==> y in rest;
  }

  lemma OriginVisit(env: Env, root: int, order: seq<int>, todo: seq<int>, idx: nat, rest: seq<int>)
    requires Origin(env, root, order, todo)
    requires idx < |todo| && todo[idx] in env && todo[idx] !in Elems(order) && rest == todo[..idx] + todo[idx + 1..]
    ensures var node := todo[idx];
            Origin(env, root, order + [node], rest + Children(env, node))
  {
    var node := todo[idx];
    var order' := order + [node];
    assert todo == todo[..idx] + [node] + todo[idx + 1..];
    assert forall x :: x in rest + Children(env, node) ==>
        x == root || exists j :: 0 <= j < |order'| && x in Children(env, order'[j]) by {
      forall x | x in rest + Children(env, node)
        ensures x == root || exists j :: 0 <= j < |order'| && x in Children(env, order'[j])
      {
        if x in rest {
          assert x in todo;
          if x != root {
            var j :| 0 <= j < |order| && x in Children(env, order[j]);
            assert order'[j] == order[j];
          }
        } else {
          assert order'[|order|] == node;
        }
      }
    }
    assert Discovered(env, root, order') by {
      assert node in todo;
      OriginDiscovered(env, root, order, node);
    }
    assert root in Elems(order') || root in rest by {
      assert forall y :: y in todo && y != node ==> y in rest;
    }
  }

  lemma OriginDiscovered(env: Env, root: int, order: seq<int>, node: int)
    requires forall x :: x in order ==> x in env
    requires node in env && Discovered(env, root, order)
    requires node == root || exists j :: 0 <= j < |order| && node in Children(env, order[j])
    ensures Discovered(env, root, order + [node])
  {
    var order' := order + [node];
    forall i | 0 <= i < |order'|
      ensures order'[i] == root || exists j :: 0 <= j < i && order'[i] in Children(env, order'[j])
    {
      if i < |order| {
        if order[i] != root {
          var j :| 0 <= j < i && order[i] in Children(env, order[j]);
          assert order'[j] == order[j];
        }
      } else if node != root {
        var j :| 0 <= j < |order| && node in Children(env, order[j]);
        assert order'[j] == order[j];
      }
    }
  }

  /** `randomCrawl`: `dumb` with the next page taken from a random position of
      the queue (the position is left open here). */
  method RandomCrawl(env: Env, root: int, maxDocs: nat) returns (ret: seq<nat>, order: seq<int>)
    requires WellFormed(env) && root in env
    ensures Distinct(order) && |order| <= maxDocs && Elems(order) <= env.Keys
    ensures Scores(env, order, ret)
    ensures maxDocs > 0 ==> |order| > 0 && order[0] == root
    ensures Discovered(env, root, order)
    ensures |order| < maxDocs ==> root in Elems(order) && Closed(env, Elems(order), {})
  {
    assert ChildrenInEnv(env);
    ret, order := [], [];
    var todo := [root];
    var visited: set<int> := {};
    while |todo| > 0 && |visited| < maxDocs
      invariant Progress(env, maxDocs, visited, order, todo, ret)
      invariant Origin(env, root, order, todo)
      invariant |visited| == |order|
      decreases env.Keys - visited, |todo|
    {
      var idx :| 0 <= idx < |todo|;
      var node, rest := todo[idx], todo[..idx] + todo[idx + 1..];
      if node in visited {
        ProgressSkip(env, maxDocs, visited, order, todo, ret, idx, rest);
        OriginSkip(env, root, order, todo, idx, rest);
        todo := rest;
      } else {
        DistinctCard(order);
        ProgressVisit(env, maxDocs, visited, order, todo, ret, idx, rest);
        OriginVisit(env, root, order, todo, idx, rest);
        visited := visited + {node};
        order := order + [node];
        todo := Enqueue(env, rest, node);
        var numParallelDocs := CountParallelDocs(env, visited);
        ret := ret + [numParallelDocs];
        DistinctCard(order);
      }
    }
  }
}
