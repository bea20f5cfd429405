/** The crawl environment: a fixed, pre-materialised graph of documents.

    Every node has a language id, an optional aligned (parallel) counterpart
    and its outgoing links.  Two ids are reserved: 0 is the terminal "stop"
    node and sys.maxsize is the synthetic start node.  Links are identified
    by their endpoints, so they are plain values here. */
module Graph {

  datatype Option<+T> = None | Some(value: T)

  /** A hyperlink from the page `parent` to the page `child` (both url ids). */
  datatype Link = Link(parent: int, child: int)

  /** One document.  `links` is the node's set of outgoing links, listed in
      the order in which Python happens to iterate it. */
  datatype Node = Node(lang: int, aligned: Option<int>, links: seq<Link>)

  /** The node table of one root host: url id -> node. */
  type Env = map<int, Node>

  /** The id of the terminal "stop" node. */
  const StopId: int := 0

  /** The id of the synthetic start node (sys.maxsize on a 64-bit host). */
  const StartId: int := 0x7FFF_FFFF_FFFF_FFFF

  /** What the graph store guarantees: every link of a node starts at that
      node and ends at a node of the table, aligned counterparts are nodes of
      the table, and a node lists each of its links once. */
  ghost predicate WellFormed(env: Env)
  {
    && (forall id, l :: id in env && l in env[id].links ==> l.parent == id && l.child in env)
    && (forall id :: id in env && env[id].aligned.Some? ==> env[id].aligned.value in env)
    && (forall id :: id in env ==> Distinct(env[id].links))
  }

  /** The links of `links` whose child is not in `visited`, in order. */
  function Unvisited(links: seq<Link>, visited: set<int>): (r: seq<Link>)
    ensures forall l :: l in r <==> l in links && l.child !in visited
    ensures |r| <= |links|
  {
    if links == [] then []
    else if links[0].child in visited then Unvisited(links[1..], visited)
    else [links[0]] + Unvisited(links[1..], visited)
  }

  /** `node.GetLinks(visited, params)`: the node's links to pages not yet visited. */
  function GetLinks(env: Env, id: int, visited: set<int>): (r: seq<Link>)
    requires id in env
    ensures forall l :: l in r <==> l in env[id].links && l.child !in visited
  {
    Unvisited(env[id].links, visited)
  }

  /** No element of `s` occurs twice. */
  ghost predicate Distinct<T>(s: seq<T>)
  {
    forall i, j :: 0 <= i < j < |s| ==> s[i] != s[j]
  }

  lemma {:induction false} UnvisitedDistinct(links: seq<Link>, visited: set<int>)
    requires Distinct(links)
    ensures Distinct(Unvisited(links, visited))
  {
    if links != [] {
      var rest := Unvisited(links[1..], visited);
      assert Distinct(links[1..]) by {
        forall i, j | 0 <= i < j < |links[1..]| ensures links[1..][i] != links[1..][j] {
          assert links[1..][i] == links[i + 1] && links[1..][j] == links[j + 1];
        }
      }
      UnvisitedDistinct(links[1..], visited);
      if links[0].child !in visited {
        assert links[0] !in links[1..] by {
          forall k | 0 <= k < |links[1..]| ensures links[1..][k] != links[0] {
            assert links[1..][k] == links[k + 1];
          }
        }
        var r := [links[0]] + rest;
        forall i, j | 0 <= i < j < |r| ensures r[i] != r[j] {
          assert r[j] == rest[j - 1] && r[j] in links[1..];
          if i > 0 {
            assert r[i] == rest[i - 1];
          }
        }
        assert Unvisited(links, visited) == r;
      }
    }
  }

  /** The node `id` has an aligned counterpart and that counterpart is in `visited`. */
  predicate Matched(env: Env, visited: set<int>, id: int)
    requires id in env
  {
    env[id].aligned.Some? && env[id].aligned.value in visited
  }

  /** The visited ids whose aligned counterpart is visited too. */
  function ParallelDocs(env: Env, visited: set<int>): (r: set<int>)
    requires visited <= env.Keys
    ensures r <= visited
    ensures forall id :: id in r <==> id in visited && Matched(env, visited, id)
  {
    set id | id in visited && Matched(env, visited, id)
  }

  /** `NumParallelDocs(env, visited)`: how many visited pages have their
      aligned page visited too; never more than the visited pages, and zero
      exactly when no visited page has. */
  function NumParallelDocs(env: Env, visited: set<int>): (n: nat)
    requires visited <= env.Keys
    ensures n <= |visited|
    ensures n == 0 <==> forall id :: id in visited ==> !Matched(env, visited, id)
  {
    SubsetCard(ParallelDocs(env, visited), visited);
    assert forall id :: id in visited && Matched(env, visited, id) ==> id in ParallelDocs(env, visited);
    |ParallelDocs(env, visited)|
  }

  /** A non-empty set has a member (a witness for the choices of set loops). */
  lemma Member<T>(s: set<T>) returns (x: T)
    requires s != {}
    ensures x in s
  {
    x :| x in s;
  }

  lemma {:induction false} SubsetCard<T>(a: set<T>, b: set<T>)
    requires a <= b
    ensures |a| <= |b|
    decreases b
  {
    if a != {} {
      var x :| x in a;
      SubsetCard(a - {x}, b - {x});
    }
  }

  /** NumParallelDocs cannot decrease as the visited set grows. */
  lemma NumParallelDocsMonotone(env: Env, visited: set<int>, more: set<int>)
    requires visited <= more <= env.Keys
    ensures NumParallelDocs(env, visited) <= NumParallelDocs(env, more)
  {
    SubsetCard(ParallelDocs(env, visited), ParallelDocs(env, more));
  }

  /** The loop of `NumParallelDocs` (fk_dqn.py): walk the visited set and count
      the nodes whose aligned node is visited as well. */
  method CountParallelDocs(env: Env, visited: set<int>) returns (n: nat)
    requires visited <= env.Keys
    ensures n == NumParallelDocs(env, visited)
  {
    n := 0;
    var rest := visited;
    while rest != {}
      invariant rest <= visited
      invariant n == |ParallelDocs(env, visited) - rest|
      decreases rest
    {
      var id :| id in rest;
      var before := ParallelDocs(env, visited) - rest;
      if Matched(env, visited, id) {
        assert ParallelDocs(env, visited) - (rest - {id}) == before + {id};
        n := n + 1;
      } else {
        assert ParallelDocs(env, visited) - (rest - {id}) == before;
      }
      rest := rest - {id};
    }
  }

  /** The reward classification of `GetNextState`: nothing for the stop node,
      the bonus when the landed page's aligned counterpart is already visited
      (a pair was just completed), the per-step cost otherwise. */
  function Reward(env: Env, visited: set<int>, child: int, bonus: real, cost: real): (r: real)
    requires child in env
    ensures r == 0.0 || r == bonus || r == cost
    ensures child == StopId ==> r == 0.0
  {
    if child == StopId then 0.0
    else if Matched(env, visited, child) then bonus
    else cost
  }

  /** With three distinct reward levels, each level identifies its case exactly. */
  lemma RewardCases(env: Env, visited: set<int>, child: int, bonus: real, cost: real)
    requires child in env
    requires bonus != 0.0 && cost != 0.0 && bonus != cost
    ensures Reward(env, visited, child, bonus, cost) == 0.0 <==> child == StopId
    ensures Reward(env, visited, child, bonus, cost) == bonus <==> child != StopId && Matched(env, visited, child)
    ensures Reward(env, visited, child, bonus, cost) == cost <==> child != StopId && !Matched(env, visited, child)
  {
  }

  /** The bonus is paid for landing on a new page whose aligned page is
      already visited, and then the count of parallel documents grows. */
  lemma RewardCompletesPair(env: Env, visited: set<int>, child: int, bonus: real, cost: real)
    requires visited <= env.Keys && child in env && child != StopId && child !in visited && bonus != cost
    ensures Reward(env, visited, child, bonus, cost) == bonus ==>
              NumParallelDocs(env, visited) < NumParallelDocs(env, visited + {child})
  {
    if Matched(env, visited, child) {
      var before, after := ParallelDocs(env, visited), ParallelDocs(env, visited + {child});
      assert forall id :: id in before ==> Matched(env, visited + {child}, id);
      SubsetCard(before + {child}, after);
    }
  }
}
