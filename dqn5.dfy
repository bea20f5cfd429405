/** The crawl loop of dqn5/main.py: `Neural`, which takes one double-Q step
    from the frontier and visited set the previous transition left behind,
    and `Trajectory`, which runs those steps from the start page until the
    frontier runs dry or `maxDocs` pages are visited, scoring each step by
    the parallel documents found so far and offering each transition to one
    of the two networks' corpora.

    The frontier type `F` and the functions over it (`Candidates()`,
    `AddLinks`, `Count`), `NeuralWalk` and `PredictAll` belong to modules
    of dqn5 that are not part of this model; they are the parameters
    gathered in `Agent`, and `Sound` states what the loop relies on them
    for.  Every snapshot `Transition` takes with `copy()` is a value here. */
module Dqn5 {
  import opened Graph
  import opened Replay
  import opened Target

  /** A network of the pair `qns.q`: `true` for `q[0]`, `false` for `q[1]`. */
  type Net = bool

  /** What `NeuralWalk` returns for one step: the row of Q-values, the value
      of the chosen action, the action, the link followed, its reward, and
      the frontier after following it.  `NeuralWalk` also adds the page it
      follows to the visited set it is given; `Neural` does that here. */
  datatype Walk<F> = Walk(qValues: seq<real>, maxQ: real, action: nat, link: Link, reward: real, nextCandidates: F)

  /** The collaborators: an empty frontier, `AddLinks(node, visited)`,
      `Count()`, `NeuralWalk` with a network, and `PredictAll`, which gives a
      network's row of Q-values and its argmax.  `links` is the set of links
      a frontier holds: the view of a frontier that `Sound` states the others by. */
  datatype Agent<!F> = Agent(empty: F, addLinks: (F, int, set<int>) -> F, count: F -> nat,
                             walk: (Net, F, set<int>) -> Walk<F>, predictAll: (Net, F, set<int>) -> (seq<real>, nat),
                             links: F -> set<Link>)

  /** The fields of `LearningParams` this file reads. */
  datatype Params = Params(langIds: seq<int>, alpha: real, gamma: real, numActions: nat, maxDocs: nat,
                           deleteDuplicates: bool)

  /** The links of `links` that do not lead to `child`. */
  function Purged(links: set<Link>, child: int): (r: set<Link>)
    ensures forall l :: l in r <==> l in links && l.child != child
  {
    set l | l in links && l.child != child
  }

  /** The frontier `f` of a crawl that has visited `v`: `v` is a set of
      pages of the environment, and every link `f` holds is a link of a
      visited page to a page of the environment not yet visited. */
  ghost predicate Pending<F(!new)>(env: Env, g: Agent<F>, f: F, v: set<int>)
  {
    && v <= env.Keys
    && (forall l :: l in g.links(f) ==>
          && l.parent in v && l.parent in env && l in env[l.parent].links && l.child in env && l.child !in v)
  }

  /** What a walk with network `n` from a non-empty frontier `f` of a crawl
      that has visited `v` gives: an action inside its row of `numActions`
      values, a link the frontier holds, and the frontier after popping that
      link (which drops every link to the same page) and adding the links of
      the page it lands on to pages not yet visited. */
  ghost predicate Walks<F(!new)>(env: Env, g: Agent<F>, numActions: nat, n: Net, f: F, v: set<int>)
  {
    Pending(env, g, f, v) && g.count(f) > 0 ==>
      var w := g.walk(n, f, v);
      && |w.qValues| == numActions && w.action < numActions
      && w.link in g.links(f)
      && g.links(w.nextCandidates) ==
           Purged(g.links(f), w.link.child) + (set l | l in GetLinks(env, w.link.child, v + {w.link.child}))
  }

  /** `AddLinks(node, visited)` adds the node's links to pages not in `visited`. */
  ghost predicate Adds<F(!new)>(env: Env, g: Agent<F>, f: F, node: int, v: set<int>)
  {
    node in env ==> g.links(g.addLinks(f, node, v)) == g.links(f) + (set l | l in GetLinks(env, node, v))
  }

  /** `PredictAll` gives a row of `numActions` values and an argmax inside it. */
  ghost predicate Predicts<F(!new)>(g: Agent<F>, numActions: nat, n: Net, f: F, v: set<int>)
  {
    |g.predictAll(n, f, v).0| == numActions && g.predictAll(n, f, v).1 < numActions
  }

  /** What the loop relies on its collaborators for: the start page is in a
      well-formed environment, the empty frontier holds no link, `Count()`
      is the number of links held, `AddLinks` and every walk are as `Adds`
      and `Walks` say and every prediction as `Predicts` says. */
  ghost predicate Sound<F(!new)>(env: Env, g: Agent<F>, numActions: nat)
  {
    && StartId in env && WellFormed(env)
    && g.links(g.empty) == {}
    && (forall f: F :: g.count(f) == |g.links(f)|)
    && (forall f: F, node: int, v: set<int> :: Adds(env, g, f, node, v))
    && (forall n: Net, f: F, v: set<int> :: Walks(env, g, numActions, n, f, v))
    && (forall n: Net, f: F, v: set<int> :: Predicts(g, numActions, n, f, v))
  }

  /** The assumptions are consistent: a start page linking to one page
      without links, with the frontier kept as its set of links, a walk
      that follows the only link there is and predictions of one action,
      meets them. */
  lemma SoundSatisfiable() returns (env: Env, g: Agent<set<Link>>)
    ensures Sound(env, g, 1) && GetLinks(env, StartId, {StartId}) != []
  {
    var only := Link(StartId, 5);
    env := map[StartId := Node(1, None, [only]), 5 := Node(2, None, [])];
    var e := env;
    g := Agent({},
               (f: set<Link>, node: int, v: set<int>) =>
                 if node in e then f + (set l | l in GetLinks(e, node, v)) else f,
               (f: set<Link>) => |f|,
               (n: Net, f: set<Link>, v: set<int>) => Walk([0.0], 0.0, 0, only, 0.0, Purged(f, 5)),
               (n: Net, f: set<Link>, v: set<int>) => ([0.0], 0),
               (f: set<Link>) => f);
    assert GetLinks(env, StartId, {StartId}) == [only];
    forall n: Net, f: set<Link>, v: set<int> ensures Walks(env, g, 1, n, f, v) {
      if Pending(env, g, f, v) && g.count(f) > 0 {
        forall l | l in f ensures l == only {
          assert l in env[l.parent].links;
        }
        var x :| x in f;
        assert GetLinks(env, 5, v + {5}) == [];
      }
    }
  }

  /** `Transition`: the snapshot of one step.  `Start` is the one
      `Trajectory` makes before the first step, which holds only the next
      frontier and visited set. */
  datatype Transition<F> =
    | Start(nextVisited: set<int>, nextCandidates: F)
    | Step(action: nat, link: Link, langIds: seq<int>, targetQ: seq<real>, visited: set<int>,
           candidates: F, nextVisited: set<int>, nextCandidates: F)

  /** The bootstrap of `Neural`: 0 when the next frontier is empty,
      otherwise network B's value at network A's argmax. */
  function NextMaxQ<F(!new)>(g: Agent<F>, a: Net, f: F, v: set<int>): (r: real)
    requires g.predictAll(a, f, v).1 < |g.predictAll(!a, f, v).0|
    ensures g.count(f) == 0 ==> r == 0.0
    ensures g.count(f) > 0 ==> r in g.predictAll(!a, f, v).0
  {
    if g.count(f) > 0 then g.predictAll(!a, f, v).0[g.predictAll(a, f, v).1] else 0.0
  }

  /** A walk from a pending, non-empty frontier leaves a pending frontier
      behind, for the visited set grown by the page it lands on. */
  lemma WalkPending<F(!new)>(env: Env, g: Agent<F>, numActions: nat, n: Net, f: F, v: set<int>)
    requires Sound(env, g, numActions) && Pending(env, g, f, v) && g.count(f) > 0
    ensures var w := g.walk(n, f, v);
            w.link in g.links(f) && Pending(env, g, w.nextCandidates, v + {w.link.child})
  {
    assert Walks(env, g, numActions, n, f, v);
    var w := g.walk(n, f, v);
    var c := w.link.child;
    forall l | l in g.links(w.nextCandidates)
      ensures && l.parent in v + {c} && l.parent in env && l in env[l.parent].links && l.child in env
              && l.child !in v + {c}
    {
      if l !in Purged(g.links(f), c) {
        assert l in GetLinks(env, c, v + {c});
      }
    }
  }

  /** `Neural`: walk one step with network `a` as A from the previous
      transition's next frontier and visited set, which must hold a link
      (`NeuralWalk` must find one), and record the step with the damped
      double-Q target written into the chosen action's slot only.  The
      result is the new transition and the step's reward. */
  function Neural<F(!new)>(env: Env, g: Agent<F>, p: Params, prev: Transition<F>, a: Net): (r: (Transition<F>, real))
    requires Sound(env, g, p.numActions) && Pending(env, g, prev.nextCandidates, prev.nextVisited)
    requires g.count(prev.nextCandidates) > 0
    ensures var w, t := g.walk(a, prev.nextCandidates, prev.nextVisited), r.0;
            && t.Step?
            && t.visited == prev.nextVisited && t.candidates == prev.nextCandidates
            && t.action == w.action && t.link == w.link && r.1 == w.reward && t.langIds == p.langIds
            && t.link in g.links(prev.nextCandidates)
            && t.link.child !in t.visited && t.nextVisited == t.visited + {t.link.child} <= env.Keys
            && t.nextCandidates == w.nextCandidates && Pending(env, g, t.nextCandidates, t.nextVisited)
            && |t.targetQ| == |w.qValues| == p.numActions && t.action < p.numActions
            && (forall i :: 0 <= i < |w.qValues| && i != t.action ==> t.targetQ[i] == w.qValues[i])
            && Predicts(g, p.numActions, a, t.nextCandidates, t.nextVisited)
            && Predicts(g, p.numActions, !a, t.nextCandidates, t.nextVisited)
            && (g.count(t.nextCandidates) == 0 ==>
                  t.targetQ[t.action] == DampedTarget(p.alpha, p.gamma, w.maxQ, w.reward, 0.0))
            && (g.count(t.nextCandidates) > 0 ==>
                  var nextAction := g.predictAll(a, t.nextCandidates, t.nextVisited).1;
                  t.targetQ[t.action] ==
                    DampedTarget(p.alpha, p.gamma, w.maxQ, w.reward,
                                 g.predictAll(!a, t.nextCandidates, t.nextVisited).0[nextAction]))
  {
    var w := g.walk(a, prev.nextCandidates, prev.nextVisited);
    assert Walks(env, g, p.numActions, a, prev.nextCandidates, prev.nextVisited);
    WalkPending(env, g, p.numActions, a, prev.nextCandidates, prev.nextVisited);
    var nextVisited := prev.nextVisited + {w.link.child};
    assert Predicts(g, p.numActions, a, w.nextCandidates, nextVisited);
    assert Predicts(g, p.numActions, !a, w.nextCandidates, nextVisited);
    var nextMaxQ := NextMaxQ(g, a, w.nextCandidates, nextVisited);
    var targetQ := DampedTarget(p.alpha, p.gamma, w.maxQ, w.reward, nextMaxQ);
    (Step(w.action, w.link, p.langIds, w.qValues[w.action := targetQ], prev.nextVisited, prev.nextCandidates,
          nextVisited, w.nextCandidates),
     w.reward)
  }

  /** The transition step `i` of `path` starts from: the start snapshot, then
      each step's own transition. */
  ghost function Before<F(!new)>(start: Transition<F>, path: seq<Transition<F>>, i: nat): Transition<F>
    requires i <= |path|
  {
    if i == 0 then start else path[i - 1]
  }

  /** The sum of the rewards (`totReward`). */
  function Total(rewards: seq<real>): real
    decreases |rewards|
  {
    if rewards == [] then 0.0 else Total(rewards[..|rewards| - 1]) + rewards[|rewards| - 1]
  }

  /** The rewards, the `k`-th weighted by `gamma^k` (`totDiscountedReward`). */
  function Discounted(rewards: seq<real>, gamma: real): real
    decreases |rewards|
  {
    if rewards == [] then 0.0
    else Discounted(rewards[..|rewards| - 1], gamma) + Pow(gamma, |rewards| - 1) * rewards[|rewards| - 1]
  }

  /** With `gamma` 1, the setting of `LearningParams`, the discounted total
      is the plain total. */
  lemma {:induction false} DiscountedUndamped(rewards: seq<real>)
    ensures Discounted(rewards, 1.0) == Total(rewards)
    decreases |rewards|
  {
    if rewards != [] {
      DiscountedUndamped(rewards[..|rewards| - 1]);
      PowOne(|rewards| - 1);
    }
  }

  /** `t` is a step from the transition `prev`: it starts from the visited
      set `prev` left behind and adds the page it lands on, not visited before. */
  ghost predicate Follows<F(!new)>(prev: Transition<F>, t: Transition<F>)
  {
    t.Step? && t.visited == prev.nextVisited && t.link.child !in t.visited && t.nextVisited == t.visited + {t.link.child}
  }

  /** Step `i` of `path` starts from a visited set of `|start.nextVisited| + i`
      pages of the environment, the one the transition before it left
      behind, and adds a page not in it. */
  ghost predicate Chained<F(!new)>(env: Env, start: Transition<F>, path: seq<Transition<F>>)
  {
    && (forall i :: 0 <= i < |path| ==>
          && path[i].Step? && path[i].visited <= env.Keys && |path[i].visited| == |start.nextVisited| + i
          && path[i].link.child !in path[i].visited && path[i].nextVisited == path[i].visited + {path[i].link.child})
    && (path != [] ==> path[0].visited == start.nextVisited)
    && (forall i, j :: 0 <= i && j == i + 1 && j < |path| ==> path[j].visited == path[i].nextVisited)
  }

  /** A step from the last transition of a chain extends the chain. */
  lemma ChainStep<F(!new)>(env: Env, start: Transition<F>, path: seq<Transition<F>>, t: Transition<F>)
    requires Chained(env, start, path) && Before(start, path, |path|).nextVisited <= env.Keys
    requires Follows(Before(start, path, |path|), t)
    ensures Chained(env, start, path + [t])
  {
    var q := path + [t];
    assert forall i :: 0 <= i < |path| ==> q[i] == path[i];
    if path != [] {
      assert Before(start, path, |path|) == path[|path| - 1];
    }
  }

  /** A page a step of a chain lands on is in the visited set of every
      later step. */
  lemma {:induction false} ChainedGrows<F(!new)>(env: Env, start: Transition<F>, path: seq<Transition<F>>, i: nat, j: nat)
    requires Chained(env, start, path) && i < j < |path|
    ensures path[i].link.child in path[j].visited
    decreases j - i
  {
    assert path[j].visited == path[j - 1].nextVisited;
    if j > i + 1 {
      ChainedGrows(env, start, path, i, j - 1);
    }
  }

  /** No two steps of a chain land on the same page. */
  lemma ChainedOnce<F(!new)>(env: Env, start: Transition<F>, path: seq<Transition<F>>)
    requires Chained(env, start, path)
    ensures forall i, j :: 0 <= i < j < |path| ==> path[i].link.child != path[j].link.child
  {
    forall i, j | 0 <= i < j < |path| ensures path[i].link.child != path[j].link.child {
      ChainedGrows(env, start, path, i, j);
    }
  }

  /** The steps taken from the snapshot `start`, with network 0 as A exactly
      where `roles` says so, and their rewards: each step is `Neural` from
      the transition before it, taken while that transition lets the crawl
      go on (`Ready`).  Step `i` starts from a visited set of
      `|start.nextVisited| + i` pages of the environment, and every
      transition leaves a pending frontier behind. */
  ghost function Run<F(!new)>(env: Env, g: Agent<F>, p: Params, start: Transition<F>, roles: seq<bool>)
    : (r: (seq<Transition<F>>, seq<real>))
    requires Sound(env, g, p.numActions) && Pending(env, g, start.nextCandidates, start.nextVisited)
    ensures |r.1| == |r.0| <= |roles| && Chained(env, start, r.0)
    ensures Pending(env, g, Before(start, r.0, |r.0|).nextCandidates, Before(start, r.0, |r.0|).nextVisited)
    decreases |roles|
  {
    if roles == [] then ([], [])
    else
      var front := Run(env, g, p, start, roles[..|roles| - 1]);
      var prev := Before(start, front.0, |front.0|);
      if |front.0| == |roles| - 1 && Ready(g, p, prev) then
        var step := Neural(env, g, p, prev, roles[|roles| - 1]);
        ChainStep(env, start, front.0, step.0);
        (front.0 + [step.0], front.1 + [step.1])
      else front
  }

  /** The steps so far, one per role, their rewards, and `ret[i]`, the number
      of parallel documents in the visited set before step `i`. */
  ghost predicate Crawled<F(!new)>(env: Env, g: Agent<F>, p: Params, start: Transition<F>, roles: seq<bool>,
                                   path: seq<Transition<F>>, rewards: seq<real>, ret: seq<nat>)
    requires Sound(env, g, p.numActions) && Pending(env, g, start.nextCandidates, start.nextVisited)
  {
    && |path| == |roles| && path == Run(env, g, p, start, roles).0 && rewards == Run(env, g, p, start, roles).1
    && Scored(env, path, ret)
  }

  /** `ret[i]` is the number of parallel documents in the visited set
      before step `i` of `path`. */
  ghost predicate Scored<F(!new)>(env: Env, path: seq<Transition<F>>, ret: seq<nat>)
  {
    && |ret| == |path|
    && (forall i :: 0 <= i < |path| ==>
          path[i].Step? && path[i].visited <= env.Keys && ret[i] == NumParallelDocs(env, path[i].visited))
  }

  /** Scoring one more step keeps `Scored`. */
  lemma ScoredStep<F(!new)>(env: Env, path: seq<Transition<F>>, ret: seq<nat>, t: Transition<F>)
    requires Scored(env, path, ret) && t.Step? && t.visited <= env.Keys
    ensures Scored(env, path + [t], ret + [NumParallelDocs(env, t.visited)])
  {
    var path', ret' := path + [t], ret + [NumParallelDocs(env, t.visited)];
    assert forall i :: 0 <= i < |path| ==> path'[i] == path[i] && ret'[i] == ret[i];
  }

  /** The running totals of `Trajectory`: the reward, the discounted reward
      and the discount. */
  datatype Totals = Totals(totReward: real, totDiscountedReward: real, discount: real)

  /** The totals after the steps whose rewards are `rewards`, accumulated as
      the loop does: each reward is added, weighted by the discount before
      that is multiplied by `gamma`. */
  function Accrued(rewards: seq<real>, gamma: real): Totals
    decreases |rewards|
  {
    if rewards == [] then Totals(0.0, 0.0, 1.0)
    else
      var before, r := Accrued(rewards[..|rewards| - 1], gamma), rewards[|rewards| - 1];
      Totals(before.totReward + r, before.totDiscountedReward + before.discount * r, before.discount * gamma)
  }

  /** The accumulated totals are the plain sum, the sum with the `k`-th
      reward weighted by `gamma^k`, and `gamma` to the number of steps. */
  lemma {:induction false} AccruedClosedForm(rewards: seq<real>, gamma: real)
    ensures Accrued(rewards, gamma) == Totals(Total(rewards), Discounted(rewards, gamma), Pow(gamma, |rewards|))
    decreases |rewards|
  {
    if rewards != [] {
      var front, r := rewards[..|rewards| - 1], rewards[|rewards| - 1];
      AccruedClosedForm(front, gamma);
      var d := Pow(gamma, |front|);
      assert Pow(gamma, |rewards|) == d * gamma;
      assert Discounted(rewards, gamma) == Discounted(front, gamma) + d * r;
    }
  }

  /** In test mode the corpora are untouched; in training mode each one
      holds what it held plus the transitions routed to it. */
  ghost predicate OfferedUnlessTest<F(!new)>(corpus0: Corpus<Transition<F>>, corpus1: Corpus<Transition<F>>,
                                       ts0: seq<Transition<F>>, ts1: seq<Transition<F>>, path: seq<Transition<F>>,
                                       routes: seq<bool>, test: bool, deleteDuplicates: bool)
    reads corpus0, corpus1
    requires |routes| == |path|
  {
    && (test ==> corpus0.transitions == ts0 && corpus1.transitions == ts1)
    && (!test ==> Offered(corpus0, corpus1, ts0, ts1, path, routes, deleteDuplicates))
  }

  /** A step may follow the transition `t`: its next frontier is not empty
      and, after a step, the visited set before that step has fewer than
      `maxDocs` pages. */
  predicate Ready<F(!new)>(g: Agent<F>, p: Params, t: Transition<F>)
  {
    g.count(t.nextCandidates) > 0 && (t.Step? ==> |t.visited| < p.maxDocs)
  }

  /** The loop goes on after a step that another step may follow. */
  predicate Continues<F(!new)>(g: Agent<F>, p: Params, t: Transition<F>)
  {
    t.Step? && Ready(g, p, t)
  }

  /** The stop rule so far: every step before the last let the loop go on,
      and the loop has stopped exactly when the last one did not; it has
      taken at most `maxDocs` steps, or just the one. */
  ghost predicate Going<F(!new)>(g: Agent<F>, p: Params, path: seq<Transition<F>>, stop: bool)
  {
    && (forall i :: 0 <= i < |path| - 1 ==> Continues(g, p, path[i]))
    && (!stop ==> |path| <= p.maxDocs && (path != [] ==> Continues(g, p, path[|path| - 1])))
    && (stop ==> path != [] && !Continues(g, p, path[|path| - 1]) && (|path| <= p.maxDocs || |path| == 1))
  }

  /** A step from `|path| + 1` visited pages keeps the stop rule. */
  lemma GoingStep<F(!new)>(g: Agent<F>, p: Params, path: seq<Transition<F>>, t: Transition<F>)
    requires Going(g, p, path, false) && t.Step? && |t.visited| == |path| + 1
    requires path != [] ==> path[|path| - 1].Step? && |path[|path| - 1].visited| == |path|
    ensures Going(g, p, path + [t], !Continues(g, p, t))
  {
    assert forall i :: 0 <= i < |path| ==> (path + [t])[i] == path[i];
  }

  /** A run that has taken a step per role and may go on takes the next
      role's step too. */
  lemma RunAppend<F(!new)>(env: Env, g: Agent<F>, p: Params, start: Transition<F>, roles: seq<bool>, role: bool)
    requires Sound(env, g, p.numActions) && Pending(env, g, start.nextCandidates, start.nextVisited)
    requires |Run(env, g, p, start, roles).0| == |roles|
    requires Ready(g, p, Before(start, Run(env, g, p, start, roles).0, |roles|))
    ensures var r := Run(env, g, p, start, roles);
            var step := Neural(env, g, p, Before(start, r.0, |r.0|), role);
            Run(env, g, p, start, roles + [role]) == (r.0 + [step.0], r.1 + [step.1])
  {
    assert (roles + [role])[..|roles|] == roles;
  }

  /** While the loop goes on, the next step may follow the last transition. */
  lemma GoingReady<F(!new)>(g: Agent<F>, p: Params, start: Transition<F>, path: seq<Transition<F>>)
    requires Going(g, p, path, false) && start.Start? && g.count(start.nextCandidates) > 0
    ensures Ready(g, p, Before(start, path, |path|))
  {
    if path != [] {
      assert Continues(g, p, path[|path| - 1]) && Before(start, path, |path|) == path[|path| - 1];
    }
  }

  /** While the loop goes on, one more `Neural` step keeps `Crawled`, and
      the stop rule holds with the loop stopping exactly when that step
      does not let it go on. */
  lemma Stepped<F(!new)>(env: Env, g: Agent<F>, p: Params, start: Transition<F>, roles: seq<bool>,
                         path: seq<Transition<F>>, rewards: seq<real>, ret: seq<nat>, role: bool)
    requires Sound(env, g, p.numActions) && start == Start({StartId}, start.nextCandidates)
    requires Pending(env, g, start.nextCandidates, start.nextVisited) && g.count(start.nextCandidates) > 0
    requires Crawled(env, g, p, start, roles, path, rewards, ret) && Going(g, p, path, false)
    ensures Pending(env, g, Before(start, path, |path|).nextCandidates, Before(start, path, |path|).nextVisited)
    ensures Ready(g, p, Before(start, path, |path|))
    ensures var step := Neural(env, g, p, Before(start, path, |path|), role);
            && Crawled(env, g, p, start, roles + [role], path + [step.0], rewards + [step.1],
                       ret + [NumParallelDocs(env, step.0.visited)])
            && Going(g, p, path + [step.0], !Continues(g, p, step.0))
  {
    GoingReady(g, p, start, path);
    RunAppend(env, g, p, start, roles, role);
    var step := Neural(env, g, p, Before(start, path, |path|), role);
    ScoredStep(env, path, ret, step.0);
    GoingStep(g, p, path, step.0);
  }

  /** The bookkeeping of one step: `totReward += reward`,
      `totDiscountedReward += discount * reward`, `discount *= gamma`. */
  method Accrue(totReward: real, totDiscountedReward: real, discount: real, reward: real, gamma: real,
                ghost rewards: seq<real>)
    returns (totReward': real, totDiscountedReward': real, discount': real)
    requires Totals(totReward, totDiscountedReward, discount) == Accrued(rewards, gamma)
    ensures Totals(totReward', totDiscountedReward', discount') == Accrued(rewards + [reward], gamma)
  {
    totReward' := totReward + reward;
    totDiscountedReward' := totDiscountedReward + discount * reward;
    discount' := discount * gamma;
    assert (rewards + [reward])[..|rewards|] == rewards;
  }

  /** In training mode, offer the transition of a step taken with network
      `a` as A to the corpus a second coin picks: A's or B's.  `route` says
      whether that is network 0's. */
  method Offer<F(!new)>(test: bool, corpus0: Corpus<Transition<F>>, corpus1: Corpus<Transition<F>>, t: Transition<F>,
                        a: Net, deleteDuplicates: bool, ghost path: seq<Transition<F>>, ghost routes: seq<bool>,
                        ghost ts0: seq<Transition<F>>, ghost ts1: seq<Transition<F>>)
    returns (ghost route: bool)
    requires corpus0 != corpus1 && |routes| == |path|
    requires OfferedUnlessTest(corpus0, corpus1, ts0, ts1, path, routes, test, deleteDuplicates)
    modifies corpus0, corpus1
    ensures OfferedUnlessTest(corpus0, corpus1, ts0, ts1, path + [t], routes + [route], test, deleteDuplicates)
    ensures corpus0.losses == old(corpus0.losses) && corpus0.sumWeights == old(corpus0.sumWeights)
    ensures corpus1.losses == old(corpus1.losses) && corpus1.sumWeights == old(corpus1.sumWeights)
  {
    route := true;
    if !test {
      var toA: bool :| true;
      var toZero := toA == a;
      route := toZero;
      MineStep(corpus0.key, ts0, path, routes, t, route, true, deleteDuplicates);
      MineStep(corpus1.key, ts1, path, routes, t, route, false, deleteDuplicates);
      if toZero {
        corpus0.AddTransition(t, deleteDuplicates);
      } else {
        corpus1.AddTransition(t, deleteDuplicates);
      }
    }
  }

  /** The state of the `Trajectory` loop: the steps so far with their
      scores, the totals, the corpora, and the stop rule. */
  ghost predicate Looping<F(!new)>(env: Env, g: Agent<F>, p: Params, test: bool, corpus0: Corpus<Transition<F>>,
                                   corpus1: Corpus<Transition<F>>, ts0: seq<Transition<F>>, ts1: seq<Transition<F>>,
                                   start: Transition<F>, transition: Transition<F>, roles: seq<bool>,
                                   path: seq<Transition<F>>, rewards: seq<real>, routes: seq<bool>, ret: seq<nat>,
                                   totals: Totals, stop: bool)
    reads corpus0, corpus1
    requires Sound(env, g, p.numActions) && Pending(env, g, start.nextCandidates, start.nextVisited)
  {
    && Crawled(env, g, p, start, roles, path, rewards, ret) && transition == Before(start, path, |path|)
    && totals == Accrued(rewards, p.gamma)
    && |routes| == |path| && OfferedUnlessTest(corpus0, corpus1, ts0, ts1, path, routes, test, p.deleteDuplicates)
    && Going(g, p, path, stop)
  }

  /** The step of one round: the coin for the roles, `Neural`, the score of
      the visited set before the step, the reward totals, and the two
      reasons to stop. */
  method Advance<F(!new)>(env: Env, g: Agent<F>, p: Params, transition: Transition<F>, ret: seq<nat>,
                          totReward: real, totDiscountedReward: real, discount: real, ghost start: Transition<F>,
                          ghost roles: seq<bool>, ghost path: seq<Transition<F>>, ghost rewards: seq<real>)
    returns (transition': Transition<F>, ret': seq<nat>, totReward': real, totDiscountedReward': real,
             discount': real, stop: bool, role: bool, ghost reward: real)
    requires Sound(env, g, p.numActions) && start == Start({StartId}, start.nextCandidates)
    requires Pending(env, g, start.nextCandidates, start.nextVisited) && g.count(start.nextCandidates) > 0
    requires Crawled(env, g, p, start, roles, path, rewards, ret) && transition == Before(start, path, |path|)
    requires Totals(totReward, totDiscountedReward, discount) == Accrued(rewards, p.gamma)
    requires Going(g, p, path, false)
    ensures Crawled(env, g, p, start, roles + [role], path + [transition'], rewards + [reward], ret')
    ensures Totals(totReward', totDiscountedReward', discount') == Accrued(rewards + [reward], p.gamma)
    ensures Going(g, p, path + [transition'], stop)
  {
    var a: Net :| true;
    role := a;
    Stepped(env, g, p, start, roles, path, rewards, ret, a);
    var step := Neural(env, g, p, transition, a);
    var r;
    transition', r := step.0, step.1;
    reward := r;
    ret' := ret + [NumParallelDocs(env, transition'.visited)];
    totReward', totDiscountedReward', discount' := Accrue(totReward, totDiscountedReward, discount, r, p.gamma, rewards);
    stop := false;
    if g.count(transition'.nextCandidates) == 0 {
      stop := true;
    } else if |transition'.visited| >= p.maxDocs {
      stop := true;
    }
  }

  /** One round of the `Trajectory` loop: the step, and in training mode the
      transition offered to a corpus. */
  method Round<F(!new)>(env: Env, g: Agent<F>, p: Params, test: bool, corpus0: Corpus<Transition<F>>,
                        corpus1: Corpus<Transition<F>>, transition: Transition<F>, ret: seq<nat>, totReward: real,
                        totDiscountedReward: real, discount: real, ghost ts0: seq<Transition<F>>,
                        ghost ts1: seq<Transition<F>>, ghost start: Transition<F>, ghost roles: seq<bool>,
                        ghost path: seq<Transition<F>>, ghost rewards: seq<real>, ghost routes: seq<bool>)
    returns (transition': Transition<F>, ret': seq<nat>, totReward': real, totDiscountedReward': real,
             discount': real, stop: bool, ghost roles': seq<bool>, ghost path': seq<Transition<F>>,
             ghost rewards': seq<real>, ghost routes': seq<bool>)
    requires Sound(env, g, p.numActions) && start == Start({StartId}, start.nextCandidates) && corpus0 != corpus1
    requires Pending(env, g, start.nextCandidates, start.nextVisited) && g.count(start.nextCandidates) > 0
    requires Looping(env, g, p, test, corpus0, corpus1, ts0, ts1, start, transition, roles, path, rewards, routes,
                     ret, Totals(totReward, totDiscountedReward, discount), false)
    modifies corpus0, corpus1
    ensures Looping(env, g, p, test, corpus0, corpus1, ts0, ts1, start, transition', roles', path', rewards',
                    routes', ret', Totals(totReward', totDiscountedReward', discount'), stop)
    ensures |path'| == |path| + 1
    ensures corpus0.losses == old(corpus0.losses) && corpus0.sumWeights == old(corpus0.sumWeights)
    ensures corpus1.losses == old(corpus1.losses) && corpus1.sumWeights == old(corpus1.sumWeights)
  {
    var role; ghost var reward;
    transition', ret', totReward', totDiscountedReward', discount', stop, role, reward :=
      Advance(env, g, p, transition, ret, totReward, totDiscountedReward, discount, start, roles, path, rewards);
    ghost var route := Offer(test, corpus0, corpus1, transition', role, p.deleteDuplicates, path, routes, ts0, ts1);
    roles', path', rewards', routes' := roles + [role], path + [transition'], rewards + [reward], routes + [route];
  }

  /** What a finished crawl has recorded: one step per round, each from a
      visited set one page larger than the last, scored by
      `NumParallelDocs`, and the rounds ended by the stop rule. */
  lemma Finished<F(!new)>(env: Env, g: Agent<F>, p: Params, start: Transition<F>, roles: seq<bool>,
                          path: seq<Transition<F>>, rewards: seq<real>, ret: seq<nat>)
    requires Sound(env, g, p.numActions) && start.nextVisited == {StartId}
    requires Pending(env, g, start.nextCandidates, start.nextVisited)
    requires Crawled(env, g, p, start, roles, path, rewards, ret) && Going(g, p, path, true)
    ensures |path| == |rewards| == |roles| == |ret| >= 1
    ensures forall i :: 0 <= i < |path| ==> path[i].Step? && path[i].visited <= env.Keys && |path[i].visited| == i + 1
    ensures forall i :: 0 <= i < |path| ==> ret[i] == NumParallelDocs(env, path[i].visited)
    ensures forall i :: 0 <= i < |path| - 1 ==> Continues(g, p, path[i])
    ensures !Continues(g, p, path[|path| - 1])
    ensures |ret| <= p.maxDocs || |ret| == 1
    ensures forall i, j :: 0 <= i < j < |path| ==> path[i].link.child != path[j].link.child
  {
    ChainedOnce(env, start, path);
  }

  /** The frontier `Trajectory` starts from is pending, and holds a link
      when the start page has one. */
  lemma StartPending<F(!new)>(env: Env, g: Agent<F>, numActions: nat)
    requires Sound(env, g, numActions)
    ensures var f := g.addLinks(g.empty, StartId, {StartId});
            && Pending(env, g, f, {StartId})
            && (GetLinks(env, StartId, {StartId}) != [] ==> g.count(f) > 0)
  {
    var f := g.addLinks(g.empty, StartId, {StartId});
    assert Adds(env, g, g.empty, StartId, {StartId});
    if GetLinks(env, StartId, {StartId}) != [] {
      assert GetLinks(env, StartId, {StartId})[0] in g.links(f);
    }
  }

  /** The loop of `Trajectory`, from the start snapshot `start`, run to
      the stop rule. */
  method Crawl<F(!new)>(env: Env, g: Agent<F>, p: Params, test: bool, corpus0: Corpus<Transition<F>>,
                        corpus1: Corpus<Transition<F>>, start: Transition<F>)
    returns (ret: seq<nat>, totReward: real, totDiscountedReward: real, ghost roles: seq<bool>,
             ghost path: seq<Transition<F>>, ghost rewards: seq<real>, ghost routes: seq<bool>)
    requires Sound(env, g, p.numActions) && start == Start({StartId}, start.nextCandidates) && corpus0 != corpus1
    requires Pending(env, g, start.nextCandidates, start.nextVisited) && g.count(start.nextCandidates) > 0
    modifies corpus0, corpus1
    ensures exists discount ::
              Looping(env, g, p, test, corpus0, corpus1, old(corpus0.transitions), old(corpus1.transitions), start,
                      Before(start, path, |path|), roles, path, rewards, routes, ret,
                      Totals(totReward, totDiscountedReward, discount), true)
    ensures corpus0.losses == old(corpus0.losses) && corpus0.sumWeights == old(corpus0.sumWeights)
    ensures corpus1.losses == old(corpus1.losses) && corpus1.sumWeights == old(corpus1.sumWeights)
  {
    ghost var ts0, ts1 := corpus0.transitions, corpus1.transitions;
    var transition := start;
    ret, totReward, totDiscountedReward := [], 0.0, 0.0;
    var discount := 1.0;
    path, rewards, roles, routes := [], [], [], [];
    var stop := false;
    while !stop
      invariant Looping(env, g, p, test, corpus0, corpus1, ts0, ts1, start, transition, roles, path, rewards, routes,
                        ret, Totals(totReward, totDiscountedReward, discount), stop)
      invariant corpus0.losses == old(corpus0.losses) && corpus0.sumWeights == old(corpus0.sumWeights)
      invariant corpus1.losses == old(corpus1.losses) && corpus1.sumWeights == old(corpus1.sumWeights)
      decreases if stop then 0 else p.maxDocs - |path| + 1
    {
      transition, ret, totReward, totDiscountedReward, discount, stop, roles, path, rewards, routes :=
        Round(env, g, p, test, corpus0, corpus1, transition, ret, totReward, totDiscountedReward, discount,
              ts0, ts1, start, roles, path, rewards, routes);
    }
  }

  /** `Trajectory`: from the start page, with the frontier holding its
      unvisited links, run `Neural` steps with the networks in roles drawn
      by a coin; score each step by the parallel documents in the visited
      set before it; stop after a step whose next frontier is empty or
      whose visited set before it had `maxDocs` pages.  `path` holds the
      transitions, `rewards` their rewards, `roles[i]` whether network 0 was
      A, and `routes[i]` (training only) whether network 0's corpus got
      transition `i`. */
  method Trajectory<F(!new)>(env: Env, g: Agent<F>, p: Params, test: bool,
                             corpus0: Corpus<Transition<F>>, corpus1: Corpus<Transition<F>>)
    returns (ret: seq<nat>, totReward: real, totDiscountedReward: real, ghost path: seq<Transition<F>>,
             ghost rewards: seq<real>, ghost roles: seq<bool>, ghost routes: seq<bool>)
    requires Sound(env, g, p.numActions) && corpus0 != corpus1
    requires GetLinks(env, StartId, {StartId}) != []
    modifies corpus0, corpus1
    ensures |path| == |rewards| == |roles| == |routes| == |ret| >= 1
    ensures var start := Start({StartId}, g.addLinks(g.empty, StartId, {StartId}));
            && Pending(env, g, start.nextCandidates, start.nextVisited)
            && path == Run(env, g, p, start, roles).0 && rewards == Run(env, g, p, start, roles).1
    ensures forall i :: 0 <= i < |path| ==> path[i].Step? && path[i].visited <= env.Keys && |path[i].visited| == i + 1
    ensures forall i :: 0 <= i < |path| ==> ret[i] == NumParallelDocs(env, path[i].visited)
    ensures forall i :: 0 <= i < |path| - 1 ==> Continues(g, p, path[i])
    ensures !Continues(g, p, path[|path| - 1])
    ensures |ret| <= p.maxDocs || |ret| == 1
    ensures forall i, j :: 0 <= i < j < |path| ==> path[i].link.child != path[j].link.child
    ensures totReward == Total(rewards) && totDiscountedReward == Discounted(rewards, p.gamma)
    ensures OfferedUnlessTest(corpus0, corpus1, old(corpus0.transitions), old(corpus1.transitions), path, routes, test,
                    p.deleteDuplicates)
    ensures corpus0.losses == old(corpus0.losses) && corpus0.sumWeights == old(corpus0.sumWeights)
    ensures corpus1.losses == old(corpus1.losses) && corpus1.sumWeights == old(corpus1.sumWeights)
  {
    var nextVisited := {StartId};
    var nextCandidates := g.addLinks(g.empty, StartId, nextVisited);
    var transition := Start(nextVisited, nextCandidates);
    ghost var start := transition;
    StartPending(env, g, p.numActions);
    ghost var ts0, ts1 := corpus0.transitions, corpus1.transitions;
    ret, totReward, totDiscountedReward, roles, path, rewards, routes :=
      Crawl(env, g, p, test, corpus0, corpus1, transition);
    Finished(env, g, p, start, roles, path, rewards, ret);
    AccruedClosedForm(rewards, p.gamma);
  }
}
