/** The crawler of q-learn/features4.py.  An action is a slot of a
    fixed-width row of `numActions` candidate urls; network A's row of
    Q-values picks the slot (slot 1 from the start page), the environment
    follows it, and the stored target is A's row with the chosen slot moved
    towards the double-Q bootstrap and the slots without a url masked.  The
    frontier and its features (`Candidates`, `GetFeaturesNP`) and the
    environment's step (`env.GetNextState`) belong to a module that is not
    part of this model: they are the functions of a `World`. */
module QLearn {
  import opened Graph
  import opened Replay
  import opened Target

  /** What `GetFeaturesNP` returns for the frontier: the url of each slot,
      the number of slots in use, and the features fed to the network. */
  datatype Obs = Obs(urlIds: seq<int>, numURLs: nat, features: seq<int>, siblings: seq<int>, numNodes: int)

  /** The environment as seen by the crawler: `observe(curr, visited)` is
      the frontier after the links of `curr` are added, `step(action,
      visited, urlIds)` the page reached by the chosen slot and its reward. */
  datatype World = World(observe: (int, set<int>) -> Obs, step: (int, set<int>, seq<int>) -> (int, real))

  /** `Qnetwork.Predict`: the row of Q-values of an observation. */
  type Net = Obs -> seq<real>

  /** The fields of `LearningParams` the crawler reads. */
  datatype Params = Params(numActions: nat, eps: real, alpha: real, gamma: real, unusedActionCost: real,
                           deleteDuplicates: bool)

  /** `Transition` (its fields as `Neural` passes them), with copies of the
      feature rows and of the target row. */
  datatype Transition = Transition(currURLId: int, nextURLId: int, done: bool, features: seq<int>,
                                   siblings: seq<int>, numNodes: int, numURLs: nat, targetQ: seq<real>)

  /** The corpus key of a transition. */
  function Key(t: Transition): (int, int)
  {
    (t.currURLId, t.nextURLId)
  }

  /** What the crawler assumes of its world and networks: every row is
      `numActions` wide, and a step ends on the stop page or on a page of
      `pages` not yet visited. */
  ghost predicate Sound(w: World, pages: set<int>, p: Params, q0: Net, q1: Net)
  {
    && p.numActions >= 2
    && (forall curr, visited :: |w.observe(curr, visited).urlIds| == p.numActions)
    && (forall o :: |q0(o)| == p.numActions && |q1(o)| == p.numActions)
    && (forall a, visited, urlIds ::
          w.step(a, visited, urlIds).0 == StopId ||
          (w.step(a, visited, urlIds).0 in pages && w.step(a, visited, urlIds).0 !in visited))
  }

  /** The target row after `ZeroOutStop`: slot 0 (the stop slot) is 0, and
      every slot from `numURLs` on, which holds no url, is `unusedActionCost`;
      the second rule wins when `numURLs` is 0. */
  function Masked(q: seq<real>, numURLs: nat, unusedActionCost: real): (r: seq<real>)
    ensures |r| == |q|
    ensures forall i :: numURLs <= i < |q| ==> r[i] == unusedActionCost
    ensures |q| > 0 && numURLs >= 1 ==> r[0] == 0.0
    ensures forall i :: 1 <= i < |q| && i < numURLs ==> r[i] == q[i]
  {
    seq(|q|, i requires 0 <= i < |q| => if i >= numURLs then unusedActionCost else if i == 0 then 0.0 else q[i])
  }

  /** `ZeroOutStop`: mask the target row in place. */
  method ZeroOutStop(targetQ: array<real>, urlIds: seq<int>, numURLs: nat, unusedActionCost: real)
    requires targetQ.Length == |urlIds| && targetQ.Length > 0
    modifies targetQ
    ensures targetQ[..] == Masked(old(targetQ[..]), numURLs, unusedActionCost)
  {
    targetQ[0] := 0.0;
    var i := numURLs;
    while i < targetQ.Length
      invariant numURLs <= i
      invariant forall k :: 0 <= k < targetQ.Length ==>
                  targetQ[k] == (if numURLs <= k < i then unusedActionCost else if k == 0 then 0.0 else old(targetQ[k]))
      decreases targetQ.Length - i
    {
      targetQ[i] := unusedActionCost;
      i := i + 1;
    }
  }

  /** The row of Q-values with slot `action` moved to the damped target. */
  function Updated(q: seq<real>, action: nat, alpha: real, gamma: real, reward: real, maxNextQ: real): (r: seq<real>)
    requires action < |q|
    ensures |r| == |q| && r[action] == DampedTarget(alpha, gamma, q[action], reward, maxNextQ)
    ensures forall i :: 0 <= i < |q| && i != action ==> r[i] == q[i]
  {
    q[action := DampedTarget(alpha, gamma, q[action], reward, maxNextQ)]
  }

  /** The stored target keeps the damped value of the chosen slot exactly
      when that slot is neither the stop slot nor an unused one; every other
      slot that holds a url keeps network A's value. */
  lemma TargetSlots(q: seq<real>, action: nat, numURLs: nat, alpha: real, gamma: real, reward: real,
                    maxNextQ: real, unusedActionCost: real)
    requires action < |q|
    ensures var r := Masked(Updated(q, action, alpha, gamma, reward, maxNextQ), numURLs, unusedActionCost);
            && (1 <= action < numURLs ==> r[action] == DampedTarget(alpha, gamma, q[action], reward, maxNextQ))
            && (action == 0 && numURLs >= 1 ==> r[action] == 0.0)
            && (action >= numURLs ==> r[action] == unusedActionCost)
            && (forall i :: 1 <= i < |q| && i < numURLs && i != action ==> r[i] == q[i])
  {
  }

  /** The slot `Neural` takes: 1 from the start page, the drawn slot when
      exploring, network A's greedy slot otherwise. */
  function Choice(curr: int, explore: bool, randomAction: nat, q: seq<real>): (action: nat)
    requires |q| > 0
    ensures curr == StartId ==> action == 1
    ensures curr != StartId && explore ==> action == randomAction
    ensures curr != StartId && !explore ==> action < |q| && forall i :: 0 <= i < |q| ==> q[i] <= q[action]
  {
    if curr == StartId then 1 else if explore then randomAction else ArgMax(q)
  }

  /** The bootstrap value: 0 once the stop page is reached, otherwise B's
      value at the slot A would take from the next frontier. */
  function MaxNextQ(w: World, qA: Net, qB: Net, numActions: nat, next: int, visited: set<int>): (r: real)
    requires numActions > 0
    requires forall o :: |qA(o)| == numActions && |qB(o)| == numActions
    ensures next == StopId ==> r == 0.0
    ensures next != StopId ==>
              exists a :: 0 <= a < numActions && r == qB(w.observe(next, visited))[a] &&
                forall i :: 0 <= i < numActions ==> qA(w.observe(next, visited))[i] <= qA(w.observe(next, visited))[a]
  {
    if next == StopId then 0.0
    else
      var nextObs := w.observe(next, visited);
      var a := ArgMax(qA(nextObs));
      qB(nextObs)[a]
  }

  /** `Neural`: one step from `curr`.  The transition stores A's row of the
      current frontier with the chosen slot updated and then masked; the
      visited set gains the page reached. */
  method Neural(w: World, pages: set<int>, p: Params, curr: int, visited: set<int>, qA: Net, qB: Net,
                draw: real, randomAction: nat)
    returns (t: Transition, visited': set<int>)
    requires p.numActions >= 2 && 0.0 <= draw < 1.0 && randomAction < p.numActions
    requires forall curr, visited :: |w.observe(curr, visited).urlIds| == p.numActions
    requires forall o :: |qA(o)| == p.numActions && |qB(o)| == p.numActions
    ensures var obs := w.observe(curr, visited);
            var action := Choice(curr, draw < p.eps, randomAction, qA(obs));
            var (next, reward) := w.step(action, visited, obs.urlIds);
            && visited' == visited + {next}
            && t.currURLId == curr && t.nextURLId == next && (t.done <==> next == StopId)
            && t.features == obs.features && t.siblings == obs.siblings
            && t.numNodes == obs.numNodes && t.numURLs == obs.numURLs
            && t.targetQ == Masked(Updated(qA(obs), action, p.alpha, p.gamma, reward,
                                           MaxNextQ(w, qA, qB, p.numActions, next, visited')),
                                   obs.numURLs, p.unusedActionCost)
  {
    var obs := w.observe(curr, visited);
    var qs := qA(obs);
    var action := ArgMax(qs);
    if curr == StartId {
      action := 1;
    } else if draw < p.eps {
      action := randomAction;
    }
    var (next, reward) := w.step(action, visited, obs.urlIds);
    visited' := visited + {next};
    var done: bool;
    var maxNextQ: real;
    if next == StopId {
      done, maxNextQ := true, 0.0;
    } else {
      done := false;
      var nextObs := w.observe(next, visited');
      var nextAction := ArgMax(qA(nextObs));
      maxNextQ := qB(nextObs)[nextAction];
    }
    var targetQ := new real[|qs|](i requires 0 <= i < |qs| => qs[i]);
    assert targetQ[..] == qs;
    targetQ[action] := DampedTarget(p.alpha, p.gamma, targetQ[action], reward, maxNextQ);
    assert targetQ[..] == Updated(qs, action, p.alpha, p.gamma, reward, maxNextQ);
    ZeroOutStop(targetQ, obs.urlIds, obs.numURLs, p.unusedActionCost);
    t := Transition(curr, next, done, obs.features, obs.siblings, obs.numNodes, obs.numURLs, targetQ[..]);
  }

  /** `t` is the transition `Neural` makes from its own current page, with
      the visited set `visited`, network `qA` as A and `qB` as B, the draw
      `draw` and the random slot `randomAction`. */
  ghost predicate Made(w: World, p: Params, qA: Net, qB: Net, t: Transition, visited: set<int>, draw: real,
                       randomAction: nat)
    requires p.numActions >= 2 && randomAction < p.numActions
    requires forall curr, visited :: |w.observe(curr, visited).urlIds| == p.numActions
    requires forall o :: |qA(o)| == p.numActions && |qB(o)| == p.numActions
  {
    var obs := w.observe(t.currURLId, visited);
    var action := Choice(t.currURLId, draw < p.eps, randomAction, qA(obs));
    var (next, reward) := w.step(action, visited, obs.urlIds);
    && t.nextURLId == next && (t.done <==> next == StopId)
    && t.features == obs.features && t.siblings == obs.siblings
    && t.numNodes == obs.numNodes && t.numURLs == obs.numURLs
    && t.targetQ == Masked(Updated(qA(obs), action, p.alpha, p.gamma, reward,
                                   MaxNextQ(w, qA, qB, p.numActions, next, visited + {next})),
                           obs.numURLs, p.unusedActionCost)
  }

  /** The facts about one `Neural` step that `Trajectory` relies on. */
  method Round(w: World, pages: set<int>, p: Params, curr: int, visited: set<int>, qA: Net, qB: Net,
               draw: real, randomAction: nat)
    returns (t: Transition, visited': set<int>)
    requires Sound(w, pages, p, qA, qB)
    requires 0.0 <= draw < 1.0 && randomAction < p.numActions
    ensures t.currURLId == curr && (t.done <==> t.nextURLId == StopId)
    ensures visited' == visited + {t.nextURLId}
    ensures t.nextURLId == StopId || (t.nextURLId in pages && t.nextURLId !in visited)
    ensures Made(w, p, qA, qB, t, visited, draw, randomAction)
  {
    t, visited' := Neural(w, pages, p, curr, visited, qA, qB, draw, randomAction);
  }

  /** `path` is a walk from the start page: consecutive transitions chain,
      and only the last one may be done. */
  ghost predicate Walked(path: seq<Transition>, curr: int)
  {
    && (path != [] ==> path[0].currURLId == StartId && path[|path| - 1].nextURLId == curr)
    && (path == [] ==> curr == StartId)
    && (forall i :: 0 <= i < |path| - 1 ==> path[i].nextURLId == path[i + 1].currURLId)
    && (forall i :: 0 <= i < |path| ==> (path[i].done <==> path[i].nextURLId == StopId))
  }

  /** Visiting one more page leaves no more pages unvisited, and one fewer
      when the page is one of `pages` not yet visited. */
  lemma Shrinks(pages: set<int>, visited: set<int>, next: int)
    ensures |pages - (visited + {next})| <= |pages - visited|
    ensures next in pages && next !in visited ==> |pages - (visited + {next})| < |pages - visited|
  {
    assert pages - (visited + {next}) == (pages - visited) - {next};
  }

  /** One round of the `Trajectory` loop: the coin, the step, and the
      transition offered to network A's corpus. */
  method Step(w: World, pages: set<int>, p: Params, q0: Net, q1: Net, corpus0: Corpus<Transition>,
              corpus1: Corpus<Transition>, curr: int, visited: set<int>, ghost path: seq<Transition>,
              ghost coins: seq<bool>, ghost ts0: seq<Transition>, ghost ts1: seq<Transition>)
    returns (t: Transition, visited': set<int>, ghost coin: bool, ghost draw: real, ghost randomAction: nat)
    requires Sound(w, pages, p, q0, q1) && corpus0 != corpus1 && |coins| == |path|
    requires Offered(corpus0, corpus1, ts0, ts1, path, coins, p.deleteDuplicates)
    modifies corpus0, corpus1
    ensures t.currURLId == curr && (t.done <==> t.nextURLId == StopId)
    ensures visited' == visited + {t.nextURLId}
    ensures t.nextURLId == StopId || (t.nextURLId in pages && t.nextURLId !in visited)
    ensures Took(w, pages, p, q0, q1, t, coin, visited, draw, randomAction)
    ensures |pages - visited'| <= |pages - visited| && (!t.done ==> |pages - visited'| < |pages - visited|)
    ensures Offered(corpus0, corpus1, ts0, ts1, path + [t], coins + [coin], p.deleteDuplicates)
    ensures corpus0.losses == old(corpus0.losses) && corpus0.sumWeights == old(corpus0.sumWeights)
    ensures corpus1.losses == old(corpus1.losses) && corpus1.sumWeights == old(corpus1.sumWeights)
  {
    var c: bool :| true;
    coin := c;
    var qA, qB := if c then q0 else q1, if c then q1 else q0;
    var d: real :| 0.0 <= d < 1.0;
    var ra: nat :| ra < p.numActions;
    draw, randomAction := d, ra;
    t, visited' := Round(w, pages, p, curr, visited, qA, qB, d, ra);
    Shrinks(pages, visited, t.nextURLId);
    MineStep(corpus0.key, ts0, path, coins, t, c, true, p.deleteDuplicates);
    MineStep(corpus1.key, ts1, path, coins, t, c, false, p.deleteDuplicates);
    if c {
      corpus0.AddTransition(t, p.deleteDuplicates);
    } else {
      corpus1.AddTransition(t, p.deleteDuplicates);
    }
  }

  /** The state of the `Trajectory` loop: a walk from the start page that
      is `done` exactly when its last transition is, and only then. */
  ghost predicate Walking(path: seq<Transition>, curr: int, done: bool)
  {
    && Walked(path, curr)
    && (done <==> path != [] && path[|path| - 1].done)
    && (forall i :: 0 <= i < |path| - 1 ==> !path[i].done)
  }

  /** Extending an unfinished walk by a transition from its current page. */
  lemma WalkingStep(path: seq<Transition>, curr: int, t: Transition)
    requires Walking(path, curr, false) && t.currURLId == curr && (t.done <==> t.nextURLId == StopId)
    ensures Walking(path + [t], t.nextURLId, t.done)
  {
  }

  /** `t` is the step `Neural` takes from `visited` with network 0 as A
      exactly when `coin`, the draw `draw` and the random slot
      `randomAction`. */
  ghost predicate Took(w: World, pages: set<int>, p: Params, q0: Net, q1: Net, t: Transition, coin: bool,
                       visited: set<int>, draw: real, randomAction: nat)
    requires Sound(w, pages, p, q0, q1)
  {
    && 0.0 <= draw < 1.0 && randomAction < p.numActions
    && Made(w, p, if coin then q0 else q1, if coin then q1 else q0, t, visited, draw, randomAction)
  }

  /** Step `i` of `path` starts from the visited set `visits[i]`: the first
      from no visited page, each later one from the pages reached before it,
      and each reaches the stop page or a page not visited before. */
  ghost predicate Visits(path: seq<Transition>, visits: seq<set<int>>)
  {
    && |visits| == |path|
    && (path != [] ==> visits[0] == {})
    && (forall i, j :: 0 <= i && j == i + 1 && j < |path| ==> visits[j] == visits[i] + {path[i].nextURLId})
    && (forall i :: 0 <= i < |path| ==> path[i].nextURLId == StopId || path[i].nextURLId !in visits[i])
  }

  /** Step `i` of `path` is `Neural`'s from the visited set `visits[i]`,
      with network 0 as A exactly when `coins[i]`, the draw `draws[i]` and
      the random slot `randomActions[i]`. */
  ghost predicate Recorded(w: World, pages: set<int>, p: Params, q0: Net, q1: Net, path: seq<Transition>,
                           coins: seq<bool>, visits: seq<set<int>>, draws: seq<real>, randomActions: seq<nat>)
    requires Sound(w, pages, p, q0, q1)
  {
    && |coins| == |visits| == |draws| == |randomActions| == |path|
    && (forall i :: 0 <= i < |path| ==>
          Took(w, pages, p, q0, q1, path[i], coins[i], visits[i], draws[i], randomActions[i]))
  }

  /** The visited set after the steps of `path`. */
  ghost function Reached(path: seq<Transition>, visits: seq<set<int>>): set<int>
    requires |visits| == |path|
  {
    if path == [] then {} else visits[|path| - 1] + {path[|path| - 1].nextURLId}
  }

  /** One more step from the visited set the last one left. */
  lemma VisitsStep(path: seq<Transition>, visits: seq<set<int>>, t: Transition)
    requires Visits(path, visits)
    requires t.nextURLId == StopId || t.nextURLId !in Reached(path, visits)
    ensures Visits(path + [t], visits + [Reached(path, visits)])
  {
    var path', visits' := path + [t], visits + [Reached(path, visits)];
    forall i, j | 0 <= i && j == i + 1 && j < |path'|
      ensures visits'[j] == visits'[i] + {path'[i].nextURLId}
    {
      if j < |path| {
        assert path'[i] == path[i] && visits'[i] == visits[i] && visits'[j] == visits[j];
      }
    }
  }

  /** Recording one more `Neural` step. */
  lemma RecordedStep(w: World, pages: set<int>, p: Params, q0: Net, q1: Net, path: seq<Transition>,
                     coins: seq<bool>, visits: seq<set<int>>, draws: seq<real>, randomActions: seq<nat>,
                     t: Transition, coin: bool, visited: set<int>, draw: real, randomAction: nat)
    requires Sound(w, pages, p, q0, q1)
    requires Recorded(w, pages, p, q0, q1, path, coins, visits, draws, randomActions)
    requires Took(w, pages, p, q0, q1, t, coin, visited, draw, randomAction)
    ensures Recorded(w, pages, p, q0, q1, path + [t], coins + [coin], visits + [visited],
                     draws + [draw], randomActions + [randomAction])
  {
    var path', coins', visits' := path + [t], coins + [coin], visits + [visited];
    var draws', randomActions' := draws + [draw], randomActions + [randomAction];
    forall i | 0 <= i < |path'|
      ensures Took(w, pages, p, q0, q1, path'[i], coins'[i], visits'[i], draws'[i], randomActions'[i])
    {
      if i < |path| {
        assert path'[i] == path[i] && coins'[i] == coins[i] && visits'[i] == visits[i];
        assert draws'[i] == draws[i] && randomActions'[i] == randomActions[i];
      }
    }
  }

  /** A page reached by a step is in the visited set of every later step. */
  lemma {:induction false} VisitsGrow(path: seq<Transition>, visits: seq<set<int>>, i: nat, j: nat)
    requires Visits(path, visits) && i < j < |path|
    ensures path[i].nextURLId in visits[j]
    decreases j - i
  {
    assert visits[j] == visits[j - 1] + {path[j - 1].nextURLId};
    if j > i + 1 {
      VisitsGrow(path, visits, i, j - 1);
    }
  }

  /** No page is reached twice: the stop page only by the last step, every
      other page by at most one step. */
  lemma VisitsOnce(path: seq<Transition>, visits: seq<set<int>>)
    requires Visits(path, visits)
    requires forall i :: 0 <= i < |path| - 1 ==> path[i].nextURLId != StopId
    ensures forall i, j :: 0 <= i < j < |path| ==> path[i].nextURLId != path[j].nextURLId
  {
    forall i, j | 0 <= i < j < |path| ensures path[i].nextURLId != path[j].nextURLId {
      VisitsGrow(path, visits, i, j);
    }
  }

  /** `Trajectory`: from the start page, step with the networks in roles
      drawn by a coin, offer every transition, the last one included, to
      network A's corpus, and stop after the step that reaches the stop
      page.  `path` holds the transitions made and `coins` whether network 0
      acted as A. */
  method Trajectory(w: World, pages: set<int>, p: Params, q0: Net, q1: Net,
                    corpus0: Corpus<Transition>, corpus1: Corpus<Transition>)
    returns (ghost path: seq<Transition>, ghost coins: seq<bool>, ghost visits: seq<set<int>>,
             ghost draws: seq<real>, ghost randomActions: seq<nat>)
    requires Sound(w, pages, p, q0, q1)
    requires corpus0 != corpus1
    modifies corpus0, corpus1
    ensures |path| == |coins| && path != [] && path[0].currURLId == StartId
    ensures forall i :: 0 <= i < |path| - 1 ==> path[i].nextURLId == path[i + 1].currURLId && !path[i].done
    ensures path[|path| - 1].done && path[|path| - 1].nextURLId == StopId
    ensures Visits(path, visits) && Recorded(w, pages, p, q0, q1, path, coins, visits, draws, randomActions)
    ensures forall i, j :: 0 <= i < j < |path| ==> path[i].nextURLId != path[j].nextURLId
    ensures corpus0.transitions == AddedAll(corpus0.key, old(corpus0.transitions), Mine(path, coins, true), p.deleteDuplicates)
    ensures corpus1.transitions == AddedAll(corpus1.key, old(corpus1.transitions), Mine(path, coins, false), p.deleteDuplicates)
    ensures corpus0.losses == old(corpus0.losses) && corpus0.sumWeights == old(corpus0.sumWeights)
    ensures corpus1.losses == old(corpus1.losses) && corpus1.sumWeights == old(corpus1.sumWeights)
  {
    ghost var ts0, ts1 := corpus0.transitions, corpus1.transitions;
    var visited: set<int> := {};
    var curr := StartId;
    path, coins, visits, draws, randomActions := [], [], [], [], [];
    var done := false;
    while !done
      invariant |path| == |coins| && Walking(path, curr, done)
      invariant Visits(path, visits) && Recorded(w, pages, p, q0, q1, path, coins, visits, draws, randomActions)
      invariant visited == Reached(path, visits)
      invariant Offered(corpus0, corpus1, ts0, ts1, path, coins, p.deleteDuplicates)
      invariant corpus0.losses == old(corpus0.losses) && corpus0.sumWeights == old(corpus0.sumWeights)
      invariant corpus1.losses == old(corpus1.losses) && corpus1.sumWeights == old(corpus1.sumWeights)
      decreases |pages - visited|, if done then 0 else 1
    {
      var t;
      ghost var coin, draw, randomAction;
      ghost var before := visited;
      t, visited, coin, draw, randomAction :=
        Step(w, pages, p, q0, q1, corpus0, corpus1, curr, visited, path, coins, ts0, ts1);
      WalkingStep(path, curr, t);
      VisitsStep(path, visits, t);
      RecordedStep(w, pages, p, q0, q1, path, coins, visits, draws, randomActions, t, coin, before, draw,
                   randomAction);
      path, coins, visits := path + [t], coins + [coin], visits + [before];
      draws, randomActions := draws + [draw], randomActions + [randomAction];
      curr := t.nextURLId;
      done := t.done;
    }
    VisitsOnce(path, visits);
  }

  /** `params.eps` after one decay: multiplied by 0.99, but never below 0.1. */
  function Decayed(eps: real): (r: real)
    ensures r >= 0.1
    ensures eps >= 0.1 ==> r <= eps
    ensures eps > 0.1 ==> r < eps
    ensures r == 0.1 || r == eps * 0.99
  {
    if 0.1 >= eps * 0.99 then 0.1 else eps * 0.99
  }

  /** `eps` after `k` decays. */
  function Iterated(eps: real, k: nat): real
  {
    if k == 0 then eps else Decayed(Iterated(eps, k - 1))
  }

  /** After `k >= 1` decays `eps` is `max(0.1, eps * 0.99^k)`. */
  lemma {:induction false} IteratedClosedForm(eps: real, k: nat)
    requires k >= 1
    ensures Iterated(eps, k) == if 0.1 >= eps * Pow(0.99, k) then 0.1 else eps * Pow(0.99, k)
  {
    if k > 1 {
      IteratedClosedForm(eps, k - 1);
      var x := eps * Pow(0.99, k - 1);
      assert eps * Pow(0.99, k) == x * 0.99;
      if 0.1 >= x {
        assert 0.1 >= x * 0.99 by {
          if x >= 0.0 {
            assert x * 0.99 <= x;
          }
        }
      }
    }
  }

  /** The crawl parameter `Train` adjusts between epochs. */
  class Schedule {
    var eps: real

    constructor (eps: real)
      ensures this.eps == eps
    {
      this.eps := eps;
    }

    /** After an evaluation walk: when the walk found all but at most five
        of the site's aligned pairs, decay `eps`. */
    method AfterWalk(numAligned: int, envNumAligned: int)
      modifies this
      ensures eps == if numAligned >= envNumAligned - 5 then Decayed(old(eps)) else old(eps)
    {
      if numAligned >= envNumAligned - 5 {
        eps := eps * 0.99;
        eps := if 0.1 >= eps then 0.1 else eps;
      }
    }
  }
}
