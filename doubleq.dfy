/** The learnt crawler of fk_dqn.py.  An action is a language: the list of
    frontier links whose parent page has that language.  Network A scores
    every language that still has links, the crawler follows a link of the
    chosen language, and the transition it stores for training carries the
    damped double-Q target, whose bootstrap value is network B's score of
    network A's next choice.  The networks are opaque functions. */
module DoubleQ {
  import opened Graph
  import opened Frontier
  import opened Replay
  import opened Target
  import opened Baselines
  import Balanced

  /** `Qnetwork.Predict`: (requested language, language pair, visited pages
      per language) -> Q-value. */
  type QNet = (int, seq<int>, seq<int>) -> real

  /** The fields of `LearningParams` the learnt crawler reads. */
  datatype Params = Params(langIds: seq<int>, eps: real, alpha: real, gamma: real,
                           reward: real, cost: real, deleteDuplicates: bool)

  /** `Transition`: the followed link, the requested language, the language
      pair, the visited pages per language and the training target.  The
      histogram is held as a value, a copy taken when the transition is made. */
  datatype Transition = Transition(currURLId: int, nextURLId: int, langRequested: int,
                                   langIds: seq<int>, langFeatures: seq<int>, targetQ: real)

  /** The corpus key of a transition. */
  function Key(t: Transition): (int, int)
  {
    (t.currURLId, t.nextURLId)
  }

  /** The list of language `k` exists and is not empty. */
  predicate Live(dict: map<int, seq<Link>>, k: int)
  {
    k in dict && |dict[k]| > 0
  }

  /** No list of the frontier holds a link. */
  predicate Empty(dict: map<int, seq<Link>>)
  {
    forall k :: k in dict ==> dict[k] == []
  }

  /** The scores `PredictAll` returns: with no link left, the single stop
      action 0 valued 0; otherwise network `q`'s value for exactly the
      languages that have links. */
  ghost predicate Scored(q: QNet, langIds: seq<int>, lv: seq<int>, dict: map<int, seq<Link>>, qValues: map<int, real>)
  {
    if Empty(dict) then qValues == map[StopId := 0.0]
    else
      && (forall k :: k in qValues <==> Live(dict, k))
      && (forall k :: k in qValues ==> qValues[k] == q(k, langIds, lv))
  }

  /** `argMax` is the first language, in the frontier's key order, whose
      score is the maximum `maxQ`. */
  ghost predicate FirstMax(keys: seq<int>, qValues: map<int, real>, maxQ: real, argMax: int)
  {
    && argMax in qValues && maxQ == qValues[argMax]
    && (forall k :: k in qValues ==> qValues[k] <= maxQ)
    && exists i :: 0 <= i < |keys| && keys[i] == argMax &&
         forall j :: 0 <= j < i && keys[j] in qValues ==> qValues[keys[j]] < maxQ
  }

  /** The full result of `PredictAll`. */
  ghost predicate Greedy(q: QNet, langIds: seq<int>, lv: seq<int>, dict: map<int, seq<Link>>, keys: seq<int>,
                         qValues: map<int, real>, maxQ: real, argMax: int)
  {
    && Scored(q, langIds, lv, dict, qValues)
    && (Empty(dict) ==> maxQ == 0.0 && argMax == StopId)
    && (!Empty(dict) ==> FirstMax(keys, qValues, maxQ, argMax))
  }

  /** `PredictAll`: score each language that has links, in the frontier's key
      order, keeping the first strict maximum; with none, the stop action.
      The first scored language is always taken as the running maximum. */
  method PredictAll(q: QNet, langIds: seq<int>, lv: seq<int>, c: Candidates)
    returns (qValues: map<int, real>, maxQ: real, argMax: int)
    requires c.Valid()
    ensures Greedy(q, langIds, lv, c.dict, c.keys, qValues, maxQ, argMax)
  {
    qValues, maxQ, argMax := map[], 0.0, StopId;
    ghost var at := 0;
    for i := 0 to |c.keys|
      invariant forall k :: k in qValues <==> k in c.keys[..i] && Live(c.dict, k)
      invariant forall k :: k in qValues ==> qValues[k] == q(k, langIds, lv)
      invariant qValues != map[] ==>
                  && argMax in qValues && maxQ == qValues[argMax]
                  && (forall k :: k in qValues ==> qValues[k] <= maxQ)
                  && 0 <= at < i && c.keys[at] == argMax
                  && (forall j :: 0 <= j < at && c.keys[j] in qValues ==> qValues[c.keys[j]] < maxQ)
    {
      var langId := c.keys[i];
      assert langId in c.keys;
      assert c.keys[..i + 1] == c.keys[..i] + [langId];
      assert forall j :: 0 <= j < i ==> c.keys[j] != langId;
      if |c.dict[langId]| > 0 {
        var qValue := q(langId, langIds, lv);
        var first := qValues == map[];
        qValues := qValues[langId := qValue];
        if first || maxQ < qValue {
          maxQ, argMax, at := qValue, langId, i;
        }
      }
    }
    assert c.keys[..|c.keys|] == c.keys;
    if qValues == map[] {
      assert Empty(c.dict) by {
        forall k | k in c.dict ensures c.dict[k] == [] {
          assert k in c.keys;
          assert k !in qValues;
        }
      }
      qValues, maxQ, argMax := map[StopId := 0.0], 0.0, StopId;
    } else {
      assert argMax in qValues;
    }
  }

  /** The running maximum `PredictAll` starts from. */
  const Sentinel: real := -9999999.0

  /** `PredictAll` as written: the running maximum starts at `Sentinel`, so a
      language is taken only if it scores above it.  `None` stands for
      `argMax` never being bound (Python then raises at the `return`). */
  method PredictAllAsWritten(q: QNet, langIds: seq<int>, lv: seq<int>, c: Candidates)
    returns (qValues: map<int, real>, maxQ: real, argMax: Option<int>)
    requires c.Valid()
    ensures Scored(q, langIds, lv, c.dict, qValues)
    ensures argMax.None? <==> !Empty(c.dict) && forall k :: k in qValues ==> qValues[k] <= Sentinel
    ensures argMax.Some? ==> Greedy(q, langIds, lv, c.dict, c.keys, qValues, maxQ, argMax.value)
  {
    qValues, maxQ, argMax := map[], Sentinel, None;
    ghost var at := 0;
    for i := 0 to |c.keys|
      invariant forall k :: k in qValues <==> k in c.keys[..i] && Live(c.dict, k)
      invariant forall k :: k in qValues ==> qValues[k] == q(k, langIds, lv)
      invariant argMax.None? ==> maxQ == Sentinel && forall k :: k in qValues ==> qValues[k] <= Sentinel
      invariant argMax.Some? ==>
                  && Sentinel < maxQ
                  && argMax.value in qValues && maxQ == qValues[argMax.value]
                  && (forall k :: k in qValues ==> qValues[k] <= maxQ)
                  && 0 <= at < i && c.keys[at] == argMax.value
                  && (forall j :: 0 <= j < at && c.keys[j] in qValues ==> qValues[c.keys[j]] < maxQ)
    {
      var langId := c.keys[i];
      assert langId in c.keys;
      assert c.keys[..i + 1] == c.keys[..i] + [langId];
      assert forall j :: 0 <= j < i ==> c.keys[j] != langId;
      if |c.dict[langId]| > 0 {
        var qValue := q(langId, langIds, lv);
        qValues := qValues[langId := qValue];
        if maxQ < qValue {
          maxQ, argMax, at := qValue, Some(langId), i;
        }
      }
    }
    assert c.keys[..|c.keys|] == c.keys;
    if qValues == map[] {
      assert Empty(c.dict) by {
        forall k | k in c.dict ensures c.dict[k] == [] {
          assert k in c.keys;
          assert k !in qValues;
        }
      }
      qValues, maxQ, argMax := map[StopId := 0.0], 0.0, Some(StopId);
    } else {
      assert !Empty(c.dict) by {
        var k := Member(qValues.Keys);
        assert Live(c.dict, k);
      }
    }
  }

  /** A frontier with one link, of language 1, that network A scores at
      -10000000: `PredictAll` as written never binds `argMax`. */
  method SentinelUnbound() returns (argMax: Option<int>)
    ensures argMax == None
  {
    var link := Link(StartId, 5);
    var env := map[StartId := Node(1, None, [link]), 5 := Node(2, None, [])];
    assert WellFormed(env) by {
      assert forall id :: id in env ==> id == StartId || id == 5;
    }
    var c := new Candidates(env);
    c.AddLink(link);
    var q: QNet := (lang, ids, lv) => -10000000.0;
    var qValues, maxQ;
    qValues, maxQ, argMax := PredictAllAsWritten(q, [1, 2], [0, 1, 0], c);
    assert !Empty(c.dict) by {
      assert c.dict[1] == [] + [link];
    }
  }

  /** `GetNextState`: action 0 follows the stop node's own link and leaves
      the frontier alone; any other action pops a link of that language
      (purging every link to the same page).  The reward is classified by
      `Reward` on the page landed on. */
  method GetNextState(c: Candidates, p: Params, action: int, visited: set<int>) returns (link: Link, reward: real)
    requires c.Valid() && StopId in c.env
    requires action != StopId ==> c.HasLinks(action)
    modifies c
    ensures c.Valid() && c.keys == old(c.keys) && c.dict.Keys == old(c.dict).Keys
    ensures action == StopId ==> link == Link(StopId, StopId) && c.dict == old(c.dict)
    ensures action != StopId ==>
              && link in old(c.dict)[action]
              && forall key :: key in c.dict ==> c.dict[key] == Purge(old(c.dict)[key], link.child)
    ensures link.child in c.env
    ensures reward == Reward(c.env, visited, link.child, p.reward, p.cost)
  {
    if action == StopId {
      link := Link(StopId, StopId);
    } else {
      var idx :| 0 <= idx < |c.dict[action]|;
      link := c.Pop(action, idx);
      assert link.parent in c.env && link in c.env[link.parent].links;
    }
    reward := Reward(c.env, visited, link.child, p.reward, p.cost);
  }

  /** `NeuralWalk`: network A scores the frontier; with probability `eps`
      (`draw < eps`) any scored action is taken instead of the greedy one,
      with its own score as `maxQ`; then `GetNextState`. */
  method NeuralWalk(c: Candidates, p: Params, visited: set<int>, lv: seq<int>, qA: QNet, draw: real)
    returns (qValues: map<int, real>, maxQ: real, action: int, link: Link, reward: real)
    requires c.Valid() && StopId in c.env
    modifies c
    ensures Scored(qA, p.langIds, lv, old(c.dict), qValues)
    ensures action in qValues && maxQ == qValues[action]
    ensures draw >= p.eps ==> Greedy(qA, p.langIds, lv, old(c.dict), old(c.keys), qValues, maxQ, action)
    ensures c.Valid() && c.keys == old(c.keys) && c.dict.Keys == old(c.dict).Keys
    ensures action == StopId ==> link == Link(StopId, StopId) && c.dict == old(c.dict)
    ensures action != StopId ==>
              && Live(old(c.dict), action) && link in old(c.dict)[action]
              && forall key :: key in c.dict ==> c.dict[key] == Purge(old(c.dict)[key], link.child)
    ensures link.child in c.env
    ensures reward == Reward(c.env, visited, link.child, p.reward, p.cost)
  {
    qValues, maxQ, action := PredictAll(qA, p.langIds, lv, c);
    if draw < p.eps {
      action :| action in qValues;
      maxQ := qValues[action];
    }
    assert action != StopId ==> Live(c.dict, action) by {
      if Empty(c.dict) {
        assert action == StopId;
      }
    }
    link, reward := GetNextState(c, p, action, visited);
  }

  /** The visited counts after one more page of language `lang`. */
  function NextCounts(lv: seq<int>, lang: int): (r: seq<int>)
    requires 0 <= lang < |lv|
    ensures |r| == |lv| && r[lang] == lv[lang] + 1
    ensures forall k :: 0 <= k < |lv| && k != lang ==> r[k] == lv[k]
  {
    lv[lang := lv[lang] + 1]
  }

  /** What network B bootstraps from after following `link`: A's greedy
      choice on the next frontier, with its lists `nextDict` in key order
      `nextKeys`, and the next counts, scored by B. */
  ghost predicate Bootstrap(qA: QNet, qB: QNet, langIds: seq<int>, nextLv: seq<int>, nextDict: map<int, seq<Link>>,
                            nextKeys: seq<int>, nextMaxQ: real)
  {
    exists nextQValues, nextQ, nextAction ::
      Greedy(qA, langIds, nextLv, nextDict, nextKeys, nextQValues, nextQ, nextAction) &&
      nextMaxQ == qB(nextAction, langIds, nextLv)
  }

  /** `Neural`: one step of the learnt crawler.  The frontier `c` loses the
      followed link (and every link to the same page); the next visited set,
      frontier and counts are copies; the transition records the followed
      link, the action, the current counts and the damped target
      `(1 - alpha) * maxQ + alpha * (reward + gamma * nextMaxQ)`. */
  method Neural(c: Candidates, p: Params, visited: set<int>, lv: array<int>, qA: QNet, qB: QNet, draw: real)
    returns (t: Transition, ghost link: Link, ghost action: int, ghost maxQ: real, ghost reward: real,
             ghost nextMaxQ: real)
    requires c.Valid() && StopId in c.env
    requires forall id :: id in c.env ==> 0 <= c.env[id].lang < lv.Length
    modifies c
    ensures c.Valid() && c.keys == old(c.keys) && c.dict.Keys == old(c.dict).Keys
    ensures action == StopId ==> link == Link(StopId, StopId) && c.dict == old(c.dict)
    ensures action != StopId ==>
              && Live(old(c.dict), action) && link in old(c.dict)[action]
              && forall key :: key in c.dict ==> c.dict[key] == Purge(old(c.dict)[key], link.child)
    ensures Empty(old(c.dict)) ==> action == StopId && maxQ == 0.0
    ensures !Empty(old(c.dict)) ==> Live(old(c.dict), action) && maxQ == qA(action, p.langIds, lv[..])
    ensures draw >= p.eps ==> exists qValues :: Greedy(qA, p.langIds, lv[..], old(c.dict), old(c.keys), qValues, maxQ, action)
    ensures link.child in c.env
    ensures reward == Reward(c.env, visited, link.child, p.reward, p.cost)
    ensures var nextLinks := GetLinks(c.env, link.child, visited + {link.child});
            Bootstrap(qA, qB, p.langIds, NextCounts(lv[..], c.env[link.child].lang),
                      AppendAll(c.env, c.dict, nextLinks), KeysAfter(c.env, c.dict, c.keys, nextLinks), nextMaxQ)
    ensures t == Transition(link.parent, link.child, action, p.langIds, lv[..],
                            DampedTarget(p.alpha, p.gamma, maxQ, reward, nextMaxQ))
  {
    var qValues, q, a, l, r := NeuralWalk(c, p, visited, lv[..], qA, draw);
    link, action, maxQ, reward := l, a, q, r;
    assert draw >= p.eps ==> Greedy(qA, p.langIds, lv[..], old(c.dict), old(c.keys), qValues, maxQ, action);
    var nextVisited := visited + {l.child};
    var nextCandidates := c.Copy();
    nextCandidates.AddLinks(l.child, nextVisited);
    var nextLv := NextCounts(lv[..], c.env[l.child].lang);
    var nextQValues, nextQ, nextAction := PredictAll(qA, p.langIds, nextLv, nextCandidates);
    var bootstrap := qB(nextAction, p.langIds, nextLv);
    nextMaxQ := bootstrap;
    assert Greedy(qA, p.langIds, nextLv, nextCandidates.dict, nextCandidates.keys, nextQValues, nextQ, nextAction);
    t := Transition(l.parent, l.child, a, p.langIds, lv[..], DampedTarget(p.alpha, p.gamma, q, r, bootstrap));
  }

  /** The lists after `GetNextState` takes `action` to page `child`: the
      stop action leaves them alone, any other action purges every list of
      the links to `child`. */
  function Popped(dict: map<int, seq<Link>>, action: int, child: int): (r: map<int, seq<Link>>)
    ensures r.Keys == dict.Keys
    ensures action != StopId ==> forall key :: key in r ==> r[key] == Purge(dict[key], child)
  {
    if action == StopId then dict else map key | key in dict :: Purge(dict[key], child)
  }

  /** Lists with the same keys, purged as `GetNextState` purges them, are `Popped`. */
  lemma PoppedIs(before: map<int, seq<Link>>, after: map<int, seq<Link>>, action: int, child: int)
    requires after.Keys == before.Keys
    requires action == StopId ==> after == before
    requires action != StopId ==> forall key :: key in after ==> after[key] == Purge(before[key], child)
    ensures after == Popped(before, action, child)
  {
    if action != StopId {
      assert forall key :: key in after ==> after[key] == Popped(before, action, child)[key];
    }
  }

  /** `t` is the transition `Neural` makes with network `qA` as A and `qB`
      as B from the lists `dict` in key order `keys`, the visited set
      `visited`, the counts `lv` and the draw `draw`, having followed `link`
      by `action` with score `maxQ`, reward `reward` and bootstrap
      `nextMaxQ`. */
  ghost predicate MadeBy(env: Env, p: Params, qA: QNet, qB: QNet, t: Transition, dict: map<int, seq<Link>>,
                         keys: seq<int>, visited: set<int>, lv: seq<int>, draw: real, link: Link, action: int,
                         maxQ: real, reward: real, nextMaxQ: real)
    requires WellFormed(env)
  {
    && (action == StopId ==> link == Link(StopId, StopId))
    && (action != StopId ==> Live(dict, action) && link in dict[action])
    && (Empty(dict) ==> action == StopId && maxQ == 0.0)
    && (!Empty(dict) ==> Live(dict, action) && maxQ == qA(action, p.langIds, lv))
    && (draw >= p.eps ==> exists qValues :: Greedy(qA, p.langIds, lv, dict, keys, qValues, maxQ, action))
    && link.child in env && 0 <= env[link.child].lang < |lv|
    && reward == Reward(env, visited, link.child, p.reward, p.cost)
    && (var nextLinks, after := GetLinks(env, link.child, visited + {link.child}), Popped(dict, action, link.child);
        Bootstrap(qA, qB, p.langIds, NextCounts(lv, env[link.child].lang), AppendAll(env, after, nextLinks),
                  KeysAfter(env, after, keys, nextLinks), nextMaxQ))
    && t == Transition(link.parent, link.child, action, p.langIds, lv,
                       DampedTarget(p.alpha, p.gamma, maxQ, reward, nextMaxQ))
  }

  /** `t` is a transition `Neural` makes with network `qA` as A from the
      lists `dict` in key order `keys`, the visited set `visited`, the
      counts `lv` and the draw `draw`. */
  ghost predicate Made(env: Env, p: Params, qA: QNet, qB: QNet, t: Transition, dict: map<int, seq<Link>>,
                       keys: seq<int>, visited: set<int>, lv: seq<int>, draw: real)
    requires WellFormed(env)
  {
    exists link, action, maxQ, reward, nextMaxQ ::
      MadeBy(env, p, qA, qB, t, dict, keys, visited, lv, draw, link, action, maxQ, reward, nextMaxQ)
  }

  /** Transition `i` of `path` is `Neural`'s, with network 0 as A exactly
      when `coins[i]`, from the lists `fronts[i]` in key order
      `keyOrders[i]`, the pages `order[..i + 1]`, its own counts and the
      draw `draws[i]`. */
  ghost predicate Acted(env: Env, p: Params, q0: QNet, q1: QNet, order: seq<int>, path: seq<Transition>,
                        coins: seq<bool>, draws: seq<real>, fronts: seq<map<int, seq<Link>>>, keyOrders: seq<seq<int>>)
    requires WellFormed(env)
  {
    && |order| == |path| == |coins| == |draws| == |fronts| == |keyOrders|
    && forall i :: 0 <= i < |path| ==>
         && 0.0 <= draws[i] < 1.0
         && Made(env, p, if coins[i] then q0 else q1, if coins[i] then q1 else q0, path[i], fronts[i], keyOrders[i],
                 Elems(order[..i + 1]), path[i].langFeatures, draws[i])
  }

  /** Recording one more `Neural` transition. */
  lemma ActedStep(env: Env, p: Params, q0: QNet, q1: QNet, order: seq<int>, path: seq<Transition>, coins: seq<bool>,
                  draws: seq<real>, fronts: seq<map<int, seq<Link>>>, keyOrders: seq<seq<int>>, node: int,
                  t: Transition, coin: bool, draw: real, front: map<int, seq<Link>>, keys: seq<int>)
    requires WellFormed(env) && Acted(env, p, q0, q1, order, path, coins, draws, fronts, keyOrders)
    requires 0.0 <= draw < 1.0
    requires Made(env, p, if coin then q0 else q1, if coin then q1 else q0, t, front, keys, Elems(order + [node]),
                  t.langFeatures, draw)
    ensures Acted(env, p, q0, q1, order + [node], path + [t], coins + [coin], draws + [draw], fronts + [front],
                  keyOrders + [keys])
  {
    var o, pa, co := order + [node], path + [t], coins + [coin];
    var dr, fr, ko := draws + [draw], fronts + [front], keyOrders + [keys];
    forall i | 0 <= i < |pa|
      ensures && 0.0 <= dr[i] < 1.0
              && Made(env, p, if co[i] then q0 else q1, if co[i] then q1 else q0, pa[i], fr[i], ko[i],
                      Elems(o[..i + 1]), pa[i].langFeatures, dr[i])
    {
      if i < |path| {
        assert o[..i + 1] == order[..i + 1];
        assert pa[i] == path[i] && co[i] == coins[i] && dr[i] == draws[i] && fr[i] == fronts[i] && ko[i] == keyOrders[i];
      } else {
        assert o[..i + 1] == o;
      }
    }
  }

  /** A transition of the crawl that does not stop follows a link that its
      round's frontier held in the list of the language it requested. */
  lemma ActedFollows(env: Env, p: Params, q0: QNet, q1: QNet, order: seq<int>, path: seq<Transition>,
                     coins: seq<bool>, draws: seq<real>, fronts: seq<map<int, seq<Link>>>, keyOrders: seq<seq<int>>,
                     i: nat)
    requires WellFormed(env) && Acted(env, p, q0, q1, order, path, coins, draws, fronts, keyOrders)
    requires i < |path| && path[i].nextURLId != StopId
    ensures Live(fronts[i], path[i].langRequested)
    ensures Link(path[i].currURLId, path[i].nextURLId) in fronts[i][path[i].langRequested]
  {
    var qA, qB := if coins[i] then q0 else q1, if coins[i] then q1 else q0;
    assert Made(env, p, qA, qB, path[i], fronts[i], keyOrders[i], Elems(order[..i + 1]), path[i].langFeatures,
                draws[i]);
    var link, action, maxQ, reward, nextMaxQ :|
      MadeBy(env, p, qA, qB, path[i], fronts[i], keyOrders[i], Elems(order[..i + 1]), path[i].langFeatures,
             draws[i], link, action, maxQ, reward, nextMaxQ);
  }

  /** The lists waiting before round `i`: none before the first round,
      otherwise those round `i - 1` chose from, after its pop. */
  ghost function Waiting(fronts: seq<map<int, seq<Link>>>, path: seq<Transition>, i: nat): map<int, seq<Link>>
    requires |fronts| == |path| && i <= |path|
  {
    if i == 0 then map[] else Popped(fronts[i - 1], path[i - 1].langRequested, path[i - 1].nextURLId)
  }

  /** The key order before round `i`; a pop keeps it. */
  ghost function WaitingKeys(keyOrders: seq<seq<int>>, i: nat): seq<int>
    requires i <= |keyOrders|
  {
    if i == 0 then [] else keyOrders[i - 1]
  }

  /** The lists `dict` after `AddLinks` of page `node` with `visited` visited. */
  ghost function Grown(env: Env, dict: map<int, seq<Link>>, node: int, visited: set<int>): map<int, seq<Link>>
    requires WellFormed(env) && node in env
  {
    AppendAll(env, dict, GetLinks(env, node, visited))
  }

  /** The key order `keys` of `dict` after the same `AddLinks`. */
  ghost function GrownKeys(env: Env, dict: map<int, seq<Link>>, keys: seq<int>, node: int, visited: set<int>): seq<int>
    requires WellFormed(env) && node in env
  {
    KeysAfter(env, dict, keys, GetLinks(env, node, visited))
  }

  /** `fronts[i]` and `keyOrders[i]` are the frontier of round `i` of the
      crawl `order`: the lists waiting before it, with the links of page
      `order[i]` to pages not visited by then appended. */
  ghost predicate SnapshotAt(env: Env, order: seq<int>, path: seq<Transition>, fronts: seq<map<int, seq<Link>>>,
                             keyOrders: seq<seq<int>>, i: nat)
    requires WellFormed(env) && |order| == |path| == |fronts| == |keyOrders| && i < |order| && order[i] in env
  {
    && fronts[i] == Grown(env, Waiting(fronts, path, i), order[i], Elems(order[..i + 1]))
    && keyOrders[i] == GrownKeys(env, Waiting(fronts, path, i), WaitingKeys(keyOrders, i), order[i], Elems(order[..i + 1]))
  }

  /** Every round's frontier is `SnapshotAt` its place: the frontiers form
      one chain from the empty one, each the last one popped and grown. */
  ghost predicate Snapshots(env: Env, order: seq<int>, path: seq<Transition>, fronts: seq<map<int, seq<Link>>>,
                            keyOrders: seq<seq<int>>)
    requires WellFormed(env)
  {
    && |order| == |path| == |fronts| == |keyOrders|
    && (forall x :: x in order ==> x in env)
    && forall i :: 0 <= i < |order| ==> SnapshotAt(env, order, path, fronts, keyOrders, i)
  }

  /** One more round, from the lists and key order left by the last one. */
  lemma SnapshotsStep(env: Env, order: seq<int>, path: seq<Transition>, fronts: seq<map<int, seq<Link>>>,
                      keyOrders: seq<seq<int>>, node: int, t: Transition, front: map<int, seq<Link>>, keys: seq<int>)
    requires WellFormed(env) && Snapshots(env, order, path, fronts, keyOrders) && node in env
    requires front == Grown(env, Waiting(fronts, path, |path|), node, Elems(order + [node]))
    requires keys == GrownKeys(env, Waiting(fronts, path, |path|), WaitingKeys(keyOrders, |keyOrders|), node,
                               Elems(order + [node]))
    ensures Snapshots(env, order + [node], path + [t], fronts + [front], keyOrders + [keys])
    ensures Waiting(fronts + [front], path + [t], |path| + 1) == Popped(front, t.langRequested, t.nextURLId)
    ensures WaitingKeys(keyOrders + [keys], |keyOrders| + 1) == keys
  {
    var o, pa, fr, ko := order + [node], path + [t], fronts + [front], keyOrders + [keys];
    assert forall x :: x in o ==> x in env;
    forall i | 0 <= i < |o|
      ensures o[i] in env && SnapshotAt(env, o, pa, fr, ko, i)
    {
      assert o[i] in o;
      assert Waiting(fr, pa, i) == Waiting(fronts, path, i);
      assert WaitingKeys(ko, i) == WaitingKeys(keyOrders, i);
      if i < |order| {
        assert o[..i + 1] == order[..i + 1];
        assert order[i] in order;
        assert SnapshotAt(env, order, path, fronts, keyOrders, i);
      } else {
        assert o[..i + 1] == o;
      }
    }
  }

  /** `Snapshots`, and the lists `dict` in key order `keys` are those
      waiting for the next round. */
  ghost predicate Tracked(env: Env, order: seq<int>, path: seq<Transition>, fronts: seq<map<int, seq<Link>>>,
                          keyOrders: seq<seq<int>>, dict: map<int, seq<Link>>, keys: seq<int>)
    requires WellFormed(env)
  {
    && Snapshots(env, order, path, fronts, keyOrders)
    && dict == Waiting(fronts, path, |path|) && keys == WaitingKeys(keyOrders, |keyOrders|)
  }

  /** A round that grows the waiting lists by the links of `node` and pops
      the link `t` follows keeps them `Tracked`. */
  lemma Tracks(env: Env, order: seq<int>, path: seq<Transition>, fronts: seq<map<int, seq<Link>>>,
               keyOrders: seq<seq<int>>, dict: map<int, seq<Link>>, keys: seq<int>, node: int, t: Transition,
               front: map<int, seq<Link>>, frontKeys: seq<int>, dict': map<int, seq<Link>>, keys': seq<int>)
    requires WellFormed(env) && node in env && Tracked(env, order, path, fronts, keyOrders, dict, keys)
    requires front == AppendAll(env, dict, GetLinks(env, node, Elems(order + [node])))
    requires frontKeys == KeysAfter(env, dict, keys, GetLinks(env, node, Elems(order + [node])))
    requires dict' == Popped(front, t.langRequested, t.nextURLId) && keys' == frontKeys
    ensures Tracked(env, order + [node], path + [t], fronts + [front], keyOrders + [frontKeys], dict', keys')
  {
    SnapshotsStep(env, order, path, fronts, keyOrders, node, t, front, frontKeys);
  }

  /** On a graph whose start page, of language 1, links only to page 5, a
      recorded crawl whose first transition lands on page 5 requested
      language 1: the first frontier holds no other language. */
  lemma SingleLinkStart(env: Env, p: Params, q0: QNet, q1: QNet, order: seq<int>, path: seq<Transition>,
                        coins: seq<bool>, draws: seq<real>, fronts: seq<map<int, seq<Link>>>,
                        keyOrders: seq<seq<int>>)
    requires env == map[StartId := Node(1, None, [Link(StartId, 5)]), 5 := Node(2, None, []),
                        StopId := Node(0, None, [])]
    requires WellFormed(env) && Acted(env, p, q0, q1, order, path, coins, draws, fronts, keyOrders)
    requires Snapshots(env, order, path, fronts, keyOrders)
    requires order != [] && order[0] == StartId && path[0].nextURLId == 5
    ensures path[0].langRequested == 1
  {
    ActedFollows(env, p, q0, q1, order, path, coins, draws, fronts, keyOrders, 0);
    assert Elems(order[..1]) == {StartId} by {
      assert order[..1] == [StartId];
    }
    assert SnapshotAt(env, order, path, fronts, keyOrders, 0);
    SingleLinkFront(env);
  }

  /** The first frontier of that graph: page 5 under language 1. */
  lemma SingleLinkFront(env: Env)
    requires env == map[StartId := Node(1, None, [Link(StartId, 5)]), 5 := Node(2, None, []),
                        StopId := Node(0, None, [])]
    requires WellFormed(env)
    ensures Grown(env, map[], StartId, {StartId}) == map[1 := [Link(StartId, 5)]]
  {
    var only := Link(StartId, 5);
    assert GetLinks(env, StartId, {StartId}) == [only];
    assert [only][1..] == [];
    var none: map<int, seq<Link>> := map[];
    assert env[StartId].lang == 1 && Get(none, 1) == [] && [] + [only] == [only];
    assert Append(env, none, only) == map[1 := [only]];
    assert AppendAll(env, none, [only]) == AppendAll(env, map[1 := [only]], []);
  }

  /** The pages of each language `0 .. n - 1` among the pages of `s`. */
  ghost function Histogram(env: Env, s: seq<int>, n: nat): (r: seq<int>)
    ensures |r| == n
  {
    seq(n, k => |Balanced.LangPages(env, Elems(s), k)|)
  }

  /** Counting one more, new page updates its language's entry only. */
  lemma HistogramStep(env: Env, s: seq<int>, n: nat, node: int)
    requires node in env && node !in s && 0 <= env[node].lang < n
    ensures Histogram(env, s + [node], n) == NextCounts(Histogram(env, s, n), env[node].lang)
  {
    var lang := env[node].lang;
    assert Elems(s + [node]) == Elems(s) + {node};
    forall k | 0 <= k < n
      ensures Histogram(env, s + [node], n)[k] == NextCounts(Histogram(env, s, n), lang)[k]
    {
      if k == lang {
        assert Balanced.LangPages(env, Elems(s + [node]), k) == Balanced.LangPages(env, Elems(s), k) + {node};
      } else {
        assert Balanced.LangPages(env, Elems(s + [node]), k) == Balanced.LangPages(env, Elems(s), k);
      }
    }
  }

  /** The transitions of `path` that do not end the crawl, in order: those
      offered to a corpus. */
  ghost function Onward(path: seq<Transition>): (r: seq<Transition>)
    ensures |r| <= |path|
    decreases |path|
  {
    if path == [] then []
    else
      var last := path[|path| - 1];
      Onward(path[..|path| - 1]) + if last.nextURLId != StopId then [last] else []
  }

  /** The coins of the transitions of `Onward(path)`. */
  ghost function OnwardCoins(path: seq<Transition>, coins: seq<bool>): (r: seq<bool>)
    requires |coins| == |path|
    ensures |r| == |Onward(path)|
    decreases |path|
  {
    if path == [] then []
    else
      OnwardCoins(path[..|path| - 1], coins[..|coins| - 1]) +
        if path[|path| - 1].nextURLId != StopId then [coins[|coins| - 1]] else []
  }

  /** The transitions of `path` that go to the corpus of network 0 (`mine`)
      or 1 (`!mine`): those whose coin picked that network as A, among those
      that do not end the crawl. */
  ghost function Routed(path: seq<Transition>, coins: seq<bool>, mine: bool): seq<Transition>
    requires |coins| == |path|
  {
    Mine(Onward(path), OnwardCoins(path, coins), mine)
  }

  /** The corpora are `Offered` the onward transitions of `path`, each to
      the corpus of the network its coin made A. */
  ghost predicate OfferedOnward(corpus0: Corpus<Transition>, corpus1: Corpus<Transition>, ts0: seq<Transition>,
                                ts1: seq<Transition>, path: seq<Transition>, coins: seq<bool>, deleteDuplicates: bool)
    reads corpus0, corpus1
    requires |coins| == |path|
  {
    Offered(corpus0, corpus1, ts0, ts1, Onward(path), OnwardCoins(path, coins), deleteDuplicates)
  }

  /** Offering one more transition to a corpus. */
  lemma RoutedStep(key: Transition -> (int, int), ts: seq<Transition>, path: seq<Transition>, coins: seq<bool>,
                   t: Transition, coin: bool, mine: bool, deleteDuplicates: bool)
    requires |coins| == |path|
    ensures var before := AddedAll(key, ts, Routed(path, coins, mine), deleteDuplicates);
            AddedAll(key, ts, Routed(path + [t], coins + [coin], mine), deleteDuplicates) ==
              if coin == mine && t.nextURLId != StopId then Added(key, before, t, deleteDuplicates) else before
  {
    OnwardStep(path, coins, t, coin);
    if t.nextURLId != StopId {
      MineStep(key, ts, Onward(path), OnwardCoins(path, coins), t, coin, mine, deleteDuplicates);
    }
  }

  /** One more transition is onward, with its coin, unless it ends the crawl. */
  lemma OnwardStep(path: seq<Transition>, coins: seq<bool>, t: Transition, coin: bool)
    requires |coins| == |path|
    ensures Onward(path + [t]) == if t.nextURLId != StopId then Onward(path) + [t] else Onward(path)
    ensures OnwardCoins(path + [t], coins + [coin]) ==
              if t.nextURLId != StopId then OnwardCoins(path, coins) + [coin] else OnwardCoins(path, coins)
  {
    assert (path + [t])[..|path|] == path && (coins + [coin])[..|coins|] == coins;
    assert Onward(path) + [] == Onward(path) && OnwardCoins(path, coins) + [] == OnwardCoins(path, coins);
  }

  /** Every frontier link leaves a visited page and lands on a page not yet visited. */
  ghost predicate Behind(dict: map<int, seq<Link>>, visited: set<int>)
  {
    forall key, l :: key in dict && l in dict[key] ==> l.parent in visited && l.child !in visited
  }

  /** `Behind`, and no frontier link lands on `node`, the page about to be visited. */
  ghost predicate Ahead(dict: map<int, seq<Link>>, visited: set<int>, node: int)
  {
    Behind(dict, visited) && forall key, l :: key in dict && l in dict[key] ==> l.child != node
  }

  /** Visiting `node` and adding its links to unvisited pages keeps every
      frontier link between a visited and an unvisited page. */
  lemma AddLinksBehind(env: Env, dict: map<int, seq<Link>>, visited: set<int>, node: int)
    requires WellFormed(env) && node in env && Ahead(dict, visited, node)
    requires forall key, l :: key in dict && l in dict[key] ==> l.parent in env
    ensures Behind(AppendAll(env, dict, GetLinks(env, node, visited + {node})), visited + {node})
  {
    var links := GetLinks(env, node, visited + {node});
    var after := AppendAll(env, dict, links);
    forall key: int, l: Link | key in after && l in after[key]
      ensures l.parent in visited + {node} && l.child !in visited + {node}
    {
      AppendAllGet(env, dict, links, key);
      assert l in Get(dict, key) + OfLang(env, links, key);
      if l !in Get(dict, key) {
        assert l in links;
      }
    }
  }

  /** After the pop of a link to `next`, no link lands on `next`. */
  lemma PopAhead(before: map<int, seq<Link>>, after: map<int, seq<Link>>, visited: set<int>, next: int)
    requires Behind(before, visited)
    requires after.Keys == before.Keys
    requires forall key :: key in after ==> after[key] == Purge(before[key], next)
    ensures Ahead(after, visited, next)
  {
  }

  /** The page a transition lands on, unless it ends the crawl, is reached
      by a link of a page visited by then. */
  ghost predicate Followed(env: Env, t: Transition, prefix: seq<int>)
  {
    t.nextURLId != StopId ==>
      t.currURLId in prefix && t.currURLId in env && Link(t.currURLId, t.nextURLId) in env[t.currURLId].links
  }

  /** What `path` and `coins` record after the pages `order`, with `node`
      the page to visit next: one transition per visited page, each landing
      on the next page of the crawl, reached from a page visited by then, and
      carrying the counts of the pages visited by then. */
  ghost predicate Recorded(env: Env, numLangs: nat, order: seq<int>, node: int, path: seq<Transition>, coins: seq<bool>)
  {
    && |path| == |order| == |coins|
    && (forall i :: 0 <= i < |path| ==> path[i].nextURLId == (order + [node])[i + 1])
    && (forall i :: 0 <= i < |path| ==> Followed(env, path[i], order[..i + 1]))
    && (forall i :: 0 <= i < |path| ==> path[i].langFeatures == Histogram(env, order[..i + 1], numLangs))
  }

  lemma RecordedStep(env: Env, numLangs: nat, order: seq<int>, node: int, path: seq<Transition>, coins: seq<bool>,
                     t: Transition, coin: bool)
    requires Recorded(env, numLangs, order, node, path, coins)
    requires Followed(env, t, order + [node]) && t.langFeatures == Histogram(env, order + [node], numLangs)
    ensures Recorded(env, numLangs, order + [node], t.nextURLId, path + [t], coins + [coin])
  {
    var o := order + [node];
    forall i | 0 <= i < |path| + 1
      ensures (path + [t])[i].nextURLId == (o + [t.nextURLId])[i + 1]
      ensures Followed(env, (path + [t])[i], o[..i + 1])
      ensures (path + [t])[i].langFeatures == Histogram(env, o[..i + 1], numLangs)
    {
      if i < |path| {
        assert o[..i + 1] == order[..i + 1];
        assert (order + [node])[i + 1] == (o + [t.nextURLId])[i + 1];
      } else {
        assert o[..i + 1] == o;
      }
    }
  }

  /** The state of the crawl before visiting `node`. */
  ghost predicate Crawled(env: Env, numLangs: nat, visited: set<int>, order: seq<int>, ret: seq<nat>, node: int,
                          counts: seq<int>)
  {
    && visited == Elems(order) && Distinct(order) && (forall x :: x in order ==> x in env)
    && Scores(env, order, ret)
    && node in env && node !in visited && node != StopId && StopId !in order
    && counts == Histogram(env, order, numLangs)
  }

  /** One round of the `Trajectory` loop up to the choice of the next link:
      visit `node`, count its language, add its links to the frontier,
      record the number of aligned pairs, and make the transition. */
  method Round(env: Env, numLangs: nat, p: Params, c: Candidates, visited: set<int>, ghost order: seq<int>,
               ret: seq<nat>, langsVisited: array<int>, node: int, qA: QNet, qB: QNet)
    returns (visited': set<int>, ghost order': seq<int>, ret': seq<nat>, t: Transition, ghost draw: real,
             ghost front: map<int, seq<Link>>, ghost keys: seq<int>)
    requires WellFormed(env) && StopId in env
    requires forall id :: id in env ==> 0 <= env[id].lang < numLangs
    requires c.Valid() && c.env == env && langsVisited.Length == numLangs
    requires Crawled(env, numLangs, visited, order, ret, node, langsVisited[..])
    requires Ahead(c.dict, visited, node)
    modifies c, langsVisited
    ensures visited' == visited + {node} && order' == order + [node]
    ensures ret' == ret + [NumParallelDocs(env, visited')]
    ensures visited' == Elems(order') && Distinct(order') && Scores(env, order', ret')
    ensures langsVisited[..] == Histogram(env, order', numLangs)
    ensures c.Valid() && c.env == env
    ensures Followed(env, t, order') && t.langFeatures == Histogram(env, order', numLangs)
    ensures t.nextURLId in env
    ensures t.nextURLId != StopId ==> t.nextURLId !in visited' && Ahead(c.dict, visited', t.nextURLId)
    ensures front == AppendAll(env, old(c.dict), GetLinks(env, node, visited'))
    ensures keys == KeysAfter(env, old(c.dict), old(c.keys), GetLinks(env, node, visited'))
    ensures c.dict == Popped(front, t.langRequested, t.nextURLId) && c.keys == keys
    ensures 0.0 <= draw < 1.0 && Made(env, p, qA, qB, t, front, keys, visited', langsVisited[..], draw)
  {
    HistogramStep(env, order, numLangs, node);
    ScoresStep(env, order, ret, node);
    ghost var before := c.dict;
    visited' := visited + {node};
    order' := order + [node];
    langsVisited[env[node].lang] := langsVisited[env[node].lang] + 1;
    c.AddLinks(node, visited');
    AddLinksBehind(env, before, visited, node);
    var numParallelDocs := CountParallelDocs(env, visited');
    ret' := ret + [numParallelDocs];
    assert Distinct(order') by {
      assert node !in order;
    }
    t, draw, front, keys := Choose(env, p, c, visited', langsVisited, qA, qB);
  }

  /** The choice of the next link in a round: draw, take a `Neural` step
      from the frontier, whose links all leave a visited page for an
      unvisited one, and return the transition with the draw and the lists
      and key order it chose from. */
  method Choose(env: Env, p: Params, c: Candidates, visited: set<int>, langsVisited: array<int>, qA: QNet, qB: QNet)
    returns (t: Transition, ghost draw: real, ghost front: map<int, seq<Link>>, ghost keys: seq<int>)
    requires WellFormed(env) && StopId in env && c.Valid() && c.env == env
    requires forall id :: id in env ==> 0 <= env[id].lang < langsVisited.Length
    requires Behind(c.dict, visited)
    modifies c
    ensures c.Valid() && c.env == env
    ensures front == old(c.dict) && keys == old(c.keys)
    ensures c.dict == Popped(front, t.langRequested, t.nextURLId) && c.keys == keys
    ensures t.langFeatures == langsVisited[..] && t.nextURLId in env
    ensures t.nextURLId != StopId ==>
              && t.currURLId in visited && t.currURLId in env && Link(t.currURLId, t.nextURLId) in env[t.currURLId].links
              && t.nextURLId !in visited && Ahead(c.dict, visited, t.nextURLId)
    ensures 0.0 <= draw < 1.0 && Made(env, p, qA, qB, t, front, keys, visited, langsVisited[..], draw)
  {
    var d: real :| 0.0 <= d < 1.0;
    draw, front, keys := d, c.dict, c.keys;
    ghost var link, action, maxQ, reward, nextMaxQ;
    t, link, action, maxQ, reward, nextMaxQ := Neural(c, p, visited, langsVisited, qA, qB, d);
    PoppedIs(front, c.dict, action, link.child);
    assert MadeBy(env, p, qA, qB, t, front, keys, visited, langsVisited[..], draw, link, action, maxQ, reward,
                  nextMaxQ);
    if t.nextURLId != StopId {
      assert link.parent in env && link in env[link.parent].links;
      PopAhead(front, c.dict, visited, t.nextURLId);
    }
  }

  /** The state of `Trajectory` at the head of its loop, `node` being the
      page to visit next. */
  ghost predicate Crawling(env: Env, numLangs: nat, maxDocs: nat, visited: set<int>, order: seq<int>, ret: seq<nat>,
                           node: int, counts: seq<int>, dict: map<int, seq<Link>>, path: seq<Transition>, coins: seq<bool>)
  {
    && Crawled(env, numLangs, visited, order, ret, node, counts)
    && |order| <= maxDocs
    && (order == [] ==> node == StartId)
    && (order != [] ==> order[0] == StartId)
    && Ahead(dict, visited, node)
    && Recorded(env, numLangs, order, node, path, coins)
  }

  /** What `Trajectory` promises when its loop ends. */
  ghost predicate Finished(env: Env, numLangs: nat, maxDocs: nat, order: seq<int>, ret: seq<nat>,
                           path: seq<Transition>, coins: seq<bool>)
  {
    && Distinct(order) && order != [] && order[0] == StartId && StopId !in order
    && Scores(env, order, ret)
    && |order| <= maxDocs + 1
    && |path| == |order| == |coins|
    && (forall i :: 0 <= i < |path| - 1 ==> path[i].nextURLId == order[i + 1])
    && (path[|path| - 1].nextURLId == StopId || (|order| > maxDocs && path[|path| - 1].nextURLId !in order))
    && (forall i :: 0 <= i < |path| ==> Followed(env, path[i], order[..i + 1]))
    && (forall i :: 0 <= i < |path| ==> path[i].langFeatures == Histogram(env, order[..i + 1], numLangs))
  }

  /** The start of `Trajectory`: nothing visited, an empty frontier, the
      start node next. */
  lemma CrawlingStart(env: Env, numLangs: nat, maxDocs: nat)
    requires StartId in env
    ensures Crawling(env, numLangs, maxDocs, {}, [], [], StartId, seq(numLangs, k => 0), map[], [], [])
  {
    assert seq(numLangs, k => 0) == Histogram(env, [], numLangs);
  }

  /** The loop state after a round that goes on to `next`. */
  lemma CrawlingStep(env: Env, numLangs: nat, maxDocs: nat, visited: set<int>, order: seq<int>, ret: seq<nat>,
                     node: int, dict: map<int, seq<Link>>, path: seq<Transition>, coins: seq<bool>,
                     ret': seq<nat>, counts': seq<int>, dict': map<int, seq<Link>>, t: Transition, coin: bool)
    requires Crawling(env, numLangs, maxDocs, visited, order, ret, node, Histogram(env, order, numLangs), dict, path, coins)
    requires Distinct(order + [node]) && Scores(env, order + [node], ret')
    requires counts' == Histogram(env, order + [node], numLangs)
    requires Followed(env, t, order + [node]) && t.langFeatures == Histogram(env, order + [node], numLangs)
    requires t.nextURLId in env && t.nextURLId != StopId && t.nextURLId !in visited + {node}
    requires Ahead(dict', visited + {node}, t.nextURLId) && |visited + {node}| <= maxDocs
    ensures Crawling(env, numLangs, maxDocs, visited + {node}, order + [node], ret', t.nextURLId, counts', dict',
                     path + [t], coins + [coin])
  {
    RecordedStep(env, numLangs, order, node, path, coins, t, coin);
    assert Elems(order + [node]) == visited + {node};
    DistinctCard(order + [node]);
  }

  /** The loop state after the last round. */
  lemma FinishedStep(env: Env, numLangs: nat, maxDocs: nat, visited: set<int>, order: seq<int>, ret: seq<nat>,
                     node: int, dict: map<int, seq<Link>>, path: seq<Transition>, coins: seq<bool>,
                     ret': seq<nat>, t: Transition, coin: bool)
    requires Crawling(env, numLangs, maxDocs, visited, order, ret, node, Histogram(env, order, numLangs), dict, path, coins)
    requires Distinct(order + [node]) && Scores(env, order + [node], ret')
    requires Followed(env, t, order + [node]) && t.langFeatures == Histogram(env, order + [node], numLangs)
    requires t.nextURLId == StopId || (|visited + {node}| > maxDocs && t.nextURLId !in visited + {node})
    ensures Finished(env, numLangs, maxDocs, order + [node], ret', path + [t], coins + [coin])
  {
    RecordedStep(env, numLangs, order, node, path, coins, t, coin);
    var o, pa := order + [node], path + [t];
    assert Elems(o) == visited + {node};
    DistinctCard(o);
    forall i | 0 <= i < |pa| - 1 ensures pa[i].nextURLId == o[i + 1] {
      assert (o + [t.nextURLId])[i + 1] == o[i + 1];
    }
    assert o != [] && o[0] == StartId;
  }

  /** A round with the networks in the roles `coin` gives them, recorded
      in the ghost history of the crawl: the transition is `Neural`'s on the
      frontier of the round, which is the one the last round left grown by
      the links of `node`. */
  method Turn(env: Env, numLangs: nat, p: Params, q0: QNet, q1: QNet, c: Candidates, langsVisited: array<int>,
              visited: set<int>, ghost order: seq<int>, ret: seq<nat>, node: int, ghost path: seq<Transition>,
              ghost coins: seq<bool>, ghost draws: seq<real>, ghost fronts: seq<map<int, seq<Link>>>,
              ghost keyOrders: seq<seq<int>>, coin: bool)
    returns (visited': set<int>, ghost order': seq<int>, ret': seq<nat>, t: Transition, ghost draws': seq<real>,
             ghost fronts': seq<map<int, seq<Link>>>, ghost keyOrders': seq<seq<int>>)
    requires WellFormed(env) && StopId in env
    requires forall id :: id in env ==> 0 <= env[id].lang < numLangs
    requires c.Valid() && c.env == env && langsVisited.Length == numLangs
    requires Crawled(env, numLangs, visited, order, ret, node, langsVisited[..])
    requires Ahead(c.dict, visited, node)
    requires Acted(env, p, q0, q1, order, path, coins, draws, fronts, keyOrders)
    requires Tracked(env, order, path, fronts, keyOrders, c.dict, c.keys)
    modifies c, langsVisited
    ensures visited' == visited + {node} && order' == order + [node]
    ensures Distinct(order') && Scores(env, order', ret')
    ensures langsVisited[..] == Histogram(env, order', numLangs)
    ensures c.Valid() && c.env == env
    ensures Followed(env, t, order') && t.langFeatures == Histogram(env, order', numLangs)
    ensures t.nextURLId in env
    ensures t.nextURLId != StopId ==> t.nextURLId !in visited' && Ahead(c.dict, visited', t.nextURLId)
    ensures Acted(env, p, q0, q1, order', path + [t], coins + [coin], draws', fronts', keyOrders')
    ensures Tracked(env, order', path + [t], fronts', keyOrders', c.dict, c.keys)
  {
    var qA, qB := if coin then q0 else q1, if coin then q1 else q0;
    ghost var dict, dictKeys := c.dict, c.keys;
    ghost var draw, front, keys;
    visited', order', ret', t, draw, front, keys :=
      Round(env, numLangs, p, c, visited, order, ret, langsVisited, node, qA, qB);
    draws', fronts', keyOrders' := draws + [draw], fronts + [front], keyOrders + [keys];
    ActedStep(env, p, q0, q1, order, path, coins, draws, fronts, keyOrders, node, t, coin, draw, front, keys);
    Tracks(env, order, path, fronts, keyOrders, dict, dictKeys, node, t, front, keys, c.dict, c.keys);
  }

  /** The corpus of network A, network 0 when `coin`, is offered the
      transition `t` unless it ends the crawl. */
  method Offer(corpus0: Corpus<Transition>, corpus1: Corpus<Transition>, ghost ts0: seq<Transition>,
               ghost ts1: seq<Transition>, ghost path: seq<Transition>, ghost coins: seq<bool>, t: Transition,
               coin: bool, deleteDuplicates: bool)
    requires corpus0 != corpus1 && |coins| == |path|
    requires OfferedOnward(corpus0, corpus1, ts0, ts1, path, coins, deleteDuplicates)
    modifies corpus0, corpus1
    ensures OfferedOnward(corpus0, corpus1, ts0, ts1, path + [t], coins + [coin], deleteDuplicates)
    ensures corpus0.losses == old(corpus0.losses) && corpus0.sumWeights == old(corpus0.sumWeights)
    ensures corpus1.losses == old(corpus1.losses) && corpus1.sumWeights == old(corpus1.sumWeights)
  {
    RoutedStep(corpus0.key, ts0, path, coins, t, coin, true, deleteDuplicates);
    RoutedStep(corpus1.key, ts1, path, coins, t, coin, false, deleteDuplicates);
    if t.nextURLId != StopId {
      if coin {
        corpus0.AddTransition(t, deleteDuplicates);
      } else {
        corpus1.AddTransition(t, deleteDuplicates);
      }
    }
  }

  /** One whole round of the `Trajectory` loop: the coin that gives the
      networks their roles, the visit, and the corpus of network A offered
      the transition unless it ends the crawl. */
  method Step(env: Env, numLangs: nat, maxDocs: nat, p: Params, q0: QNet, q1: QNet,
              corpus0: Corpus<Transition>, corpus1: Corpus<Transition>, c: Candidates, langsVisited: array<int>,
              visited: set<int>, ghost order: seq<int>, ret: seq<nat>, node: int, ghost path: seq<Transition>,
              ghost coins: seq<bool>, ghost ts0: seq<Transition>, ghost ts1: seq<Transition>, ghost draws: seq<real>,
              ghost fronts: seq<map<int, seq<Link>>>, ghost keyOrders: seq<seq<int>>)
    returns (visited': set<int>, ghost order': seq<int>, ret': seq<nat>, node': int, ghost path': seq<Transition>,
             ghost coins': seq<bool>, stop: bool, ghost draws': seq<real>, ghost fronts': seq<map<int, seq<Link>>>,
             ghost keyOrders': seq<seq<int>>)
    requires WellFormed(env) && StopId in env
    requires forall id :: id in env ==> 0 <= env[id].lang < numLangs
    requires corpus0 != corpus1
    requires c.Valid() && c.env == env && langsVisited.Length == numLangs
    requires Crawling(env, numLangs, maxDocs, visited, order, ret, node, langsVisited[..], c.dict, path, coins)
    requires OfferedOnward(corpus0, corpus1, ts0, ts1, path, coins, p.deleteDuplicates)
    requires Acted(env, p, q0, q1, order, path, coins, draws, fronts, keyOrders)
    requires Tracked(env, order, path, fronts, keyOrders, c.dict, c.keys)
    modifies c, langsVisited, corpus0, corpus1
    ensures c.Valid() && c.env == env
    ensures visited' == visited + {node} && |coins'| == |path'|
    ensures !stop ==> Crawling(env, numLangs, maxDocs, visited', order', ret', node', langsVisited[..], c.dict, path', coins')
    ensures stop ==> Finished(env, numLangs, maxDocs, order', ret', path', coins')
    ensures OfferedOnward(corpus0, corpus1, ts0, ts1, path', coins', p.deleteDuplicates)
    ensures Acted(env, p, q0, q1, order', path', coins', draws', fronts', keyOrders')
    ensures Tracked(env, order', path', fronts', keyOrders', c.dict, c.keys)
    ensures corpus0.losses == old(corpus0.losses) && corpus0.sumWeights == old(corpus0.sumWeights)
    ensures corpus1.losses == old(corpus1.losses) && corpus1.sumWeights == old(corpus1.sumWeights)
  {
    var coin: bool :| true;
    ghost var dict := c.dict;
    var t;
    visited', order', ret', t, draws', fronts', keyOrders' :=
      Turn(env, numLangs, p, q0, q1, c, langsVisited, visited, order, ret, node, path, coins, draws, fronts,
           keyOrders, coin);
    Offer(corpus0, corpus1, ts0, ts1, path, coins, t, coin, p.deleteDuplicates);
    path', coins' := path + [t], coins + [coin];
    node' := t.nextURLId;
    stop := t.nextURLId == StopId || |visited'| > maxDocs;
    if stop {
      FinishedStep(env, numLangs, maxDocs, visited, order, ret, node, dict, path, coins, ret', t, coin);
    } else {
      CrawlingStep(env, numLangs, maxDocs, visited, order, ret, node, dict, path, coins, ret', langsVisited[..],
                   c.dict, t, coin);
    }
  }

  /** `Trajectory` (training): from the start node, visit the current page
      (count its language, add its links to the frontier, record the number
      of aligned pairs), let the networks, in roles drawn by a coin, choose
      the next link, and offer the transition to network A's corpus, until
      the stop action or a crawl longer than `maxDocs`.  `order` is the
      visit order, `path` the transitions made and `coins` whether network
      0 acted as A at each step. */
  method Trajectory(env: Env, numLangs: nat, maxDocs: nat, p: Params, q0: QNet, q1: QNet,
                    corpus0: Corpus<Transition>, corpus1: Corpus<Transition>)
    returns (ret: seq<nat>, ghost order: seq<int>, ghost path: seq<Transition>, ghost coins: seq<bool>,
             ghost draws: seq<real>, ghost fronts: seq<map<int, seq<Link>>>, ghost keyOrders: seq<seq<int>>)
    requires WellFormed(env) && StartId in env && StopId in env
    requires forall id :: id in env ==> 0 <= env[id].lang < numLangs
    requires corpus0 != corpus1
    modifies corpus0, corpus1
    ensures Distinct(order) && order != [] && order[0] == StartId && StopId !in order
    ensures Scores(env, order, ret)
    ensures |order| <= maxDocs + 1
    ensures |path| == |order| == |coins|
    ensures forall i :: 0 <= i < |path| - 1 ==> path[i].nextURLId == order[i + 1]
    ensures path[|path| - 1].nextURLId == StopId || (|order| > maxDocs && path[|path| - 1].nextURLId !in order)
    ensures forall i :: 0 <= i < |path| ==> Followed(env, path[i], order[..i + 1])
    ensures forall i :: 0 <= i < |path| ==> path[i].langFeatures == Histogram(env, order[..i + 1], numLangs)
    ensures Acted(env, p, q0, q1, order, path, coins, draws, fronts, keyOrders)
    ensures Snapshots(env, order, path, fronts, keyOrders)
    ensures corpus0.transitions == AddedAll(corpus0.key, old(corpus0.transitions), Routed(path, coins, true), p.deleteDuplicates)
    ensures corpus1.transitions == AddedAll(corpus1.key, old(corpus1.transitions), Routed(path, coins, false), p.deleteDuplicates)
    ensures corpus0.losses == old(corpus0.losses) && corpus0.sumWeights == old(corpus0.sumWeights)
    ensures corpus1.losses == old(corpus1.losses) && corpus1.sumWeights == old(corpus1.sumWeights)
  {
    var langsVisited := new int[numLangs](k => 0);
    var c := new Candidates(env);
    assert langsVisited[..] == seq(numLangs, k => 0);
    ret, order, path, coins, draws, fronts, keyOrders :=
      Crawl(env, numLangs, maxDocs, p, q0, q1, corpus0, corpus1, c, langsVisited, corpus0.transitions,
            corpus1.transitions);
    FinishedMeans(env, numLangs, maxDocs, order, ret, path, coins);
  }

  /** What `Finished` says, clause by clause. */
  lemma FinishedMeans(env: Env, numLangs: nat, maxDocs: nat, order: seq<int>, ret: seq<nat>,
                      path: seq<Transition>, coins: seq<bool>)
    requires Finished(env, numLangs, maxDocs, order, ret, path, coins)
    ensures Distinct(order) && order != [] && order[0] == StartId && StopId !in order
    ensures Scores(env, order, ret)
    ensures |order| <= maxDocs + 1
    ensures |path| == |order| == |coins|
    ensures forall i :: 0 <= i < |path| - 1 ==> path[i].nextURLId == order[i + 1]
    ensures path[|path| - 1].nextURLId == StopId || (|order| > maxDocs && path[|path| - 1].nextURLId !in order)
    ensures forall i :: 0 <= i < |path| ==> Followed(env, path[i], order[..i + 1])
    ensures forall i :: 0 <= i < |path| ==> path[i].langFeatures == Histogram(env, order[..i + 1], numLangs)
  {
  }

  /** The loop of `Trajectory`, from the start page with nothing visited,
      zero counts and an empty frontier, until it stops. */
  method Crawl(env: Env, numLangs: nat, maxDocs: nat, p: Params, q0: QNet, q1: QNet,
               corpus0: Corpus<Transition>, corpus1: Corpus<Transition>, c: Candidates, langsVisited: array<int>,
               ghost ts0: seq<Transition>, ghost ts1: seq<Transition>)
    returns (ret: seq<nat>, ghost order: seq<int>, ghost path: seq<Transition>, ghost coins: seq<bool>,
             ghost draws: seq<real>, ghost fronts: seq<map<int, seq<Link>>>, ghost keyOrders: seq<seq<int>>)
    requires WellFormed(env) && StartId in env && StopId in env
    requires forall id :: id in env ==> 0 <= env[id].lang < numLangs
    requires corpus0 != corpus1 && corpus0.transitions == ts0 && corpus1.transitions == ts1
    requires c.Valid() && c.env == env && c.dict == map[] && c.keys == []
    requires langsVisited.Length == numLangs && langsVisited[..] == seq(numLangs, k => 0)
    modifies c, langsVisited, corpus0, corpus1
    ensures Finished(env, numLangs, maxDocs, order, ret, path, coins)
    ensures Acted(env, p, q0, q1, order, path, coins, draws, fronts, keyOrders)
    ensures Snapshots(env, order, path, fronts, keyOrders)
    ensures OfferedOnward(corpus0, corpus1, ts0, ts1, path, coins, p.deleteDuplicates)
    ensures corpus0.losses == old(corpus0.losses) && corpus0.sumWeights == old(corpus0.sumWeights)
    ensures corpus1.losses == old(corpus1.losses) && corpus1.sumWeights == old(corpus1.sumWeights)
  {
    ret, order, path, coins := [], [], [], [];
    draws, fronts, keyOrders := [], [], [];
    var visited: set<int> := {};
    var node := StartId;
    var stop := false;
    CrawlingStart(env, numLangs, maxDocs);
    while !stop
      invariant c.Valid() && c.env == env && langsVisited.Length == numLangs && |coins| == |path|
      invariant !stop ==> Crawling(env, numLangs, maxDocs, visited, order, ret, node, langsVisited[..], c.dict, path, coins)
      invariant stop ==> Finished(env, numLangs, maxDocs, order, ret, path, coins)
      invariant OfferedOnward(corpus0, corpus1, ts0, ts1, path, coins, p.deleteDuplicates)
      invariant Acted(env, p, q0, q1, order, path, coins, draws, fronts, keyOrders)
      invariant Tracked(env, order, path, fronts, keyOrders, c.dict, c.keys)
      invariant corpus0.losses == old(corpus0.losses) && corpus0.sumWeights == old(corpus0.sumWeights)
      invariant corpus1.losses == old(corpus1.losses) && corpus1.sumWeights == old(corpus1.sumWeights)
      decreases env.Keys - visited
    {
      visited, order, ret, node, path, coins, stop, draws, fronts, keyOrders :=
        Step(env, numLangs, maxDocs, p, q0, q1, corpus0, corpus1, c, langsVisited, visited, order, ret, node, path,
             coins, ts0, ts1, draws, fronts, keyOrders);
    }
  }

  /** `Transition` as written: the visited counts are kept by reference,
      the caller's own array. */
  class SharedTransition {
    const currURLId: int
    const nextURLId: int
    const langFeatures: array<int>

    constructor (currURLId: int, nextURLId: int, langFeatures: array<int>)
      ensures this.currURLId == currURLId && this.nextURLId == nextURLId && this.langFeatures == langFeatures
    {
      this.currURLId := currURLId;
      this.nextURLId := nextURLId;
      this.langFeatures := langFeatures;
    }
  }

  /** Two rounds of `Trajectory` as written, over three languages: the start
      page (language 1) is counted and its transition stored; the next page
      (language 2) is then counted in the same array, and the stored
      transition's features change with it. */
  method AliasedFeatures() returns (atStep: seq<int>, stored: seq<int>)
    ensures atStep == [0, 1, 0] && stored == [0, 1, 1]
  {
    var langsVisited := new int[3](k => 0);
    langsVisited[1] := langsVisited[1] + 1;
    var t := new SharedTransition(StartId, 5, langsVisited);
    atStep := t.langFeatures[..];
    langsVisited[2] := langsVisited[2] + 1;
    stored := t.langFeatures[..];
  }
}
