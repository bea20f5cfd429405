/** The `balanced` baseline crawler of fk_dqn.py: links wait in one FIFO list
    per parent language (`langsTodo`), and the next link is taken from the
    list of a language of the pair that is drawn with a probability falling
    as that language's share of the visited pages grows. */
module Balanced {
  import opened Graph
  import opened Baselines
  import Frontier

  /** `langsTodo`: parent language -> links waiting to be followed. */
  type Todo = map<int, seq<Link>>

  /** The sum of the values of a map. */
  ghost function MapSum(m: map<int, nat>): nat
    decreases |m|
  {
    if m.Keys == {} then 0
    else
      HasMember(m.Keys);
      var k :| k in m.Keys;
      m[k] + MapSum(m - {k})
  }

  lemma HasMember(s: set<int>)
    requires s != {}
    ensures exists x :: x in s
  {
    var x := Member(s);
  }

  /** The sum does not depend on the key taken out first. */
  lemma {:induction false} MapSumRemove(m: map<int, nat>, k: int)
    requires k in m
    ensures MapSum(m) == m[k] + MapSum(m - {k})
    decreases |m|
  {
    var j :| j in m && MapSum(m) == m[j] + MapSum(m - {j});
    if j != k {
      MapSumRemove(m - {j}, k);
      MapSumRemove(m - {k}, j);
      assert m - {j} - {k} == m - {k} - {j};
    }
  }

  /** A sum is zero exactly when every value is. */
  lemma {:induction false} MapSumZero(m: map<int, nat>)
    ensures MapSum(m) == 0 <==> forall k :: k in m ==> m[k] == 0
    decreases |m|
  {
    if m.Keys != {} {
      var k := Member(m.Keys);
      MapSumRemove(m, k);
      MapSumZero(m - {k});
      if MapSum(m) == 0 {
        forall j | j in m ensures m[j] == 0 {
          if j != k {
            assert j in m - {k};
          }
        }
      }
    }
  }

  /** The values of `m` for the keys in `keys`. */
  function Restrict(m: map<int, nat>, keys: set<int>): map<int, nat>
  {
    map k | k in m && k in keys :: m[k]
  }

  /** Adding one key to the summed set adds its value. */
  lemma RestrictStep(m: map<int, nat>, keys: set<int>, k: int)
    requires k in m && k !in keys
    ensures MapSum(Restrict(m, keys + {k})) == MapSum(Restrict(m, keys)) + m[k]
  {
    MapSumRemove(Restrict(m, keys + {k}), k);
    assert Restrict(m, keys + {k}) - {k} == Restrict(m, keys);
  }

  /** Adding a key absent from the map changes nothing. */
  lemma RestrictAbsent(m: map<int, nat>, keys: set<int>, k: int)
    requires k !in m
    ensures Restrict(m, keys + {k}) == Restrict(m, keys)
  {
  }

  /** The lengths of the waiting lists. */
  function Lengths(todo: Todo): map<int, nat>
  {
    map k | k in todo :: |todo[k]|
  }

  /** How many links are waiting in all lists together. */
  ghost function Total(todo: Todo): nat
  {
    MapSum(Lengths(todo))
  }

  /** Replacing one list changes the total by the change of its length. */
  lemma TotalUpdate(todo: Todo, k: int, links: seq<Link>)
    ensures Total(todo[k := links]) + |Frontier.Get(todo, k)| == Total(todo) + |links|
  {
    var after := Lengths(todo[k := links]);
    MapSumRemove(after, k);
    if k in todo {
      MapSumRemove(Lengths(todo), k);
      assert after - {k} == Lengths(todo) - {k};
    } else {
      assert after - {k} == Lengths(todo);
    }
  }

  /** Nothing waits exactly when every list is empty. */
  lemma TotalZero(todo: Todo)
    ensures Total(todo) == 0 <==> forall k :: k in todo ==> todo[k] == []
  {
    MapSumZero(Lengths(todo));
    assert forall k :: k in todo ==> Lengths(todo)[k] == |todo[k]|;
  }

  /** `AddTodo`: a link to a page already visited is dropped; any other link
      goes to the end of the list of its parent's language. */
  function AddTodo(env: Env, todo: Todo, visited: set<int>, link: Link): (r: Todo)
    requires link.parent in env
    ensures link.child in visited ==> r == todo
    ensures link.child !in visited ==>
              && r.Keys == todo.Keys + {env[link.parent].lang}
              && r[env[link.parent].lang] == Frontier.Get(todo, env[link.parent].lang) + [link]
              && (forall k :: k in todo && k != env[link.parent].lang ==> r[k] == todo[k])
              && Total(r) == Total(todo) + 1
  {
    if link.child in visited then todo
    else
      var lang := env[link.parent].lang;
      TotalUpdate(todo, lang, Frontier.Get(todo, lang) + [link]);
      todo[lang := Frontier.Get(todo, lang) + [link]]
  }

  /** The waiting lists after `links`, all leaving pages of language `lang`,
      are added by `AddTodo`: the links to unvisited pages, in order, at the
      end of that language's list. */
  function Queued(todo: Todo, lang: int, links: seq<Link>, visited: set<int>): Todo
  {
    if Unvisited(links, visited) == [] then todo
    else todo[lang := Frontier.Get(todo, lang) + Unvisited(links, visited)]
  }

  lemma {:induction false} UnvisitedAppend(a: seq<Link>, b: seq<Link>, visited: set<int>)
    ensures Unvisited(a + b, visited) == Unvisited(a, visited) + Unvisited(b, visited)
  {
    if a != [] {
      assert (a + b)[1..] == a[1..] + b;
      UnvisitedAppend(a[1..], b, visited);
    } else {
      assert a + b == b;
    }
  }

  /** One more link handed to `AddTodo` extends `Queued` by that link. */
  lemma AddTodoQueued(env: Env, todo: Todo, lang: int, links: seq<Link>, link: Link, visited: set<int>)
    requires link.parent in env && env[link.parent].lang == lang
    ensures AddTodo(env, Queued(todo, lang, links, visited), visited, link) == Queued(todo, lang, links + [link], visited)
  {
    UnvisitedAppend(links, [link], visited);
    assert [link][1..] == [];
    var q := Queued(todo, lang, links, visited);
    if link.child !in visited {
      assert Unvisited(links + [link], visited) == Unvisited(links, visited) + [link];
      assert Frontier.Get(q, lang) == Frontier.Get(todo, lang) + Unvisited(links, visited);
      var g := Frontier.Get(todo, lang);
      assert (g + Unvisited(links, visited)) + [link] == g + Unvisited(links + [link], visited);
      assert q[lang := Frontier.Get(q, lang) + [link]] == todo[lang := g + Unvisited(links + [link], visited)];
    } else {
      assert Unvisited([link], visited) == [];
      assert Unvisited(links + [link], visited) == Unvisited(links, visited);
    }
  }

  /** The loop of `balanced` that hands each link of the newly visited node
      to `AddTodo`. */
  method AddTodos(env: Env, todo: Todo, visited: set<int>, node: int) returns (r: Todo)
    requires node in env
    requires forall l :: l in env[node].links ==> l.parent == node
    ensures r == Queued(todo, env[node].lang, env[node].links, visited)
    ensures Total(r) == Total(todo) + |GetLinks(env, node, visited)|
  {
    var links, lang := env[node].links, env[node].lang;
    r := todo;
    for i := 0 to |links|
      invariant r == Queued(todo, lang, links[..i], visited)
    {
      var link := links[i];
      assert link in env[node].links;
      AddTodoQueued(env, todo, lang, links[..i], link, visited);
      assert links[..i + 1] == links[..i] + [link];
      r := AddTodo(env, r, visited, link);
    }
    assert links[..|links|] == links;
    QueuedTotal(todo, lang, links, visited);
  }

  /** Queueing adds the number of queued links to the total. */
  lemma QueuedTotal(todo: Todo, lang: int, links: seq<Link>, visited: set<int>)
    ensures Total(Queued(todo, lang, links, visited)) == Total(todo) + |Unvisited(links, visited)|
  {
    var added := Unvisited(links, visited);
    if added != [] {
      TotalUpdate(todo, lang, Frontier.Get(todo, lang) + added);
    }
  }

  /** The loop of `PopLink` adding up the lengths of the waiting lists. */
  method CountTodo(todo: Todo) returns (sum: nat)
    ensures sum == Total(todo)
    ensures sum == 0 <==> forall k :: k in todo ==> todo[k] == []
  {
    sum := 0;
    var rest := todo.Keys;
    while rest != {}
      invariant rest <= todo.Keys
      invariant sum == MapSum(Restrict(Lengths(todo), todo.Keys - rest))
      decreases rest
    {
      HasMember(rest);
      var k :| k in rest;
      RestrictStep(Lengths(todo), todo.Keys - rest, k);
      assert todo.Keys - rest + {k} == todo.Keys - (rest - {k});
      sum := sum + |todo[k]|;
      rest := rest - {k};
    }
    assert todo.Keys - rest == todo.Keys;
    assert Restrict(Lengths(todo), todo.Keys) == Lengths(todo);
    TotalZero(todo);
  }

  /** How many visited pages are in language `lang` (`langsVisited`, with a
      missing language counting zero). */
  function Count(langsVisited: map<int, nat>, lang: int): nat
  {
    if lang in langsVisited then langsVisited[lang] else 0
  }

  /** `sumRequired`: the visited pages in the languages of the pair, plus
      0.001 so that it is never zero. */
  ghost function SumRequired(langsVisited: map<int, nat>, langIds: seq<int>): real
  {
    MapSum(Restrict(langsVisited, Elems(langIds))) as real + 0.001
  }

  /** The probability weight of `lang`: one minus its share of the visited
      pages in the pair's languages. */
  ghost function Prob(langsVisited: map<int, nat>, langIds: seq<int>, lang: int): real
  {
    1.0 - Count(langsVisited, lang) as real / SumRequired(langsVisited, langIds)
  }

  /** The loop of `PopLink` over `langsVisited` computing `sumRequired`. */
  method GetSumRequired(langsVisited: map<int, nat>, langIds: seq<int>) returns (sumRequired: real)
    ensures sumRequired == SumRequired(langsVisited, langIds)
    ensures sumRequired > 0.0
  {
    var sum: nat := 0;
    var rest := langsVisited.Keys;
    while rest != {}
      invariant rest <= langsVisited.Keys
      invariant sum == MapSum(Restrict(langsVisited, Elems(langIds) * (langsVisited.Keys - rest)))
      decreases rest
    {
      HasMember(rest);
      var lang :| lang in rest;
      var done := Elems(langIds) * (langsVisited.Keys - rest);
      if lang in langIds {
        RestrictStep(langsVisited, done, lang);
        assert done + {lang} == Elems(langIds) * (langsVisited.Keys - (rest - {lang}));
        sum := sum + langsVisited[lang];
      } else {
        assert done == Elems(langIds) * (langsVisited.Keys - (rest - {lang}));
      }
      rest := rest - {lang};
    }
    assert langsVisited.Keys - rest == langsVisited.Keys;
    assert Restrict(langsVisited, Elems(langIds) * langsVisited.Keys) == Restrict(langsVisited, Elems(langIds));
    sumRequired := sum as real + 0.001;
  }

  /** `probs` lists, for each language of `keys` in order, its weight. */
  ghost predicate ProbsFor(langsVisited: map<int, nat>, langIds: seq<int>, keys: seq<int>, probs: seq<(int, real)>)
  {
    && |probs| == |keys|
    && forall i :: 0 <= i < |probs| ==>
         probs[i].0 == keys[i] && probs[i].1 == Prob(langsVisited, langIds, probs[i].0)
  }

  /** `probs`: one entry per language of the pair, in order, a language
      listed twice keeping its first place. */
  ghost predicate IsProbs(langsVisited: map<int, nat>, langIds: seq<int>, probs: seq<(int, real)>)
  {
    ProbsFor(langsVisited, langIds, Dedup(langIds), probs)
  }

  /** The loop of `PopLink` filling the `probs` dictionary. */
  method GetProbs(langsVisited: map<int, nat>, langIds: seq<int>, sumRequired: real) returns (probs: seq<(int, real)>)
    requires sumRequired == SumRequired(langsVisited, langIds)
    ensures IsProbs(langsVisited, langIds, probs)
  {
    probs := [];
    for i := 0 to |langIds|
      invariant ProbsFor(langsVisited, langIds, Dedup(langIds[..i]), probs)
    {
      var lang := langIds[i];
      var count := if lang in langsVisited then langsVisited[lang] else 0;
      var prob := 1.0 - count as real / sumRequired;
      assert prob == Prob(langsVisited, langIds, lang);
      DedupStep(langIds[..i], lang);
      assert langIds[..i + 1] == langIds[..i] + [lang];
      if lang !in Dedup(langIds[..i]) {
        probs := probs + [(lang, prob)];
      }
    }
    assert langIds[..|langIds|] == langIds;
  }

  /** The draw of `PopLink`: walking `probs` in order, the first language at
      which the running total exceeds `rnd`, if any. */
  function Choice(probs: seq<(int, real)>, cumm: real, rnd: real): (r: Option<int>)
    decreases |probs|
  {
    if probs == [] then None
    else if cumm + probs[0].1 > rnd then Some(probs[0].0)
    else Choice(probs[1..], cumm + probs[0].1, rnd)
  }

  /** The draw picks a language of `probs`, and picks one whenever the
      weights seen so far plus all of `probs` exceed `rnd`. */
  lemma {:induction false} ChoiceIn(probs: seq<(int, real)>, cumm: real, rnd: real)
    ensures var r := Choice(probs, cumm, rnd);
            r.Some? ==> exists i :: 0 <= i < |probs| && probs[i].0 == r.value
    ensures cumm <= rnd < cumm + SumProbs(probs) ==> Choice(probs, cumm, rnd).Some?
    decreases |probs|
  {
    if probs != [] && cumm + probs[0].1 <= rnd {
      ChoiceIn(probs[1..], cumm + probs[0].1, rnd);
      var r := Choice(probs[1..], cumm + probs[0].1, rnd);
      if r.Some? {
        var i :| 0 <= i < |probs[1..]| && probs[1..][i].0 == r.value;
        assert probs[i + 1].0 == r.value;
      }
    }
  }

  /** The total weight of `probs`. */
  function SumProbs(probs: seq<(int, real)>): real
    decreases |probs|
  {
    if probs == [] then 0.0 else probs[0].1 + SumProbs(probs[1..])
  }

  /** The loop of `PopLink` over `probs` accumulating `cumm`. */
  method Choose(probs: seq<(int, real)>, rnd: real) returns (lang: Option<int>)
    ensures lang == Choice(probs, 0.0, rnd)
  {
    var cumm := 0.0;
    var i := 0;
    while i < |probs|
      invariant 0 <= i <= |probs|
      invariant Choice(probs, 0.0, rnd) == Choice(probs[i..], cumm, rnd)
    {
      cumm := cumm + probs[i].1;
      if cumm > rnd {
        return Some(probs[i].0);
      }
      assert probs[i..][1..] == probs[i + 1..];
      i := i + 1;
    }
    return None;
  }

  /** `RandomLink`: the head of a non-empty list, removed from it.  The source
      redraws a language until its list is non-empty; only the outcome of the
      last draw is kept here. */
  method RandomLink(todo: Todo) returns (link: Link, r: Todo)
    requires exists k :: k in todo && todo[k] != []
    ensures exists k :: k in todo && todo[k] != [] && link == todo[k][0] && r == todo[k := todo[k][1..]]
  {
    var lang :| lang in todo && todo[lang] != [];
    link := todo[lang][0];
    r := todo[lang := todo[lang][1..]];
  }

  /** `PopLink`: no link when every list is empty; otherwise the head of the
      drawn language's list when that list is non-empty, else of a list
      chosen by `RandomLink`.  `rnd` is the uniform draw in [0, 1). */
  method PopLink(todo: Todo, langsVisited: map<int, nat>, langIds: seq<int>, rnd: real) returns (link: Option<Link>, r: Todo)
    ensures link.None? <==> forall k :: k in todo ==> todo[k] == []
    ensures link.None? ==> r == todo
    ensures link.Some? ==>
              exists k :: k in todo && todo[k] != [] && link.value == todo[k][0] && r == todo[k := todo[k][1..]]
    ensures link.Some? ==> Total(r) + 1 == Total(todo)
    ensures forall probs :: IsProbs(langsVisited, langIds, probs) ==>
              var choice := Choice(probs, 0.0, rnd);
              choice.Some? && choice.value in todo && todo[choice.value] != [] ==>
                link == Some(todo[choice.value][0]) && r == todo[choice.value := todo[choice.value][1..]]
  {
    var sum := CountTodo(todo);
    if sum == 0 {
      assert forall k :: k in todo ==> todo[k] == [];
      return None, todo;
    }
    var sumRequired := GetSumRequired(langsVisited, langIds);
    var probs := GetProbs(langsVisited, langIds, sumRequired);
    var lang := Choose(probs, rnd);
    ProbsUnique(langsVisited, langIds, probs);
    var links: Option<seq<Link>> := None;
    if lang.Some? && lang.value in todo {
      links := Some(todo[lang.value]);
    }
    var l: Link;
    ghost var key: int;
    if links.Some? && |links.value| > 0 {
      l, r := links.value[0], todo[lang.value := links.value[1..]];
      key := lang.value;
    } else {
      l, r := RandomLink(todo);
      key :| key in todo && todo[key] != [] && l == todo[key][0] && r == todo[key := todo[key][1..]];
    }
    link := Some(l);
    TotalUpdate(todo, key, todo[key][1..]);
  }

  /** A language's count is part of the sum it is taken from. */
  lemma CountAtMostSum(langsVisited: map<int, nat>, langIds: seq<int>, lang: int)
    requires lang in langIds
    ensures Count(langsVisited, lang) <= MapSum(Restrict(langsVisited, Elems(langIds)))
  {
    if lang in langsVisited {
      MapSumRemove(Restrict(langsVisited, Elems(langIds)), lang);
    }
  }

  /** Each weight of a language of the pair lies in (0, 1]: a language is
      never ruled out, and an unvisited one gets the full weight. */
  lemma ProbBounds(langsVisited: map<int, nat>, langIds: seq<int>, lang: int)
    requires lang in langIds
    ensures 0.0 < Prob(langsVisited, langIds, lang) <= 1.0
    ensures Count(langsVisited, lang) == 0 ==> Prob(langsVisited, langIds, lang) == 1.0
  {
    CountAtMostSum(langsVisited, langIds, lang);
    var c, total := Count(langsVisited, lang) as real, SumRequired(langsVisited, langIds);
    ShareBelowOne(c, total);
  }

  lemma ShareBelowOne(c: real, total: real)
    requires 0.0 <= c < total
    ensures 0.0 <= c / total < 1.0
  {
    assert c / total * total == c;
  }

  /** The more pages of a language have been visited, the smaller its
      weight: the crawl leans towards the language it has seen less of. */
  lemma ProbOrder(langsVisited: map<int, nat>, langIds: seq<int>, a: int, b: int)
    ensures Count(langsVisited, a) <= Count(langsVisited, b) <==>
              Prob(langsVisited, langIds, b) <= Prob(langsVisited, langIds, a)
  {
    var ca, cb, total := Count(langsVisited, a) as real, Count(langsVisited, b) as real, SumRequired(langsVisited, langIds);
    DivOrder(ca, cb, total);
  }

  lemma DivOrder(x: real, y: real, total: real)
    requires total > 0.0
    ensures x <= y <==> x / total <= y / total
  {
    assert x / total * total == x && y / total * total == y;
    if x / total <= y / total {
      assert (y / total - x / total) * total >= 0.0;
    }
  }

  /** For a pair of two different languages the weights add up to more than
      one, so the draw always names a language and `RandomLink` is only
      used when that language has nothing waiting. */
  lemma PairAlwaysDraws(langsVisited: map<int, nat>, lang0: int, lang1: int, probs: seq<(int, real)>, rnd: real)
    requires lang0 != lang1 && 0.0 <= rnd < 1.0
    requires IsProbs(langsVisited, [lang0, lang1], probs)
    ensures Choice(probs, 0.0, rnd).Some?
  {
    PairProbsSum(langsVisited, lang0, lang1, probs);
    PairWeightsExceedOne(langsVisited, lang0, lang1);
    ChoiceIn(probs, 0.0, rnd);
  }

  lemma PairProbsSum(langsVisited: map<int, nat>, lang0: int, lang1: int, probs: seq<(int, real)>)
    requires lang0 != lang1
    requires IsProbs(langsVisited, [lang0, lang1], probs)
    ensures SumProbs(probs) == Prob(langsVisited, [lang0, lang1], lang0) + Prob(langsVisited, [lang0, lang1], lang1)
  {
    var langIds := [lang0, lang1];
    assert Dedup([lang0]) == [lang0] by {
      assert [lang0][..0] == [];
    }
    assert Dedup(langIds) == [lang0, lang1] by {
      assert langIds[..1] == [lang0];
    }
    assert |probs| == 2 && probs[0].0 == lang0 && probs[1].0 == lang1;
    assert probs[1..][0] == probs[1] && probs[1..][1..] == [];
    assert SumProbs(probs[1..]) == probs[1].1 + SumProbs(probs[1..][1..]);
  }

  lemma PairWeightsExceedOne(langsVisited: map<int, nat>, lang0: int, lang1: int)
    requires lang0 != lang1
    ensures Prob(langsVisited, [lang0, lang1], lang0) + Prob(langsVisited, [lang0, lang1], lang1) > 1.0
  {
    var langIds := [lang0, lang1];
    var c0, c1 := Count(langsVisited, lang0), Count(langsVisited, lang1);
    assert MapSum(Restrict(langsVisited, Elems(langIds))) == c0 + c1 by {
      PairSum(langsVisited, lang0, lang1);
      assert Elems(langIds) == {lang0, lang1};
    }
    SharesBelowOne(c0 as real, c1 as real, SumRequired(langsVisited, langIds));
  }

  lemma SharesBelowOne(x: real, y: real, total: real)
    requires 0.0 <= x && 0.0 <= y && x + y < total
    ensures x / total + y / total < 1.0
  {
    assert x / total * total == x && y / total * total == y;
    var share := x / total + y / total;
    assert share * total == x + y;
  }

  lemma PairSum(langsVisited: map<int, nat>, lang0: int, lang1: int)
    requires lang0 != lang1
    ensures MapSum(Restrict(langsVisited, {lang0, lang1})) == Count(langsVisited, lang0) + Count(langsVisited, lang1)
  {
    var none: set<int> := {};
    assert MapSum(Restrict(langsVisited, none)) == 0 by {
      assert Restrict(langsVisited, none).Keys == {};
    }
    if lang0 in langsVisited {
      RestrictStep(langsVisited, none, lang0);
    }
    assert none + {lang0} == {lang0};
    if lang1 in langsVisited {
      RestrictStep(langsVisited, {lang0}, lang1);
    }
    assert {lang0} + {lang1} == {lang0, lang1};
  }

  /** The probability list is determined by the counts and the pair. */
  lemma ProbsUnique(langsVisited: map<int, nat>, langIds: seq<int>, probs: seq<(int, real)>)
    requires IsProbs(langsVisited, langIds, probs)
    ensures forall p :: IsProbs(langsVisited, langIds, p) ==> p == probs
  {
    forall p | IsProbs(langsVisited, langIds, p) ensures p == probs {
      assert forall i :: 0 <= i < |p| ==> p[i] == probs[i];
    }
  }

  /** The visited pages of language `lang`. */
  ghost function LangPages(env: Env, visited: set<int>, lang: int): set<int>
  {
    set v | v in visited && v in env && env[v].lang == lang
  }

  /** `langsVisited` counts the visited pages of each language. */
  ghost predicate CountsVisited(env: Env, visited: set<int>, langsVisited: map<int, nat>)
  {
    forall lang :: Count(langsVisited, lang) == |LangPages(env, visited, lang)|
  }

  /** Every waiting link leaves a visited page and sits in the list of that
      page's language. */
  ghost predicate Waiting(env: Env, visited: set<int>, todo: Todo)
  {
    forall k, l :: k in todo && l in todo[k] ==>
      l.parent in visited && l.parent in env && l in env[l.parent].links && env[l.parent].lang == k
  }

  /** Every link of a visited page leads to a visited page, waits in the list
      of the page's language, or is the link about to be followed. */
  ghost predicate Covered(env: Env, visited: set<int>, todo: Todo, link: Option<Link>)
    requires visited <= env.Keys
  {
    forall v, l :: v in visited && l in env[v].links ==>
      l.child in visited || l in Frontier.Get(todo, env[v].lang) || link == Some(l)
  }

  /** The only link of the start node: the crawl's first page. */
  function First(env: Env): int
    requires StartId in env && |env[StartId].links| == 1
  {
    env[StartId].links[0].child
  }

  /** Counting one more visited page of its language. */
  lemma CountsStep(env: Env, visited: set<int>, langsVisited: map<int, nat>, node: int)
    requires CountsVisited(env, visited, langsVisited)
    requires node in env && node !in visited
    ensures var lang := env[node].lang;
            CountsVisited(env, visited + {node}, langsVisited[lang := Count(langsVisited, lang) + 1])
  {
    var lang := env[node].lang;
    var after := langsVisited[lang := Count(langsVisited, lang) + 1];
    forall k ensures Count(after, k) == |LangPages(env, visited + {node}, k)| {
      if k == lang {
        assert LangPages(env, visited + {node}, k) == LangPages(env, visited, k) + {node};
      } else {
        assert LangPages(env, visited + {node}, k) == LangPages(env, visited, k);
      }
    }
  }

  /** Visiting `node` and queueing its links keeps the waiting lists and the
      coverage of visited pages' links. */
  lemma VisitStep(env: Env, visited: set<int>, todo: Todo, link: Link, node: int)
    requires WellFormed(env) && visited <= env.Keys
    requires Waiting(env, visited, todo) && Covered(env, visited, todo, Some(link))
    requires node in env && node !in visited
    ensures var after := Queued(todo, env[node].lang, env[node].links, visited + {node});
            && Waiting(env, visited + {node}, after)
            && Covered(env, visited + {node}, after, Some(link))
  {
    var visited', lang := visited + {node}, env[node].lang;
    var added := Unvisited(env[node].links, visited');
    var after := Queued(todo, lang, env[node].links, visited');
    assert forall k :: k != lang ==> Frontier.Get(after, k) == Frontier.Get(todo, k);
    assert Frontier.Get(after, lang) == Frontier.Get(todo, lang) + added;
    assert Waiting(env, visited', after) by {
      forall k, l: Link | k in after && l in after[k]
        ensures l.parent in visited' && l.parent in env && l in env[l.parent].links && env[l.parent].lang == k
      {
        assert l in Frontier.Get(after, k);
        if k == lang && l in added {
          assert l in env[node].links;
        } else {
          assert l in Frontier.Get(todo, k);
        }
      }
    }
    forall v, l | v in visited' && l in env[v].links
      ensures l.child in visited' || l in Frontier.Get(after, env[v].lang) || Some(link) == Some(l)
    {
      if v == node {
        if l.child !in visited' {
          assert l in added;
        }
      } else if l in Frontier.Get(todo, env[v].lang) {
        assert l in Frontier.Get(after, env[v].lang);
      }
    }
  }

  /** An element other than the head is in the tail. */
  lemma InTail(s: seq<Link>, x: Link)
    requires x in s && x != s[0]
    ensures x in s[1..]
  {
    var i :| 0 <= i < |s| && s[i] == x;
    assert s[1..][i - 1] == x;
  }

  /** Following the current link (whose page is now visited) and popping the
      next one keeps the waiting lists and the coverage. */
  lemma PopStep(env: Env, visited: set<int>, todo: Todo, link: Link, next: Option<Link>, todo': Todo)
    requires visited <= env.Keys && link.child in visited
    requires Waiting(env, visited, todo) && Covered(env, visited, todo, Some(link))
    requires next.None? ==> (forall k :: k in todo ==> todo[k] == []) && todo' == todo
    requires next.Some? ==>
               exists k :: k in todo && todo[k] != [] && next.value == todo[k][0] && todo' == todo[k := todo[k][1..]]
    ensures Waiting(env, visited, todo') && Covered(env, visited, todo', next)
    ensures next.Some? ==> next.value.parent in visited && next.value in env[next.value.parent].links
  {
    if next.Some? {
      var k :| k in todo && todo[k] != [] && next.value == todo[k][0] && todo' == todo[k := todo[k][1..]];
      assert next.value in todo[k];
      forall v, l | v in visited && l in env[v].links
        ensures l.child in visited || l in Frontier.Get(todo', env[v].lang) || next == Some(l)
      {
        if l.child !in visited && env[v].lang == k && l in todo[k] && l != next.value {
          InTail(todo[k], l);
        }
      }
    }
  }

  /** What holds of the visited pages between two rounds of `balanced`:
      `order` is the visit order so far, `ret` its curve and `langsVisited`
      the count of visited pages per language. */
  ghost predicate CrawlPages(env: Env, maxDocs: nat, visited: set<int>, order: seq<int>, ret: seq<nat>,
                             langsVisited: map<int, nat>)
  {
    Visits(env, maxDocs, visited, order, ret) && |visited| == |order| && CountsVisited(env, visited, langsVisited)
  }

  /** Where the visit order comes from: the start node's link is followed
      first, every later page is a child of an earlier one, and the current
      link, if it leads to a new page, leaves a visited one. */
  ghost predicate CrawlOrigin(env: Env, visited: set<int>, order: seq<int>, link: Option<Link>)
    requires StartId in env && |env[StartId].links| == 1
    requires forall x :: x in order ==> x in env
  {
    && (link.Some? ==> link.value.child in env)
    && (order == [] ==> link == Some(env[StartId].links[0]))
    && (order != [] ==> order[0] == First(env))
    && (order != [] && link.Some? && link.value.child !in visited ==>
          link.value.parent in visited && link.value.parent in env && link.value in env[link.value.parent].links)
    && Discovered(env, First(env), order)
  }

  /** What holds of the pages between two rounds. */
  ghost predicate CrawlOrder(env: Env, maxDocs: nat, visited: set<int>, order: seq<int>, ret: seq<nat>,
                             langsVisited: map<int, nat>, link: Option<Link>)
    requires StartId in env && |env[StartId].links| == 1
  {
    CrawlPages(env, maxDocs, visited, order, ret, langsVisited) && CrawlOrigin(env, visited, order, link)
  }

  /** What holds of the links between two rounds: every waiting link sits in
      its parent's language list, every link of a visited page is followed,
      waiting or current, and with no current link nothing waits. */
  ghost predicate CrawlQueue(env: Env, visited: set<int>, todo: Todo, link: Option<Link>)
    requires visited <= env.Keys
  {
    && Waiting(env, visited, todo) && Covered(env, visited, todo, link)
    && (link.None? ==> forall k :: k in todo ==> todo[k] == [])
  }

  /** What holds between two rounds of `balanced`. */
  ghost predicate CrawlInv(env: Env, maxDocs: nat, visited: set<int>, order: seq<int>, ret: seq<nat>,
                           langsVisited: map<int, nat>, todo: Todo, link: Option<Link>)
    requires StartId in env && |env[StartId].links| == 1
  {
    CrawlOrder(env, maxDocs, visited, order, ret, langsVisited, link) && CrawlQueue(env, visited, todo, link)
  }

  /** Before the first round only the start node's link is known. */
  lemma CrawlStart(env: Env, maxDocs: nat)
    requires WellFormed(env) && StartId in env && |env[StartId].links| == 1
    ensures CrawlInv(env, maxDocs, {}, [], [], map[], map[], Some(env[StartId].links[0]))
  {
    assert env[StartId].links[0] in env[StartId].links;
    assert CountsVisited(env, {}, map[]) by {
      forall lang ensures Count(map[], lang) == |LangPages(env, {}, lang)| {
        assert LangPages(env, {}, lang) == {};
      }
    }
  }

  /** Visiting the new page behind the current link: count its language,
      queue its unvisited links and extend the curve. */
  lemma CrawlVisit(env: Env, maxDocs: nat, visited: set<int>, order: seq<int>, ret: seq<nat>,
                   langsVisited: map<int, nat>, todo: Todo, link: Link)
    requires WellFormed(env) && StartId in env && |env[StartId].links| == 1
    requires CrawlInv(env, maxDocs, visited, order, ret, langsVisited, todo, Some(link))
    requires link.child in env && link.child !in visited && |visited| < maxDocs
    ensures var node := link.child;
            var lang := env[node].lang;
            var visited' := visited + {node};
            && visited' <= env.Keys
            && CrawlInv(env, maxDocs, visited', order + [node], ret + [NumParallelDocs(env, visited')],
                        langsVisited[lang := Count(langsVisited, lang) + 1],
                        Queued(todo, lang, env[node].links, visited'), Some(link))
  {
    var node := link.child;
    var lang := env[node].lang;
    var visited' := visited + {node};
    assert CrawlOrder(env, maxDocs, visited', order + [node], ret + [NumParallelDocs(env, visited')],
                      langsVisited[lang := Count(langsVisited, lang) + 1], Some(link)) by {
      VisitOrder(env, maxDocs, visited, order, ret, langsVisited, link);
    }
    assert CrawlQueue(env, visited', Queued(todo, lang, env[node].links, visited'), Some(link)) by {
      VisitStep(env, visited, todo, link, node);
    }
  }

  /** The page side of `CrawlVisit`. */
  lemma VisitOrder(env: Env, maxDocs: nat, visited: set<int>, order: seq<int>, ret: seq<nat>,
                   langsVisited: map<int, nat>, link: Link)
    requires WellFormed(env) && StartId in env && |env[StartId].links| == 1
    requires CrawlOrder(env, maxDocs, visited, order, ret, langsVisited, Some(link))
    requires link.child !in visited && |visited| < maxDocs
    ensures var node := link.child;
            var lang := env[node].lang;
            var visited' := visited + {node};
            CrawlOrder(env, maxDocs, visited', order + [node], ret + [NumParallelDocs(env, visited')],
                       langsVisited[lang := Count(langsVisited, lang) + 1], Some(link))
  {
    var node := link.child;
    var lang := env[node].lang;
    var visited', order' := visited + {node}, order + [node];
    assert CrawlPages(env, maxDocs, visited', order', ret + [NumParallelDocs(env, visited')],
                      langsVisited[lang := Count(langsVisited, lang) + 1]) by {
      VisitsStep(env, maxDocs, visited, order, ret, node);
      CountsStep(env, visited, langsVisited, node);
    }
    assert CrawlOrigin(env, visited', order', Some(link)) by {
      VisitOrigin(env, visited, order, link);
    }
  }

  /** The origin side of `VisitOrder`. */
  lemma VisitOrigin(env: Env, visited: set<int>, order: seq<int>, link: Link)
    requires StartId in env && |env[StartId].links| == 1
    requires forall x :: x in order ==> x in env
    requires visited == Elems(order)
    requires CrawlOrigin(env, visited, order, Some(link)) && link.child !in visited
    ensures forall x :: x in order + [link.child] ==> x in env
    ensures CrawlOrigin(env, visited + {link.child}, order + [link.child], Some(link))
  {
    var node := link.child;
    assert Discovered(env, First(env), order + [node]) by {
      if order != [] {
        var j :| 0 <= j < |order| && order[j] == link.parent;
        assert node in Children(env, order[j]);
      }
      OriginDiscovered(env, First(env), order, node);
    }
  }

  /** Taking the next link once the current one's page is visited. */
  lemma CrawlPop(env: Env, maxDocs: nat, visited: set<int>, order: seq<int>, ret: seq<nat>,
                 langsVisited: map<int, nat>, todo: Todo, link: Link, next: Option<Link>, todo': Todo)
    requires WellFormed(env) && StartId in env && |env[StartId].links| == 1
    requires CrawlInv(env, maxDocs, visited, order, ret, langsVisited, todo, Some(link))
    requires link.child in visited
    requires next.None? <==> forall k :: k in todo ==> todo[k] == []
    requires next.None? ==> todo' == todo
    requires next.Some? ==>
               exists k :: k in todo && todo[k] != [] && next.value == todo[k][0] && todo' == todo[k := todo[k][1..]]
    ensures CrawlInv(env, maxDocs, visited, order, ret, langsVisited, todo', next)
  {
    PopStep(env, visited, todo, link, next, todo');
  }

  /** When the rounds stop, the crawl's promises hold of the visit order. */
  lemma CrawlDone(env: Env, maxDocs: nat, visited: set<int>, order: seq<int>, ret: seq<nat>,
                  langsVisited: map<int, nat>, todo: Todo, link: Option<Link>)
    requires StartId in env && |env[StartId].links| == 1
    requires CrawlInv(env, maxDocs, visited, order, ret, langsVisited, todo, link)
    requires link.None? || |visited| >= maxDocs
    ensures Visits(env, maxDocs, Elems(order), order, ret)
    ensures maxDocs > 0 ==> |order| > 0 && order[0] == First(env)
    ensures Discovered(env, First(env), order)
    ensures |order| < maxDocs ==> Closed(env, Elems(order), {})
    ensures CountsVisited(env, Elems(order), langsVisited)
  {
    if |order| < maxDocs {
      CoveredDone(env, visited, todo);
    }
  }

  /** The body of one round of `balanced` that meets a new page: mark it
      visited, count its language, queue its links and score the crawl. */
  method Visit(env: Env, maxDocs: nat, visited: set<int>, order: seq<int>, ret: seq<nat>,
               langsVisited: map<int, nat>, todo: Todo, link: Link, node: int)
    returns (visited': set<int>, order': seq<int>, ret': seq<nat>, langsVisited': map<int, nat>, todo': Todo)
    requires WellFormed(env) && StartId in env && |env[StartId].links| == 1
    requires CrawlInv(env, maxDocs, visited, order, ret, langsVisited, todo, Some(link))
    requires node == link.child && node in env && node !in visited && |visited| < maxDocs
    ensures visited' == visited + {node} && visited' <= env.Keys
    ensures order' == order + [node]
    ensures ret' == ret + [NumParallelDocs(env, visited')]
    ensures langsVisited' == langsVisited[env[node].lang := Count(langsVisited, env[node].lang) + 1]
    ensures todo' == Queued(todo, env[node].lang, env[node].links, visited')
    ensures CrawlInv(env, maxDocs, visited', order', ret', langsVisited', todo', Some(link))
  {
    visited' := visited + {node};
    order' := order + [node];
    langsVisited' := langsVisited[env[node].lang := Count(langsVisited, env[node].lang) + 1];
    todo' := AddTodos(env, todo, visited', node);
    var numParallelDocs := CountParallelDocs(env, visited');
    ret' := ret + [numParallelDocs];
    CrawlVisit(env, maxDocs, visited, order, ret, langsVisited, todo, link);
  }

  /** `balanced`: follow the start node's only link, then repeatedly visit
      the page of the current link if it is new (counting its language and
      queueing its links by `AddTodo`), and take the next link by `PopLink`,
      until no link is left or `maxDocs` pages are visited.  `order` is the
      visit order and `langsVisited` the final per-language counts; the
      uniform draws of `PopLink` are left open. */
  method Crawl(env: Env, maxDocs: nat, langIds: seq<int>)
    returns (ret: seq<nat>, order: seq<int>, langsVisited: map<int, nat>)
    requires WellFormed(env) && StartId in env && |env[StartId].links| == 1
    ensures Visits(env, maxDocs, Elems(order), order, ret)
    ensures maxDocs > 0 ==> |order| > 0 && order[0] == First(env)
    ensures Discovered(env, First(env), order)
    ensures |order| < maxDocs ==> Closed(env, Elems(order), {})
    ensures CountsVisited(env, Elems(order), langsVisited)
  {
    ret, order, langsVisited := [], [], map[];
    var visited: set<int> := {};
    var todo: Todo := map[];
    var link: Option<Link> := Some(env[StartId].links[0]);
    CrawlStart(env, maxDocs);
    while link.Some? && |visited| < maxDocs
      invariant visited <= env.Keys
      invariant CrawlInv(env, maxDocs, visited, order, ret, langsVisited, todo, link)
      decreases env.Keys - visited, Total(todo) + if link.Some? then 1 else 0
    {
      var node := link.value.child;
      if node !in visited {
        visited, order, ret, langsVisited, todo := Visit(env, maxDocs, visited, order, ret, langsVisited, todo, link.value, node);
      }
      var rnd: real :| 0.0 <= rnd < 1.0;
      var next, todo' := PopLink(todo, langsVisited, langIds, rnd);
      CrawlPop(env, maxDocs, visited, order, ret, langsVisited, todo, link.value, next, todo');
      link, todo := next, todo';
    }
    CrawlDone(env, maxDocs, visited, order, ret, langsVisited, todo, link);
  }

  /** With no link left, coverage means every child of a visited page is visited. */
  lemma CoveredDone(env: Env, visited: set<int>, todo: Todo)
    requires visited <= env.Keys
    requires Covered(env, visited, todo, None) && forall k :: k in todo ==> todo[k] == []
    ensures Closed(env, visited, {})
  {
  }
}
