/** The frontier of fk_dqn.py (`Candidates`): for each parent-page language,
    the list of candidate links found under pages of that language.  An
    action is a language; taking it pops one link from that list and purges,
    from every list, each link that lands on the same page. */
module Frontier {
  import opened Graph

  /** The list stored under `key`, or the empty list. */
  function Get(dict: map<int, seq<Link>>, key: int): seq<Link>
  {
    if key in dict then dict[key] else []
  }

  /** The links of `s` whose parent page has language `lang`, in order. */
  function OfLang(env: Env, s: seq<Link>, lang: int): (r: seq<Link>)
    requires forall l :: l in s ==> l.parent in env
    ensures forall l :: l in r <==> l in s && env[l.parent].lang == lang
  {
    if s == [] then []
    else if env[s[0].parent].lang == lang then [s[0]] + OfLang(env, s[1..], lang)
    else OfLang(env, s[1..], lang)
  }

  /** The links of `s` that do not land on page `child`, in order. */
  function Purge(s: seq<Link>, child: int): (r: seq<Link>)
    ensures forall l :: l in r <==> l in s && l.child != child
    ensures |r| <= |s|
  {
    if s == [] then []
    else if s[0].child == child then Purge(s[1..], child)
    else [s[0]] + Purge(s[1..], child)
  }

  lemma {:induction false} PurgeAppend(a: seq<Link>, b: seq<Link>, child: int)
    ensures Purge(a + b, child) == Purge(a, child) + Purge(b, child)
  {
    if a != [] {
      assert (a + b)[0] == a[0] && (a + b)[1..] == a[1..] + b;
      PurgeAppend(a[1..], b, child);
      if a[0].child != child {
        assert Purge(a + b, child) == [a[0]] + (Purge(a[1..], child) + Purge(b, child));
      }
    } else {
      assert a + b == b;
    }
  }

  /** Python's `list.remove(x)`: drop the first element equal to `x`. */
  function RemoveFirst(s: seq<Link>, x: Link): (r: seq<Link>)
    requires x in s
    ensures |r| == |s| - 1
  {
    if s[0] == x then s[1..] else [s[0]] + RemoveFirst(s[1..], x)
  }

  lemma {:induction false} RemoveFirstSkips(a: seq<Link>, b: seq<Link>, x: Link)
    requires x !in a && b != [] && b[0] == x
    ensures x in a + b && RemoveFirst(a + b, x) == a + b[1..]
  {
    if a != [] {
      assert (a + b)[1..] == a[1..] + b;
      RemoveFirstSkips(a[1..], b, x);
    } else {
      assert a + b == b;
    }
  }

  /** Removing one element that lands on `child` does not change what a purge keeps. */
  lemma {:induction false} PurgeWithout(s: seq<Link>, idx: nat, child: int)
    requires idx < |s| && s[idx].child == child
    ensures Purge(s[..idx] + s[idx + 1..], child) == Purge(s, child)
  {
    var a, x, b := s[..idx], s[idx], s[idx + 1..];
    assert s == (a + [x]) + b;
    assert Purge([x], child) == [] by {
      assert [x][1..] == [];
    }
    calc {
      Purge(s, child);
      { PurgeAppend(a + [x], b, child); }
      Purge(a + [x], child) + Purge(b, child);
      { PurgeAppend(a, [x], child); }
      Purge(a, child) + Purge(b, child);
      { PurgeAppend(a, b, child); }
      Purge(a + b, child);
    }
  }

  /** `Candidates` of fk_dqn.py. */
  class Candidates {
    const env: Env
    /** parent language -> links */
    var dict: map<int, seq<Link>>
    /** The keys of `dict` in insertion order (Python dicts iterate in that order). */
    var keys: seq<int>

    ghost predicate Valid()
      reads this
    {
      && WellFormed(env)
      && Distinct(keys)
      && (forall key :: key in dict <==> key in keys)
      && (forall key, l :: key in dict && l in dict[key] ==> l.parent in env && l in env[l.parent].links)
    }

    constructor (env: Env)
      requires WellFormed(env)
      ensures Valid() && this.env == env && dict == map[] && keys == []
    {
      this.env := env;
      dict := map[];
      keys := [];
    }

    /** `copy`: a new frontier with its own lists. */
    method Copy() returns (c: Candidates)
      requires Valid()
      ensures fresh(c) && c.Valid()
      ensures c.env == env && c.dict == dict && c.keys == keys
    {
      c := new Candidates(env);
      c.dict := dict;
      c.keys := keys;
    }

    /** `AddLink`: append the link to the list of its parent's language,
        creating that list if needed. */
    method AddLink(link: Link)
      requires Valid() && link.parent in env && link in env[link.parent].links
      modifies this
      ensures Valid()
      ensures dict == Append(env, old(dict), link)
      ensures keys == if env[link.parent].lang in old(dict) then old(keys) else old(keys) + [env[link.parent].lang]
    {
      var lang := env[link.parent].lang;
      if lang !in dict {
        dict := dict[lang := []];
        keys := keys + [lang];
      }
      dict := dict[lang := dict[lang] + [link]];
    }

    /** `AddLinks`: add the node's links to unvisited pages, each to the list
        of its parent's language, in the node's link order. */
    method AddLinks(node: int, visited: set<int>)
      requires Valid() && node in env
      modifies this
      ensures Valid()
      ensures dict == AppendAll(env, old(dict), GetLinks(env, node, visited))
      ensures keys == KeysAfter(env, old(dict), old(keys), GetLinks(env, node, visited))
      ensures old(dict).Keys <= dict.Keys
      ensures |old(keys)| <= |keys| && keys[..|old(keys)|] == old(keys)
    {
      var newLinks := GetLinks(env, node, visited);
      assert forall l :: l in newLinks ==> l.parent in env && l in env[l.parent].links;
      var i := 0;
      while i < |newLinks|
        invariant 0 <= i <= |newLinks|
        invariant Valid()
        invariant AppendAll(env, dict, newLinks[i..]) == AppendAll(env, old(dict), newLinks)
        invariant KeysAfter(env, dict, keys, newLinks[i..]) == KeysAfter(env, old(dict), old(keys), newLinks)
      {
        var link := newLinks[i];
        AddLink(link);
        assert newLinks[i..][0] == link && newLinks[i..][1..] == newLinks[i + 1..];
        i := i + 1;
      }
      AppendAllKeys(env, old(dict), newLinks);
      KeysAfterExtends(env, old(dict), old(keys), newLinks);
    }

    /** `HasLinks(action)`: the action's list exists and is not empty, so
        the action has a link to offer and is one of the frontier's keys. */
    predicate HasLinks(action: int): (b: bool)
      reads this
      ensures b <==> exists l :: l in Get(dict, action)
      ensures Valid() && b ==> action in keys
    {
      assert action in dict && |dict[action]| > 0 ==> dict[action][0] in Get(dict, action);
      action in dict && |dict[action]| > 0
    }

    /** `Pop(action)`: take the link at the random index `idx` out of the
        action's list, then remove from every list each link landing on the
        same page (Python's `list.remove`, once per such link). */
    method Pop(action: int, idx: nat) returns (link: Link)
      requires Valid() && action in dict && idx < |dict[action]|
      modifies this
      ensures Valid()
      ensures link == old(dict[action][idx])
      ensures keys == old(keys) && dict.Keys == old(dict).Keys
      ensures forall key :: key in dict ==> dict[key] == Purge(old(dict[key]), link.child)
    {
      assert forall key :: key in keys ==> key in dict;
      var links := dict[action];
      link := links[idx];
      PurgeWithout(links, idx, link.child);
      var taken := dict[action := links[..idx] + links[idx + 1..]];
      assert forall l :: l in taken[action] ==> l in links;
      forall j | 0 <= j < |keys| ensures keys[j] in taken {
        assert keys[j] in keys;
        assert keys[j] in dict;
      }
      dict := PurgeAll(keys, taken, link.child);
    }
  }

  /** The outer loop of `Pop`: purge every list, key by key in insertion order. */
  method PurgeAll(keys: seq<int>, d: map<int, seq<Link>>, child: int) returns (r: map<int, seq<Link>>)
    requires Distinct(keys)
    requires forall key :: key in d ==> key in keys
    requires forall j :: 0 <= j < |keys| ==> keys[j] in d
    ensures r.Keys == d.Keys
    ensures forall key :: key in r ==> r[key] == Purge(d[key], child)
  {
    r := d;
    var n := 0;
    while n < |keys|
      invariant 0 <= n <= |keys|
      invariant r.Keys == d.Keys
      invariant forall j :: 0 <= j < |keys| ==> keys[j] in d
      invariant forall j :: 0 <= j < n ==> r[keys[j]] == Purge(d[keys[j]], child)
      invariant forall key :: key in r && key !in keys[..n] ==> r[key] == d[key]
    {
      var key := keys[n];
      assert key in keys;
      var purged := PurgeChild(r[key], child);
      r := r[key := purged];
      assert keys[..n + 1] == keys[..n] + [key];
      n := n + 1;
    }
    assert keys[..n] == keys;
    forall key | key in r ensures r[key] == Purge(d[key], child) {
      assert key in keys;
      var j :| 0 <= j < |keys| && keys[j] == key;
    }
  }

  /** The inner loop of `Pop`: walk a copy of the list and `remove` from the
      list each link landing on page `child`. */
  method PurgeChild(s: seq<Link>, child: int) returns (r: seq<Link>)
    ensures r == Purge(s, child)
  {
    r := s;
    var i := 0;
    while i < |s|
      invariant 0 <= i <= |s|
      invariant r == Purge(s[..i], child) + s[i..]
    {
      PurgeChildStep(s, i, child);
      if s[i].child == child {
        r := RemoveFirst(r, s[i]);
      }
      i := i + 1;
    }
    assert s[..i] == s;
  }

  lemma PurgeChildStep(s: seq<Link>, i: nat, child: int)
    requires i < |s|
    ensures var r := Purge(s[..i], child) + s[i..];
            && (s[i].child == child ==> s[i] in r && RemoveFirst(r, s[i]) == Purge(s[..i + 1], child) + s[i + 1..])
            && (s[i].child != child ==> r == Purge(s[..i + 1], child) + s[i + 1..])
  {
    assert s[..i + 1] == s[..i] + [s[i]];
    PurgeAppend(s[..i], [s[i]], child);
    assert s[i..] == [s[i]] + s[i + 1..];
    if s[i].child == child {
      RemoveFirstSkips(Purge(s[..i], child), s[i..], s[i]);
      assert s[i..][1..] == s[i + 1..];
    } else {
      assert Purge([s[i]], child) == [s[i]];
    }
  }

  /** `d` with `link` appended to the list of its parent's language. */
  function Append(env: Env, d: map<int, seq<Link>>, link: Link): map<int, seq<Link>>
    requires link.parent in env
  {
    d[env[link.parent].lang := Get(d, env[link.parent].lang) + [link]]
  }

  /** `d` with the links of `s` appended one by one. */
  function AppendAll(env: Env, d: map<int, seq<Link>>, s: seq<Link>): map<int, seq<Link>>
    requires forall l :: l in s ==> l.parent in env
    decreases |s|
  {
    if s == [] then d else AppendAll(env, Append(env, d, s[0]), s[1..])
  }

  /** The key order after the links of `s` are appended one by one to `d`
      with key order `keys`: each language met for the first time goes last. */
  function KeysAfter(env: Env, d: map<int, seq<Link>>, keys: seq<int>, s: seq<Link>): seq<int>
    requires forall l :: l in s ==> l.parent in env
    decreases |s|
  {
    if s == [] then keys
    else
      var lang := env[s[0].parent].lang;
      KeysAfter(env, Append(env, d, s[0]), if lang in d then keys else keys + [lang], s[1..])
  }

  /** Appending links keeps every language list. */
  lemma {:induction false} AppendAllKeys(env: Env, d: map<int, seq<Link>>, s: seq<Link>)
    requires forall l :: l in s ==> l.parent in env
    ensures d.Keys <= AppendAll(env, d, s).Keys
    decreases |s|
  {
    if s != [] {
      AppendAllKeys(env, Append(env, d, s[0]), s[1..]);
    }
  }

  /** Appending links only ever adds keys, after the old ones. */
  lemma {:induction false} KeysAfterExtends(env: Env, d: map<int, seq<Link>>, keys: seq<int>, s: seq<Link>)
    requires forall l :: l in s ==> l.parent in env
    ensures |keys| <= |KeysAfter(env, d, keys, s)| && KeysAfter(env, d, keys, s)[..|keys|] == keys
    decreases |s|
  {
    if s != [] {
      var lang := env[s[0].parent].lang;
      var keys' := if lang in d then keys else keys + [lang];
      KeysAfterExtends(env, Append(env, d, s[0]), keys', s[1..]);
      var r := KeysAfter(env, d, keys, s);
      assert r[..|keys|] == r[..|keys'|][..|keys|];
    }
  }

  /** After `AddLinks` the list of each language is the old list followed by
      the new links whose parent has that language, in their order. */
  lemma {:induction false} AppendAllGet(env: Env, d: map<int, seq<Link>>, s: seq<Link>, lang: int)
    requires forall l :: l in s ==> l.parent in env
    ensures Get(AppendAll(env, d, s), lang) == Get(d, lang) + OfLang(env, s, lang)
    decreases |s|
  {
    if s != [] {
      var d' := Append(env, d, s[0]);
      AppendAllGet(env, d', s[1..], lang);
      if env[s[0].parent].lang == lang {
        assert Get(d', lang) == Get(d, lang) + [s[0]];
      } else {
        assert Get(d', lang) == Get(d, lang);
      }
    }
  }


  /** After a pop no list holds a link to the popped page, and every link to
      another page is still where it was. */
  lemma PopPurges(before: map<int, seq<Link>>, after: map<int, seq<Link>>, child: int)
    requires after.Keys == before.Keys
    requires forall key :: key in after ==> after[key] == Purge(before[key], child)
    ensures forall key, l :: key in after && l in after[key] ==> l.child != child
    ensures forall key, l :: key in before && l in before[key] && l.child != child ==> l in after[key]
  {
  }
}
