/** The frontier of simple-features/candidate.py: a set of candidate links and
    a derived grouping of those links into at most three action buckets, keyed
    by how the parent page's language relates to the two languages of
    interest.  Also the per-language visit counts used as state features. */
module SimpleFeatures {
  import opened Graph

  /** `GroupLang`: -1 for the first language of interest, 1 for the second,
      0 for any other language; when the two ids coincide the first wins. */
  function GroupLang(langId: int, lang0: int, lang1: int): (g: int)
    ensures -1 <= g <= 1
    ensures g == -1 <==> langId == lang0
    ensures g == 1 <==> langId != lang0 && langId == lang1
    ensures g == 0 <==> langId != lang0 && langId != lang1
  {
    if langId == lang0 then -1
    else if langId == lang1 then 1
    else 0
  }

  /** The column of `GetLangsVisited` a page of language `langId` is counted
      in: 0 for the first language, 1 for the second, 2 for the rest. */
  function LangOffset(langId: int, lang0: int, lang1: int): (k: nat)
    ensures k < 3
    ensures k == 0 <==> langId == lang0
    ensures k == 1 <==> langId != lang0 && langId == lang1
  {
    if langId == lang0 then 0
    else if langId == lang1 then 1
    else 2
  }

  /** The pages of `s` whose language falls in column `k`. */
  ghost function InClass(env: Env, s: set<int>, lang0: int, lang1: int, k: nat): set<int>
    requires s <= env.Keys
  {
    set id | id in s && LangOffset(env[id].lang, lang0, lang1) == k
  }

  /** The pages of `s` in column `k` whose aligned page is not in `visited`. */
  ghost function UnmatchedInClass(env: Env, visited: set<int>, s: set<int>, lang0: int, lang1: int, k: nat): set<int>
    requires s <= env.Keys
  {
    set id | id in s && LangOffset(env[id].lang, lang0, lang1) == k && !Matched(env, visited, id)
  }

  /** `counts` holds the six counters of `GetLangsVisited` for the pages of `s`. */
  ghost predicate Counts(env: Env, visited: set<int>, s: set<int>, lang0: int, lang1: int, counts: seq<int>)
    requires s <= env.Keys
  {
    && |counts| == 6
    && (forall k :: 0 <= k < 3 ==> counts[k] == |InClass(env, s, lang0, lang1, k)|)
    && (forall k :: 0 <= k < 3 ==> counts[k + 3] == |UnmatchedInClass(env, visited, s, lang0, lang1, k)|)
  }

  /** `GetLangsVisited`: six counters; slot k (k < 3) counts the visited pages
      of column k and slot k + 3 those among them that are not matched.
      Whether a page is matched is decided by the unseen `GetNodeMatched`,
      taken here to mean that its aligned page has been visited. */
  method GetLangsVisited(env: Env, visited: set<int>, lang0: int, lang1: int) returns (counts: seq<int>)
    requires visited <= env.Keys
    ensures |counts| == 6
    ensures forall k :: 0 <= k < 3 ==> counts[k] == |InClass(env, visited, lang0, lang1, k)|
    ensures forall k :: 0 <= k < 3 ==> counts[k + 3] == |UnmatchedInClass(env, visited, visited, lang0, lang1, k)|
  {
    counts := [0, 0, 0, 0, 0, 0];
    var rest := visited;
    while rest != {}
      invariant rest <= visited
      invariant Counts(env, visited, visited - rest, lang0, lang1, counts)
      decreases rest
    {
      ghost var some := Member(rest);
      var id :| id in rest;
      ghost var done, before := visited - rest, counts;
      var offset := LangOffset(env[id].lang, lang0, lang1);
      counts := counts[offset := counts[offset] + 1];
      if !Matched(env, visited, id) {
        counts := counts[offset + 3 := counts[offset + 3] + 1];
      }
      assert Counts(env, visited, done + {id}, lang0, lang1, counts) by {
        CountsAdd(env, visited, done, id, lang0, lang1, before);
      }
      assert visited - (rest - {id}) == done + {id};
      rest := rest - {id};
    }
    assert visited - rest == visited;
  }

  /** Counting one more page `id` in its column, and in the column's
      "unmatched" slot when it is not matched. */
  lemma CountsAdd(env: Env, visited: set<int>, done: set<int>, id: int, lang0: int, lang1: int, counts: seq<int>)
    requires done <= env.Keys && id in env && id !in done
    requires Counts(env, visited, done, lang0, lang1, counts)
    ensures var offset := LangOffset(env[id].lang, lang0, lang1);
            var c := counts[offset := counts[offset] + 1];
            Counts(env, visited, done + {id}, lang0, lang1,
                   if Matched(env, visited, id) then c else c[offset + 3 := c[offset + 3] + 1])
  {
    var offset := LangOffset(env[id].lang, lang0, lang1);
    var c := counts[offset := counts[offset] + 1];
    var c' := if Matched(env, visited, id) then c else c[offset + 3 := c[offset + 3] + 1];
    forall k | 0 <= k < 3
      ensures c'[k] == |InClass(env, done + {id}, lang0, lang1, k)|
      ensures c'[k + 3] == |UnmatchedInClass(env, visited, done + {id}, lang0, lang1, k)|
    {
      ClassStep(env, visited, done, id, lang0, lang1, k);
    }
  }

  /** Adding page `id` to `done` adds it to its own column only. */
  lemma ClassStep(env: Env, visited: set<int>, done: set<int>, id: int, lang0: int, lang1: int, k: nat)
    requires done <= env.Keys && id in env && id !in done
    ensures var mine := k == LangOffset(env[id].lang, lang0, lang1);
            && |InClass(env, done + {id}, lang0, lang1, k)|
               == |InClass(env, done, lang0, lang1, k)| + (if mine then 1 else 0)
            && |UnmatchedInClass(env, visited, done + {id}, lang0, lang1, k)|
               == |UnmatchedInClass(env, visited, done, lang0, lang1, k)| + (if mine && !Matched(env, visited, id) then 1 else 0)
  {
    var mine := k == LangOffset(env[id].lang, lang0, lang1);
    if mine {
      assert InClass(env, done + {id}, lang0, lang1, k) == InClass(env, done, lang0, lang1, k) + {id};
    } else {
      assert InClass(env, done + {id}, lang0, lang1, k) == InClass(env, done, lang0, lang1, k);
    }
    if mine && !Matched(env, visited, id) {
      assert UnmatchedInClass(env, visited, done + {id}, lang0, lang1, k)
          == UnmatchedInClass(env, visited, done, lang0, lang1, k) + {id};
    } else {
      assert UnmatchedInClass(env, visited, done + {id}, lang0, lang1, k)
          == UnmatchedInClass(env, visited, done, lang0, lang1, k);
    }
  }

  /** The first three counters of `GetLangsVisited` partition the visited set. */
  lemma LangsVisitedPartition(env: Env, visited: set<int>, lang0: int, lang1: int)
    requires visited <= env.Keys
    ensures |InClass(env, visited, lang0, lang1, 0)| + |InClass(env, visited, lang0, lang1, 1)|
            + |InClass(env, visited, lang0, lang1, 2)| == |visited|
  {
    var c0, c1, c2 := InClass(env, visited, lang0, lang1, 0), InClass(env, visited, lang0, lang1, 1),
                      InClass(env, visited, lang0, lang1, 2);
    assert c0 !! c1 && (c0 + c1) !! c2;
    forall id | id in visited ensures id in c0 + c1 + c2 {
      var k := LangOffset(env[id].lang, lang0, lang1);
      assert id in InClass(env, visited, lang0, lang1, k);
    }
    assert visited == c0 + c1 + c2;
  }

  /** Each "unmatched" counter is at most the counter of its column. */
  lemma UnmatchedAtMostClass(env: Env, visited: set<int>, lang0: int, lang1: int, k: nat)
    requires visited <= env.Keys
    ensures |UnmatchedInClass(env, visited, visited, lang0, lang1, k)| <= |InClass(env, visited, lang0, lang1, k)|
  {
    SubsetCard(UnmatchedInClass(env, visited, visited, lang0, lang1, k), InClass(env, visited, lang0, lang1, k));
  }

  /** The bucket key of a link: the group of its parent page's language. */
  function BucketKey(env: Env, lang0: int, lang1: int, l: Link): int
    requires l.parent in env
  {
    GroupLang(env[l.parent].lang, lang0, lang1)
  }

  /** `grouped` holds exactly the links of `done`, each once, every link in
      the bucket of its own key, and no bucket is empty. */
  ghost predicate Groups(env: Env, lang0: int, lang1: int, grouped: map<int, seq<Link>>, done: set<Link>)
    requires forall l :: l in done ==> l.parent in env
  {
    && (forall key :: key in grouped ==> |grouped[key]| > 0 && Distinct(grouped[key]))
    && (forall key, l :: key in grouped && l in grouped[key] ==> l in done && BucketKey(env, lang0, lang1, l) == key)
    && (forall l :: l in done ==> BucketKey(env, lang0, lang1, l) in grouped
                                  && l in grouped[BucketKey(env, lang0, lang1, l)])
  }

  /** One step of `Group`: appending a new link to its bucket keeps the grouping exact. */
  lemma GroupsInsert(env: Env, lang0: int, lang1: int, grouped: map<int, seq<Link>>, done: set<Link>, l: Link)
    requires forall l' :: l' in done ==> l'.parent in env
    requires l.parent in env && l !in done
    requires Groups(env, lang0, lang1, grouped, done)
    ensures var key := BucketKey(env, lang0, lang1, l);
            var bucket := if key in grouped then grouped[key] else [];
            Groups(env, lang0, lang1, grouped[key := bucket + [l]], done + {l})
  {
    var key := BucketKey(env, lang0, lang1, l);
    var bucket := if key in grouped then grouped[key] else [];
    var g := grouped[key := bucket + [l]];
    assert l !in bucket;
    var nb := bucket + [l];
    forall i, j | 0 <= i < j < |nb| ensures nb[i] != nb[j] {
      if j == |bucket| { assert nb[i] in bucket; }
      else { assert nb[i] == bucket[i] && nb[j] == bucket[j]; }
    }
    forall k, l' | k in g && l' in g[k]
      ensures l' in done + {l} && BucketKey(env, lang0, lang1, l') == k
    {
      if k == key && l' != l {
        assert l' in bucket;
      }
    }
  }

  /** `keys` lists the keys of `grouped`, each once. */
  ghost predicate KeyOrder(grouped: map<int, seq<Link>>, keys: seq<int>)
  {
    && Distinct(keys)
    && (forall key :: key in grouped <==> key in keys)
    && |keys| == |grouped|
  }

  /** A bucket stored under a new key puts the key at the end of the order. */
  lemma KeyOrderAdd(grouped: map<int, seq<Link>>, keys: seq<int>, key: int, bucket: seq<Link>)
    requires KeyOrder(grouped, keys)
    ensures KeyOrder(grouped[key := bucket], if key in grouped then keys else keys + [key])
  {
    if key !in grouped {
      assert key !in keys;
      var keys' := keys + [key];
      forall i, j | 0 <= i < j < |keys'| ensures keys'[i] != keys'[j] {
        if j == |keys| {
          assert keys'[i] in keys;
        }
      }
    }
  }

  /** `Candidates` of candidate.py. */
  class Candidates {
    const env: Env
    const lang0: int
    const lang1: int
    /** The outstanding links. */
    var links: set<Link>
    /** The buckets: key -> links.  The key is the 1-tuple `(GroupLang(...),)`
        of the source, written here as its one component. */
    var grouped: map<int, seq<Link>>
    /** The keys of `grouped` in insertion order (Python dicts iterate in that order). */
    var keys: seq<int>

    ghost predicate Valid()
      reads this
    {
      && WellFormed(env)
      && (forall l :: l in links ==> l.parent in env)
      && KeyOrder(grouped, keys)
    }

    /** The bucket key of a link: the group of its parent page's language. */
    function KeyOf(l: Link): int
      reads this
      requires l.parent in env
    {
      BucketKey(env, lang0, lang1, l)
    }

    /** The grouping is up to date with `links`. */
    ghost predicate Grouped()
      reads this
      requires Valid()
    {
      Groups(env, lang0, lang1, grouped, links)
    }

    constructor (env: Env, lang0: int, lang1: int)
      requires WellFormed(env)
      ensures Valid() && Grouped()
      ensures this.env == env && this.lang0 == lang0 && this.lang1 == lang1
      ensures links == {} && grouped == map[] && keys == []
    {
      this.env := env;
      this.lang0 := lang0;
      this.lang1 := lang1;
      links := {};
      grouped := map[];
      keys := [];
    }

    /** `copy`: a new frontier with its own set and bucket lists. */
    method Copy() returns (c: Candidates)
      requires Valid()
      ensures fresh(c) && c.Valid()
      ensures c.env == env && c.lang0 == lang0 && c.lang1 == lang1
      ensures c.links == links && c.grouped == grouped && c.keys == keys
    {
      c := new Candidates(env, lang0, lang1);
      c.links := links;
      c.grouped := grouped;
      c.keys := keys;
    }

    /** `Group`: rebuild the buckets from `links` (`visited` is not used). */
    method Group(visited: set<int>)
      requires Valid()
      modifies this
      ensures Valid() && Grouped()
      ensures links == old(links)
    {
      var g: map<int, seq<Link>> := map[];
      var ks: seq<int> := [];
      var rest := links;
      while rest != {}
        invariant rest <= links == old(links) && Valid()
        invariant KeyOrder(g, ks)
        invariant Groups(env, lang0, lang1, g, links - rest)
        decreases rest
      {
        var l :| l in rest;
        var key := KeyOf(l);
        var bucket := if key in g then g[key] else [];
        GroupsInsert(env, lang0, lang1, g, links - rest, l);
        KeyOrderAdd(g, ks, key, bucket + [l]);
        if key !in g {
          ks := ks + [key];
        }
        g := g[key := bucket + [l]];
        assert links - (rest - {l}) == (links - rest) + {l};
        rest := rest - {l};
      }
      assert links - rest == links;
      grouped, keys := g, ks;
    }

    /** `AddLinks`: add the node's links to unvisited pages.  The source asserts
        that none of them is already in the frontier. */
    method AddLinks(node: int, visited: set<int>)
      requires Valid() && node in env
      requires forall l :: l in GetLinks(env, node, visited) ==> l !in links
      modifies this
      ensures Valid()
      ensures links == old(links) + set l | l in GetLinks(env, node, visited)
      ensures grouped == old(grouped) && keys == old(keys)
    {
      var newLinks := GetLinks(env, node, visited);
      var i := 0;
      while i < |newLinks|
        invariant 0 <= i <= |newLinks|
        invariant Valid()
        invariant links == old(links) + set l | l in newLinks[..i]
        invariant grouped == old(grouped) && keys == old(keys)
      {
        links := links + {newLinks[i]};
        assert newLinks[..i + 1] == newLinks[..i] + [newLinks[i]];
        i := i + 1;
      }
      assert newLinks[..i] == newLinks;
    }

    /** `Pop(key)`: take the link at the random index `idx` out of bucket `key`,
        then purge from `links` every link that lands on the same page.  The
        other buckets are left alone and may still hold purged links until the
        next `Group`. */
    method Pop(key: int, idx: nat) returns (link: Link)
      requires Valid()
      requires |grouped| > 0 && key in grouped && idx < |grouped[key]|
      modifies this
      ensures Valid()
      ensures link == old(grouped[key][idx])
      ensures grouped == old(grouped)[key := old(grouped[key][..idx] + grouped[key][idx + 1..])]
      ensures |grouped[key]| == |old(grouped[key])| - 1
      ensures keys == old(keys)
      ensures forall l :: l in links ==> l in old(links) && l.child != link.child
      ensures forall l :: l in old(links) && l.child != link.child ==> l in links
    {
      var bucket := grouped[key];
      link := bucket[idx];
      grouped := grouped[key := bucket[..idx] + bucket[idx + 1..]];
      var linksCopy := links;
      var rest := linksCopy;
      while rest != {}
        invariant rest <= linksCopy == old(links)
        invariant links <= linksCopy
        invariant forall l :: l in linksCopy - rest ==> (l in links <==> l.child != link.child)
        invariant rest <= links
        invariant Valid()
        invariant grouped == old(grouped)[key := bucket[..idx] + bucket[idx + 1..]] && keys == old(keys)
        decreases rest
      {
        var l :| l in rest;
        if l.child == link.child {
          links := links - {l};
        }
        rest := rest - {l};
      }
    }

    /** `Count`: the number of outstanding links. */
    function Count(): (n: nat)
      reads this
      ensures n == |links|
    {
      |links|
    }

    /** `GetFeatures`: one action per bucket, in bucket order; `parentLang`
        holds the bucket keys and `mask` marks the slots in use.  The source
        asserts that every bucket is non-empty and that at most `maxNodes`
        buckets exist. */
    method GetFeatures(maxNodes: nat) returns (numActions: nat, parentLang: seq<int>, mask: seq<bool>)
      requires Valid()
      requires forall key :: key in grouped ==> |grouped[key]| > 0
      requires |grouped| <= maxNodes
      ensures numActions == |grouped|
      ensures |parentLang| == maxNodes && |mask| == maxNodes
      ensures forall i :: 0 <= i < maxNodes ==> (mask[i] <==> i < numActions)
      ensures forall i :: 0 <= i < numActions ==> parentLang[i] == keys[i] && keys[i] in grouped
      ensures forall i :: numActions <= i < maxNodes ==> parentLang[i] == 0
    {
      numActions := 0;
      parentLang := seq(maxNodes, _ => 0);
      mask := seq(maxNodes, _ => false);
      while numActions < |keys|
        invariant numActions <= |keys|
        invariant |parentLang| == maxNodes && |mask| == maxNodes
        invariant forall i :: 0 <= i < maxNodes ==> (mask[i] <==> i < numActions)
        invariant forall i :: 0 <= i < numActions ==> parentLang[i] == keys[i]
        invariant forall i :: numActions <= i < maxNodes ==> parentLang[i] == 0
      {
        parentLang := parentLang[numActions := keys[numActions]];
        mask := mask[numActions := true];
        numActions := numActions + 1;
      }
    }
  }

  /** A link lies in exactly one bucket: the one of its own key. */
  lemma OneBucketPerLink(c: Candidates, l: Link, key: int)
    requires c.Valid() && c.Grouped() && l in c.links && key in c.grouped
    ensures l in c.grouped[key] <==> key == c.KeyOf(l)
  {
  }

  /** After `Group` there are at most three buckets, keyed -1, 0 and 1. */
  lemma AtMostThreeBuckets(c: Candidates)
    requires c.Valid() && c.Grouped()
    ensures c.grouped.Keys <= {-1, 0, 1}
    ensures |c.grouped| <= 3
  {
    forall key | key in c.grouped ensures key in {-1, 0, 1} {
      var l := c.grouped[key][0];
      assert l in c.grouped[key];
      assert l in c.links && c.KeyOf(l) == key;
    }
    SubsetCard(c.grouped.Keys, {-1, 0, 1});
  }

  /** The copy made for a look-ahead can be popped without touching the original. */
  method PopOnCopy(c: Candidates, key: int, idx: nat) returns (d: Candidates, link: Link)
    requires c.Valid() && |c.grouped| > 0 && key in c.grouped && idx < |c.grouped[key]|
    ensures fresh(d) && d.Valid()
    ensures link == c.grouped[key][idx]
    ensures forall l :: l in d.links ==> l.child != link.child
    ensures c.links == old(c.links) && c.grouped == old(c.grouped)
  {
    d := c.Copy();
    link := d.Pop(key, idx);
  }
}
