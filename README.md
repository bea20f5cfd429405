# Targeted-crawl crawl policies, modelled in Dafny

This project models the crawl-policy engine of the bitextor `targeted-crawl`
experiments. A crawler walks a fixed graph of web pages (the `Env`: url id to
language, optional aligned page, outgoing links). It tries to visit pages
whose aligned translation it has also visited. Its score after each visit is
`NumParallelDocs`: how many visited pages have their aligned page visited
too. The neural networks are opaque functions.

The modules:

- `Graph` (graph.dfy): the page graph, the stop page (id 0), the start page
  (`sys.maxsize`), `GetLinks`, `NumParallelDocs` and the reward
  classification of `GetNextState`.
- `SimpleFeatures` (features.dfy): the frontier of
  `simple-features/candidate.py`. It is a class holding a link set and
  buckets keyed by `GroupLang` of the parent's language. The module also
  has `GetLangsVisited`.
- `Frontier` (frontier.dfy): the frontier of `fk_dqn.py`. It is a class
  holding one list of links per parent language. `Pop` purges every link to
  the popped page.
- `Baselines` (baselines.dfy): the `dumb` (FIFO) and `randomCrawl`
  crawlers.
- `Balanced` (balanced.dfy): the `balanced` crawler with `AddTodo`,
  `PopLink` and `RandomLink`.
- `Replay` (corpus.dfy): the experience corpus. It covers de-duplicated
  `AddTransition`, `AddPath`, `GetBatch`, `GetBatchWithoutDelete` and
  `Train`, plus the coin routing of transitions between two corpora.
- `Target` (target.dfy): the damped double-Q target
  `(1 - alpha) * old + alpha * (r + gamma * nextMaxQ)` and an argmax.
- `DoubleQ` (doubleq.dfy): the learnt crawler of `fk_dqn.py`:
  `PredictAll`, `GetNextState`, `NeuralWalk`, `Neural` and `Trajectory`.
- `QLearn` (qlearn.dfy): the crawler of `q-learn/features4.py`:
  `ZeroOutStop`, the target update of `Neural`, `Trajectory`, and the `eps`
  decay of `Train`.
- `Dqn5` (dqn5.dfy): `Neural` and `Trajectory` of `dqn5/main.py`: snapshots
  held as values, the double-Q target in one slot, the stop rule, reward
  totals over reals, and corpus routing.

Randomness (the index `Pop` draws, eps-greedy, the A/B role coin, the
corpus coin, `PopLink`'s draw) is a parameter or a `:|` choice. Each
contract therefore holds for every outcome of the draws.

In the three learnt crawlers, Python's mutable state is modelled as
follows:

- Sets and dictionaries the code updates in place are fields of a class
  (`Candidates`, `Corpus`) or an `array` (`langsVisited`, `targetQ`).
- The snapshots a transition keeps by `copy()` are values.

## Model

| member | source | states |
|---|---|---|
| Graph.GetLinks | targeted-crawl/fk_dqn.py:343-348 | the links `AddLinks` receives are exactly the node's links whose child page is not yet visited |
| Graph.UnvisitedDistinct | targeted-crawl/fk_dqn.py:343-348 | a node whose links are distinct yields distinct unvisited links |
| Graph.ParallelDocs | targeted-crawl/fk_dqn.py:46-55 | the pages counted are exactly the visited pages whose aligned page is visited too |
| Graph.NumParallelDocs | targeted-crawl/fk_dqn.py:46-55 | the count never exceeds the number of visited pages, and is 0 exactly when no visited page has its aligned page visited |
| Graph.NumParallelDocsMonotone | targeted-crawl/fk_dqn.py:46-55 | the count cannot decrease when the visited set grows |
| Graph.CountParallelDocs | targeted-crawl/fk_dqn.py:46-55 | the counting loop over the visited set returns `NumParallelDocs` |
| Graph.RewardCases | targeted-crawl/fk_dqn.py:508-518 | with three distinct reward levels, 0 means the stop page, the bonus means an aligned page already visited, the cost means neither (both directions) |
| Graph.Reward | targeted-crawl/fk_dqn.py:508-518 | the reward is one of the three levels (0, the bonus, the cost), and 0 on the stop page |
| Graph.RewardCompletesPair | targeted-crawl/fk_dqn.py:508-518 | when the bonus is paid for landing on a new page, the count of parallel documents grows |
| SimpleFeatures.GroupLang | targeted-crawl/simple-features/candidate.py:34-40 | -1 exactly for the first language, 1 exactly for the second when it differs from the first, 0 otherwise; -1 wins when the two coincide |
| SimpleFeatures.LangOffset | targeted-crawl/simple-features/candidate.py:19-24 | column 0, 1 or 2 with the same first-match precedence as `GroupLang` |
| SimpleFeatures.GetLangsVisited | targeted-crawl/simple-features/candidate.py:12-32 | six counters: slot k counts the visited pages of column k, slot k+3 those of them whose aligned page is not visited |
| SimpleFeatures.CountsAdd | targeted-crawl/simple-features/candidate.py:26-30 | counting one more page bumps its column and, when unmatched, the column's unmatched counter, and nothing else |
| SimpleFeatures.ClassStep | targeted-crawl/simple-features/candidate.py:19-26 | a new page joins the set of its own column only |
| SimpleFeatures.LangsVisitedPartition | targeted-crawl/simple-features/candidate.py:12-32 | the first three counters add up to the size of the visited set |
| SimpleFeatures.UnmatchedAtMostClass | targeted-crawl/simple-features/candidate.py:28-30 | each unmatched counter is at most its column's counter |
| SimpleFeatures.GroupsInsert | targeted-crawl/simple-features/candidate.py:65-71 | appending a new link to its bucket keeps every link in exactly the bucket of its key |
| SimpleFeatures.KeyOrderAdd | targeted-crawl/simple-features/candidate.py:69-70 | a bucket created under a new key puts that key last in iteration order |
| SimpleFeatures.Candidates.constructor | targeted-crawl/simple-features/candidate.py:44-48 | an empty link set and no buckets |
| SimpleFeatures.Candidates.Copy | targeted-crawl/simple-features/candidate.py:53-60 | a fresh frontier with equal set and buckets, so later changes to either leave the other alone |
| SimpleFeatures.Candidates.Group | targeted-crawl/simple-features/candidate.py:62-71 | the buckets are rebuilt so each link lies in exactly one bucket, the one keyed by the group of its parent's language; no bucket is empty; the link set is unchanged |
| SimpleFeatures.Candidates.AddLinks | targeted-crawl/simple-features/candidate.py:73-79 | given that no new link is already present, the set grows by exactly the node's unvisited links; buckets untouched |
| SimpleFeatures.Candidates.Pop | targeted-crawl/simple-features/candidate.py:81-96 | returns the link at the drawn index of the bucket, shortens only that bucket by one, drops every link to the popped page from the set and keeps every other link |
| SimpleFeatures.Candidates.Count | targeted-crawl/simple-features/candidate.py:98-100 | the number of outstanding links |
| SimpleFeatures.Candidates.GetFeatures | targeted-crawl/simple-features/candidate.py:102-119 | `numActions` is the number of buckets, `mask[i]` holds exactly for `i < numActions`, `parentLang[i]` is the i-th bucket key and 0 beyond |
| SimpleFeatures.OneBucketPerLink | targeted-crawl/simple-features/candidate.py:62-71 | after `Group`, a link lies in a bucket if and only if the bucket has the link's key |
| SimpleFeatures.AtMostThreeBuckets | targeted-crawl/simple-features/candidate.py:62-71 | after `Group` the keys are among -1, 0 and 1, so there are at most three buckets |
| SimpleFeatures.PopOnCopy | targeted-crawl/simple-features/candidate.py:53-96 | popping a copy leaves no link to the popped page in the copy and leaves the original's set and buckets as they were |
| Frontier.OfLang | targeted-crawl/fk_dqn.py:337-348 | the links of a sequence whose parent page has the given language, in order |
| Frontier.Purge | targeted-crawl/fk_dqn.py:358-362 | the links kept by the purge are exactly those not landing on the popped page |
| Frontier.PurgeAppend | targeted-crawl/fk_dqn.py:358-362 | purging distributes over concatenation |
| Frontier.RemoveFirst | targeted-crawl/fk_dqn.py:362 | `list.remove` drops one element |
| Frontier.PurgeWithout | targeted-crawl/fk_dqn.py:354-362 | removing the popped link first does not change what the purge keeps |
| Frontier.Candidates.constructor | targeted-crawl/fk_dqn.py:320-323 | an empty dictionary of lists |
| Frontier.Candidates.Copy | targeted-crawl/fk_dqn.py:328-335 | a fresh frontier with equal lists |
| Frontier.Candidates.AddLink | targeted-crawl/fk_dqn.py:337-341 | the link is appended to the list of its parent's language, the list created (and its key put last) when missing |
| Frontier.Candidates.AddLinks | targeted-crawl/fk_dqn.py:343-348 | the node's unvisited links are appended one by one; the key order becomes `KeysAfter`, each new language put last in the order it first appears, so keys are only ever added and the old order is kept as a prefix |
| Frontier.AppendAllKeys | targeted-crawl/fk_dqn.py:337-348 | appending links never drops a language list |
| Frontier.KeysAfterExtends | targeted-crawl/fk_dqn.py:337-348 | appending links keeps the old key order as a prefix of the new one |
| Frontier.Candidates.HasLinks | targeted-crawl/fk_dqn.py:366-370 | true exactly when the action's list holds a link, and then the action is one of the frontier's keys |
| Frontier.Candidates.Pop | targeted-crawl/fk_dqn.py:350-364 | returns the link at the drawn index of the action's list; afterwards every list is the old list purged of links to that page, keys unchanged |
| Frontier.PurgeAll | targeted-crawl/fk_dqn.py:358-362 | the loop over all lists purges each of them and keeps every key |
| Frontier.PurgeChild | targeted-crawl/fk_dqn.py:359-362 | the loop removing from a copy yields the purged list |
| Frontier.AppendAllGet | targeted-crawl/fk_dqn.py:343-348 | after `AddLinks` each language's list is its old list followed by the new links of that language |
| Frontier.PopPurges | targeted-crawl/fk_dqn.py:350-364 | after a pop no list holds a link to the popped page, and every link to another page is kept |
| Baselines.Children | targeted-crawl/fk_dqn.py:78-81 | the children queued after a visit, one per link, in link order |
| Baselines.Dedup | targeted-crawl/fk_dqn.py:66-71 | the pages in order of first occurrence: distinct, the same pages, starting with the first |
| Baselines.ScoresMonotone | targeted-crawl/fk_dqn.py:83-84 | the recorded scores never decrease and the i-th is at most i+1 |
| Baselines.ScoresStep | targeted-crawl/fk_dqn.py:70-84 | visiting a new page appends `NumParallelDocs` of the grown visited set |
| Baselines.ExpandStep | targeted-crawl/fk_dqn.py:78-81 | visiting a page appends its children to what the crawl has queued |
| Baselines.DedupStep | targeted-crawl/fk_dqn.py:70-71 | a popped page is a new visit exactly when it was not visited before |
| Baselines.Enqueue | targeted-crawl/fk_dqn.py:78-81 | the queue gains the node's children at its end |
| Baselines.ClosedSkip | targeted-crawl/fk_dqn.py:66-71 | dropping a queued page that is already visited keeps every child of a visited page visited or queued |
| Baselines.ClosedVisit | targeted-crawl/fk_dqn.py:66-81 | visiting a queued page and queueing its children keeps that closure |
| Baselines.QueueVisit | targeted-crawl/fk_dqn.py:67-81 | the FIFO bookkeeping: popped pages followed by the queue are the root and everything queued |
| Baselines.ProgressSkip | targeted-crawl/fk_dqn.py:97-113 | skipping a visited page keeps the crawl's invariant |
| Baselines.ProgressVisit | targeted-crawl/fk_dqn.py:97-113 | visiting a new page keeps the crawl's invariant and scores it |
| Baselines.VisitsStep | targeted-crawl/fk_dqn.py:70-84 | a visit keeps the visit order distinct, within `maxDocs` and scored |
| Baselines.BfsQueueSkip | targeted-crawl/fk_dqn.py:67-70 | popping the head that is already visited keeps the FIFO bookkeeping |
| Baselines.BfsQueueVisit | targeted-crawl/fk_dqn.py:67-81 | popping and visiting the head keeps the FIFO bookkeeping |
| Baselines.Dumb | targeted-crawl/fk_dqn.py:58-86 | each page visited once, at most `maxDocs`, `ret` scores each prefix of the visit order, the root first, the order is the first occurrences of the FIFO pops, and a crawl that stops early has visited every reachable page |
| Baselines.BfsDone | targeted-crawl/fk_dqn.py:66-86 | on exit the visit order and queue give the postcondition of `dumb` |
| Baselines.OriginSkip | targeted-crawl/fk_dqn.py:97-103 | dropping a drawn page keeps every queued page a child of a visited page |
| Baselines.OriginVisit | targeted-crawl/fk_dqn.py:97-113 | visiting a drawn page keeps that origin property |
| Baselines.OriginDiscovered | targeted-crawl/fk_dqn.py:97-113 | every page `randomCrawl` visits is the root or a child of an earlier visit |
| Baselines.RandomCrawl | targeted-crawl/fk_dqn.py:89-118 | for any draws: each page visited once, at most `maxDocs`, scored per prefix, root first, each page discovered from an earlier one, and an early stop means every reachable page was visited |
| Balanced.TotalZero | targeted-crawl/fk_dqn.py:155-160 | the total number of waiting links is 0 exactly when every list is empty |
| Balanced.AddTodo | targeted-crawl/fk_dqn.py:214-225 | a link to a visited page is ignored; otherwise it is appended to the list of its parent's language, the list created when missing |
| Balanced.AddTodoQueued | targeted-crawl/fk_dqn.py:143-145 | one more `AddTodo` extends the queued links of the page by that link |
| Balanced.AddTodos | targeted-crawl/fk_dqn.py:143-145 | `AddTodo` over a node's links queues exactly its unvisited links and grows the total by their number |
| Balanced.QueuedTotal | targeted-crawl/fk_dqn.py:143-145 | queueing a page's links adds the number of its unvisited links to the total |
| Balanced.CountTodo | targeted-crawl/fk_dqn.py:155-160 | the counting loop gives the total, 0 exactly when every list is empty |
| Balanced.GetSumRequired | targeted-crawl/fk_dqn.py:163-170 | the visits in the languages of interest plus 0.001, so always positive |
| Balanced.GetProbs | targeted-crawl/fk_dqn.py:173-181 | one weight `1 - count/sumRequired` per language of interest, in order |
| Balanced.ChoiceIn | targeted-crawl/fk_dqn.py:187-194 | the language chosen by the cumulative scan is one of the weighted languages, and a draw below the weights' sum always chooses one |
| Balanced.Choose | targeted-crawl/fk_dqn.py:184-194 | the loop over the weights returns the first language whose running sum exceeds the draw |
| Balanced.RandomLink | targeted-crawl/fk_dqn.py:203-212 | some non-empty list loses its head, which is returned |
| Balanced.PopLink | targeted-crawl/fk_dqn.py:154-201 | no link exactly when every list is empty; otherwise some non-empty list loses its head, the total drops by one, and when the drawn language has links it is that list |
| Balanced.CountAtMostSum | targeted-crawl/fk_dqn.py:164-170 | a language's visits are at most the visits in the languages of interest |
| Balanced.ProbBounds | targeted-crawl/fk_dqn.py:180 | every weight lies in (0, 1], and is 1 for a language not yet visited |
| Balanced.ProbOrder | targeted-crawl/fk_dqn.py:180 | a language with fewer visits has a weight at least as large (both directions) |
| Balanced.PairAlwaysDraws | targeted-crawl/fk_dqn.py:184-194 | with two languages of interest every draw in [0, 1) chooses a language |
| Balanced.PairProbsSum | targeted-crawl/fk_dqn.py:187-189 | the two weights are what the scan accumulates |
| Balanced.PairWeightsExceedOne | targeted-crawl/fk_dqn.py:180-189 | the two weights add up to more than 1 |
| Balanced.PairSum | targeted-crawl/fk_dqn.py:164-170 | the visits counted into `sumRequired` (before the 0.001) are the two languages' own counts |
| Balanced.ProbsUnique | targeted-crawl/fk_dqn.py:173-181 | the weights are determined by the visit counts |
| Balanced.CountsStep | targeted-crawl/fk_dqn.py:137-139 | counting one more visited page keeps `langsVisited` equal to the per-language visit counts |
| Balanced.VisitStep | targeted-crawl/fk_dqn.py:132-145 | a visit keeps every waiting link in the list of its parent's language and every link of a visited page accounted for |
| Balanced.PopStep | targeted-crawl/fk_dqn.py:150 | popping keeps those invariants and the popped link leaves a visited page |
| Balanced.CrawlStart | targeted-crawl/fk_dqn.py:127-130 | the crawl begins at the only link of the start node with nothing visited |
| Balanced.CrawlVisit | targeted-crawl/fk_dqn.py:133-148 | visiting the link's page keeps the crawl invariant |
| Balanced.VisitOrder | targeted-crawl/fk_dqn.py:133-148 | a visit extends the visit order and its scores |
| Balanced.VisitOrigin | targeted-crawl/fk_dqn.py:133-136 | the visited page is reached by a link of a visited page |
| Balanced.CrawlPop | targeted-crawl/fk_dqn.py:150 | `PopLink` keeps the crawl invariant |
| Balanced.CrawlDone | targeted-crawl/fk_dqn.py:132-152 | on exit: visit order distinct, within `maxDocs`, scored, starting at the start node's child, each page discovered from an earlier one, closed when stopped early, visit counts exact |
| Balanced.Visit | targeted-crawl/fk_dqn.py:133-148 | one visit: the page joins the visited set and the order, is scored and counted, and its unvisited links are queued |
| Balanced.Crawl | targeted-crawl/fk_dqn.py:121-152 | for any draws: the same guarantees as `CrawlDone` for the whole crawl |
| Balanced.CoveredDone | targeted-crawl/fk_dqn.py:132-152 | with no link waiting, every link of a visited page leads to a visited page |
| Replay.Added | targeted-crawl/fk_dqn.py:244-251 | with de-duplication on and the key present the corpus is unchanged, otherwise the transition is appended; the key is present afterwards and unique keys stay unique |
| Replay.AddedAllProperties | targeted-crawl/q-learn/features4.py:188-190 | `AddPath` only appends, keeps at most one more transition per element, keeps keys unique under de-duplication, leaves every key of the path present and appends the whole path without it |
| Replay.MineStep | targeted-crawl/dqn5/main.py:225-230 | offering one more transition to the corpus its coin picks extends that corpus's routed share |
| Replay.MinePartition | targeted-crawl/dqn5/main.py:225-230 | routing by a coin sends every transition to exactly one of the two corpora (as multisets) |
| Replay.Corpus.constructor | targeted-crawl/fk_dqn.py:237-242 | empty transitions, losses and weight sums |
| Replay.Corpus.AddTransition | targeted-crawl/fk_dqn.py:244-251 | the corpus becomes `Added` of the old one; losses and weights untouched |
| Replay.Corpus.AddPath | targeted-crawl/q-learn/features4.py:188-190 | the corpus becomes `AddedAll` of the old one and the path |
| Replay.Corpus.GetBatch | targeted-crawl/q-learn/features4.py:193-197 | returns the first `min(maxBatchSize, n)` transitions and removes them: batch followed by the rest is the old corpus |
| Replay.Corpus.GetBatchWithoutDelete | targeted-crawl/fk_dqn.py:253-262 | exactly `maxBatchSize` draws, each a transition of the corpus, which is unchanged |
| Replay.Corpus.Train | targeted-crawl/fk_dqn.py:264-274 | below `minCorpusSize` nothing changes; otherwise losses and weight sums each grow by `trainNumIter` entries and the corpus ends empty |
| Target.DampedTarget | targeted-crawl/fk_dqn.py:558-559 | the target moves the estimate by `alpha` times the temporal-difference error; `alpha` 1 gives the bootstrapped value, 0 the old estimate |
| Target.DampedTargetBetween | targeted-crawl/fk_dqn.py:558-559 | with `0 <= alpha <= 1` the target lies between the old estimate and the bootstrapped value |
| Target.PowOne | targeted-crawl/dqn5/main.py:213-215 | a discount factor of 1 never decays |
| Target.ArgMax | targeted-crawl/q-learn/features4.py:300-308 | an index of a maximum of a non-empty row (`tf.argmax` leaves ties unspecified; the first maximum is the model's tie-break) |
| DoubleQ.PredictAll | targeted-crawl/fk_dqn.py:459-480 | with no link the single stop action 0 valued 0; otherwise scores exactly the languages with links, `maxQ` is their maximum and `argMax` the first language in key order attaining it |
| DoubleQ.PredictAllAsWritten | targeted-crawl/fk_dqn.py:459-480 | the loop as written: when every score is at most the -9999999 sentinel, no argmax is bound |
| DoubleQ.SentinelUnbound | targeted-crawl/fk_dqn.py:461-471 | a one-link frontier scored -10000000 leaves `argMax` unbound |
| DoubleQ.GetNextState | targeted-crawl/fk_dqn.py:494-520 | action 0 follows the stop link and leaves the frontier alone; any other action pops a link of that language and purges its page; the reward is the stop/bonus/cost classification |
| DoubleQ.NeuralWalk | targeted-crawl/fk_dqn.py:522-538 | greedy choice from `PredictAll` unless the draw is below `eps`, any scored action otherwise; `maxQ` is the chosen action's score; then `GetNextState` |
| DoubleQ.NextCounts | targeted-crawl/fk_dqn.py:552-553 | the copied counts with the landed page's language bumped by one |
| DoubleQ.Neural | targeted-crawl/fk_dqn.py:540-568 | the step as `NeuralWalk`; the bootstrap is network B's value of A's greedy choice on the next frontier, in that frontier's own key order, and the bumped counts; the transition records the link, the action, the counts and the damped target |
| DoubleQ.Histogram | targeted-crawl/fk_dqn.py:574-594 | the per-language counts of the visited pages, one slot per language |
| DoubleQ.HistogramStep | targeted-crawl/fk_dqn.py:594 | visiting a page bumps its language's count |
| DoubleQ.OnwardStep | targeted-crawl/fk_dqn.py:604-607 | a transition that does not end the crawl joins the offered ones with its coin; one that does is left out |
| DoubleQ.RoutedStep | targeted-crawl/fk_dqn.py:604-607 | offering one more transition extends the acting network's routed share (`Replay.Mine` over the onward transitions) |
| DoubleQ.AddLinksBehind | targeted-crawl/fk_dqn.py:597 | after `AddLinks` every waiting link leaves a visited page |
| DoubleQ.PopAhead | targeted-crawl/fk_dqn.py:502 | after a pop no waiting link lands on the page about to be visited |
| DoubleQ.Popped | targeted-crawl/fk_dqn.py:494-503 | the frontier `GetNextState` leaves: the same languages, each list purged of the landed page unless the action is 0 |
| DoubleQ.PoppedIs | targeted-crawl/fk_dqn.py:494-503 | any frontier with the same languages and those purged lists is exactly `Popped` |
| DoubleQ.Choose | targeted-crawl/fk_dqn.py:602 | the `Neural` call of a round: from a frontier whose links all leave visited pages, the live frontier after the call is `Popped` of the one chosen from, with its key order kept, and the transition is one `Neural` makes (`Made`: a live or stop action, greedy when the draw is at least `eps`, `Reward`'s reward, B's bootstrap on the next frontier in its own key order, the damped target) and it lands on an unvisited page whose links are all out of the frontier, or stops |
| DoubleQ.ActedFollows | targeted-crawl/fk_dqn.py:494-503 | a recorded transition that does not stop follows a link its round's frontier held in the list of the language it requested |
| DoubleQ.SnapshotsStep | targeted-crawl/fk_dqn.py:583-602 | the frontier of one more round, the waiting lists grown by `AddLinks` of its page with that page visited, extends the chain of frontiers (`Snapshots`), and after it the lists waiting are its `Popped` |
| DoubleQ.Tracks | targeted-crawl/fk_dqn.py:583-602 | a round that grows the live lists by `AddLinks` and pops the followed link keeps the live lists equal to the last snapshot popped (`Tracked`) |
| DoubleQ.SingleLinkStart | targeted-crawl/fk_dqn.py:583-602 | on a graph whose start page (language 1) links only to page 5, a recorded crawl whose first transition lands on page 5 requested language 1 |
| DoubleQ.SingleLinkFront | targeted-crawl/fk_dqn.py:597 | that graph's first frontier is page 5 under language 1 |
| DoubleQ.ActedStep | targeted-crawl/fk_dqn.py:583-602 | one more transition that `Neural` made with the coin's network as A, from the frontier and visited set of its round, keeps every transition so made (`Acted`) |
| DoubleQ.RecordedStep | targeted-crawl/fk_dqn.py:602-608 | one more transition keeps the path chained to the visit order and carrying the counts of its time |
| DoubleQ.Round | targeted-crawl/fk_dqn.py:591-602 | visit the page, count its language, add its links, score the visited set; the frontier chosen from is the live frontier grown by `AddLinks` (`AppendAll` and `KeysAfter` of the lists before the round), the transition is one `Neural` makes on it with `qA` as A (`Made`) from the new visited set and counts, the live frontier afterwards is its `Popped`, and the transition lands on an unvisited page or stops |
| DoubleQ.Turn | targeted-crawl/fk_dqn.py:583-602 | a round with the networks in the coin's roles extends `Acted` and keeps the chain of frontiers tied to the live one (`Tracked`) |
| DoubleQ.Offer | targeted-crawl/fk_dqn.py:604-607 | the corpus of the acting network is offered the transition unless it stops; each corpus then holds its old contents plus its `Routed` share; losses and weights are untouched |
| DoubleQ.CrawlingStart | targeted-crawl/fk_dqn.py:572-576 | the loop starts at the start page with nothing visited and zero counts |
| DoubleQ.CrawlingStep | targeted-crawl/fk_dqn.py:582-608 | a round that continues keeps the loop invariant |
| DoubleQ.FinishedStep | targeted-crawl/fk_dqn.py:604-611 | a round that stops gives the final state |
| DoubleQ.Step | targeted-crawl/fk_dqn.py:582-611 | one iteration: continue with the invariant, or stop on the stop page or past `maxDocs`; the new transition is `Neural`'s with network 0 as A exactly when the coin says (`Acted` extended) on the round's frontier, which extends the chain of frontiers and leaves the live one its `Popped` (`Tracked`); corpora offered the non-stop transition |
| DoubleQ.Crawl | targeted-crawl/fk_dqn.py:582-611 | from the start page, zero counts and an empty frontier, the loop ends `Finished`, with every transition `Acted` on its round's frontier, the frontiers one chain from the empty one (`Snapshots`), and the corpora offered their routed shares |
| DoubleQ.Trajectory | targeted-crawl/fk_dqn.py:571-613 | visit order distinct from the start page, scored per prefix, at most `maxDocs + 1` pages; each transition lands on the next visited page from a page visited by then and carries the counts of its own time; stops on the stop page or past `maxDocs`; each transition is one `Neural` made (`Acted`: live or stop action, greedy when its draw is at least `eps`, `Reward`'s reward, damped target with B's bootstrap) with network 0 as A exactly when its coin says, on the frontier of its round, and those frontiers form one chain (`Snapshots`): the first is the start page's unvisited links, each next one the last popped of the followed link's page and grown by the links of the page just visited; each non-stop transition goes to the corpus of that acting network |
| DoubleQ.SharedTransition.constructor | targeted-crawl/fk_dqn.py:305-312 | the transition keeps the caller's array itself |
| DoubleQ.AliasedFeatures | targeted-crawl/fk_dqn.py:561-594 | as written, a stored transition's features change when the next page is counted |
| QLearn.Masked | targeted-crawl/q-learn/features4.py:336-348 | slot 0 becomes 0 when there is a url, every slot from `numURLs` on becomes `unusedActionCost`, the others keep their value |
| QLearn.ZeroOutStop | targeted-crawl/q-learn/features4.py:336-348 | the target row in place becomes `Masked` of the old row |
| QLearn.Updated | targeted-crawl/q-learn/features4.py:312-316 | only the chosen slot changes, to the damped target |
| QLearn.TargetSlots | targeted-crawl/q-learn/features4.py:312-318 | after the update and the mask: the chosen slot holds the damped target when it is a url slot other than 0, 0 at slot 0, the unused cost past `numURLs`; other url slots keep A's value |
| QLearn.Choice | targeted-crawl/q-learn/features4.py:268-274 | slot 1 from the start page, the drawn slot when exploring, otherwise a slot of maximum value |
| QLearn.MaxNextQ | targeted-crawl/q-learn/features4.py:290-308 | 0 on the stop page, otherwise network B's value at a slot of A's maximum on the next frontier |
| QLearn.Neural | targeted-crawl/q-learn/features4.py:258-333 | the transition carries the current page, the page reached, `done` exactly on the stop page, copies of the features and the masked updated row; the visited set gains the page reached |
| QLearn.Round | targeted-crawl/q-learn/features4.py:258-333 | a step chains from the current page, is done exactly on the stop page, otherwise reaches an unvisited page, and is the transition `Made` describes: the observed features and the masked updated row with A's choice and B's bootstrap |
| QLearn.Shrinks | targeted-crawl/q-learn/features4.py:284 | visiting a new page shrinks the set of pages left |
| QLearn.Step | targeted-crawl/q-learn/features4.py:358-373 | one iteration: the step is `Neural`'s with the coin's roles (`Took`), the transition goes to the acting network's corpus, and the pages left shrink unless it is done |
| QLearn.WalkingStep | targeted-crawl/q-learn/features4.py:369-376 | appending the step keeps the path chained, with only the last transition done |
| QLearn.VisitsStep | targeted-crawl/q-learn/features4.py:353-376 | one more step from the visited set the last one left keeps the chain of visited sets |
| QLearn.RecordedStep | targeted-crawl/q-learn/features4.py:358-376 | one more `Neural` step keeps every recorded step `Neural`'s |
| QLearn.VisitsGrow | targeted-crawl/q-learn/features4.py:353-376 | a page a step reaches is in the visited set of every later step |
| QLearn.VisitsOnce | targeted-crawl/q-learn/features4.py:353-376 | when only the last step stops, no page is reached twice |
| QLearn.Trajectory | targeted-crawl/q-learn/features4.py:353-376 | the path starts at the start page, chains page to page, ends with the only done transition on the stop page; step i is `Neural`'s from the pages reached before it, with its stored target row; no page is reached twice; each transition, the last included, goes to the acting network's corpus |
| QLearn.Decayed | targeted-crawl/q-learn/features4.py:420-421 | `eps * 0.99` but never below 0.1, so never above the old value from 0.1 on and strictly smaller above it |
| QLearn.IteratedClosedForm | targeted-crawl/q-learn/features4.py:417-421 | after k decays `eps` is `max(0.1, eps * 0.99^k)` |
| QLearn.Schedule.AfterWalk | targeted-crawl/q-learn/features4.py:417-421 | `eps` decays exactly when the walk found all but at most five aligned pairs |
| Dqn5.SoundSatisfiable | targeted-crawl/dqn5/main.py:137-171 | the assumptions on the collaborators hold for a concrete graph with a start link and a frontier kept as a link set, so the crawl theorems are not vacuous |
| Dqn5.NextMaxQ | targeted-crawl/dqn5/main.py:146-155 | 0 on an empty next frontier, otherwise one of network B's values |
| Dqn5.WalkPending | targeted-crawl/dqn5/main.py:141 | a walk from a pending, non-empty frontier follows a link the frontier holds and leaves a pending frontier for the visited set grown by the landed page |
| Dqn5.Neural | targeted-crawl/dqn5/main.py:137-171 | the step works from the previous transition's next frontier and visited set, which it leaves as they were; it follows a link that frontier held to an unvisited page and leaves a pending frontier; the new transition snapshots them, adds the landed page, writes the damped target into the chosen slot only, with bootstrap 0 on an empty next frontier and otherwise B's value at A's argmax |
| Dqn5.DiscountedUndamped | targeted-crawl/dqn5/main.py:213-215 | with `gamma` 1 the discounted total is the plain total |
| Dqn5.AccruedClosedForm | targeted-crawl/dqn5/main.py:213-215 | the loop's accumulators are the sum, the sum with the k-th reward weighted by `gamma^k`, and `gamma` to the number of steps |
| Dqn5.GoingStep | targeted-crawl/dqn5/main.py:232-236 | a step from one more visited page keeps the stop rule |
| Dqn5.ChainStep | targeted-crawl/dqn5/main.py:204 | a step from the last transition's visited set extends the chain of visited sets |
| Dqn5.ChainedGrows | targeted-crawl/dqn5/main.py:195-204 | a page a step lands on is in the visited set of every later step |
| Dqn5.ChainedOnce | targeted-crawl/dqn5/main.py:195-204 | no two steps land on the same page |
| Dqn5.Run | targeted-crawl/dqn5/main.py:195-211 | the loop's steps and rewards as a function of the role coins: at most one step per coin, step i from a visited set of the start's size plus i, each leaving a pending frontier |
| Dqn5.ScoredStep | targeted-crawl/dqn5/main.py:210-211 | scoring one more step by its pre-step visited set keeps every score |
| Dqn5.RunAppend | targeted-crawl/dqn5/main.py:204 | while the crawl may go on, one more coin adds exactly the `Neural` step from the last transition and its reward |
| Dqn5.GoingReady | targeted-crawl/dqn5/main.py:232-236 | while the loop goes on, the last transition's next frontier is not empty and fewer than `maxDocs` pages were visited before it |
| Dqn5.Stepped | targeted-crawl/dqn5/main.py:195-236 | one more `Neural` step keeps the run, rewards and scores recorded and the stop rule |
| Dqn5.StartPending | targeted-crawl/dqn5/main.py:180-188 | the start frontier holds only unvisited links of the start page, and holds one when the start page has one |
| Dqn5.Crawl | targeted-crawl/dqn5/main.py:195-236 | the loop runs to the stop rule keeping the loop invariant; losses and weight sums untouched |
| Dqn5.Accrue | targeted-crawl/dqn5/main.py:213-215 | the accumulator update adds the reward, the reward at the old discount, and multiplies the discount by `gamma` |
| Dqn5.Offer | targeted-crawl/dqn5/main.py:217-230 | test mode leaves both corpora alone; training mode adds the transition to the corpus the second coin picks |
| Dqn5.Advance | targeted-crawl/dqn5/main.py:195-236 | one round's step: recorded steps, rewards and scores, accumulators and stop rule all extended |
| Dqn5.Round | targeted-crawl/dqn5/main.py:195-236 | one round keeps the loop invariant and adds exactly one step |
| Dqn5.Finished | targeted-crawl/dqn5/main.py:204-236 | a stopped crawl has one step per round from visited sets of sizes 1, 2, ..., each scored by `NumParallelDocs`, continuing while the next frontier has links and fewer than `maxDocs` pages were visited; no two steps land on the same page |
| Dqn5.Trajectory | targeted-crawl/dqn5/main.py:174-245 | starts from the start page alone and its unvisited links; the steps are `Run` of the role coins; one score per step, of the pre-step visited set; stops exactly when the next frontier is empty or `maxDocs` pages were visited before the step; no page is landed on twice; exact reward totals; no corpus change in test mode, and in training each transition to exactly one corpus |

## Left out

- `Qnetwork` internals (the TensorFlow graph, embeddings, the optimiser, `Update`) are foreign numerics. `Predict` is an opaque function to reals, and the losses `Train` records are left open.
- Entry points, argument parsing, the MySQL store, timers, plotting, `SavePlot`, and the printing and string building in `Walk` and in test-mode `Trajectory` are I/O and are left out. So is the `sumAll` sum `PopLink` computes and never uses.
- Statistical properties of the draws (uniformity, the 50/50 split between networks) are not stated. Every contract quantifies over all draws instead.
- Balanced.RandomLink: its retry loop, which draws again on an empty list, is collapsed into a single choice of a non-empty list. The set-level effect is the same and termination is not modelled.
- Balanced.PopLink: the weights and the cumulative scan are modelled over reals, not floats.
- The `helpers` module (`Env`, `Link`, `GetNodeMatched`, `env.GetNextState`) is not part of this model. `GetLinks` is taken to be a node's links to unvisited pages. `env.GetNextState` of `features4.py` is the `step` function of a `World`.
- features4.py's `Candidates`, `Transition` and `GetFeaturesNP` are not part of this model. They are the `observe` function of a `World`, and `RemoveLink` is folded into it. QLearn.Trajectory assumes `QLearn.Sound`: rows are `numActions` wide, and a step ends on the stop page or on an unvisited page.
- dqn5's own `candidate`, `neural_net` and `corpus` modules are not part of this model. The frontier is a type parameter, and `Candidates()`, `AddLinks`, `Count`, `NeuralWalk` and `PredictAll` are functions of an `Agent`, with `links` giving the set of links a frontier holds. Dqn5.Trajectory assumes `Dqn5.Sound`: the empty frontier holds no link, `Count` is the number of links held, `AddLinks` adds the node's links to unvisited pages, a walk from a non-empty frontier follows a link it holds and leaves that frontier without the links to the landed page plus that page's unvisited links, and rows are `numActions` wide. `Dqn5.SoundSatisfiable` exhibits an environment and agent meeting it. `NeuralWalk`'s addition of the page to the visited set is done in `Dqn5.Neural`. The dqn5 corpus is taken to behave as the `fk_dqn.py` one.
- Dqn5.Trajectory: requires the start page to have a link to another page. Without one the first `Neural` step finds no link and the source's `assert(link is not None)` (dqn5/main.py:142) fails.
- Dqn5.Neural: the `GetFeatures` arrays (`linkLang`, `mask`, sibling counts) and `langsVisited` that dqn5's `Transition` also stores are not modelled. They come from the unseen `candidate` module, whose `GetFeatures` returns six values where `simple-features/candidate.py` returns three.
- Replay.Corpus.Train: requires a non-empty corpus when training runs with a positive batch size, which excludes the `np.random.randint(0, 0)` draw of `GetBatchWithoutDelete` on an empty corpus. That case needs `minCorpusSize` 0; the source sets it to 200 (fk_dqn.py:22).
- Integer widths play no part: counts and ids are unbounded integers, and the Q-values and rewards are reals.
- DoubleQ.Neural: the action 0 that `PredictAll` reports on an empty frontier is the stop page's id. A language id 0 in the graph would collide with it; the model keeps the collision as written.
- QLearn.Choice: the random slot is any slot below `numActions`, matching `np.random.randint(0, NUM_ACTIONS)`. The start page's forced slot 1 is not checked against `numURLs`, as in the source.
- The `Debug` methods, `Walk` of `fk_dqn.py` (an evaluation run of `NeuralWalk`) and `UpdateQN`'s batch packing are left out. They only print or feed the network.

## Findings

| source | as written | input that shows it | evidently intended | confidence | as-written member | corrected member |
|---|---|---|---|---|---|---|
| targeted-crawl/fk_dqn.py:459-480 | `maxQ` starts at -9999999.0 and `argMax` is bound only on a strict improvement, so when every language with links scores at or below the sentinel `argMax` is never bound and the return raises | a frontier with one link, of language 1, that network A scores -10000000. The `Qnetwork` output is `reduce_sum` of a `relu` (fk_dqn.py:413-421) and so never negative: with the real network only a NaN score reaches the unbound `argMax`, and the model's opaque reals stand in -10000000 for it | the first language with links is taken as the running maximum whatever its score | not executed | DoubleQ.SentinelUnbound | DoubleQ.PredictAll |
| targeted-crawl/fk_dqn.py:305-312 | `Transition` keeps a reference to `langsVisited` (the copy is commented out), and `Trajectory` then increments the same array in place, so every stored transition's features track the latest counts | two rounds over three languages: the start page (language 1) and then a page of language 2; the stored transition reads [0, 1, 1] instead of [0, 1, 0] | each transition keeps the counts of its own step | not executed | DoubleQ.AliasedFeatures | DoubleQ.Trajectory |
