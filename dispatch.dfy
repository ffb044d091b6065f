/**
 * internal/crawl/crawler.go, Crawl and dispatcher: the crawl engine with its
 * goroutines replaced by one sequential loop. A worker step takes the task at
 * the head of the task channel, fetches it and appends the result to the
 * result channel; a dispatcher step consumes the oldest result, records it and
 * expands it. Both channels are FIFO sequences of capacity TaskBufferSize.
 */
module Dispatch {
  import opened Wrappers
  import opened Seqs
  import opened Helpers
  import opened Urls
  import opened Fetch
  import opened Report

  const TaskBufferSize: nat := 100

  /** What the dispatcher makes of one discovered link string. */
  datatype LinkKind = Malformed | External | Internal(url: Url)

  function ClassifyLink(lib: UrlLib, startHost: string, linkStr: string): LinkKind
  {
    match lib.parse(linkStr)
    case None => Malformed
    case Some(u) => if IsSameDomain(u.host, startHost) then Internal(u) else External
  }

  /** The link strings that do not parse. */
  function MalformedIn(lib: UrlLib, startHost: string, links: seq<string>): set<string>
  {
    if links == [] then {}
    else
      var last := links[|links| - 1];
      MalformedIn(lib, startHost, links[..|links| - 1])
        + (if ClassifyLink(lib, startHost, last).Malformed? then {last} else {})
  }

  /** The link strings that parse to a host outside the start domain. */
  function ExternalIn(lib: UrlLib, startHost: string, links: seq<string>): set<string>
  {
    if links == [] then {}
    else
      var last := links[|links| - 1];
      ExternalIn(lib, startHost, links[..|links| - 1])
        + (if ClassifyLink(lib, startHost, last).External? then {last} else {})
  }

  /** The visited-set keys (the printed parsed URL) of the links inside the start domain. */
  function InternalKeys(lib: UrlLib, startHost: string, links: seq<string>): set<string>
  {
    if links == [] then {}
    else
      var kind := ClassifyLink(lib, startHost, links[|links| - 1]);
      InternalKeys(lib, startHost, links[..|links| - 1])
        + (if kind.Internal? then {lib.str(kind.url)} else {})
  }

  /** Handling one more link adds that link's contribution to each of the three sets. */
  lemma LinksStep(lib: UrlLib, startHost: string, links: seq<string>, i: nat)
    requires i < |links|
    ensures var kind := ClassifyLink(lib, startHost, links[i]);
      && MalformedIn(lib, startHost, links[..i + 1])
        == MalformedIn(lib, startHost, links[..i]) + (if kind.Malformed? then {links[i]} else {})
      && ExternalIn(lib, startHost, links[..i + 1])
        == ExternalIn(lib, startHost, links[..i]) + (if kind.External? then {links[i]} else {})
      && InternalKeys(lib, startHost, links[..i + 1])
        == InternalKeys(lib, startHost, links[..i]) + (if kind.Internal? then {lib.str(kind.url)} else {})
  {
    assert links[..i + 1][..i] == links[..i];
  }

  /**
   * The three sets the dispatcher grows while handling links, after one more
   * link: each is its start value plus that set of the links handled so far.
   */
  lemma LinksSetsStep(lib: UrlLib, startHost: string, links: seq<string>, i: nat,
                      v: set<string>, v0: set<string>, v1: set<string>,
                      m: set<string>, m0: set<string>, m1: set<string>,
                      e: set<string>, e0: set<string>, e1: set<string>)
    requires i < |links|
    requires v0 == v + InternalKeys(lib, startHost, links[..i])
    requires m0 == m + MalformedIn(lib, startHost, links[..i])
    requires e0 == e + ExternalIn(lib, startHost, links[..i])
    requires var kind := ClassifyLink(lib, startHost, links[i]);
      && m1 == m0 + (if kind.Malformed? then {links[i]} else {})
      && e1 == e0 + (if kind.External? then {links[i]} else {})
      && v1 == v0 + (if kind.Internal? then {lib.str(kind.url)} else {})
    ensures v1 == v + InternalKeys(lib, startHost, links[..i + 1])
    ensures m1 == m + MalformedIn(lib, startHost, links[..i + 1])
    ensures e1 == e + ExternalIn(lib, startHost, links[..i + 1])
  {
    LinksStep(lib, startHost, links, i);
  }

  /** The tasks a run of links sends, and the keys it drops because the task channel was full, both in link order. */
  datatype Sending = Sending(sent: seq<CrawlTask>, dropped: seq<string>)

  /**
   * What one link does to the task channel: a link inside the start domain
   * whose key is neither in `visited` nor `marked` is sent at `depth` when
   * the channel has room, and dropped when it has none; any other link sends
   * and drops nothing.
   */
  function SendOne(lib: UrlLib, startHost: string, linkStr: string, depth: int,
                   visited: set<string>, marked: set<string>, hasRoom: bool): Sending
  {
    match ClassifyLink(lib, startHost, linkStr)
    case Internal(u) =>
      if lib.str(u) in visited || lib.str(u) in marked then Sending([], [])
      else if hasRoom then Sending([CrawlTask(u, depth)], [])
      else Sending([], [lib.str(u)])
    case _ => Sending([], [])
  }

  /**
   * The first `n` links handled in order, from the visited set `visited` and
   * with `room` free places in the task channel: each link sees the keys
   * marked by the links before it and the room the tasks they sent left over.
   */
  function Sends(lib: UrlLib, startHost: string, links: seq<string>, n: nat, depth: int,
                 visited: set<string>, room: int): Sending
    requires n <= |links|
    decreases n
  {
    if n == 0 then Sending([], [])
    else
      var s := Sends(lib, startHost, links, n - 1, depth, visited, room);
      var one := SendOne(lib, startHost, links[n - 1], depth,
                         visited, InternalKeys(lib, startHost, links[..n - 1]), |s.sent| < room);
      Sending(s.sent + one.sent, s.dropped + one.dropped)
  }

  /**
   * The end of a run of links, read off the scheduling record before and
   * after it: the dropped keys grew by exactly the keys the links drop, keys
   * were dropped only once the queue was full.
   */
  lemma LinksSent(lib: UrlLib, startHost: string, links: seq<string>, depth: int, fetched: seq<string>,
                  q0: seq<CrawlTask>, sent: seq<CrawlTask>, sched0: seq<string>, sched: seq<string>,
                  visited0: set<string>, dropped0: set<string>, visited: set<string>, dropped: set<string>)
    requires |q0| <= TaskBufferSize
    requires sched0 == fetched + KeysOf(lib, q0) && Once(sched0, visited0, dropped0)
    requires sched == fetched + KeysOf(lib, q0 + sent) && Once(sched, visited, dropped)
    requires visited == visited0 + InternalKeys(lib, startHost, links)
    requires sent == Sends(lib, startHost, links, |links|, depth, visited0, TaskBufferSize - |q0|).sent
    ensures dropped == dropped0 + Elems(Sends(lib, startHost, links, |links|, depth, visited0, TaskBufferSize - |q0|).dropped)
    ensures dropped != dropped0 ==> |q0 + sent| == TaskBufferSize
  {
    var room := TaskBufferSize - |q0|;
    KeysOfConcat(lib, q0, sent);
    AppendAssoc(fetched, KeysOf(lib, q0), KeysOf(lib, sent));
    SendsDropped(lib, startHost, links, depth, visited0, room, fetched + KeysOf(lib, q0), dropped0, dropped);
    SendsDropOnlyWhenFull(lib, startHost, links, |links|, depth, visited0, room);
  }

  /** Handling link `i` after the links before it extends the tasks they sent by the one link `i` sends, if any. */
  lemma SendsAdvance(lib: UrlLib, startHost: string, links: seq<string>, i: nat, depth: int,
                     visited: set<string>, room: int, seen: set<string>, hasRoom: bool,
                     sent: seq<CrawlTask>, t: seq<CrawlTask>)
    requires i < |links|
    requires sent == Sends(lib, startHost, links, i, depth, visited, room).sent
    requires seen == visited + InternalKeys(lib, startHost, links[..i]) && (hasRoom <==> |sent| < room)
    requires match ClassifyLink(lib, startHost, links[i])
      case Internal(u) =>
        && (t != [] <==> lib.str(u) !in seen && hasRoom)
        && (t != [] ==> t == [CrawlTask(u, depth)])
      case _ => t == []
    ensures sent + t == Sends(lib, startHost, links, i + 1, depth, visited, room).sent
  {
  }

  /**
   * What the links drop, read off the scheduling record: when the keys sent
   * extend the schedule and the links' keys the visited set, the dropped
   * keys grow by exactly the keys the links drop.
   */
  lemma SendsDropped(lib: UrlLib, startHost: string, links: seq<string>, depth: int,
                     visited: set<string>, room: int, sched: seq<string>, dropped0: set<string>, dropped1: set<string>)
    requires 0 <= room && Once(sched, visited, dropped0)
    requires Once(sched + KeysOf(lib, Sends(lib, startHost, links, |links|, depth, visited, room).sent),
                  visited + InternalKeys(lib, startHost, links), dropped1)
    ensures dropped1 == dropped0 + Elems(Sends(lib, startHost, links, |links|, depth, visited, room).dropped)
  {
    var s := Sends(lib, startHost, links, |links|, depth, visited, room);
    var ks := KeysOf(lib, s.sent);
    SendsSound(lib, startHost, links, |links|, depth, visited, room);
    assert links[..|links|] == links;
    ElemsConcat(sched, ks);
    ElemsConcat(ks, s.dropped);
    NoDupSplit(ks, s.dropped);
  }

  /**
   * `s` accounts for the keys `keys`: each of them is sent or dropped, once
   * and not both; the tasks sent are at `depth` and fill at most `room`
   * places, and a key is dropped only once the room is used up.
   */
  predicate Accounts(lib: UrlLib, s: Sending, keys: set<string>, depth: int, room: int)
  {
    && Elems(KeysOf(lib, s.sent) + s.dropped) == keys
    && NoDup(KeysOf(lib, s.sent) + s.dropped)
    && AtDepth(s.sent, depth)
    && |s.sent| <= room
    && (s.dropped != [] ==> |s.sent| == room)
  }

  /** Sending a task for a key not yet accounted for, while there is room, keeps the account. */
  lemma AccountsSend(lib: UrlLib, s: Sending, keys: set<string>, depth: int, room: int, t: CrawlTask)
    requires Accounts(lib, s, keys, depth, room) && lib.str(t.url) !in keys
    requires t.depth == depth && |s.sent| < room
    ensures Accounts(lib, Sending(s.sent + [t], s.dropped + []), keys + {lib.str(t.url)}, depth, room)
  {
    var ks := KeysOf(lib, s.sent) + s.dropped;
    var key := lib.str(t.url);
    assert s.dropped == [];
    KeysOfAppend(lib, s.sent, t);
    assert KeysOf(lib, s.sent + [t]) + (s.dropped + []) == ks + [key];
    NoDupSnoc(ks, key);
    AtDepthConcat(s.sent, [t], depth);
  }

  /** Dropping a key not yet accounted for, once the room is used up, keeps the account. */
  lemma AccountsDrop(lib: UrlLib, s: Sending, keys: set<string>, depth: int, room: int, key: string)
    requires Accounts(lib, s, keys, depth, room) && key !in keys && room <= |s.sent|
    ensures Accounts(lib, Sending(s.sent + [], s.dropped + [key]), keys + {key}, depth, room)
  {
    var ks := KeysOf(lib, s.sent) + s.dropped;
    assert KeysOf(lib, s.sent) + (s.dropped + [key]) == ks + [key];
    NoDupSnoc(ks, key);
    assert s.sent + [] == s.sent;
  }

  /** One more link keeps the account, now including that link's key when it is new and inside the domain. */
  lemma SendOneAccounts(lib: UrlLib, startHost: string, linkStr: string, depth: int,
                        visited: set<string>, known: set<string>, s: Sending, room: int)
    requires Accounts(lib, s, known - visited, depth, room)
    ensures var kind := ClassifyLink(lib, startHost, linkStr);
      var one := SendOne(lib, startHost, linkStr, depth, visited, known, |s.sent| < room);
      Accounts(lib, Sending(s.sent + one.sent, s.dropped + one.dropped),
               (known + (if kind.Internal? then {lib.str(kind.url)} else {})) - visited, depth, room)
  {
    match ClassifyLink(lib, startHost, linkStr)
    case Internal(u) =>
      var key := lib.str(u);
      if key in visited + known {
        assert (known + {key}) - visited == known - visited;
        assert s.sent + [] == s.sent && s.dropped + [] == s.dropped;
      } else if |s.sent| < room {
        assert (known + {key}) - visited == (known - visited) + {key};
        AccountsSend(lib, s, known - visited, depth, room, CrawlTask(u, depth));
      } else {
        assert (known + {key}) - visited == (known - visited) + {key};
        AccountsDrop(lib, s, known - visited, depth, room, key);
      }
    case _ =>
      assert s.sent + [] == s.sent && s.dropped + [] == s.dropped;
  }

  /**
   * The sending of the first `n` links accounts for exactly their new keys
   * inside the start domain, within the room the channel had.
   */
  lemma {:induction false} SendsSound(lib: UrlLib, startHost: string, links: seq<string>, n: nat, depth: int,
                                      visited: set<string>, room: int)
    requires n <= |links| && 0 <= room
    ensures Accounts(lib, Sends(lib, startHost, links, n, depth, visited, room),
                     InternalKeys(lib, startHost, links[..n]) - visited, depth, room)
    decreases n
  {
    if n == 0 {
      assert links[..0] == [];
    } else {
      SendsSound(lib, startHost, links, n - 1, depth, visited, room);
      SendOneAccounts(lib, startHost, links[n - 1], depth, visited, InternalKeys(lib, startHost, links[..n - 1]),
                      Sends(lib, startHost, links, n - 1, depth, visited, room), room);
      LinksStep(lib, startHost, links, n - 1);
    }
  }

  /** Keys are dropped only once the room is used up. */
  lemma SendsDropOnlyWhenFull(lib: UrlLib, startHost: string, links: seq<string>, n: nat, depth: int,
                              visited: set<string>, room: int)
    requires n <= |links| && 0 <= room
    ensures var s := Sends(lib, startHost, links, n, depth, visited, room);
      Elems(s.dropped) != {} ==> |s.sent| == room
  {
    SendsSound(lib, startHost, links, n, depth, visited, room);
  }

  /** The dispatcher expands a result only after a fetch without error, below status 400, with depth left. */
  predicate Expands(res: CrawlResult)
  {
    res.err.None? && res.statusCode < 400 && res.task.depth > 0
  }

  /**
   * What the dispatcher sends and drops for one result, from the visited set
   * `visited` and with `room` free places: the links of a result that
   * expands, one level shallower, and nothing for any other result.
   */
  function Expansion(lib: UrlLib, startHost: string, res: CrawlResult, visited: set<string>, room: int): Sending
  {
    if Expands(res) then Sends(lib, startHost, res.links, |res.links|, res.task.depth - 1, visited, room)
    else Sending([], [])
  }

  /**
   * The most tasks a task at `depth` can still cause, itself included: a
   * result enqueues at most TaskBufferSize children, each one level shallower.
   */
  function Weight(depth: int): (w: nat)
    ensures w >= 1
  {
    if depth <= 0 then 1 else 1 + Times(TaskBufferSize, Weight(depth - 1))
  }

  /** k copies of w, added up; kept recursive so that the weights stay clear of nonlinear arithmetic. */
  function Times(k: nat, w: nat): nat
  {
    if k == 0 then 0 else Times(k - 1, w) + w
  }

  lemma {:induction false} TimesMonotone(k: nat, m: nat, w: nat)
    requires k <= m
    ensures Times(k, w) <= Times(m, w)
    decreases m
  {
    if k < m {
      TimesMonotone(k, m - 1, w);
    }
  }

  function Load(tasks: seq<CrawlTask>): nat
  {
    if tasks == [] then 0 else Load(tasks[..|tasks| - 1]) + Weight(tasks[|tasks| - 1].depth)
  }

  lemma {:induction false} LoadFront(tasks: seq<CrawlTask>)
    requires tasks != []
    ensures Load(tasks) == Weight(tasks[0].depth) + Load(tasks[1..])
    decreases |tasks|
  {
    if |tasks| > 1 {
      var init := tasks[..|tasks| - 1];
      LoadFront(init);
      assert init[1..] == tasks[1..][..|tasks[1..]| - 1];
    }
  }

  lemma LoadAppend(tasks: seq<CrawlTask>, t: CrawlTask)
    ensures Load(tasks + [t]) == Load(tasks) + Weight(t.depth)
  {
    assert (tasks + [t])[..|tasks|] == tasks;
  }

  lemma {:induction false} LoadConcat(a: seq<CrawlTask>, b: seq<CrawlTask>)
    ensures Load(a + b) == Load(a) + Load(b)
    decreases |b|
  {
    if b != [] {
      var init := b[..|b| - 1];
      LoadConcat(a, init);
      assert (a + b)[..|a + b| - 1] == a + init;
    } else {
      assert a + b == a;
    }
  }

  /** Every task of `tasks` is at `depth`. */
  predicate AtDepth(tasks: seq<CrawlTask>, depth: int)
  {
    forall t <- tasks :: t.depth == depth
  }

  lemma AtDepthConcat(a: seq<CrawlTask>, b: seq<CrawlTask>, depth: int)
    requires AtDepth(a, depth) && AtDepth(b, depth)
    ensures AtDepth(a + b, depth)
  {
  }

  /** Tasks all at one depth weigh that depth's weight each. */
  lemma {:induction false} LoadUniform(tasks: seq<CrawlTask>, depth: int)
    requires AtDepth(tasks, depth)
    ensures Load(tasks) == Times(|tasks|, Weight(depth))
    decreases |tasks|
  {
    if tasks != [] {
      var init := tasks[..|tasks| - 1];
      assert forall t <- init :: t in tasks;
      LoadUniform(init, depth);
      assert tasks[|tasks| - 1] in tasks;
    }
  }

  /** Up to TaskBufferSize children one level down weigh less than their parent. */
  lemma ChildrenLighter(depth: int, k: nat)
    requires depth > 0 && k <= TaskBufferSize
    ensures Times(k, Weight(depth - 1)) < Weight(depth)
  {
    TimesMonotone(k, TaskBufferSize, Weight(depth - 1));
  }

  /** The tasks the results answer, in the same order. */
  function TasksOf(rs: seq<CrawlResult>): (ts: seq<CrawlTask>)
    ensures |ts| == |rs|
  {
    if rs == [] then [] else TasksOf(rs[..|rs| - 1]) + [rs[|rs| - 1].task]
  }

  lemma TasksOfAppend(rs: seq<CrawlResult>, r: CrawlResult)
    ensures TasksOf(rs + [r]) == TasksOf(rs) + [r.task]
  {
    assert (rs + [r])[..|rs|] == rs;
  }

  lemma {:induction false} TasksOfFront(rs: seq<CrawlResult>)
    requires rs != []
    ensures TasksOf(rs) == [rs[0].task] + TasksOf(rs[1..])
    decreases |rs|
  {
    if |rs| > 1 {
      var init := rs[..|rs| - 1];
      TasksOfFront(init);
      assert init[1..] == rs[1..][..|rs[1..]| - 1];
    }
  }

  /** The visited-set keys of a run of tasks: each task's URL, printed. */
  function KeysOf(lib: UrlLib, ts: seq<CrawlTask>): (ks: seq<string>)
    ensures |ks| == |ts|
  {
    if ts == [] then [] else KeysOf(lib, ts[..|ts| - 1]) + [lib.str(ts[|ts| - 1].url)]
  }

  lemma KeysOfAppend(lib: UrlLib, ts: seq<CrawlTask>, t: CrawlTask)
    ensures KeysOf(lib, ts + [t]) == KeysOf(lib, ts) + [lib.str(t.url)]
  {
    assert (ts + [t])[..|ts|] == ts;
  }

  lemma {:induction false} KeysOfFront(lib: UrlLib, ts: seq<CrawlTask>)
    requires ts != []
    ensures KeysOf(lib, ts) == [lib.str(ts[0].url)] + KeysOf(lib, ts[1..])
    decreases |ts|
  {
    if |ts| > 1 {
      var init := ts[..|ts| - 1];
      KeysOfFront(lib, init);
      assert init[1..] == ts[1..][..|ts[1..]| - 1];
    }
  }

  lemma {:induction false} KeysOfConcat(lib: UrlLib, ts: seq<CrawlTask>, us: seq<CrawlTask>)
    ensures KeysOf(lib, ts + us) == KeysOf(lib, ts) + KeysOf(lib, us)
    decreases |us|
  {
    if us == [] {
      assert ts + us == ts;
    } else {
      var init, last := us[..|us| - 1], us[|us| - 1];
      assert init + [last] == us;
      AppendAssoc(ts, init, [last]);
      KeysOfAppend(lib, ts + init, last);
      KeysOfAppend(lib, init, last);
      KeysOfConcat(lib, ts, init);
      AppendAssoc(KeysOf(lib, ts), KeysOf(lib, init), [lib.str(last.url)]);
    }
  }

  /**
   * The body of worker for one task: fetch the task's URL with retries and
   * package the five values as a result for that task.
   */
  method Work(lib: UrlLib, net: (string, nat) -> HttpOutcome, task: CrawlTask)
    returns (res: CrawlResult, ghost attempts: seq<FetchOutcome>, ghost sleeps: seq<int>)
    ensures res.task == task
    ensures RetryYields(lib, Exchanges(net, lib.str(task.url)), lib.str(task.url), OutcomeOf(res), attempts, sleeps)
    ensures res.err.Some? ==> res.links == [] && res.failedLinks == [] && res.statusCode == 0
  {
    var target := lib.str(task.url);
    var o;
    o, attempts, sleeps := CheckAndResolveURLWithRetry(lib, Exchanges(net, target), target);
    res := CrawlResult(task, o.links, o.failedLinks, o.err, o.statusCode, o.duration);
    assert OutcomeOf(res) == o;
  }

  /** The exchanges the attempts on `target` see: attempt i gets net(target, i). */
  function Exchanges(net: (string, nat) -> HttpOutcome, target: string): nat -> HttpOutcome
  {
    (i: nat) => net(target, i)
  }

  /** The five values a result carries, as the fetch returned them. */
  function OutcomeOf(res: CrawlResult): FetchOutcome
  {
    FetchOutcome(res.links, res.failedLinks, res.statusCode, res.duration, res.err)
  }

  /** `res` is what the retry wrapper returns for its task's URL, for some run of attempts. */
  ghost predicate FetchedBy(lib: UrlLib, net: (string, nat) -> HttpOutcome, res: CrawlResult)
  {
    var target := lib.str(res.task.url);
    exists attempts, sleeps :: RetryYields(lib, Exchanges(net, target), target, OutcomeOf(res), attempts, sleeps)
  }

  /**
   * The scheduling record on values: `sched` lists each key at most once, and
   * the visited keys are exactly the scheduled ones plus the dropped ones,
   * which were never scheduled.
   */
  ghost predicate Once(sched: seq<string>, visited: set<string>, dropped: set<string>)
  {
    && NoDup(sched)
    && visited == Elems(sched) + dropped
    && dropped !! Elems(sched)
  }

  /** Scheduling a key not yet visited keeps the record. */
  lemma OnceQueue(sched: seq<string>, visited: set<string>, dropped: set<string>, key: string)
    requires Once(sched, visited, dropped) && key !in visited
    ensures Once(sched + [key], visited + {key}, dropped)
  {
    NoDupSnoc(sched, key);
  }

  /** Dropping a key not yet visited keeps the record. */
  lemma OnceDrop(sched: seq<string>, visited: set<string>, dropped: set<string>, key: string)
    requires Once(sched, visited, dropped) && key !in visited
    ensures Once(sched, visited + {key}, dropped + {key})
  {
  }

  /**
   * Two scheduling records, the second scheduling `ks` after the first and
   * dropping at least what the first dropped: the dropped keys grew by exactly
   * the newly visited keys that were not scheduled.
   */
  lemma OnceGrown(sched: seq<string>, ks: seq<string>, v0: set<string>, d0: set<string>, v1: set<string>, d1: set<string>)
    requires Once(sched, v0, d0) && Once(sched + ks, v1, d1) && d0 <= d1
    ensures d1 == d0 + (v1 - v0 - Elems(ks))
  {
    ElemsConcat(sched, ks);
  }

  /** Recording a page not yet handled as a success or as a failure keeps the pages and the handled URLs in step. */
  lemma PageAdded(succ0: set<string>, fail0: set<string>, succ: set<string>, fail: set<string>, handled: seq<string>, key: string)
    requires succ0 + fail0 == Elems(handled) && succ0 !! fail0 && key !in Elems(handled)
    requires (succ == succ0 + {key} && fail == fail0) || (fail == fail0 + {key} && succ == succ0)
    ensures succ + fail == Elems(handled + [key]) && succ !! fail
  {
    ElemsConcat(handled, [key]);
    assert Elems([key]) == {key};
  }

  /**
   * Results in fetch order: when the fetched keys are the handled ones followed
   * by the keys of the waiting results, and no key is scheduled twice, the
   * oldest result's key is new to the handled ones and follows them directly.
   */
  lemma HeadInOrder(lib: UrlLib, rs: seq<CrawlResult>, handled: seq<string>, fetched: seq<string>, queued: seq<string>)
    requires rs != [] && fetched == handled + KeysOf(lib, TasksOf(rs)) && NoDup(fetched + queued)
    ensures fetched == handled + [lib.str(rs[0].task.url)] + KeysOf(lib, TasksOf(rs[1..]))
    ensures lib.str(rs[0].task.url) !in Elems(handled)
    ensures Load(TasksOf(rs)) == Weight(rs[0].task.depth) + Load(TasksOf(rs[1..]))
  {
    var key := lib.str(rs[0].task.url);
    TasksOfFront(rs);
    KeysOfFront(lib, TasksOf(rs));
    LoadFront(TasksOf(rs));
    var rest := KeysOf(lib, TasksOf(rs[1..]));
    assert fetched == handled + ([key] + rest);
    NoDupSplit(fetched, queued);
    NoDupSplit(handled, [key] + rest);
    assert key in Elems([key] + rest);
  }

  class Dispatcher {
    const lib: UrlLib
    const statusText: int -> string
    const startURL: Url
    const initialDepth: int
    const report: Report

    /** The dispatcher's own visited set, keyed by the printed URL. */
    var visited: set<string>
    /** The task channel's buffer, oldest first. */
    var queue: seq<CrawlTask>
    /** The result channel's buffer, oldest first. */
    var results: seq<CrawlResult>
    /** Every URL handed to the fetcher so far, in order. */
    ghost var fetched: seq<string>
    /** The keys marked visited whose task was dropped because the task channel was full. */
    ghost var dropped: set<string>
    /** The URLs whose results the dispatcher has handled, in order. */
    ghost var processed: seq<string>

    function Key(t: CrawlTask): string
    {
      lib.str(t.url)
    }

    function Keys(ts: seq<CrawlTask>): seq<string>
    {
      KeysOf(lib, ts)
    }

    /** A task depth never exceeds the seed's, and is negative only for a negative seed. */
    predicate DepthOk(d: int)
    {
      d <= initialDepth && (0 <= d || d == initialDepth)
    }

    /** Neither channel ever holds more than its buffer. */
    ghost predicate WithinCapacity()
      reads this`queue, this`results
    {
      |queue| <= TaskBufferSize && |results| <= TaskBufferSize
    }

    ghost predicate DepthsBounded()
      reads this`queue, this`results
    {
      && (forall t <- queue :: DepthOk(t.depth))
      && (forall r <- results :: DepthOk(r.task.depth))
    }

    /** The URLs that reached the fetcher, then those waiting in the task channel. */
    ghost function Scheduled(): seq<string>
      reads this`fetched, this`queue
    {
      fetched + Keys(queue)
    }

    /**
     * Every visited key was fetched, is queued, or was dropped — exactly one of
     * these, and once: no URL is fetched twice or queued after being fetched.
     */
    ghost predicate ScheduledOnce()
      reads this`fetched, this`queue, this`visited, this`dropped
    {
      Once(Scheduled(), visited, dropped)
    }

    /** Results come back in the order their tasks were fetched. */
    ghost predicate InOrder()
      reads this`fetched, this`processed, this`results
    {
      fetched == processed + Keys(TasksOf(results))
    }

    /** The report's visited links are the dispatcher's visited set. */
    ghost predicate Mirrored()
      reads this`visited, report`allVisitedLinks
    {
      report.allVisitedLinks == visited
    }

    /**
     * The report holds every handled result once: its pages are the handled
     * URLs, none both a success and a failure, and the two counters add up to
     * the number of results handled.
     */
    ghost predicate PagesRecorded()
      reads this`processed, report`successfulPages, report`failedPages, report`totalCrawled, report`totalErrors
    {
      && report.successfulPages.Keys + report.failedPages.Keys == Elems(processed)
      && report.successfulPages.Keys !! report.failedPages.Keys
      && report.totalCrawled + report.totalErrors == |processed|
    }

    /** Everything the crawl keeps true between steps. */
    ghost predicate Valid()
      reads this`queue, this`results, this`fetched, this`processed, this`visited, this`dropped
      reads report`allVisitedLinks, report`successfulPages, report`failedPages, report`totalCrawled, report`totalErrors
    {
      WithinCapacity() && DepthsBounded() && ScheduledOnce() && InOrder() && Mirrored() && PagesRecorded()
    }

    /** Decreases with every dispatcher step; unchanged by a worker step, which shortens the queue. */
    ghost function Potential(): nat
      reads this`queue, this`results
    {
      Load(queue) + Load(TasksOf(results))
    }

    /**
     * Crawl's seed send and the dispatcher's initialisation: the start URL is
     * marked visited and queued at the initial depth, with one task pending.
     */
    constructor (lib: UrlLib, statusText: int -> string, startURL: Url, initialDepth: int)
      ensures Valid() && fresh(report)
      ensures this.lib == lib && this.statusText == statusText
      ensures this.startURL == startURL && this.initialDepth == initialDepth
      ensures queue == [CrawlTask(startURL, initialDepth)] && results == []
      ensures visited == {lib.str(startURL)} && fetched == [] && dropped == {} && processed == []
      ensures report.totalCrawled == 0 && report.totalErrors == 0
      ensures report.malformedLinks == {} && report.externalLinks == {}
    {
      this.lib := lib;
      this.statusText := statusText;
      this.startURL := startURL;
      this.initialDepth := initialDepth;
      var r := new Report();
      r.allVisitedLinks := {lib.str(startURL)};
      report := r;
      visited := {lib.str(startURL)};
      queue := [CrawlTask(startURL, initialDepth)];
      results := [];
      fetched := [];
      dropped := {};
      processed := [];
      new;
      KeysOfAppend(lib, [], CrawlTask(startURL, initialDepth));
      assert Elems(Keys(queue)) == {lib.str(startURL)};
    }

    /**
     * A worker receives the oldest task, fetches it through the retry wrapper
     * (attempt i of URL u sees the exchange net(u, i)) and sends the result.
     */
    method WorkerStep(net: (string, nat) -> HttpOutcome)
      requires Valid() && queue != [] && |results| < TaskBufferSize
      modifies this`queue, this`results, this`fetched
      ensures Valid()
      ensures queue == old(queue)[1..]
      ensures |results| == |old(results)| + 1 && results[..|old(results)|] == old(results)
      ensures results[|results| - 1].task == old(queue)[0]
      ensures FetchedBy(lib, net, results[|results| - 1])
      ensures fetched == old(fetched) + [Key(old(queue)[0])]
      ensures Potential() == old(Potential()) && Scheduled() == old(Scheduled())
    {
      var task := queue[0];
      var target := lib.str(task.url);
      var res, attempts, sleeps := Work(lib, net, task);
      assert FetchedBy(lib, net, res);
      queue := queue[1..];
      results := results + [res];
      fetched := fetched + [target];
      WorkerStepKeeps(res);
    }

    /** Moving the head task to the back of the result channel keeps every invariant and the potential. */
    twostate lemma WorkerStepKeeps(res: CrawlResult)
      requires old(Valid()) && old(queue) != [] && |old(results)| < TaskBufferSize
      requires res.task == old(queue)[0]
      requires queue == old(queue)[1..] && results == old(results) + [res]
      requires fetched == old(fetched) + [Key(old(queue)[0])]
      requires unchanged(this`visited, this`dropped, this`processed, report)
      ensures Valid() && Potential() == old(Potential()) && Scheduled() == old(Scheduled())
    {
      var q0, r0 := old(queue), old(results);
      KeysOfFront(lib, q0);
      assert Scheduled() == old(Scheduled());
      LoadFront(q0);
      TasksOfAppend(r0, res);
      KeysOfAppend(lib, TasksOf(r0), res.task);
      LoadAppend(TasksOf(r0), res.task);
    }

    /**
     * A new link inside the start domain: it is marked visited (in the
     * dispatcher and in the report) before the send is tried, then queued at
     * `depth`, or dropped when the task channel is full.
     */
    method Admit(u: Url, depth: int) returns (queued: bool)
      requires Valid() && DepthOk(depth) && lib.str(u) !in visited
      modifies this`visited, this`queue, this`dropped, report`allVisitedLinks
      ensures Valid()
      ensures visited == old(visited) + {lib.str(u)}
      ensures queued <==> |old(queue)| < TaskBufferSize
      ensures queued ==> queue == old(queue) + [CrawlTask(u, depth)] && dropped == old(dropped)
      ensures !queued ==> queue == old(queue) && dropped == old(dropped) + {lib.str(u)}
    {
      var key := lib.str(u);
      var t := CrawlTask(u, depth);
      visited := visited + {key};
      report.allVisitedLinks := report.allVisitedLinks + {key};
      if |queue| < TaskBufferSize {
        queue := queue + [t];
        queued := true;
      } else {
        dropped := dropped + {key};
        queued := false;
      }
      AdmitKeeps(t);
    }

    /** Marking a new key visited and then queueing or dropping its task keeps every invariant. */
    twostate lemma AdmitKeeps(t: CrawlTask)
      requires old(Valid()) && DepthOk(t.depth) && Key(t) !in old(visited)
      requires visited == old(visited) + {Key(t)} && report.allVisitedLinks == visited
      requires if |old(queue)| < TaskBufferSize then queue == old(queue) + [t] && dropped == old(dropped)
               else queue == old(queue) && dropped == old(dropped) + {Key(t)}
      requires fetched == old(fetched) && results == old(results) && processed == old(processed)
      requires report.successfulPages == old(report.successfulPages) && report.failedPages == old(report.failedPages)
      requires report.totalCrawled == old(report.totalCrawled) && report.totalErrors == old(report.totalErrors)
      ensures Valid()
    {
      var s0, v0, d0 := old(Scheduled()), old(visited), old(dropped);
      if |old(queue)| < TaskBufferSize {
        KeysOfAppend(lib, old(queue), t);
        assert Scheduled() == s0 + [Key(t)];
        OnceQueue(s0, v0, d0, Key(t));
      } else {
        OnceDrop(s0, v0, d0, Key(t));
      }
    }

    /**
     * One link of an expanded result: one that does not parse is recorded as
     * malformed, one outside the start domain as external, and a new one
     * inside it is admitted; a link already visited changes nothing.
     */
    method HandleLink(linkStr: string, depth: int) returns (queued: bool, ghost sent: seq<CrawlTask>)
      requires Valid() && DepthOk(depth)
      modifies this`visited, this`queue, this`dropped
      modifies report`allVisitedLinks, report`malformedLinks, report`externalLinks
      ensures Valid()
      ensures queue == old(queue) + sent && (queued <==> sent != []) && |sent| <= 1
      ensures AtDepth(sent, depth)
      ensures dropped != old(dropped) ==> |queue| == TaskBufferSize
      ensures var kind := ClassifyLink(lib, startURL.host, linkStr);
        && report.malformedLinks == old(report.malformedLinks) + (if kind.Malformed? then {linkStr} else {})
        && report.externalLinks == old(report.externalLinks) + (if kind.External? then {linkStr} else {})
        && visited == old(visited) + (if kind.Internal? then {lib.str(kind.url)} else {})
      ensures match ClassifyLink(lib, startURL.host, linkStr)
        case Internal(u) =>
          && (queued <==> lib.str(u) !in old(visited) && |old(queue)| < TaskBufferSize)
          && (queued ==> sent == [CrawlTask(u, depth)])
          && dropped == old(dropped) + (if lib.str(u) !in old(visited) && !queued then {lib.str(u)} else {})
        case _ => !queued && dropped == old(dropped)
    {
      queued, sent := false, [];
      var parsed := lib.parse(linkStr);
      if parsed.None? {
        report.malformedLinks := report.malformedLinks + {linkStr};
        return;
      }
      var parsedLink := parsed.value;
      if IsSameDomain(parsedLink.host, startURL.host) {
        if lib.str(parsedLink) !in visited {
          queued := Admit(parsedLink, depth);
          if queued {
            sent := [CrawlTask(parsedLink, depth)];
          }
        }
      } else {
        report.externalLinks := report.externalLinks + {linkStr};
      }
    }

    /**
     * The links of one expanded result, handled in order at `depth`; reports
     * how many tasks were actually sent. The tasks sent are the internal
     * links not visited before, in link order, while the task channel had
     * room; the dropped keys grow by exactly the rest (Sends).
     */
    method ExpandLinks(links: seq<string>, depth: int) returns (added: nat, ghost sent: seq<CrawlTask>)
      requires Valid() && DepthOk(depth)
      modifies this`visited, this`queue, this`dropped
      modifies report`allVisitedLinks, report`malformedLinks, report`externalLinks
      ensures Valid()
      ensures queue == old(queue) + sent && |sent| == added && AtDepth(sent, depth)
      ensures visited == old(visited) + InternalKeys(lib, startURL.host, links)
      ensures report.malformedLinks == old(report.malformedLinks) + MalformedIn(lib, startURL.host, links)
      ensures report.externalLinks == old(report.externalLinks) + ExternalIn(lib, startURL.host, links)
      ensures dropped != old(dropped) ==> |queue| == TaskBufferSize
      ensures Load(queue) == Load(old(queue)) + Times(added, Weight(depth))
      ensures var s := Sends(lib, startURL.host, links, |links|, depth, old(visited), TaskBufferSize - |old(queue)|);
        sent == s.sent && dropped == old(dropped) + Elems(s.dropped)
      ensures old(visited) <= visited && old(dropped) <= dropped
    {
      added, sent := HandleLinks(links, depth);
      assert links[..|links|] == links;
      LinksSent(lib, startURL.host, links, depth, fetched, old(queue), sent, old(Scheduled()), Scheduled(),
                old(visited), old(dropped), visited, dropped);
      LoadConcat(old(queue), sent);
      LoadUniform(sent, depth);
    }

    /** The range loop over the links, keeping Expanded for each handled prefix. */
    method HandleLinks(links: seq<string>, depth: int) returns (added: nat, ghost sent: seq<CrawlTask>)
      requires Valid() && DepthOk(depth)
      modifies this`visited, this`queue, this`dropped
      modifies report`allVisitedLinks, report`malformedLinks, report`externalLinks
      ensures Valid() && |sent| == added
      ensures Expanded(old(queue), sent, old(visited), old(report.malformedLinks), old(report.externalLinks),
                       links, |links|, depth, TaskBufferSize - |old(queue)|)
    {
      added, sent := 0, [];
      ghost var vs, ms, es := visited, report.malformedLinks, report.externalLinks;
      ghost var room := TaskBufferSize - |queue|;
      for i := 0 to |links|
        invariant Valid()
        invariant |sent| == added
        invariant Expanded(old(queue), sent, vs, ms, es, links, i, depth, room)
      {
        added, sent := ExpandLink(links, i, depth, added, old(queue), sent, vs, ms, es, room);
      }
    }

    /**
     * One turn of the loop in HandleLinks: handle link `i`, given what the
     * links before it did to the queue and the three sets.
     */
    method ExpandLink(links: seq<string>, i: nat, depth: int, added: nat, ghost q0: seq<CrawlTask>, ghost sent: seq<CrawlTask>,
                      ghost vs: set<string>, ghost ms: set<string>, ghost es: set<string>, ghost room: int)
      returns (added': nat, ghost sent': seq<CrawlTask>)
      requires Valid() && DepthOk(depth) && i < |links|
      requires room == TaskBufferSize - |q0| && |sent| == added
      requires Expanded(q0, sent, vs, ms, es, links, i, depth, room)
      modifies this`visited, this`queue, this`dropped
      modifies report`allVisitedLinks, report`malformedLinks, report`externalLinks
      ensures Valid() && |sent'| == added'
      ensures Expanded(q0, sent', vs, ms, es, links, i + 1, depth, room)
    {
      ghost var v0, m0, e0 := visited, report.malformedLinks, report.externalLinks;
      var queued, t := HandleLink(links[i], depth);
      ExpandedStep(vs, ms, es, links, i, v0, m0, e0);
      SendsAdvance(lib, startURL.host, links, i, depth, vs, room, v0, |queue| - |t| < TaskBufferSize, sent, t);
      AppendAssoc(q0, sent, t);
      AtDepthConcat(sent, t, depth);
      added', sent' := added + (if queued then 1 else 0), sent + t;
    }

    /**
     * The first `n` of `links` handled at `depth`, from a queue `q0` with
     * `room` free slots and the three sets at `vs`, `ms` and `es`: the queue
     * holds the tasks they sent, in order, and the sets have grown by what
     * they hold.
     */
    ghost predicate Expanded(q0: seq<CrawlTask>, sent: seq<CrawlTask>, vs: set<string>, ms: set<string>, es: set<string>,
                             links: seq<string>, n: nat, depth: int, room: int)
      requires n <= |links|
      reads this`queue, this`visited, report`malformedLinks, report`externalLinks
    {
      && queue == q0 + sent && AtDepth(sent, depth)
      && sent == Sends(lib, startURL.host, links, n, depth, vs, room).sent
      && SetsGrown(vs, ms, es, links, n)
    }

    /** The three sets grown by handling `links`, from the given start values. */
    ghost predicate SetsGrown(vs: set<string>, ms: set<string>, es: set<string>, links: seq<string>, n: nat)
      requires n <= |links|
      reads this`visited, report`malformedLinks, report`externalLinks
    {
      && visited == vs + InternalKeys(lib, startURL.host, links[..n])
      && report.malformedLinks == ms + MalformedIn(lib, startURL.host, links[..n])
      && report.externalLinks == es + ExternalIn(lib, startURL.host, links[..n])
    }

    lemma ExpandedStep(vs: set<string>, ms: set<string>, es: set<string>, links: seq<string>, i: nat,
                       v0: set<string>, m0: set<string>, e0: set<string>)
      requires i < |links|
      requires v0 == vs + InternalKeys(lib, startURL.host, links[..i])
      requires m0 == ms + MalformedIn(lib, startURL.host, links[..i])
      requires e0 == es + ExternalIn(lib, startURL.host, links[..i])
      requires var kind := ClassifyLink(lib, startURL.host, links[i]);
        && report.malformedLinks == m0 + (if kind.Malformed? then {links[i]} else {})
        && report.externalLinks == e0 + (if kind.External? then {links[i]} else {})
        && visited == v0 + (if kind.Internal? then {lib.str(kind.url)} else {})
      ensures SetsGrown(vs, ms, es, links, i + 1)
    {
      LinksSetsStep(lib, startURL.host, links, i, vs, v0, visited,
        ms, m0, report.malformedLinks, es, e0, report.externalLinks);
    }

    /**
     * The head of a dispatcher step: receive the oldest result, count it off
     * the pending tasks and record it in the report.
     */
    method Record() returns (res: CrawlResult)
      requires Valid() && results != []
      modifies this`results, this`processed
      modifies report`successfulPages, report`failedPages, report`totalCrawled, report`totalErrors, report`malformedLinks
      ensures res == old(results)[0] && DepthOk(res.task.depth)
      ensures results == old(results)[1..]
      ensures processed == old(processed) + [Key(res.task)]
      ensures Valid()
      ensures Potential() + Weight(res.task.depth) == old(Potential())
      ensures match Classify(statusText, res)
        case Succeeded(d) =>
          && report.successfulPages == old(report.successfulPages)[Key(res.task) := d]
          && report.failedPages == old(report.failedPages)
          && report.totalCrawled == old(report.totalCrawled) + 1 && report.totalErrors == old(report.totalErrors)
        case Failed(e) =>
          && report.failedPages == old(report.failedPages)[Key(res.task) := e]
          && report.successfulPages == old(report.successfulPages)
          && report.totalErrors == old(report.totalErrors) + 1 && report.totalCrawled == old(report.totalCrawled)
      ensures report.malformedLinks == old(report.malformedLinks) + (if res.err.None? then Elems(res.failedLinks) else {})
      ensures report.allVisitedLinks == old(report.allVisitedLinks) && report.externalLinks == old(report.externalLinks)
    {
      res := results[0];
      results := results[1..];
      processed := processed + [Key(res.task)];
      report.ProcessResult(lib, statusText, res);
      assert report.totalCrawled + report.totalErrors == old(report.totalCrawled + report.totalErrors) + 1;
      RecordKeeps(res);
    }

    /** Handling the oldest result keeps the results in fetch order and lowers the potential by that task's weight. */
    twostate lemma RecordKeepsOrder(res: CrawlResult)
      requires old(InOrder()) && old(ScheduledOnce()) && old(results) != [] && res == old(results)[0]
      requires results == old(results)[1..] && processed == old(processed) + [Key(res.task)]
      requires unchanged(this`queue, this`fetched)
      ensures InOrder() && Key(res.task) !in Elems(old(processed))
      ensures Potential() + Weight(res.task.depth) == old(Potential())
    {
      HeadInOrder(lib, old(results), old(processed), fetched, Keys(queue));
    }

    /** Handling the oldest result keeps every invariant. */
    twostate lemma RecordKeeps(res: CrawlResult)
      requires old(Valid()) && old(results) != [] && res == old(results)[0]
      requires results == old(results)[1..]
      requires processed == old(processed) + [Key(res.task)]
      requires unchanged(this`queue, this`fetched, this`visited, this`dropped)
      requires report.allVisitedLinks == old(report.allVisitedLinks)
      requires || (report.successfulPages.Keys == old(report.successfulPages.Keys) + {Key(res.task)}
                   && report.failedPages.Keys == old(report.failedPages.Keys))
               || (report.failedPages.Keys == old(report.failedPages.Keys) + {Key(res.task)}
                   && report.successfulPages.Keys == old(report.successfulPages.Keys))
      requires report.totalCrawled + report.totalErrors == old(report.totalCrawled + report.totalErrors) + 1
      ensures Valid() && DepthOk(res.task.depth)
      ensures Potential() + Weight(res.task.depth) == old(Potential())
    {
      assert res in old(results);
      RecordKeepsOrder(res);
      PageAdded(old(report.successfulPages.Keys), old(report.failedPages.Keys),
        report.successfulPages.Keys, report.failedPages.Keys, old(processed), Key(res.task));
    }

    /**
     * The tail of a dispatcher step: a result that expands has its links
     * handled one level shallower and the tasks sent are added to the pending
     * count; any other result changes nothing more. What it sends and drops
     * is Expansion's. The tasks sent weigh less than the result's own task.
     */
    method Expand(res: CrawlResult) returns (added: nat, ghost sent: seq<CrawlTask>)
      requires Valid() && DepthOk(res.task.depth)
      modifies this`visited, this`queue, this`dropped
      modifies report`allVisitedLinks, report`malformedLinks, report`externalLinks
      ensures Valid()
      ensures queue == old(queue) + sent && |sent| == added && AtDepth(sent, res.task.depth - 1)
      ensures Expands(res) ==>
        && visited == old(visited) + InternalKeys(lib, startURL.host, res.links)
        && report.malformedLinks == old(report.malformedLinks) + MalformedIn(lib, startURL.host, res.links)
        && report.externalLinks == old(report.externalLinks) + ExternalIn(lib, startURL.host, res.links)
      ensures var x := Expansion(lib, startURL.host, res, old(visited), TaskBufferSize - |old(queue)|);
        sent == x.sent && dropped == old(dropped) + Elems(x.dropped)
      ensures !Expands(res) ==> sent == [] && unchanged(this`visited, this`dropped, report`malformedLinks, report`externalLinks)
      ensures old(visited) <= visited && old(dropped) <= dropped
      ensures dropped != old(dropped) ==> |queue| == TaskBufferSize
      ensures Load(queue) < Load(old(queue)) + Weight(res.task.depth)
    {
      added, sent := 0, [];
      if Expands(res) {
        added, sent := ExpandLinks(res.links, res.task.depth - 1);
        ChildrenLighter(res.task.depth, added);
      }
    }

    /**
     * One dispatcher step: receive and record the oldest result, then expand
     * it; the potential goes down.
     */
    method HandleResult() returns (added: nat, ghost sent: seq<CrawlTask>)
      requires Valid() && results != []
      modifies this`results, this`processed, this`visited, this`queue, this`dropped, report
      ensures Valid()
      ensures results == old(results)[1..] && processed == old(processed) + [Key(old(results)[0].task)]
      ensures queue == old(queue) + sent && |sent| == added && AtDepth(sent, old(results)[0].task.depth - 1)
      ensures Potential() < old(Potential()) && Scheduled() == old(Scheduled()) + Keys(sent)
      ensures var res := old(results)[0]; match Classify(statusText, res)
        case Succeeded(d) =>
          && report.successfulPages == old(report.successfulPages)[Key(res.task) := d]
          && report.failedPages == old(report.failedPages)
          && report.totalCrawled == old(report.totalCrawled) + 1 && report.totalErrors == old(report.totalErrors)
        case Failed(e) =>
          && report.failedPages == old(report.failedPages)[Key(res.task) := e]
          && report.successfulPages == old(report.successfulPages)
          && report.totalErrors == old(report.totalErrors) + 1 && report.totalCrawled == old(report.totalCrawled)
      ensures var res := old(results)[0];
        && report.malformedLinks == old(report.malformedLinks) + (if res.err.None? then Elems(res.failedLinks) else {})
                                    + (if Expands(res) then MalformedIn(lib, startURL.host, res.links) else {})
        && report.externalLinks == old(report.externalLinks) + (if Expands(res) then ExternalIn(lib, startURL.host, res.links) else {})
      ensures dropped == old(dropped) + (visited - old(visited) - Elems(Keys(sent)))
      ensures visited == old(visited) + (if Expands(old(results)[0]) then InternalKeys(lib, startURL.host, old(results)[0].links) else {})
      ensures old(visited) <= visited && old(dropped) <= dropped
      ensures dropped != old(dropped) ==> |queue| == TaskBufferSize
      ensures sent == Expansion(lib, startURL.host, old(results)[0], old(visited), TaskBufferSize - |old(queue)|).sent
    {
      // Expand touches only the visited and dropped sets, the task channel
      // and the report's link sets, and Record none of these but the
      // malformed links, to which both only add: expanding before recording
      // ends in the same state and lets Expand start from the state before
      // the step.
      ghost var q0 := queue;
      assert results[0] in results;
      added, sent := Expand(results[0]);
      ghost var mid := Potential();
      var res := Record();
      assert Potential() + Weight(res.task.depth) == mid;
      KeysOfConcat(lib, q0, sent);
      AppendAssoc(fetched, Keys(q0), Keys(sent));
      OnceGrown(old(Scheduled()), Keys(sent), old(visited), old(dropped), visited, dropped);
    }

    /**
     * The crawl after the seed send, with the goroutines interleaved by
     * `schedule`: while tasks are pending, either the dispatcher handles a
     * result or a worker fetches a task. The dispatcher must step when the
     * task channel is empty or the result channel full (a worker would block),
     * and a worker must step when there is no result to receive. The loop
     * ends when nothing is pending: every queued task was fetched and every
     * fetched result handled, in order.
     */
    method Run(net: (string, nat) -> HttpOutcome, schedule: nat -> bool)
      requires Valid() && |queue| == 1 && results == []
      requires Scheduled() != [] && Scheduled()[0] == lib.str(startURL)
      modifies this`results, this`processed, this`visited, this`queue, this`dropped, this`fetched, report
      ensures Valid() && queue == [] && results == []
      ensures processed == fetched && NoDup(processed)
      ensures processed != [] && processed[0] == lib.str(startURL)
      ensures report.allVisitedLinks == Elems(processed) + dropped && Elems(processed) !! dropped
      ensures report.successfulPages.Keys + report.failedPages.Keys == Elems(processed)
      ensures report.totalCrawled + report.totalErrors == |processed|
      ensures old(visited) <= visited && old(dropped) <= dropped
    {
      var pendingTasks := 1;
      var step: nat := 0;
      while pendingTasks > 0
        invariant Valid() && Scheduled() != [] && Scheduled()[0] == lib.str(startURL)
        invariant pendingTasks == |queue| + |results|
        invariant old(visited) <= visited && old(dropped) <= dropped
        decreases Potential(), |queue|
      {
        if results != [] && (queue == [] || |results| == TaskBufferSize || schedule(step)) {
          ghost var v, d := visited, dropped;
          var added, _ := HandleResult();
          pendingTasks := pendingTasks - 1 + added;
          assert Scheduled()[0] == lib.str(startURL);
          SubsetTransitive(old(visited), v, visited);
          SubsetTransitive(old(dropped), d, dropped);
          assert pendingTasks == |queue| + |results|;
        } else {
          WorkerStep(net);
        }
        step := step + 1;
      }
      assert Keys(queue) == [] && TasksOf(results) == [];
      assert Scheduled() == fetched;
    }
  }

  /**
   * Crawl: set up the report and the dispatcher, send the seed task, and run
   * until nothing is pending. The closing drain of the result channel finds
   * it empty. Every page handled was visited once, the start URL first; each
   * visited URL was either handled or dropped for a full task channel; the
   * report lists every handled page exactly once.
   */
  method Crawl(lib: UrlLib, statusText: int -> string, net: (string, nat) -> HttpOutcome,
               schedule: nat -> bool, startURL: Url, initialDepth: int) returns (d: Dispatcher)
    ensures fresh(d) && fresh(d.report) && d.Valid()
    ensures d.lib == lib && d.startURL == startURL && d.initialDepth == initialDepth
    ensures d.queue == [] && d.results == []
    ensures d.processed != [] && d.processed[0] == lib.str(startURL) && NoDup(d.processed)
    ensures d.report.allVisitedLinks == Elems(d.processed) + d.dropped && Elems(d.processed) !! d.dropped
    ensures d.report.successfulPages.Keys + d.report.failedPages.Keys == Elems(d.processed)
    ensures d.report.successfulPages.Keys !! d.report.failedPages.Keys
    ensures d.report.totalCrawled + d.report.totalErrors == |d.processed|
  {
    d := new Dispatcher(lib, statusText, startURL, initialDepth);
    KeysOfAppend(lib, [], CrawlTask(startURL, initialDepth));
    assert d.Scheduled() == [lib.str(startURL)];
    d.Run(net, schedule);
  }
}
