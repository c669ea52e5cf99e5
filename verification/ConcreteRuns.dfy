/** How to follow one concrete run of two servers step by step. */
module ConcreteRuns {
  import opened PaxosData
  import opened RoundRobin
  import opened Handlers
  import opened Cluster
  import opened Runs

  // ---------- One step ----------

  lemma PostNone(agenda: map<nat, Item>, next: nat)
    ensures Post(agenda, next, []) == agenda
  {
  }

  lemma PostOne(agenda: map<nat, Item>, next: nat, it: Item)
    ensures Post(agenda, next, [it]) == agenda[next := it]
  {
  }

  lemma PostTwo(agenda: map<nat, Item>, next: nat, a: Item, b: Item)
    ensures Post(agenda, next, [a, b]) == agenda[next := a][next + 1 := b]
  {
  }

  lemma Tick(cfg: Config, w: World, t: nat)
    requires Reached(cfg, w) && w.now <= t && forall u :: u in w.agenda ==> InTime(cfg, t, w.agenda[u])
    ensures Reached(cfg, w.(now := t))
  {
    Next(cfg, w, Advance(t), w.(now := t));
  }

  lemma RunEvent(cfg: Config, w: World, u: nat, i: nat, ev: Event, e: Effect, h: History, w': World)
    requires Reached(cfg, w) && u in w.agenda && w.agenda[u] == Local(i, ev, w.now) && i < cfg.n
    requires HandleEvent(cfg, i, w.servers[i], ev, w.now) == e
    requires EventHistory(cfg, w.h, i, w.servers[i], ev, w.now) == h
    requires w' == Commit(w, u, i, e, h)
    ensures Reached(cfg, w')
  {
    Next(cfg, w, Fire(u, 0), w');
  }

  lemma RunFrame(cfg: Config, w: World, u: nat, i: nat, f: Frame, t: nat, e: Effect, h: History, w': World)
    requires Reached(cfg, w) && u in w.agenda && w.agenda[u] == FrameTo(i, f, t) && i < cfg.n
    requires ReceiveMessage(cfg, i, w.servers[i], f, w.now) == e
    requires MessageHistory(cfg, w.h, i, w.servers[i], f, w.now) == h
    requires w' == Commit(w, u, i, e, h)
    ensures Reached(cfg, w')
  {
    Next(cfg, w, Fire(u, 0), w');
  }

  lemma CommitNone(w: World, u: nat, i: nat, v: Server, h: History)
    requires i < |w.servers|
    ensures Commit(w, u, i, Effect(v, []), h) == w.(servers := w.servers[i := v], agenda := w.agenda - {u}, h := h)
  {
    PostNone(w.agenda - {u}, w.nextUid);
  }

  lemma CommitOne(w: World, u: nat, i: nat, v: Server, o: Output, h: History)
    requires i < |w.servers|
    ensures Commit(w, u, i, Effect(v, [o]), h) ==
            w.(servers := w.servers[i := v], agenda := (w.agenda - {u})[w.nextUid := ItemOf(i, w.now, o)],
            nextUid := w.nextUid + 1, h := h)
  {
    assert ItemsOf(i, w.now, [o]) == [ItemOf(i, w.now, o)];
    PostOne(w.agenda - {u}, w.nextUid, ItemOf(i, w.now, o));
  }

  lemma CommitTwo(w: World, u: nat, i: nat, v: Server, o: Output, p: Output, h: History)
    requires i < |w.servers|
    ensures Commit(w, u, i, Effect(v, [o, p]), h) ==
            w.(servers := w.servers[i := v],
            agenda := (w.agenda - {u})[w.nextUid := ItemOf(i, w.now, o)][w.nextUid + 1 := ItemOf(i, w.now, p)],
            nextUid := w.nextUid + 2, h := h)
  {
    assert ItemsOf(i, w.now, [o, p]) == [ItemOf(i, w.now, o), ItemOf(i, w.now, p)];
    PostTwo(w.agenda - {u}, w.nextUid, ItemOf(i, w.now, o), ItemOf(i, w.now, p));
  }

  /** What the world is after the client's step. */
  function Requested(cfg: Config, w: World, u: nat, value: nat): World
    requires cfg.n > 0
  {
    var dst := NextServer(w.lastServerId, cfg.n);
    w.(agenda := (w.agenda - {u})[w.nextUid := RequestTo(dst, Request(w.now, value), w.now)]
    [w.nextUid + 1 := ClientSend(w.now + cfg.interval)],
    nextUid := w.nextUid + 2, lastServerId := dst,
    h := w.h.(requests := w.h.requests[w.now := RequestInfo(value, dst)]))
  }

  lemma ClientFires(cfg: Config, w: World, u: nat, value: nat)
    requires cfg.n > 0 && w.now < cfg.stop
    ensures FireClient(cfg, w, u, value) == Requested(cfg, w, u, value)
  {
    hide Post;
    var dst := NextServer(w.lastServerId, cfg.n);
    PostTwo(w.agenda - {u}, w.nextUid, RequestTo(dst, Request(w.now, value), w.now), ClientSend(w.now + cfg.interval));
  }

  lemma RunClient(cfg: Config, w: World, u: nat, value: nat, w': World)
    requires Reached(cfg, w) && u in w.agenda && w.agenda[u] == ClientSend(w.now) && w.now < cfg.stop
    requires w' == Requested(cfg, w, u, value)
    ensures Reached(cfg, w')
  {
    hide Requested;
    ClientFires(cfg, w, u, value);
    Next(cfg, w, Fire(u, value), w');
  }

  lemma RunRequest(cfg: Config, w: World, u: nat, i: nat, req: Request, t: nat, w': World)
    requires Reached(cfg, w) && u in w.agenda && w.agenda[u] == RequestTo(i, req, t) && i < cfg.n
    requires (cfg.async ==> i == cfg.leader)
    requires w' == w.(agenda := (w.agenda - {u})[w.nextUid := Local(i, CreateProposal(req), w.now + HANDLING_DELAY)],
                      nextUid := w.nextUid + 1)
    ensures Reached(cfg, w')
  {
    CommitOne(w, u, i, w.servers[i], Schedule(HANDLING_DELAY, CreateProposal(req)), w.h);
    assert w.servers[i := w.servers[i]] == w.servers;
    Next(cfg, w, Fire(u, 0), w');
  }

  // ---------- The beginning of a run of two servers ----------

  function NoHistoryYet(): History {
    History(map[], {}, [[], []], [[], []], map[], map[], map[], [], map[], [[], []], [0, 0], [0, 0])
  }

  lemma PostFour(a: Item, b: Item, c: Item, d: Item)
    ensures Post(map[], 0, [a, b, c, d]) == map[0 := a, 1 := b, 2 := c, 3 := d]
  {
  }

  lemma PostFive(a: Item, b: Item, c: Item, d: Item, e: Item)
    ensures Post(map[], 0, [a, b, c, d, e]) == map[0 := a, 1 := b, 2 := c, 3 := d, 4 := e]
  {
  }

  lemma TwoServers()
    ensures Repeat(2, EMPTY_SERVER) == [EMPTY_SERVER, EMPTY_SERVER]
  {
  }

  lemma NoHistory()
    ensures EmptyHistory(2) == NoHistoryYet()
  {
    assert Repeat<seq<nat>>(2, []) == [[], []] && Repeat<seq<Record>>(2, []) == [[], []] && Repeat(2, 0) == [0, 0];
  }

  lemma AppendSecond<T>(a: seq<T>, x: T)
    ensures Append([a, []], 1, x) == [a, [x]]
  {
    assert [] + [x] == [x];
  }

  lemma AppendFirst<T>(b: seq<T>, x: T)
    ensures Append([[], b], 0, x) == [[x], b]
  {
    assert [] + [x] == [x];
  }

  lemma OneOther(i: nat, f: Frame)
    requires i < 2
    ensures Broadcast(2, i, f) == [Send(1 - i, f)]
  {
  }
}
