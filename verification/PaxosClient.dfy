/** The client, and how evenly it spreads its requests over a whole run. */
module PaxosClient {
  import opened PaxosData
  import opened RoundRobin
  import opened Cluster
  import opened AgendaInvariant
  import opened Steps
  import opened Runs

  class PaxosAppClient {
    const cfg: Config
    var lastServerId: nat
    /** Packets sent and events scheduled, oldest first. */
    var outbox: seq<Item>

    /** The field starts with whatever the memory held. */
    constructor (cfg: Config, lastServerId: nat)
      ensures this.cfg == cfg && this.lastServerId == lastServerId && outbox == []
    {
      this.cfg, this.lastServerId, outbox := cfg, lastServerId, [];
    }

    /** One request to the next server and one timer, or nothing once the stop time has come. */
    method SendRequest(now: nat, value: nat)
      requires cfg.n > 0
      modifies this`lastServerId, this`outbox
      ensures outbox == old(outbox) + ClientOutputs(cfg, old(lastServerId), now, value)
      ensures now >= cfg.stop ==> outbox == old(outbox) && lastServerId == old(lastServerId)
      ensures now < cfg.stop ==>
                && lastServerId == (old(lastServerId) + 1) % 0x1_0000_0000 % cfg.n
                && outbox == old(outbox) + [RequestTo(lastServerId, Request(now, value), now),
                                            ClientSend(now + cfg.interval)]
    {
      if now >= cfg.stop { return; }
      var request := Request(now, value);
      var curServerId := ((lastServerId + 1) % WIDTH) % cfg.n;
      lastServerId := curServerId;
      outbox := outbox + [RequestTo(curServerId, request, now)];
      outbox := outbox + [ClientSend(now + cfg.interval)];
    }
  }

  // ---------- Requests of a run ----------

  /** The requests sent to this server. */
  ghost function Addressed(h: History, server: nat): set<nat> {
    set ts | ts in h.requests && h.requests[ts].dst == server
  }

  ghost predicate InTurn(cfg: Config, w: World, last: nat)
    requires cfg.n > 0
  {
    && w.lastServerId == LastAfter(last, cfg.n, |w.h.requests|)
    && forall s :: 0 <= s < cfg.n ==> |Addressed(w.h, s)| == Count(Sends(last, cfg.n, |w.h.requests|), s)
  }

  lemma AcceptRequests(cfg: Config, h: History, i: nat, v: Server, f: Frame, now: nat)
    requires i < cfg.n && i < |h.recorded|
    ensures AcceptHistory(cfg, h, i, v, f, now).requests == h.requests
  {
  }

  lemma AckRequests(cfg: Config, h: History, i: nat, v: Server, f: Frame, now: nat)
    requires i < cfg.n && i < |h.recorded| && i < |h.issued| && i < |h.rounds|
    ensures DecisionAckHistory(cfg, h, i, v, f, now).requests == h.requests
  {
  }

  lemma MessageRequests(cfg: Config, h: History, i: nat, v: Server, f: Frame, now: nat)
    requires i < cfg.n && i < |h.recorded| && i < |h.issued| && i < |h.rounds|
    ensures MessageHistory(cfg, h, i, v, f, now).requests == h.requests
  {
    AcceptRequests(cfg, h, i, v, f, now);
    AckRequests(cfg, h, i, v, f, now);
  }

  lemma EventRequests(cfg: Config, h: History, i: nat, v: Server, e: Event, now: nat)
    requires i < cfg.n && i < |h.recorded| && i < |h.issued| && i < |h.rounds| && i < |h.created| && i < |h.cut|
    ensures EventHistory(cfg, h, i, v, e, now).requests == h.requests
  {
  }

  /** Only the client's own step sends a request. */
  lemma OthersSendNone(cfg: Config, w: World, step: Step)
    requires cfg.n > 0 && Enabled(cfg, w, step)
    requires !(step.Fire? && w.agenda[step.uid].ClientSend?)
    ensures Apply(cfg, w, step).h.requests == w.h.requests && Apply(cfg, w, step).lastServerId == w.lastServerId
  {
    match step
    case Fire(u, _) => {
      match w.agenda[u]
      case FrameTo(i, f, _) => MessageRequests(cfg, w.h, i, w.servers[i], f, w.now);
      case Local(i, e, _) => EventRequests(cfg, w.h, i, w.servers[i], e, w.now);
      case _ =>
    }
    case _ =>
  }

  lemma AddressedHere(h: History, h': History, ts: nat, value: nat, dst: nat)
    requires ts !in h.requests && h'.requests == h.requests[ts := RequestInfo(value, dst)]
    ensures |Addressed(h', dst)| == |Addressed(h, dst)| + 1
  {
    assert Addressed(h', dst) == Addressed(h, dst) + {ts};
  }

  lemma AddressedMore(h: History, h': History, ts: nat, value: nat, dst: nat, server: nat)
    requires ts !in h.requests && h'.requests == h.requests[ts := RequestInfo(value, dst)]
    ensures |h'.requests| == |h.requests| + 1
    ensures |Addressed(h', server)| == |Addressed(h, server)| + if server == dst then 1 else 0
  {
    assert h'.requests.Keys == h.requests.Keys + {ts};
    if server == dst {
      AddressedHere(h, h', ts, value, dst);
    } else {
      assert Addressed(h', server) == Addressed(h, server);
    }
  }

  lemma CountMore(last: nat, n: nat, k: nat, server: nat)
    requires n > 0
    ensures LastAfter(last, n, k + 1) == NextServer(LastAfter(last, n, k), n)
    ensures Count(Sends(last, n, k + 1), server) ==
            Count(Sends(last, n, k), server) + if server == NextServer(LastAfter(last, n, k), n) then 1 else 0
  {
    LastIsSent(last, n, k);
    assert Sends(last, n, k + 1)[..k] == Sends(last, n, k);
  }

  lemma OneMore(cfg: Config, w: World, w': World, last: nat, dst: nat, value: nat)
    requires cfg.n > 0 && InTurn(cfg, w, last) && w.now !in w.h.requests && dst == NextServer(w.lastServerId, cfg.n)
    requires w'.lastServerId == dst && w'.h.requests == w.h.requests[w.now := RequestInfo(value, dst)]
    ensures InTurn(cfg, w', last)
  {
    CountMore(last, cfg.n, |w.h.requests|, 0);
    AddressedMore(w.h, w'.h, w.now, value, dst, 0);
    forall s | 0 <= s < cfg.n ensures |Addressed(w'.h, s)| == Count(Sends(last, cfg.n, |w'.h.requests|), s) {
      CountMore(last, cfg.n, |w.h.requests|, s);
      AddressedMore(w.h, w'.h, w.now, value, dst, s);
    }
  }

  lemma StepInTurn(cfg: Config, w: World, step: Step, last: nat)
    requires cfg.n > 0 && WorldInv(cfg, w) && Enabled(cfg, w, step) && InTurn(cfg, w, last)
    ensures InTurn(cfg, Apply(cfg, w, step), last)
  {
    if step.Fire? && w.agenda[step.uid].ClientSend? {
      ClientFacts(cfg, w, step.uid);
      if w.now < cfg.stop {
        OneMore(cfg, w, Apply(cfg, w, step), last, NextServer(w.lastServerId, cfg.n), step.value);
      }
    } else {
      OthersSendNone(cfg, w, step);
      assert forall s :: Addressed(Apply(cfg, w, step).h, s) == Addressed(w.h, s);
    }
  }

  lemma {:induction false} RunInTurn(cfg: Config, w: World, steps: seq<Step>, last: nat)
    requires cfg.n > 0 && WorldInv(cfg, w) && Legal(cfg, w, steps) && InTurn(cfg, w, last)
    ensures InTurn(cfg, Exec(cfg, w, steps), last)
    decreases |steps|
  {
    if steps != [] {
      StepKeeps(cfg, w, steps[0]);
      StepInTurn(cfg, w, steps[0], last);
      RunInTurn(cfg, Apply(cfg, w, steps[0]), steps[1..], last);
    }
  }

  /** Whatever the servers and the network do, and whatever the client's field held at the start:
      a run that has sent k requests sent each server floor(k / n) or ceil(k / n) of them. */
  lemma RequestsBalanced(cfg: Config, w: World, server: nat)
    requires Reached(cfg, w) && cfg.n <= WIDTH && server < cfg.n
    ensures var k, c := |w.h.requests|, |Addressed(w.h, server)|;
      k / cfg.n <= c <= k / cfg.n + if k % cfg.n == 0 then 0 else 1
  {
    var last: nat, steps: seq<Step> :|
      last < WIDTH && Legal(cfg, InitialWorld(cfg, last), steps) && w == Exec(cfg, InitialWorld(cfg, last), steps);
    var w0 := InitialWorld(cfg, last);
    InitialHolds(cfg, last);
    assert forall s :: Addressed(w0.h, s) == {};
    assert |w0.h.requests| == 0;
    RunInTurn(cfg, w0, steps, last);
    Balance(last, cfg.n, |w.h.requests|, server);
  }
}
