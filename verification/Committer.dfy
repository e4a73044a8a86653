/**
 The hand-off between producers and committers: each shard's ring, its `pending` and `claimed` flags and the
 shared injector, one atomic operation a step, in any interleaving.
 */
module Committer {
  import opened Basics

  datatype Op = Op(inode: nat, payload: nat)

  datatype Producer =
    | Ready
    | Pushed(shard: nat)   // its op is in the ring
    | Marked(shard: nat)   // it set `pending`, and owes the injector the shard

  datatype Worker =
    | Idle
    | Popped(shard: nat)   // took the shard from the injector
    | Cleared(shard: nat)  // reset `pending`
    | Refused(shard: nat)  // somebody else has the claim
    | Draining(shard: nat)
    | Holding(shard: nat)  // has an op in hand
    | Leaving(shard: nat)  // found the ring empty

  /**
   `claimed`: whether a worker has the shard, and which; `hand`: the op a worker has popped and not appended;
   `pushed`, `appended`: all there ever was, shard by shard; `pushLog`, `appendLog`: the same over all shards.
   */
  datatype State = State(
    rings: seq<seq<Op>>,
    pending: seq<bool>,
    claimed: seq<Option<nat>>,
    injector: seq<nat>,
    producers: seq<Producer>,
    workers: seq<Worker>,
    hand: seq<seq<Op>>,
    pushed: seq<seq<Op>>,
    appended: seq<seq<Op>>,
    pushLog: seq<Op>,
    appendLog: seq<Op>)

  /** How ops are routed, and how many a ring holds. */
  datatype Config = Config(shards: nat, capacity: nat, route: nat -> nat)

  datatype Step =
    | Push(p: nat, op: Op)
    | Mark(p: nat)
    | Enqueue(p: nat)
    | Steal(w: nat)
    | Clear(w: nat)
    | Claim(w: nat)
    | PutBack(w: nat)
    | Pop(w: nat)
    | Append(w: nat)
    | Release(w: nat)

  predicate Shaped(cfg: Config, s: State) {
    && |s.rings| == |s.pending| == |s.claimed| == |s.hand| == |s.pushed| == |s.appended| == cfg.shards
    && (forall i :: 0 <= i < |s.injector| ==> s.injector[i] < cfg.shards)
    && (forall p :: 0 <= p < |s.producers| ==> s.producers[p].Ready? || s.producers[p].shard < cfg.shards)
    && (forall w :: 0 <= w < |s.workers| ==> s.workers[w].Idle? || s.workers[w].shard < cfg.shards)
  }

  predicate Enabled(cfg: Config, s: State, a: Step) {
    match a
    case Push(p, op) =>
      p < |s.producers| && s.producers[p].Ready? && cfg.route(op.inode) < cfg.shards
      && Shaped(cfg, s) && |s.rings[cfg.route(op.inode)]| < cfg.capacity
    case Mark(p) => p < |s.producers| && s.producers[p].Pushed?
    case Enqueue(p) => p < |s.producers| && s.producers[p].Marked?
    case Steal(w) => w < |s.workers| && s.workers[w].Idle? && s.injector != []
    case Clear(w) => w < |s.workers| && s.workers[w].Popped?
    case Claim(w) => w < |s.workers| && s.workers[w].Cleared?
    case PutBack(w) => w < |s.workers| && s.workers[w].Refused?
    case Pop(w) => w < |s.workers| && s.workers[w].Draining?
    case Append(w) => w < |s.workers| && s.workers[w].Holding?
    case Release(w) => w < |s.workers| && s.workers[w].Leaving?
  }

  function Apply(cfg: Config, s: State, a: Step): State
    requires Shaped(cfg, s) && Enabled(cfg, s, a)
  {
    match a
    case Push(p, op) =>
      var k := cfg.route(op.inode);
      s.(rings := s.rings[k := s.rings[k] + [op]], pushed := s.pushed[k := s.pushed[k] + [op]],
         producers := s.producers[p := Pushed(k)], pushLog := s.pushLog + [op])
    case Mark(p) =>
      var k := s.producers[p].shard;
      if s.pending[k] then s.(producers := s.producers[p := Ready])
      else s.(pending := s.pending[k := true], producers := s.producers[p := Marked(k)])
    case Enqueue(p) =>
      s.(injector := s.injector + [s.producers[p].shard], producers := s.producers[p := Ready])
    case Steal(w) =>
      s.(injector := s.injector[1..], workers := s.workers[w := Popped(s.injector[0])])
    case Clear(w) =>
      var k := s.workers[w].shard;
      s.(pending := s.pending[k := false], workers := s.workers[w := Cleared(k)])
    case Claim(w) =>
      var k := s.workers[w].shard;
      if s.claimed[k].Some? then s.(workers := s.workers[w := Refused(k)])
      else s.(claimed := s.claimed[k := Some(w)], workers := s.workers[w := Draining(k)])
    case PutBack(w) =>
      s.(injector := s.injector + [s.workers[w].shard], workers := s.workers[w := Idle])
    case Pop(w) =>
      var k := s.workers[w].shard;
      if s.rings[k] == [] then s.(workers := s.workers[w := Leaving(k)])
      else s.(rings := s.rings[k := s.rings[k][1..]], hand := s.hand[k := [s.rings[k][0]]],
        workers := s.workers[w := Holding(k)])
    case Append(w) =>
      var k := s.workers[w].shard;
      s.(appended := s.appended[k := s.appended[k] + s.hand[k]], hand := s.hand[k := []],
         workers := s.workers[w := Draining(k)], appendLog := s.appendLog + s.hand[k])
    case Release(w) =>
      var k := s.workers[w].shard;
      s.(claimed := s.claimed[k := None], workers := s.workers[w := Idle])
  }

  predicate Init(cfg: Config, s: State) {
    && Shaped(cfg, s) && s.injector == [] && s.pushLog == [] && s.appendLog == []
    && (forall p :: 0 <= p < |s.producers| ==> s.producers[p].Ready?)
    && (forall w :: 0 <= w < |s.workers| ==> s.workers[w].Idle?)
    && (forall k :: 0 <= k < cfg.shards ==>
          s.rings[k] == [] && !s.pending[k] && s.claimed[k] == None && s.hand[k] == [] && s.pushed[k] == []
            && s.appended[k] == [])
  }

  // ---------------------------------------------------------------------------------------------
  // What every step keeps.
  // ---------------------------------------------------------------------------------------------

  /** Worker `w` has the claim on shard `k`. */
  predicate Has(s: State, w: nat, k: nat)
    requires w < |s.workers|
  {
    (s.workers[w].Draining? || s.workers[w].Holding? || s.workers[w].Leaving?) && s.workers[w].shard == k
  }

  /** A shard's claim is with the one worker that is draining it. */
  ghost predicate Exclusive(cfg: Config, s: State)
    requires Shaped(cfg, s)
  {
    && (forall w, k :: 0 <= w < |s.workers| && 0 <= k < cfg.shards ==> (Has(s, w, k) <==> s.claimed[k] == Some(w)))
    && (forall k :: 0 <= k < cfg.shards && s.claimed[k].Some? ==> s.claimed[k].value < |s.workers|)
    && (forall k :: 0 <= k < cfg.shards && s.hand[k] != [] ==>
          s.claimed[k].Some? && s.claimed[k].value < |s.workers| && s.workers[s.claimed[k].value] == Holding(k))
  }

  /** Nothing pushed is lost, doubled or out of order. */
  ghost predicate Ledger(cfg: Config, s: State)
    requires Shaped(cfg, s)
  {
    forall k :: 0 <= k < cfg.shards ==> s.pushed[k] == s.appended[k] + s.hand[k] + s.rings[k]
  }

  /** Somebody will put the shard in the injector, or it is there, or a worker has just taken it. */
  ghost predicate Announced(s: State, k: nat) {
    || k in s.injector
    || (exists p :: 0 <= p < |s.producers| && s.producers[p] == Marked(k))
    || (exists w :: 0 <= w < |s.workers| && s.workers[w] == Popped(k))
  }

  /** A worker that has yet to find the ring empty. */
  predicate WillDrain(x: Worker, k: nat) {
    x == Cleared(k) || x == Refused(k) || x == Draining(k) || x == Holding(k)
  }

  /** A non-empty ring is somebody's business. */
  ghost predicate Watched(s: State, k: nat) {
    || Announced(s, k)
    || (exists p :: 0 <= p < |s.producers| && s.producers[p] == Pushed(k))
    || (exists w :: 0 <= w < |s.workers| && WillDrain(s.workers[w], k))
  }

  ghost predicate NotStranded(cfg: Config, s: State)
    requires Shaped(cfg, s)
  {
    && (forall k :: 0 <= k < cfg.shards && s.pending[k] ==> Announced(s, k))
    && (forall k :: 0 <= k < cfg.shards && s.rings[k] != [] ==> Watched(s, k))
  }

  function OfInode(ops: seq<Op>, inode: nat): seq<Op> {
    if ops == [] then [] else (if ops[0].inode == inode then [ops[0]] else []) + OfInode(ops[1..], inode)
  }

  /** All of `log` that concerns an inode is, in order, what its own shard has of it. */
  ghost predicate Sorted(cfg: Config, log: seq<Op>, shards: seq<seq<Op>>) {
    forall inode: nat ::
      OfInode(log, inode) == if cfg.route(inode) < |shards| then OfInode(shards[cfg.route(inode)], inode) else []
  }

  /** An inode's ops are all in the shard it is routed to. */
  ghost predicate Routed(cfg: Config, s: State)
    requires Shaped(cfg, s)
  {
    && (forall k, op :: 0 <= k < cfg.shards && op in s.pushed[k] ==> cfg.route(op.inode) == k)
    && Sorted(cfg, s.pushLog, s.pushed) && Sorted(cfg, s.appendLog, s.appended)
  }

  ghost predicate Inv(cfg: Config, s: State) {
    Shaped(cfg, s) && Exclusive(cfg, s) && Ledger(cfg, s) && Routed(cfg, s) && NotStranded(cfg, s)
  }

  lemma StepShaped(cfg: Config, s: State, a: Step)
    requires Shaped(cfg, s) && Enabled(cfg, s, a)
    ensures Shaped(cfg, Apply(cfg, s, a))
  {
  }

  lemma StepLedger(cfg: Config, s: State, a: Step)
    requires Shaped(cfg, s) && Enabled(cfg, s, a) && Exclusive(cfg, s) && Ledger(cfg, s)
    ensures Shaped(cfg, Apply(cfg, s, a)) && Ledger(cfg, Apply(cfg, s, a))
  {
    StepShaped(cfg, s, a);
    if a.Pop? {
      var k := s.workers[a.w].shard;
      assert s.hand[k] == [] by {
        DrainerHasClaim(cfg, s, a.w);
      }
    }
  }

  lemma {:induction false} OfInodeApp(a: seq<Op>, b: seq<Op>, inode: nat)
    ensures OfInode(a + b, inode) == OfInode(a, inode) + OfInode(b, inode)
  {
    if a == [] {
      assert a + b == b;
    } else {
      assert (a + b)[1..] == a[1..] + b && (a + b)[0] == a[0];
      OfInodeApp(a[1..], b, inode);
      var first := if a[0].inode == inode then [a[0]] else [];
      assert first + (OfInode(a[1..], inode) + OfInode(b, inode)) == first + OfInode(a[1..], inode) + OfInode(b, inode);
    }
  }

  lemma {:induction false} NoneOfInode(ops: seq<Op>, inode: nat)
    requires forall op :: op in ops ==> op.inode != inode
    ensures OfInode(ops, inode) == []
  {
    if ops != [] {
      assert ops[0] in ops;
      NoneOfInode(ops[1..], inode);
    }
  }

  /** More of one shard's ops, all of them routed to it. */
  lemma SortedMore(cfg: Config, log: seq<Op>, shards: seq<seq<Op>>, k: nat, more: seq<Op>)
    requires Sorted(cfg, log, shards) && k < |shards| && forall op :: op in more ==> cfg.route(op.inode) == k
    ensures Sorted(cfg, log + more, shards[k := shards[k] + more])
  {
    var now := shards[k := shards[k] + more];
    forall inode: nat
      ensures OfInode(log + more, inode) ==
              if cfg.route(inode) < |now| then OfInode(now[cfg.route(inode)], inode) else []
    {
      hide OfInode;
      OfInodeApp(log, more, inode);
      if cfg.route(inode) == k {
        OfInodeApp(shards[k], more, inode);
      } else {
        NoneOfInode(more, inode);
        assert OfInode(log, inode) + [] == OfInode(log, inode);
      }
    }
  }

  lemma StepRouted(cfg: Config, s: State, a: Step)
    requires Shaped(cfg, s) && Enabled(cfg, s, a) && Ledger(cfg, s) && Routed(cfg, s)
    ensures Shaped(cfg, Apply(cfg, s, a)) && Routed(cfg, Apply(cfg, s, a))
  {
    StepShaped(cfg, s, a);
    hide Sorted;
    if a.Push? {
      SortedMore(cfg, s.pushLog, s.pushed, cfg.route(a.op.inode), [a.op]);
    } else if a.Append? {
      var k := s.workers[a.w].shard;
      assert s.pushed[k] == s.appended[k] + s.hand[k] + s.rings[k];
      assert forall op :: op in s.hand[k] ==> op in s.pushed[k];
      SortedMore(cfg, s.appendLog, s.appended, k, s.hand[k]);
    }
  }

  lemma DrainerHasClaim(cfg: Config, s: State, w: nat)
    requires Shaped(cfg, s) && Exclusive(cfg, s) && w < |s.workers|
    ensures s.workers[w].Draining? || s.workers[w].Leaving? ==>
              s.claimed[s.workers[w].shard] == Some(w) && s.hand[s.workers[w].shard] == []
    ensures s.workers[w].Holding? ==> s.claimed[s.workers[w].shard] == Some(w)
  {
    if s.workers[w].Draining? || s.workers[w].Leaving? || s.workers[w].Holding? {
      assert Has(s, w, s.workers[w].shard);
    }
  }

  /** Nobody but worker `w` moved, and it stays with its shard `k`. */
  ghost predicate Moved(s: State, t: State, w: nat, k: nat) {
    && w < |s.workers| == |t.workers|
    && (forall v {:trigger t.workers[v]} {:trigger s.workers[v]} :: 0 <= v < |s.workers| && v != w ==>
       t.workers[v] == s.workers[v])
    && (s.workers[w].Idle? || s.workers[w].shard == k) && (t.workers[w].Idle? || t.workers[w].shard == k)
    && |t.claimed| == |s.claimed| && |t.hand| == |s.hand|
    && (forall j :: 0 <= j < |s.claimed| && j != k ==> t.claimed[j] == s.claimed[j])
    && (forall j :: 0 <= j < |s.hand| && j != k ==> t.hand[j] == s.hand[j])
  }

  /** Then only its own shard's claim can have changed. */
  lemma MovedExclusive(cfg: Config, s: State, t: State, w: nat, k: nat)
    requires Shaped(cfg, s) && Shaped(cfg, t) && Exclusive(cfg, s) && Moved(s, t, w, k) && k < cfg.shards
    requires s.claimed[k] == None || s.claimed[k] == Some(w) || (t.claimed[k] == s.claimed[k] && t.hand[k] == s.hand[k])
    requires Has(t, w, k) <==> t.claimed[k] == Some(w)
    requires t.claimed[k] == None || t.claimed[k] == Some(w) || t.claimed[k] == s.claimed[k]
    requires t.hand[k] != [] ==>
               && t.claimed[k].Some?
               && (if t.claimed[k].value == w then t.workers[w] == Holding(k) else t.hand[k] == s.hand[k])
    ensures Exclusive(cfg, t)
  {
    forall v, j | 0 <= v < |t.workers| && 0 <= j < cfg.shards
      ensures Has(t, v, j) <==> t.claimed[j] == Some(v)
    {
      assert Has(s, v, j) <==> s.claimed[j] == Some(v);
      assert v != w ==> t.workers[v] == s.workers[v];
    }
    forall j | 0 <= j < cfg.shards && t.hand[j] != []
      ensures t.claimed[j].Some? && t.claimed[j].value < |t.workers| && t.workers[t.claimed[j].value] == Holding(j)
    {
      assert t.claimed[j].value < |s.workers|;
      assert Has(s, t.claimed[j].value, j) <==> s.claimed[j] == t.claimed[j];
    }
  }

  lemma StepExclusive(cfg: Config, s: State, a: Step)
    requires Shaped(cfg, s) && Enabled(cfg, s, a) && Exclusive(cfg, s)
    ensures Shaped(cfg, Apply(cfg, s, a)) && Exclusive(cfg, Apply(cfg, s, a))
  {
    StepShaped(cfg, s, a);
    var t := Apply(cfg, s, a);
    match a
    case Push(_, _) => SameWorkers(cfg, s, t);
    case Mark(_) => SameWorkers(cfg, s, t);
    case Enqueue(_) => SameWorkers(cfg, s, t);
    case Steal(w) => ActExclusive(cfg, s, a, w, s.injector[0]);
    case Clear(w) => ActExclusive(cfg, s, a, w, s.workers[w].shard);
    case Claim(w) => ActExclusive(cfg, s, a, w, s.workers[w].shard);
    case PutBack(w) => ActExclusive(cfg, s, a, w, s.workers[w].shard);
    case Pop(w) => ActExclusive(cfg, s, a, w, s.workers[w].shard);
    case Append(w) => ActExclusive(cfg, s, a, w, s.workers[w].shard);
    case Release(w) => ActExclusive(cfg, s, a, w, s.workers[w].shard);
  }

  lemma SameWorkers(cfg: Config, s: State, t: State)
    requires Shaped(cfg, s) && Shaped(cfg, t) && Exclusive(cfg, s)
    requires t.workers == s.workers && t.claimed == s.claimed && t.hand == s.hand
    ensures Exclusive(cfg, t)
  {
    assert forall w, k :: 0 <= w < |t.workers| ==> Has(t, w, k) == Has(s, w, k);
  }

  lemma ActExclusive(cfg: Config, s: State, a: Step, w: nat, k: nat)
    requires Shaped(cfg, s) && Enabled(cfg, s, a) && Exclusive(cfg, s)
    requires !a.Push? && !a.Mark? && !a.Enqueue? && a.w == w && k < cfg.shards
    requires if a.Steal? then k == s.injector[0] else k == s.workers[w].shard
    ensures Shaped(cfg, Apply(cfg, s, a)) && Exclusive(cfg, Apply(cfg, s, a))
  {
    StepShaped(cfg, s, a);
    DrainerHasClaim(cfg, s, w);
    var t := Apply(cfg, s, a);
    assert Has(s, w, k) <==> s.claimed[k] == Some(w);
    assert s.hand[k] != [] ==> s.claimed[k].Some?;
    hide Exclusive;
    MovedExclusive(cfg, s, t, w, k);
  }

  /** What a step leaves of what others announced, pushed or have taken. */
  ghost predicate Others(s: State, t: State, p: nat, w: nat) {
    && |t.producers| == |s.producers| && |t.workers| == |s.workers|
    && (forall q {:trigger s.producers[q]} :: 0 <= q < |s.producers| && q != p ==> t.producers[q] == s.producers[q])
    && (forall v {:trigger s.workers[v]} :: 0 <= v < |s.workers| && v != w ==> t.workers[v] == s.workers[v])
  }

  lemma ProducerStep(cfg: Config, s: State, a: Step)
    requires Shaped(cfg, s) && Enabled(cfg, s, a) && NotStranded(cfg, s) && (a.Push? || a.Mark? || a.Enqueue?)
    ensures Shaped(cfg, Apply(cfg, s, a)) && NotStranded(cfg, Apply(cfg, s, a))
  {
    StepShaped(cfg, s, a);
    var t := Apply(cfg, s, a);
    assert Others(s, t, a.p, |s.workers|);
    match a
    case Push(p, _) => assert t.producers[p].Pushed?;
    case Mark(p) => assert t.producers[p].Marked? || t.producers[p].Ready?;
    case Enqueue(p) => assert forall k :: k in s.injector ==> k in t.injector;
  }

  lemma WorkerStep(cfg: Config, s: State, a: Step)
    requires Shaped(cfg, s) && Enabled(cfg, s, a) && NotStranded(cfg, s)
             && (a.Steal? || a.Clear? || a.Claim? || a.PutBack?)
    ensures Shaped(cfg, Apply(cfg, s, a)) && NotStranded(cfg, Apply(cfg, s, a))
  {
    StepShaped(cfg, s, a);
    var t := Apply(cfg, s, a);
    assert Others(s, t, |s.producers|, a.w);
    match a
    case Steal(w) => assert t.workers[w].Popped? && s.injector == [s.injector[0]] + s.injector[1..];
    case Clear(w) => assert t.workers[w].Cleared?;
    case Claim(w) => assert t.workers[w].Refused? || t.workers[w].Draining?;
    case PutBack(w) => assert forall k :: k in s.injector ==> k in t.injector;
  }

  lemma DrainStep(cfg: Config, s: State, a: Step)
    requires Shaped(cfg, s) && Enabled(cfg, s, a) && NotStranded(cfg, s) && (a.Pop? || a.Append? || a.Release?)
    ensures Shaped(cfg, Apply(cfg, s, a)) && NotStranded(cfg, Apply(cfg, s, a))
  {
    StepShaped(cfg, s, a);
    var t := Apply(cfg, s, a);
    assert Others(s, t, |s.producers|, a.w);
    match a
    case Pop(w) => assert t.workers[w].Leaving? || t.workers[w].Holding?;
    case Append(w) => assert t.workers[w].Draining?;
    case Release(w) =>
  }

  lemma StepInv(cfg: Config, s: State, a: Step)
    requires Inv(cfg, s) && Enabled(cfg, s, a)
    ensures Inv(cfg, Apply(cfg, s, a))
  {
    hide Exclusive, Ledger, Routed, NotStranded, Enabled, Apply;
    StepExclusive(cfg, s, a);
    StepLedger(cfg, s, a);
    StepRouted(cfg, s, a);
    if a.Push? || a.Mark? || a.Enqueue? {
      ProducerStep(cfg, s, a);
    } else if a.Pop? || a.Append? || a.Release? {
      DrainStep(cfg, s, a);
    } else {
      WorkerStep(cfg, s, a);
    }
  }

  lemma InitInv(cfg: Config, s: State)
    requires Init(cfg, s)
    ensures Inv(cfg, s)
  {
  }

  // ---------------------------------------------------------------------------------------------
  // Over whole runs.
  // ---------------------------------------------------------------------------------------------

  ghost predicate Runs(cfg: Config, s: State, run: seq<Step>)
    decreases |run|
  {
    Shaped(cfg, s) && (run == [] || (Enabled(cfg, s, run[0]) && Runs(cfg, Apply(cfg, s, run[0]), run[1..])))
  }

  ghost function Final(cfg: Config, s: State, run: seq<Step>): State
    requires Runs(cfg, s, run)
    decreases |run|
  {
    if run == [] then s else Final(cfg, Apply(cfg, s, run[0]), run[1..])
  }

  lemma {:induction false} RunInv(cfg: Config, s: State, run: seq<Step>)
    requires Inv(cfg, s) && Runs(cfg, s, run)
    ensures Inv(cfg, Final(cfg, s, run))
    decreases |run|
  {
    hide Inv, Enabled, Apply;
    if run != [] {
      StepInv(cfg, s, run[0]);
      RunInv(cfg, Apply(cfg, s, run[0]), run[1..]);
    }
  }

  /** Nothing is under way: no producer is mid-push, no worker has work, and the injector is empty. */
  predicate Quiet(s: State) {
    && s.injector == []
    && (forall p :: 0 <= p < |s.producers| ==> s.producers[p].Ready?)
    && (forall w :: 0 <= w < |s.workers| ==> s.workers[w].Idle?)
  }

  /** In every state: of each inode, what has been appended is the first part of what has been pushed. */
  lemma InodeOrder(cfg: Config, s: State, inode: nat)
    requires Inv(cfg, s)
    ensures OfInode(s.appendLog, inode) <= OfInode(s.pushLog, inode)
    ensures s.appended == s.pushed ==> OfInode(s.appendLog, inode) == OfInode(s.pushLog, inode)
  {
    hide Exclusive, NotStranded, Sorted, OfInode;
    var k := cfg.route(inode);
    SortedAt(cfg, s.pushLog, s.pushed, inode);
    SortedAt(cfg, s.appendLog, s.appended, inode);
    if k < cfg.shards {
      assert s.pushed[k] == s.appended[k] + s.hand[k] + s.rings[k];
      assert s.pushed[k] == s.appended[k] + (s.hand[k] + s.rings[k]);
      OfInodeApp(s.appended[k], s.hand[k] + s.rings[k], inode);
    }
  }

  lemma SortedAt(cfg: Config, log: seq<Op>, shards: seq<seq<Op>>, inode: nat)
    requires Sorted(cfg, log, shards)
    ensures OfInode(log, inode) ==
            if cfg.route(inode) < |shards| then OfInode(shards[cfg.route(inode)], inode) else []
  {
  }

  /**
   In every reachable state: no ring with an op in it is forgotten; no two workers drain one shard; over all shards
   together each inode's ops are appended in the order they were pushed; and when everything has come to rest, every
   op pushed has been appended.
   */
  lemma HandOff(cfg: Config, s: State, run: seq<Step>)
    requires Init(cfg, s) && Runs(cfg, s, run)
    ensures var t := Final(cfg, s, run);
            && Shaped(cfg, t)
            && (forall k :: 0 <= k < cfg.shards && t.rings[k] != [] ==> Watched(t, k))
            && (forall v, w, k ::
                  0 <= v < |t.workers| && 0 <= w < |t.workers| && 0 <= k < cfg.shards && Has(t, v, k) && Has(t, w, k)
                  ==> v == w)
            && (forall inode: nat :: OfInode(t.appendLog, inode) <= OfInode(t.pushLog, inode))
            && (Quiet(t) ==>
                  && t.appended == t.pushed
                  && forall inode: nat :: OfInode(t.appendLog, inode) == OfInode(t.pushLog, inode))
  {
    InitInv(cfg, s);
    RunInv(cfg, s, run);
    hide Init;
    var t := Final(cfg, s, run);
    if Quiet(t) {
      RestIsDone(cfg, t);
    }
    forall inode: nat
      ensures OfInode(t.appendLog, inode) <= OfInode(t.pushLog, inode)
      ensures Quiet(t) ==> OfInode(t.appendLog, inode) == OfInode(t.pushLog, inode)
    {
      hide Inv, OfInode;
      InodeOrder(cfg, t, inode);
    }
  }

  lemma QuietEmpty(cfg: Config, s: State, k: nat)
    requires Inv(cfg, s) && Quiet(s) && k < cfg.shards
    ensures s.rings[k] == [] && s.hand[k] == [] && s.appended[k] == s.pushed[k]
  {
    assert !Watched(s, k);
    assert s.pushed[k] == s.appended[k] + s.hand[k] + s.rings[k];
  }

  /** Whether a step is a producer's that makes it owe the injector shard `k`. */
  predicate Announces(cfg: Config, s: State, a: Step, k: nat) {
    Shaped(cfg, s) && Enabled(cfg, s, a) && a.Mark? && Apply(cfg, s, a).producers[a.p] == Marked(k)
  }

  ghost function Announcements(cfg: Config, s: State, run: seq<Step>, k: nat): nat
    requires Runs(cfg, s, run)
    decreases |run|
  {
    if run == [] then 0
    else (if Announces(cfg, s, run[0], k) then 1 else 0) + Announcements(cfg, Apply(cfg, s, run[0]), run[1..], k)
  }

  /** No worker resets the shard's flag in the run. */
  ghost predicate NeverCleared(cfg: Config, s: State, run: seq<Step>, k: nat)
    requires Runs(cfg, s, run)
    decreases |run|
  {
    run == [] ||
    (&& !(run[0].Clear? && s.workers[run[0].w].shard == k)
     && NeverCleared(cfg, Apply(cfg, s, run[0]), run[1..], k))
  }

  lemma FlagStays(cfg: Config, s: State, a: Step, k: nat)
    requires Shaped(cfg, s) && Enabled(cfg, s, a) && k < cfg.shards && !(a.Clear? && s.workers[a.w].shard == k)
    ensures s.pending[k] ==> Apply(cfg, s, a).pending[k] && !Announces(cfg, s, a, k)
    ensures Announces(cfg, s, a, k) ==> Apply(cfg, s, a).pending[k]
    ensures Shaped(cfg, Apply(cfg, s, a))
  {
    StepShaped(cfg, s, a);
  }

  /**
   However many ops are pushed, a shard is announced at most once until a worker takes it up, and not at all if it
   already was.
   */
  lemma {:induction false} AnnouncedOnce(cfg: Config, s: State, run: seq<Step>, k: nat)
    requires Runs(cfg, s, run) && k < cfg.shards && NeverCleared(cfg, s, run, k)
    ensures Announcements(cfg, s, run, k) <= if s.pending[k] then 0 else 1
    decreases |run|
  {
    hide Enabled, Apply, Announces;
    if run != [] {
      FlagStays(cfg, s, run[0], k);
      AnnouncedOnce(cfg, Apply(cfg, s, run[0]), run[1..], k);
    }
  }

  // ---------------------------------------------------------------------------------------------
  // From anywhere, the work at hand can be finished.
  // ---------------------------------------------------------------------------------------------

  function Sum<T>(xs: seq<T>, f: T -> nat): nat {
    if xs == [] then 0 else f(xs[0]) + Sum(xs[1..], f)
  }

  lemma {:induction false} SumUpdate<T>(xs: seq<T>, f: T -> nat, i: nat, x: T)
    requires i < |xs|
    ensures Sum(xs[i := x], f) + f(xs[i]) == Sum(xs, f) + f(x)
  {
    if i == 0 {
      assert xs[0 := x][1..] == xs[1..];
    } else {
      SumUpdate(xs[1..], f, i - 1, x);
      assert xs[i := x][1..] == xs[1..][i - 1 := x];
    }
  }

  function WorkerLeft(x: Worker): nat {
    match x
    case Idle => 0
    case Leaving(_) => 1
    case Draining(_) => 2
    case Holding(_) | Cleared(_) => 3
    case Popped(_) => 4
    case Refused(_) => 6
  }

  function ProducerLeft(x: Producer): nat {
    match x
    case Ready => 0
    case Marked(_) => 6
    case Pushed(_) => 7
  }

  function RingLeft(ring: seq<Op>): nat {
    2 * |ring|
  }

  /** How much is left to do: more than any step below adds to. */
  ghost function WorkLeft(s: State): nat {
    5 * |s.injector| + Sum(s.workers, WorkerLeft) + Sum(s.producers, ProducerLeft) + Sum(s.rings, RingLeft)
  }

  /** A step that is nobody's push and leaves less to do. */
  ghost predicate Helps(cfg: Config, s: State, a: Step) {
    Shaped(cfg, s) && !a.Push? && Enabled(cfg, s, a) && WorkLeft(Apply(cfg, s, a)) < WorkLeft(s)
  }

  lemma WorkerHelps(cfg: Config, s: State, a: Step)
    requires Shaped(cfg, s) && Enabled(cfg, s, a) && (a.Clear? || a.PutBack? || a.Append? || a.Release?)
    ensures Helps(cfg, s, a)
  {
    SumUpdate(s.workers, WorkerLeft, a.w, Apply(cfg, s, a).workers[a.w]);
  }

  lemma PopHelps(cfg: Config, s: State, w: nat)
    requires Shaped(cfg, s) && Enabled(cfg, s, Pop(w))
    ensures Helps(cfg, s, Pop(w))
  {
    var t, k := Apply(cfg, s, Pop(w)), s.workers[w].shard;
    SumUpdate(s.workers, WorkerLeft, w, t.workers[w]);
    if s.rings[k] != [] {
      SumUpdate(s.rings, RingLeft, k, t.rings[k]);
    }
  }

  lemma ClaimHelps(cfg: Config, s: State, w: nat)
    requires Shaped(cfg, s) && Enabled(cfg, s, Claim(w)) && s.claimed[s.workers[w].shard] == None
    ensures Helps(cfg, s, Claim(w))
  {
    SumUpdate(s.workers, WorkerLeft, w, Draining(s.workers[w].shard));
  }

  lemma StealHelps(cfg: Config, s: State, w: nat)
    requires Shaped(cfg, s) && Enabled(cfg, s, Steal(w))
    ensures Helps(cfg, s, Steal(w))
  {
    SumUpdate(s.workers, WorkerLeft, w, Popped(s.injector[0]));
  }

  lemma ProducerHelps(cfg: Config, s: State, a: Step)
    requires Shaped(cfg, s) && Enabled(cfg, s, a) && (a.Mark? || a.Enqueue?)
    ensures Helps(cfg, s, a)
  {
    SumUpdate(s.producers, ProducerLeft, a.p, Apply(cfg, s, a).producers[a.p]);
  }

  predicate HasClaim(x: Worker) {
    x.Draining? || x.Holding? || x.Leaving?
  }

  lemma DrainerHelps(cfg: Config, s: State, w: nat) returns (a: Step)
    requires Shaped(cfg, s) && w < |s.workers| && HasClaim(s.workers[w])
    ensures Helps(cfg, s, a)
  {
    hide Helps;
    if s.workers[w].Draining? {
      a := Pop(w);
      PopHelps(cfg, s, w);
    } else {
      a := if s.workers[w].Holding? then Append(w) else Release(w);
      WorkerHelps(cfg, s, a);
    }
  }

  /** A worker that is not idle, when nobody has a claim. */
  lemma StarterHelps(cfg: Config, s: State, w: nat) returns (a: Step)
    requires Shaped(cfg, s) && Exclusive(cfg, s) && w < |s.workers| && !s.workers[w].Idle?
    requires forall v :: 0 <= v < |s.workers| ==> !HasClaim(s.workers[v])
    ensures Helps(cfg, s, a)
  {
    hide Helps;
    if s.workers[w].Cleared? {
      var k := s.workers[w].shard;
      assert s.claimed[k].Some? ==> Has(s, s.claimed[k].value, k);
      a := Claim(w);
      ClaimHelps(cfg, s, w);
    } else {
      a := if s.workers[w].Popped? then Clear(w) else PutBack(w);
      WorkerHelps(cfg, s, a);
    }
  }

  /** Unless everything has come to rest, somebody other than a pushing producer can leave less to do. */
  lemma SomebodyHelps(cfg: Config, s: State) returns (a: Step)
    requires Inv(cfg, s) && |s.workers| > 0 && !Quiet(s)
    ensures Helps(cfg, s, a)
  {
    hide Helps, Exclusive, Ledger, Routed, NotStranded;
    if w: nat :| w < |s.workers| && HasClaim(s.workers[w]) {
      a := DrainerHelps(cfg, s, w);
    } else if w: nat :| w < |s.workers| && !s.workers[w].Idle? {
      a := StarterHelps(cfg, s, w);
    } else if p: nat :| p < |s.producers| && !s.producers[p].Ready? {
      a := if s.producers[p].Pushed? then Mark(p) else Enqueue(p);
      ProducerHelps(cfg, s, a);
    } else {
      a := Steal(0);
      StealHelps(cfg, s, 0);
    }
  }

  predicate NoPush(run: seq<Step>) {
    forall i :: 0 <= i < |run| ==> !run[i].Push?
  }

  /** A run without a push that brings everything to rest. */
  ghost predicate Settles(cfg: Config, s: State, run: seq<Step>) {
    NoPush(run) && Runs(cfg, s, run) && Quiet(Final(cfg, s, run)) && Final(cfg, s, run).pushed == s.pushed
  }

  lemma HelpKeeps(cfg: Config, s: State, a: Step)
    requires Helps(cfg, s, a)
    ensures var t := Apply(cfg, s, a); |t.workers| == |s.workers| && t.pushed == s.pushed && WorkLeft(t) < WorkLeft(s)
  {
  }

  lemma SettlesLater(cfg: Config, s: State, a: Step, rest: seq<Step>)
    requires Shaped(cfg, s) && !a.Push? && Enabled(cfg, s, a) && Apply(cfg, s, a).pushed == s.pushed
    requires Settles(cfg, Apply(cfg, s, a), rest)
    ensures Settles(cfg, s, [a] + rest)
  {
    hide Enabled, Apply, Quiet, Shaped;
    var run := [a] + rest;
    assert run[0] == a && run[1..] == rest;
  }

  lemma {:induction false} Settling(cfg: Config, s: State) returns (run: seq<Step>)
    requires Inv(cfg, s) && |s.workers| > 0
    ensures Settles(cfg, s, run)
    decreases WorkLeft(s)
  {
    hide Exclusive, Ledger, Routed, NotStranded, Quiet, WorkLeft, Apply, Enabled;
    if Quiet(s) {
      run := [];
    } else {
      var a := SomebodyHelps(cfg, s);
      HelpKeeps(cfg, s, a);
      StepInv(cfg, s, a);
      run := Settling(cfg, Apply(cfg, s, a));
      SettlesLater(cfg, s, a, run);
      run := [a] + run;
    }
  }

  /**
   From every reachable state, some finite run without another push comes to rest, and by then every op pushed
   has been appended: no state is a dead end, and none can only go round in circles.
   */
  lemma AlwaysDrains(cfg: Config, s: State, run: seq<Step>)
    requires Init(cfg, s) && Runs(cfg, s, run) && |s.workers| > 0
    ensures var t := Final(cfg, s, run);
            exists more :: Settles(cfg, t, more) && Final(cfg, t, more).appended == t.pushed
  {
    InitInv(cfg, s);
    RunInv(cfg, s, run);
    SameCrew(cfg, s, run);
    hide Init, Inv, Enabled, Apply, Quiet;
    var t := Final(cfg, s, run);
    var more := Settling(cfg, t);
    RunInv(cfg, t, more);
    RestIsDone(cfg, Final(cfg, t, more));
  }

  lemma {:induction false} SameCrew(cfg: Config, s: State, run: seq<Step>)
    requires Runs(cfg, s, run)
    ensures |Final(cfg, s, run).workers| == |s.workers|
    decreases |run|
  {
    if run != [] {
      SameCrew(cfg, Apply(cfg, s, run[0]), run[1..]);
    }
  }

  lemma RestIsDone(cfg: Config, s: State)
    requires Inv(cfg, s) && Quiet(s)
    ensures s.appended == s.pushed
  {
    forall k | 0 <= k < cfg.shards
      ensures s.appended[k] == s.pushed[k]
    {
      QuietEmpty(cfg, s, k);
    }
  }
}
