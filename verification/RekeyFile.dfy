/**
 Moving one live file's chunks into a new epoch, a batch at a time, with a memo of what has been moved before.

 An address is the content and the epoch it is sealed in. Nobody else writes the file meanwhile, every read
 succeeds, and the conversion is not cancelled.
 */
module RekeyFile {
  import opened Basics

  datatype Hash = Hash(content: nat, epoch: nat)

  datatype ChunkRef = ChunkRef(hash: Hash, offset: nat, len: nat)

  /** Where the file's chunk list is: in memory, or in a list object of its own, with that object's epoch. */
  datatype Source = InMemory | Listed(epoch: nat)

  const FILE_BATCH: nat := 256

  /** The same chunk, by content, place and length. */
  predicate SameChunk(a: ChunkRef, b: ChunkRef) {
    a.hash.content == b.hash.content && a.offset == b.offset && a.len == b.len
  }

  predicate SameFile(a: seq<ChunkRef>, b: seq<ChunkRef>) {
    |a| == |b| && forall i :: 0 <= i < |a| ==> SameChunk(a[i], b[i])
  }

  /** Chunks are never ahead of the conversion. */
  predicate Behind(refs: seq<ChunkRef>, target: nat) {
    forall i :: 0 <= i < |refs| ==> refs[i].hash.epoch <= target
  }

  /** Every chunk that has been rewritten resolves in the index. */
  ghost predicate Resolves(refs: seq<ChunkRef>, was: seq<ChunkRef>, index: set<Hash>) {
    |refs| == |was| && forall i :: 0 <= i < |refs| && refs[i] != was[i] ==> refs[i].hash in index
  }

  /** How far, in all, the chunks are from `target`. */
  function Age(refs: seq<ChunkRef>, target: nat): nat {
    if refs == [] then 0
    else (if refs[0].hash.epoch <= target then target - refs[0].hash.epoch else 0) + Age(refs[1..], target)
  }

  lemma {:induction false} Younger(refs: seq<ChunkRef>, target: nat, i: nat, r: ChunkRef)
    requires i < |refs| && refs[i].hash.epoch < r.hash.epoch <= target
    ensures Age(refs[i := r], target) < Age(refs, target)
  {
    if i > 0 {
      assert refs[i := r][1..] == refs[1..][i - 1 := r];
      Younger(refs[1..], target, i - 1, r);
    } else {
      assert refs[i := r][1..] == refs[1..];
    }
  }

  /** What the memo says of a chunk is the same content in a later epoch: this conversion's, or an earlier one's. */
  ghost predicate MemoOk(memo: map<Hash, Hash>, target: nat) {
    forall h :: h in memo ==> memo[h].content == h.content && h.epoch < memo[h].epoch <= target
  }

  /** Places in ascending order, each an old chunk from `start` on. */
  ghost predicate Todo(refs: seq<ChunkRef>, target: nat, start: nat, todo: seq<nat>) {
    && |todo| <= FILE_BATCH
    && (forall a, b :: 0 <= a < b < |todo| ==> todo[a] < todo[b])
    && (forall a :: 0 <= a < |todo| ==> start <= todo[a] < |refs| && refs[todo[a]].hash.epoch != target)
  }

  /** The first old chunks from `start`, at most a batch; none left out before the last of them. */
  method FindBatch(refs: seq<ChunkRef>, target: nat, start: nat) returns (todo: seq<nat>)
    requires start <= |refs|
    ensures Todo(refs, target, start, todo)
    ensures forall i ::
            start <= i < (if |todo| < FILE_BATCH then |refs| else todo[|todo| - 1]) && refs[i].hash.epoch != target ==>
              i in todo
  {
    todo := [];
    for i := start to |refs|
      invariant Todo(refs, target, start, todo) && |todo| < FILE_BATCH && (forall a :: 0 <= a < |todo| ==> todo[a] < i)
      invariant forall j :: start <= j < i && refs[j].hash.epoch != target ==> j in todo
    {
      if refs[i].hash.epoch != target {
        todo := todo + [i];
        if |todo| == FILE_BATCH {
          return;
        }
      }
    }
  }

  class File {
    var chunks: seq<ChunkRef>
    var source: Source
    var memo: map<Hash, Hash>
    /** What the index resolves. */
    var index: set<Hash>

    constructor (chunks: seq<ChunkRef>, source: Source, memo: map<Hash, Hash>, index: set<Hash>)
      ensures this.chunks == chunks && this.source == source && this.memo == memo && this.index == index
    {
      this.chunks, this.source, this.memo, this.index := chunks, source, memo, index;
    }

    /** `rekey_chunk`: through the memo if what it names still resolves, else committed afresh. */
    method RekeyChunk(r: ChunkRef, target: nat) returns (n: ChunkRef)
      requires MemoOk(memo, target) && r.hash.epoch < target
      modifies this`memo, this`index
      ensures MemoOk(memo, target) && SameChunk(n, r) && r.hash.epoch < n.hash.epoch <= target && n.hash in index
      ensures if r.hash in old(memo) && old(memo)[r.hash] in old(index)
              then n.hash == old(memo)[r.hash] && memo == old(memo) && index == old(index)
              else n.hash.epoch == target && memo == old(memo)[r.hash := n.hash] && index == old(index) + {n.hash}
    {
      var h := r.hash;
      if h in memo && memo[h] in index {
        return r.(hash := memo[h]);
      }
      var moved := Hash(h.content, target);
      index := index + {moved};
      memo := memo[h := moved];
      return r.(hash := moved);
    }

    /** One batch rewritten in place. */
    method RekeyBatch(todo: seq<nat>, target: nat)
      requires MemoOk(memo, target) && Todo(chunks, target, 0, todo) && Behind(chunks, target)
      modifies this`chunks, this`memo, this`index
      ensures MemoOk(memo, target) && SameFile(chunks, old(chunks)) && Behind(chunks, target)
      ensures if todo == [] then chunks == old(chunks) else Age(chunks, target) < Age(old(chunks), target)
      ensures forall i :: 0 <= i < |chunks| && i !in todo ==> chunks[i] == old(chunks)[i]
      ensures old(index) <= index && Resolves(chunks, old(chunks), index)
    {
      for a := 0 to |todo|
        invariant MemoOk(memo, target) && SameFile(chunks, old(chunks)) && Behind(chunks, target)
        invariant if a == 0 then chunks == old(chunks) else Age(chunks, target) < Age(old(chunks), target)
        invariant forall i :: 0 <= i < |chunks| && i !in todo[..a] ==> chunks[i] == old(chunks)[i]
        invariant old(index) <= index && Resolves(chunks, old(chunks), index)
      {
        var i := todo[a];
        assert i !in todo[..a];
        assert todo[..a + 1] == todo[..a] + [i];
        var n := RekeyChunk(chunks[i], target);
        Younger(chunks, target, i, n);
        chunks := chunks[i := n];
      }
      assert todo[..|todo|] == todo;
    }

    /**
     `rekey_file`: batch after batch from where the last one stopped, and once more from the beginning. It
     ends with every chunk, and the list itself, in the target epoch, every rewritten chunk in the index, and the
     file the same.
     */
    method Rekey(target: nat)
      requires MemoOk(memo, target) && Behind(chunks, target)
      modifies this
      ensures SameFile(chunks, old(chunks)) && MemoOk(memo, target)
      ensures forall i :: 0 <= i < |chunks| ==> chunks[i].hash.epoch == target
      ensures old(index) <= index && Resolves(chunks, old(chunks), index)
      ensures if old(source).InMemory? then source == InMemory else source == Listed(target)
    {
      var resume := 0;
      while true
        invariant MemoOk(memo, target) && SameFile(chunks, old(chunks)) && Behind(chunks, target)
        invariant old(index) <= index && Resolves(chunks, old(chunks), index)
        invariant source.InMemory? == old(source).InMemory?
        decreases Age(chunks, target), source.Listed? && source.epoch != target, resume
      {
        var start := Min(resume, |chunks|);
        var todo := FindBatch(chunks, target, start);
        var listIsOld := source.Listed? && source.epoch != target;
        if todo == [] && !listIsOld {
          if start == 0 {
            return;
          }
          resume := 0;
          continue;
        }
        resume := if todo == [] then start else todo[|todo| - 1] + 1;
        ghost var was := chunks;
        RekeyBatch(todo, target);
        assert forall i :: 0 <= i < |chunks| ==> chunks[i] == was[i] || chunks[i].hash in index;
        if source.Listed? {
          source := Listed(target);
        }
      }
    }
  }
}
