/**
 An unlocked keyring over its life: epochs added, made current and retired, slots added, removed and revoked.

 Keys are numbers. A slot is what opens it and the keyring key inside; a wrapped epoch is the keyring key it
 is wrapped under and the master key inside.
 */
module Keyring {
  import opened Basics

  const U16_LIMIT: nat := 0x1_0000

  type SlotId = n: nat | n < U16_LIMIT

  datatype SlotKind = Passphrase | Recipient | Tpm(pin: bool)

  datatype Slot = Slot(id: SlotId, kind: SlotKind, lock: nat, holds: nat)

  datatype Wrapped = Wrapped(epoch: nat, under: nat, master: nat)

  datatype Error = Refused | NoSuchSlot

  // ---------------------------------------------------------------------------------------------
  // Slots.
  // ---------------------------------------------------------------------------------------------

  predicate Distinct(slots: seq<Slot>) {
    forall i, j :: 0 <= i < j < |slots| ==> slots[i].id != slots[j].id
  }

  /** A TPM alone can be locked out for good, so there must be another slot. */
  predicate SlotRules(slots: seq<Slot>) {
    exists i :: 0 <= i < |slots| && !slots[i].kind.Tpm?
  }

  function Without(slots: seq<Slot>, id: nat): seq<Slot> {
    if slots == [] then [] else (if slots[0].id == id then [] else [slots[0]]) + Without(slots[1..], id)
  }

  lemma {:induction false} WithoutIs(slots: seq<Slot>, id: nat)
    requires Distinct(slots)
    ensures Distinct(Without(slots, id))
    ensures forall s :: s in Without(slots, id) <==> s in slots && s.id != id
  {
    if slots != [] {
      WithoutIs(slots[1..], id);
      var rest := Without(slots[1..], id);
      assert slots == [slots[0]] + slots[1..];
      assert forall i :: 0 <= i < |rest| ==> rest[i] in rest;
      assert forall i :: 0 <= i < |slots[1..]| ==> slots[1..][i].id != slots[0].id;
    }
  }

  predicate HasId(slots: seq<Slot>, id: nat) {
    exists i :: 0 <= i < |slots| && slots[i].id == id
  }

  /** One above the highest id, every sum a 16-bit number. */
  function NextId(slots: seq<Slot>): SlotId {
    if slots == [] then 0 else Max(NextId(slots[..|slots| - 1]), (slots[|slots| - 1].id + 1) % U16_LIMIT)
  }

  lemma {:induction false} NextIdIs(slots: seq<Slot>)
    ensures forall i :: 0 <= i < |slots| ==> (slots[i].id + 1) % U16_LIMIT <= NextId(slots)
    ensures NextId(slots) == 0 || exists i :: 0 <= i < |slots| && (slots[i].id + 1) % U16_LIMIT == NextId(slots)
    decreases |slots|
  {
    if slots != [] {
      NextIdIs(slots[..|slots| - 1]);
      assert forall i :: 0 <= i < |slots| - 1 ==> slots[..|slots| - 1][i] == slots[i];
    }
  }

  predicate LastTaken(slots: seq<Slot>) {
    HasId(slots, U16_LIMIT - 2) && HasId(slots, U16_LIMIT - 1)
  }

  /** The next id is one no slot has, if and only if ids 65534 and 65535 are not both taken. */
  lemma NextIdNew(slots: seq<Slot>)
    ensures !HasId(slots, NextId(slots)) <==> !LastTaken(slots)
  {
    NextIdIs(slots);
    hide NextId;
    var next := NextId(slots);
    if HasId(slots, next) {
      var i :| 0 <= i < |slots| && slots[i].id == next;
      assert next == U16_LIMIT - 1;
    }
    if HasId(slots, U16_LIMIT - 2) {
      var i :| 0 <= i < |slots| && slots[i].id == U16_LIMIT - 2;
      assert next == U16_LIMIT - 1;
    }
  }

  /** Every slot opens to the keyring key. */
  predicate AllHold(slots: seq<Slot>, kk: nat) {
    forall i :: 0 <= i < |slots| ==> slots[i].holds == kk
  }

  /** The slots as they were, but for the key inside. */
  predicate Rewrapped(slots: seq<Slot>, was: seq<Slot>, kk: nat) {
    |slots| == |was| && forall i :: 0 <= i < |slots| ==> slots[i] == was[i].(holds := kk)
  }

  // ---------------------------------------------------------------------------------------------
  // Epochs.
  // ---------------------------------------------------------------------------------------------

  predicate Ordered(epochs: seq<Wrapped>) {
    forall i, j :: 0 <= i < j < |epochs| ==> epochs[i].epoch < epochs[j].epoch
  }

  /** The wrapped epochs, in order, are the master keys held, under the keyring key. */
  ghost predicate EpochsOk(epochs: seq<Wrapped>, masters: map<nat, nat>, kk: nat) {
    && Ordered(epochs)
    && (forall w :: w in epochs ==> w.under == kk && w.epoch in masters && masters[w.epoch] == w.master)
    && (forall e :: e in masters ==> Wrapped(e, kk, masters[e]) in epochs)
  }

  function InsertWrapped(epochs: seq<Wrapped>, w: Wrapped): seq<Wrapped> {
    if epochs == [] || epochs[0].epoch > w.epoch then [w] + epochs
    else if epochs[0].epoch == w.epoch then [w] + epochs[1..]
    else [epochs[0]] + InsertWrapped(epochs[1..], w)
  }

  lemma {:induction false} InsertIs(epochs: seq<Wrapped>, w: Wrapped)
    requires Ordered(epochs)
    ensures Ordered(InsertWrapped(epochs, w))
    ensures forall x :: x in InsertWrapped(epochs, w) <==> x == w || (x in epochs && x.epoch != w.epoch)
    decreases |epochs|
  {
    if epochs != [] {
      var first, rest := epochs[0], epochs[1..];
      assert epochs == [first] + rest;
      assert forall i :: 0 <= i < |rest| ==> rest[i].epoch > first.epoch;
      if first.epoch < w.epoch {
        InsertIs(rest, w);
        var r := InsertWrapped(rest, w);
        assert forall i :: 0 <= i < |r| ==> r[i] in r;
      }
    }
  }

  function DropWrapped(epochs: seq<Wrapped>, epoch: nat): seq<Wrapped> {
    if epochs == [] then []
      else (if epochs[0].epoch == epoch then [] else [epochs[0]]) + DropWrapped(epochs[1..], epoch)
  }

  lemma {:induction false} DropIs(epochs: seq<Wrapped>, epoch: nat)
    requires Ordered(epochs)
    ensures Ordered(DropWrapped(epochs, epoch))
    ensures forall x :: x in DropWrapped(epochs, epoch) <==> x in epochs && x.epoch != epoch
    decreases |epochs|
  {
    if epochs != [] {
      DropIs(epochs[1..], epoch);
      var first, rest, r := epochs[0], epochs[1..], DropWrapped(epochs[1..], epoch);
      assert epochs == [first] + rest;
      assert forall i :: 0 <= i < |r| ==> r[i] in r;
      assert forall i :: 0 <= i < |rest| ==> rest[i].epoch > first.epoch;
    }
  }

  lemma InsertOk(epochs: seq<Wrapped>, masters: map<nat, nat>, kk: nat, e: nat, mk: nat)
    requires EpochsOk(epochs, masters, kk)
    ensures EpochsOk(InsertWrapped(epochs, Wrapped(e, kk, mk)), masters[e := mk], kk)
  {
    var w := Wrapped(e, kk, mk);
    InsertIs(epochs, w);
    hide InsertWrapped;
    var r, ms := InsertWrapped(epochs, w), masters[e := mk];
    forall x | x in r
      ensures x.under == kk && x.epoch in ms && ms[x.epoch] == x.master
    {
    }
    forall x | x in ms
      ensures Wrapped(x, kk, ms[x]) in r
    {
    }
  }

  lemma DropOk(epochs: seq<Wrapped>, masters: map<nat, nat>, kk: nat, e: nat)
    requires EpochsOk(epochs, masters, kk)
    ensures EpochsOk(DropWrapped(epochs, e), masters - {e}, kk)
  {
    DropIs(epochs, e);
  }

  function Highest(epochs: seq<Wrapped>): nat {
    if epochs == [] then PLAINTEXT else epochs[|epochs| - 1].epoch
  }

  /** The keyring's configuration. */
  datatype Config = Config(current: nat, min: nat, target: Option<nat>)

  /**
   What the epochs in use allow: the current one is plaintext or has its key, and nothing above it exists but a
   conversion's target.
   */
  ghost predicate InUse(c: Config, masters: map<nat, nat>) {
    && (c.current == PLAINTEXT || c.current in masters) && c.min <= c.current
    && (c.target.Some? ==> c.target.value in masters && c.current <= c.target.value)
    && (forall e :: e in masters ==> 0 < e <= (if c.target.Some? then c.target.value else c.current))
  }

  /** Everything about epochs; `ever` is every number ever given out. */
  ghost predicate KeysOk(c: Config, epochs: seq<Wrapped>, masters: map<nat, nat>, kk: nat, ever: set<nat>) {
    && EpochsOk(epochs, masters, kk) && InUse(c, masters) && masters != map[]
    && (forall e :: e in masters ==> e in ever) && (forall e :: e in ever ==> 0 < e <= Highest(epochs))
  }

  ghost predicate SlotsOk(slots: seq<Slot>, kk: nat) {
    Distinct(slots) && SlotRules(slots) && AllHold(slots, kk)
  }

  lemma OneSlot(s: Slot, kk: nat)
    requires s.holds == kk && !s.kind.Tpm?
    ensures SlotsOk([s], kk)
  {
    assert !([s][0].kind.Tpm?);
  }

  lemma OneEpoch(kk: nat, mk: nat)
    ensures EpochsOk([Wrapped(1, kk, mk)], map[1 := mk], kk) && Highest([Wrapped(1, kk, mk)]) == 1
  {
  }

  /** The highest epoch is at least the current one. */
  lemma CurrentBelow(c: Config, epochs: seq<Wrapped>, masters: map<nat, nat>, kk: nat, ever: set<nat>)
    requires KeysOk(c, epochs, masters, kk, ever)
    ensures c.current <= Highest(epochs) && (forall e :: e in masters ==> e <= Highest(epochs))
    ensures forall w :: w in epochs ==> w.epoch <= Highest(epochs)
  {
    assert c.current != PLAINTEXT ==> c.current in masters && c.current in ever;
  }

  /** A rotation: a number never given out, above all others, and current at once. */
  lemma Rotated(c: Config, epochs: seq<Wrapped>, masters: map<nat, nat>, kk: nat, ever: set<nat>, mk: nat)
    requires KeysOk(c, epochs, masters, kk, ever) && c.target.None?
    ensures var next := Highest(epochs) + 1;
            && next !in ever && next !in masters
            && KeysOk(Config(next, c.min, Some(next)), InsertWrapped(epochs, Wrapped(next, kk, mk)),
               masters[next := mk], kk, ever + {next})
  {
    var next := Highest(epochs) + 1;
    CurrentBelow(c, epochs, masters, kk, ever);
    InsertOk(epochs, masters, kk, next, mk);
    InsertLast(epochs, Wrapped(next, kk, mk));
    RotatedInUse(c, masters, next, mk);
    hide InsertWrapped, EpochsOk, InUse;
    assert Highest(epochs + [Wrapped(next, kk, mk)]) == next;
  }

  lemma RotatedInUse(c: Config, masters: map<nat, nat>, next: nat, mk: nat)
    requires InUse(c, masters) && c.current < next && forall e :: e in masters ==> e < next
    ensures InUse(Config(next, c.min, Some(next)), masters[next := mk])
  {
  }

  predicate Droppable(c: Config, epoch: nat) {
    epoch < c.min && epoch != c.current && c.target != Some(epoch)
  }

  /** The highest epoch is in use, so dropping one that is not leaves it, and no number comes round again. */
  lemma Dropped(c: Config, epochs: seq<Wrapped>, masters: map<nat, nat>, kk: nat, ever: set<nat>, epoch: nat)
    requires KeysOk(c, epochs, masters, kk, ever) && Droppable(c, epoch)
    ensures KeysOk(c, DropWrapped(epochs, epoch), masters - {epoch}, kk, ever)
  {
    DropOk(epochs, masters, kk, epoch);
    CurrentBelow(c, epochs, masters, kk, ever);
    assert c.current in masters - {epoch};
    TopKept(epochs, masters, kk, c.current, epoch);
    hide DropWrapped;
  }

  lemma TopKept(epochs: seq<Wrapped>, masters: map<nat, nat>, kk: nat, current: nat, epoch: nat)
    requires EpochsOk(epochs, masters, kk) && current in masters && epoch < current
    ensures Highest(DropWrapped(epochs, epoch)) == Highest(epochs)
  {
    var w := Wrapped(current, kk, masters[current]);
    assert w in epochs;
    var i :| 0 <= i < |epochs| && epochs[i] == w;
    assert i < |epochs| - 1 ==> epochs[i].epoch < epochs[|epochs| - 1].epoch;
    DropLast(epochs, epoch);
  }

  class UnlockedKeyring {
    var config: Config
    var slots: seq<Slot>
    var epochs: seq<Wrapped>
    var kk: nat
    var masters: map<nat, nat>
    /** Every epoch number ever given out. */
    ghost var ever: set<nat>

    ghost predicate Valid()
      reads this
    {
      KeysOk(config, epochs, masters, kk, ever) && SlotsOk(slots, kk)
    }

    /**
     A keyring with epoch 1 and one slot that is not a TPM, for a pool encrypted from the start or about to be
     converted.
     */
    constructor (kk: nat, master: nat, first: Slot, conversion: bool)
      requires first.holds == kk && !first.kind.Tpm?
      ensures Valid() && masters == map[1 := master] && ever == {1} && this.kk == kk && slots == [first]
      ensures config == if conversion then Config(PLAINTEXT, PLAINTEXT, Some(1)) else Config(1, 1, None)
    {
      config := if conversion then Config(PLAINTEXT, PLAINTEXT, Some(1)) else Config(1, 1, None);
      slots, epochs, masters, ever := [first], [Wrapped(1, kk, master)], map[1 := master], {1};
      this.kk := kk;
      OneSlot(first, kk);
      OneEpoch(kk, master);
    }

    /**
     Starts a rotation: a new epoch, current from now on. Refused while a conversion is running, or when no number is
     left.
     */
    method StartRekey(master: nat) returns (r: Result<nat, Error>)
      requires Valid()
      modifies this`config, this`epochs, this`masters, this`ever
      ensures Valid()
      ensures match r
              case Ok(e) =>
                && e == old(Highest(epochs)) + 1 && e !in old(ever) && e !in old(masters) && e <= MAX_EPOCH
                && old(config).target.None?
                && config == Config(e, old(config).min, Some(e)) && masters == old(masters)[e := master]
                   && ever == old(ever) + {e}
              case _ =>
                && r == Err(Refused) && (old(config).target.Some? || old(Highest(epochs)) >= MAX_EPOCH)
                && config == old(config) && masters == old(masters) && ever == old(ever) && epochs == old(epochs)
    {
      hide KeysOk, SlotsOk;
      if config.target.Some? {
        return Err(Refused);
      }
      var next := Highest(epochs) + 1;
      if next > MAX_EPOCH {
        return Err(Refused);
      }
      Rotated(config, epochs, masters, kk, ever, master);
      epochs, masters, ever := InsertWrapped(epochs, Wrapped(next, kk, master)), masters[next := master], ever + {next};
      config := Config(next, config.min, Some(next));
      return Ok(next);
    }

    /** The writers of a pool being encrypted switch to the new epoch. */
    method StartEncrypt()
      requires Valid() && config.target.Some?
      modifies this`config
      ensures Valid() && config == old(config).(current := old(config).target.value)
    {
      config := config.(current := config.target.value);
    }

    /** Destroys an epoch's key, unless records of it are still allowed or written. */
    method DropEpoch(epoch: nat) returns (r: Result<(), Error>)
      requires Valid()
      modifies this`epochs, this`masters
      ensures Valid() && (r.Ok? <==> epoch < config.min && epoch != config.current && config.target != Some(epoch))
      ensures r.Err? ==> r == Err(Refused)
      ensures masters == if r.Ok? then old(masters) - {epoch} else old(masters)
    {
      hide KeysOk, SlotsOk;
      if epoch == config.current || epoch >= config.min || config.target == Some(epoch) {
        return Err(Refused);
      }
      Dropped(config, epochs, masters, kk, ever, epoch);
      epochs, masters := DropWrapped(epochs, epoch), masters - {epoch};
      return Ok(());
    }

    /** Ends a conversion: the target is all there is, and everything older is gone for good. */
    method FinishConversion()
      requires Valid() && config.target.Some? && config.current == config.target.value
      modifies this`config, this`epochs, this`masters
      ensures Valid() && config == Config(old(config).current, old(config).current, None)
      ensures masters.Keys == {config.current} && masters[config.current] == old(masters)[config.current]
    {
      hide KeysOk, SlotsOk, Behind, Within;
      var target := config.current;
      Finishing(config, epochs, masters, kk, ever);
      config := Config(target, target, None);
      var list := epochs;
      for i := 0 to |list|
        invariant Valid() && config == Config(target, target, None)
        invariant target in masters && Behind(masters, target, list, i) && Within(masters, old(masters))
      {
        ghost var held := masters;
        if list[i].epoch < target {
          var _ := DropEpoch(list[i].epoch);
          StillWithin(held, old(masters), list[i].epoch);
        }
        OneBehind(held, masters, target, list, i);
      }
      NoneBehind(masters, target, list);
      SameKey(masters, old(masters), target);
    }

    /** A slot under the next id, which is new exactly if the last two ids are not both taken. */
    method AddSlot(kind: SlotKind, lock: nat) returns (id: SlotId)
      requires Valid()
      modifies this`slots
      ensures slots == old(slots) + [Slot(id, kind, lock, kk)] && id == NextId(old(slots))
      ensures !HasId(old(slots), id) <==> !LastTaken(old(slots))
      ensures !LastTaken(old(slots)) ==> Valid()
    {
      hide KeysOk, SlotsOk;
      NextIdNew(slots);
      id := 0;
      for i := 0 to |slots|
        invariant id == NextId(slots[..i])
      {
        assert slots[..i + 1][..i] == slots[..i];
        id := Max(id, (slots[i].id + 1) % U16_LIMIT);
      }
      assert slots[..|slots|] == slots;
      if !LastTaken(slots) {
        OneMore(slots, Slot(id, kind, lock, kk), kk);
      }
      slots := slots + [Slot(id, kind, lock, kk)];
    }

    /** Removes a slot, unless only TPM slots would be left. */
    method RemoveSlot(id: nat) returns (r: Result<(), Error>)
      requires Valid()
      modifies this`slots
      ensures Valid()
      ensures match r
              case Ok(_) => slots == Without(old(slots), id) && HasId(old(slots), id)
              case Err(NoSuchSlot) => slots == old(slots) && !HasId(slots, id)
              case Err(Refused) => slots == old(slots) && HasId(slots, id) && !SlotRules(Without(slots, id))
    {
      hide KeysOk, SlotsOk;
      if !HasId(slots, id) {
        return Err(NoSuchSlot);
      }
      if !SlotRules(Without(slots, id)) {
        return Err(Refused);
      }
      OneLess(slots, id, kk);
      slots := Without(slots, id);
      return Ok(());
    }

    /** The remaining slots around a new key, if every one that needs its secret is given the right one. */
    method Rebuild(left: seq<Slot>, secrets: map<nat, nat>, here: set<nat>, oldKk: nat,
                   newKk: nat) returns (r: Option<seq<Slot>>)
      requires AllHold(left, oldKk)
      ensures r.Some? <==> Answered(left, secrets, here)
      ensures r.Some? ==> Rewrapped(r.value, left, newKk)
    {
      var rebuilt: seq<Slot> := [];
      for i := 0 to |left|
        invariant |rebuilt| == i && forall j :: 0 <= j < i ==> rebuilt[j] == left[j].(holds := newKk)
        invariant forall j :: 0 <= j < i ==> Answers(left[j], secrets, here)
      {
        var s := left[i];
        var right := s.id in secrets && secrets[s.id] == s.lock;
        var proven := match s.kind
                      case Recipient => true
                      case Passphrase => right
                      case Tpm(pin) => s.id in here && (right || !pin);
        if !proven || s.holds != oldKk {
          return None;
        }
        rebuilt := rebuilt + [s.(holds := newKk)];
      }
      return Some(rebuilt);
    }

    /**
     Removes a slot and replaces the keyring key under every other slot and every epoch. `secrets` answers for
     the slots that need a secret, and `here` are the TPM slots this machine unseals; anything that goes wrong
     leaves the keyring exactly as it was.
     */
    method RevokeSlot(id: nat, secrets: map<nat, nat>, here: set<nat>, newKk: nat) returns (r: Result<(), Error>)
      requires Valid()
      modifies this`slots, this`epochs, this`kk
      ensures Valid()
      ensures r.Ok? <==>
         HasId(old(slots), id) && SlotRules(Without(old(slots), id)) && Answered(Without(old(slots), id), secrets, here)
      ensures if r.Ok? then kk == newKk && Rewrapped(slots, Without(old(slots), id), newKk)
              && epochs == Rewrap(old(epochs), newKk)
              else slots == old(slots) && epochs == old(epochs) && kk == old(kk)
    {
      hide KeysOk, SlotsOk, Rewrapped, Answered;
      var all := slots;
      r := RemoveSlot(id);
      if !r.Ok? {
        return;
      }
      HoldsAll(slots, kk);
      var rebuilt := Rebuild(slots, secrets, here, kk, newKk);
      if rebuilt.None? {
        slots := all;
        return Err(Refused);
      }
      RewrapKeys(config, epochs, masters, kk, ever, newKk);
      RewrapSlots(slots, rebuilt.value, kk, newKk);
      slots, kk, epochs := rebuilt.value, newKk, Rewrap(epochs, newKk);
      return Ok(());
    }
  }

  /** A keyring whose only slot would be a TPM is refused. */
  method Create(kk: nat, master: nat, kind: SlotKind, lock: nat, conversion: bool) returns (r: Option<UnlockedKeyring>)
    ensures r.Some? <==> !kind.Tpm?
    ensures r.Some? ==> fresh(r.value) && r.value.Valid() && r.value.slots == [Slot(0, kind, lock, kk)]
  {
    if kind.Tpm? {
      return None;
    }
    var ring := new UnlockedKeyring(kk, master, Slot(0, kind, lock, kk), conversion);
    return Some(ring);
  }

  /** A slot's secret, where it asks for one, is right, and a TPM slot unseals on this machine. */
  predicate Answers(s: Slot, secrets: map<nat, nat>, here: set<nat>) {
    match s.kind
    case Recipient => true
    case Passphrase => s.id in secrets && secrets[s.id] == s.lock
    case Tpm(pin) => s.id in here && (pin ==> s.id in secrets && secrets[s.id] == s.lock)
  }

  predicate Answered(slots: seq<Slot>, secrets: map<nat, nat>, here: set<nat>) {
    forall i :: 0 <= i < |slots| ==> Answers(slots[i], secrets, here)
  }

  /** Every key but the target's is of an epoch still ahead in the list. */
  ghost predicate Behind(masters: map<nat, nat>, target: nat, list: seq<Wrapped>, i: nat) {
    forall e :: e in masters && e != target ==> e < target && exists j :: i <= j < |list| && list[j].epoch == e
  }

  lemma OneBehind(held: map<nat, nat>, masters: map<nat, nat>, target: nat, list: seq<Wrapped>, i: nat)
    requires i < |list| && Behind(held, target, list, i)
    requires masters == if list[i].epoch < target then held - {list[i].epoch} else held
    ensures Behind(masters, target, list, i + 1)
  {
  }

  lemma NoneBehind(masters: map<nat, nat>, target: nat, list: seq<Wrapped>)
    requires Behind(masters, target, list, |list|) && target in masters
    ensures masters.Keys == {target}
  {
  }

  ghost predicate Within(a: map<nat, nat>, b: map<nat, nat>) {
    forall e :: e in a ==> e in b && a[e] == b[e]
  }

  lemma StillWithin(a: map<nat, nat>, b: map<nat, nat>, e: nat)
    requires Within(a, b)
    ensures Within(a - {e}, b)
  {
  }

  lemma SameKey(a: map<nat, nat>, b: map<nat, nat>, e: nat)
    requires Within(a, b) && e in a
    ensures e in b && a[e] == b[e]
  {
  }

  lemma Finishing(c: Config, epochs: seq<Wrapped>, masters: map<nat, nat>, kk: nat, ever: set<nat>)
    requires KeysOk(c, epochs, masters, kk, ever) && c.target == Some(c.current)
    ensures KeysOk(Config(c.current, c.current, None), epochs, masters, kk, ever)
    ensures c.current in masters && Behind(masters, c.current, epochs, 0) && Within(masters, masters)
  {
    assert forall e :: e in masters ==> Wrapped(e, kk, masters[e]) in epochs;
  }

  lemma OneMore(slots: seq<Slot>, s: Slot, kk: nat)
    requires SlotsOk(slots, kk) && s.holds == kk && !HasId(slots, s.id)
    ensures SlotsOk(slots + [s], kk)
  {
    var rule :| 0 <= rule < |slots| && !slots[rule].kind.Tpm?;
    assert !(slots + [s])[rule].kind.Tpm?;
  }

  lemma OneLess(slots: seq<Slot>, id: nat, kk: nat)
    requires SlotsOk(slots, kk) && SlotRules(Without(slots, id))
    ensures SlotsOk(Without(slots, id), kk)
  {
    WithoutIs(slots, id);
    var rest := Without(slots, id);
    hide Without;
    assert forall i :: 0 <= i < |rest| ==> rest[i] in rest;
  }

  lemma HoldsAll(slots: seq<Slot>, kk: nat)
    requires SlotsOk(slots, kk)
    ensures AllHold(slots, kk) && SlotRules(slots)
  {
  }

  lemma RewrapSlots(was: seq<Slot>, slots: seq<Slot>, oldKk: nat, newKk: nat)
    requires SlotsOk(was, oldKk) && Rewrapped(slots, was, newKk)
    ensures SlotsOk(slots, newKk)
  {
    var rule :| 0 <= rule < |was| && !was[rule].kind.Tpm?;
    assert !slots[rule].kind.Tpm?;
  }

  lemma RewrapKeys(c: Config, epochs: seq<Wrapped>, masters: map<nat, nat>, kk: nat, ever: set<nat>, newKk: nat)
    requires KeysOk(c, epochs, masters, kk, ever)
    ensures KeysOk(c, Rewrap(epochs, newKk), masters, newKk, ever)
  {
    RewrapOk(epochs, masters, kk, newKk);
  }

  function Rewrap(epochs: seq<Wrapped>, kk: nat): seq<Wrapped> {
    seq(|epochs|, i requires 0 <= i < |epochs| => epochs[i].(under := kk))
  }

  lemma RewrapOk(epochs: seq<Wrapped>, masters: map<nat, nat>, oldKk: nat, newKk: nat)
    requires EpochsOk(epochs, masters, oldKk)
    ensures EpochsOk(Rewrap(epochs, newKk), masters, newKk) && Highest(Rewrap(epochs, newKk)) == Highest(epochs)
  {
    var r := Rewrap(epochs, newKk);
    forall w | w in r
      ensures w.under == newKk && w.epoch in masters && masters[w.epoch] == w.master
    {
      var i :| 0 <= i < |r| && r[i] == w;
      assert epochs[i] in epochs;
    }
    forall e | e in masters
      ensures Wrapped(e, newKk, masters[e]) in r
    {
      var i :| 0 <= i < |epochs| && epochs[i] == Wrapped(e, oldKk, masters[e]);
      assert r[i] == Wrapped(e, newKk, masters[e]);
    }
  }

  lemma {:induction false} InsertLast(epochs: seq<Wrapped>, w: Wrapped)
    requires Ordered(epochs) && forall x :: x in epochs ==> x.epoch < w.epoch
    ensures InsertWrapped(epochs, w) == epochs + [w]
    decreases |epochs|
  {
    if epochs != [] {
      assert epochs[0] in epochs;
      InsertLast(epochs[1..], w);
    }
  }

  lemma {:induction false} DropLast(epochs: seq<Wrapped>, epoch: nat)
    requires epochs != [] && epochs[|epochs| - 1].epoch != epoch
    ensures Highest(DropWrapped(epochs, epoch)) == Highest(epochs) && DropWrapped(epochs, epoch) != []
    decreases |epochs|
  {
    if |epochs| > 1 {
      DropLast(epochs[1..], epoch);
      assert epochs[1..][|epochs| - 2] == epochs[|epochs| - 1];
    } else {
      assert epochs[1..] == [];
    }
  }
}
