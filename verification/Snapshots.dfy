/**
 Re-keying snapshots while users create and delete them: the snapshot table, the hidden staging entries a
 rewrite publishes its progress as, and the rewrite itself, in any interleaving and over any interruption.

 Objects are content-addressed, so an object is its content and the epoch it is sealed in, and a root is its
 inode map and its own epoch.
 */
module Snapshots {
  import opened Basics

  datatype Obj = Obj(content: nat, epoch: nat)

  datatype Root = Root(inodes: map<nat, Obj>, epoch: nat)

  datatype Name = User(name: string) | Staging(name: string, of: Root)

  datatype Entry = Entry(name: Name, root: Root)

  /** A rewrite under way: the snapshot it started from, and the inodes done. */
  datatype Job = Idle | Rewriting(name: string, root: Root, done: map<nat, Obj>)

  /** `origin`: the tree each snapshot name was last created from. */
  datatype State = State(table: seq<Entry>, epoch: nat, converting: bool, live: Root, job: Job,
                         origin: map<string, map<nat, nat>>)

  datatype Step =
    | Write(root: Root)
    | Create(name: string)
    | Delete(name: string)
    | StartConversion
    | DropOrphans
    | Begin(name: string)
    | Rekey(ino: nat)
    | Stage
    | Publish
    | Interrupt
    | FinishConversion

  /** What a root means to a reader: each inode's content. */
  function Tree(r: Root): map<nat, nat> {
    map i | i in r.inodes :: r.inodes[i].content
  }

  predicate UpTo(r: Root, lo: nat, hi: nat) {
    lo <= r.epoch <= hi && forall i :: i in r.inodes ==> lo <= r.inodes[i].epoch <= hi
  }

  /** The oldest epoch still in use. */
  function Floor(s: State): nat {
    if s.converting && s.epoch > 0 then s.epoch - 1 else s.epoch
  }

  predicate HasName(table: seq<Entry>, name: Name) {
    exists i :: 0 <= i < |table| && table[i].name == name
  }

  function Filter(table: seq<Entry>, keep: Entry -> bool): (r: seq<Entry>)
    ensures forall e :: e in r <==> e in table && keep(e)
  {
    if table == [] then []
    else (if keep(table[0]) then [table[0]] else []) + Filter(table[1..], keep)
  }

  function Find(table: seq<Entry>, name: Name): (r: Option<Entry>)
    ensures r.Some? ==> r.value in table && r.value.name == name
    ensures r.None? ==> forall e :: e in table ==> e.name != name
  {
    if table == [] then None else if table[0].name == name then Some(table[0]) else Find(table[1..], name)
  }

  /** The first entry that is exactly `e` gets root `r`. */
  function ReplaceFirst(table: seq<Entry>, e: Entry, r: Root): seq<Entry> {
    if table == [] then []
    else if table[0] == e then [e.(root := r)] + table[1..]
    else [table[0]] + ReplaceFirst(table[1..], e, r)
  }

  predicate Orphan(table: seq<Entry>, e: Entry) {
    e.name.Staging? && Entry(User(e.name.name), e.name.of) !in table
  }

  predicate Enabled(s: State, a: Step) {
    match a
    case Write(r) => UpTo(r, Floor(s), s.epoch)
    case Create(n) => !HasName(s.table, User(n))
    case Delete(n) => HasName(s.table, User(n))
    case StartConversion => !s.converting
    case DropOrphans => s.converting
    case Begin(n) =>
      s.converting && s.job.Idle? && Find(s.table, User(n)).Some? && Find(s.table, User(n)).value.root.epoch != s.epoch
    case Rekey(i) => s.job.Rewriting? && i in s.job.root.inodes && i !in s.job.done
    case Stage => s.job.Rewriting?
    case Publish => s.job.Rewriting? && forall i :: i in s.job.root.inodes ==> i in s.job.done
    case Interrupt => true
    case FinishConversion =>
      s.converting && s.job.Idle? && UpTo(s.live, s.epoch, s.epoch)
      && forall e :: e in s.table && e.name.User? ==> UpTo(e.root, s.epoch, s.epoch)
  }

  /** The staging entry of the snapshot a rewrite started from. */
  function StagingOf(j: Job): Name
    requires j.Rewriting?
  {
    Staging(j.name, j.root)
  }

  /**
   `replace_snapshot_entry`: as the staging entry, or in place of the snapshot, or, if that snapshot is gone, not at
   all.
   */
  function Replace(s: State, finished: bool): seq<Entry>
    requires s.job.Rewriting?
  {
    var original, root := Entry(User(s.job.name), s.job.root), Root(s.job.done, s.epoch);
    var rest := Filter(s.table, (e: Entry) => e.name != StagingOf(s.job));
    if original !in s.table then rest
    else if finished then ReplaceFirst(rest, original, root)
    else rest + [Entry(StagingOf(s.job), root)]
  }

  function Apply(s: State, a: Step): State
    requires Enabled(s, a)
  {
    match a
    case Write(r) => s.(live := r)
    case Create(n) => s.(table := s.table + [Entry(User(n), s.live)], origin := s.origin[n := Tree(s.live)])
    case Delete(n) =>
      s.(table := Filter(s.table, (e: Entry) =>
           e.name != User(n) && !(e.name.Staging? && e.name.name == n && Entry(User(n), e.name.of) in s.table)))
    case StartConversion => s.(epoch := s.epoch + 1, converting := true)
    case DropOrphans => s.(table := Filter(s.table, (e: Entry) => !Orphan(s.table, e)))
    case Begin(n) =>
      var e := Find(s.table, User(n)).value;
      var staged := Find(s.table, Staging(n, e.root));
      s.(job := Rewriting(n, e.root, if staged.Some? then staged.value.root.inodes else map[]))
    case Rekey(i) => s.(job := s.job.(done := s.job.done[i := s.job.root.inodes[i].(epoch := s.epoch)]))
    case Stage =>
      s.(table := Replace(s, false), job := if Entry(User(s.job.name), s.job.root) in s.table then s.job else Idle)
    case Publish => s.(table := Replace(s, true), job := Idle)
    case Interrupt => s.(job := Idle)
    case FinishConversion => s.(converting := false)
  }

  predicate Init(s: State) {
    s.table == [] && !s.converting && s.job.Idle? && UpTo(s.live, s.epoch, s.epoch) && s.origin == map[]
  }

  // ---------------------------------------------------------------------------------------------
  // What every step keeps.
  // ---------------------------------------------------------------------------------------------

  /** `done` is some of `root`'s inodes, each with its content, in epoch `to`. */
  ghost predicate PartOf(done: map<nat, Obj>, root: Root, to: nat) {
    root.epoch < to && forall i :: i in done ==> i in root.inodes && done[i] == root.inodes[i].(epoch := to)
  }

  ghost predicate UserOk(s: State, e: Entry) {
    UpTo(e.root, Floor(s), s.epoch) && e.name.name in s.origin && Tree(e.root) == s.origin[e.name.name]
  }

  ghost predicate StagingOk(s: State, e: Entry)
    requires e.name.Staging?
  {
    e.root.epoch <= s.epoch && PartOf(e.root.inodes, e.name.of, e.root.epoch)
  }

  ghost predicate EntryOk(s: State, e: Entry) {
    if e.name.User? then UserOk(s, e) else StagingOk(s, e)
  }

  ghost predicate OneEach(table: seq<Entry>) {
    forall i, j :: 0 <= i < j < |table| ==> table[i].name != table[j].name
  }

  ghost predicate JobOk(s: State) {
    s.job.Rewriting? ==>
      s.converting && s.epoch > 0 && PartOf(s.job.done, s.job.root, s.epoch) && UpTo(s.job.root, Floor(s), s.epoch)
  }

  ghost predicate Inv(s: State) {
    && UpTo(s.live, Floor(s), s.epoch) && JobOk(s) && OneEach(s.table) && (s.converting ==> s.epoch > 0)
    && (forall e :: e in s.table ==> EntryOk(s, e))
  }

  lemma {:induction false} FilterOneEach(table: seq<Entry>, keep: Entry -> bool)
    requires OneEach(table)
    ensures OneEach(Filter(table, keep))
  {
    if table != [] {
      FilterOneEach(table[1..], keep);
      var rest := Filter(table[1..], keep);
      forall j | 0 <= j < |rest|
        ensures rest[j].name != table[0].name
      {
        assert rest[j] in rest;
        assert rest[j] in table[1..];
      }
    }
  }

  lemma {:induction false} ReplaceFirstIs(table: seq<Entry>, e: Entry, r: Root)
    ensures |ReplaceFirst(table, e, r)| == |table|
    ensures forall i :: 0 <= i < |table| ==> ReplaceFirst(table, e, r)[i].name == table[i].name
    ensures forall x :: x in ReplaceFirst(table, e, r) ==> x in table || x == e.(root := r)
  {
    if table != [] && table[0] != e {
      ReplaceFirstIs(table[1..], e, r);
    }
  }

  /** A finished rewrite means what the snapshot meant. */
  lemma DoneIsWhole(done: map<nat, Obj>, root: Root, to: nat)
    requires PartOf(done, root, to) && forall i :: i in root.inodes ==> i in done
    ensures Tree(Root(done, to)) == Tree(root) && UpTo(Root(done, to), to, to)
  {
  }

  lemma SameEntry(s: State, t: State, e: Entry)
    requires EntryOk(s, e) && s.epoch <= t.epoch && (e.name.User? ==>
               Floor(t) <= Floor(s) || UpTo(e.root, Floor(t), t.epoch))
    requires e.name.User? ==> e.name.name in t.origin && t.origin[e.name.name] == s.origin[e.name.name]
    ensures EntryOk(t, e)
  {
  }

  lemma CreateInv(s: State, n: string)
    requires Inv(s) && Enabled(s, Create(n))
    ensures Inv(Apply(s, Create(n)))
  {
    var t := Apply(s, Create(n));
    forall e | e in t.table
      ensures EntryOk(t, e)
    {
      if e in s.table {
        SameEntry(s, t, e);
      }
    }
  }

  lemma DeleteInv(s: State, n: string)
    requires Inv(s) && Enabled(s, Delete(n))
    ensures Inv(Apply(s, Delete(n)))
  {
    var t := Apply(s, Delete(n));
    FilterOneEach(s.table, (e: Entry) =>
      e.name != User(n) && !(e.name.Staging? && e.name.name == n && Entry(User(n), e.name.of) in s.table));
    forall e | e in t.table
      ensures EntryOk(t, e)
    {
      SameEntry(s, t, e);
    }
  }

  lemma DropInv(s: State)
    requires Inv(s) && Enabled(s, DropOrphans)
    ensures Inv(Apply(s, DropOrphans))
  {
    var t := Apply(s, DropOrphans);
    FilterOneEach(s.table, (e: Entry) => !Orphan(s.table, e));
    forall e | e in t.table
      ensures EntryOk(t, e)
    {
      SameEntry(s, t, e);
    }
  }

  /** A staging entry found for a snapshot in the table was made by this conversion. */
  lemma BeginInv(s: State, n: string)
    requires Inv(s) && Enabled(s, Begin(n))
    ensures Inv(Apply(s, Begin(n)))
  {
    var t, e := Apply(s, Begin(n)), Find(s.table, User(n)).value;
    var staged := Find(s.table, Staging(n, e.root));
    assert EntryOk(s, e);
    if staged.Some? {
      assert EntryOk(s, staged.value);
      assert staged.value.root.epoch == s.epoch;
    }
    forall x | x in t.table
      ensures EntryOk(t, x)
    {
      SameEntry(s, t, x);
    }
  }

  lemma StageInv(s: State)
    requires Inv(s) && Enabled(s, Stage)
    ensures Inv(Apply(s, Stage))
  {
    var t, name := Apply(s, Stage), StagingOf(s.job);
    var keep := (e: Entry) => e.name != name;
    var rest := Filter(s.table, keep);
    FilterOneEach(s.table, keep);
    assert forall i :: 0 <= i < |rest| ==> rest[i] in rest;
    forall e | e in t.table
      ensures EntryOk(t, e)
    {
      if e in s.table {
        SameEntry(s, t, e);
      }
    }
  }

  lemma PublishInv(s: State)
    requires Inv(s) && Enabled(s, Publish)
    ensures Inv(Apply(s, Publish))
  {
    var t, name := Apply(s, Publish), StagingOf(s.job);
    var original, root := Entry(User(s.job.name), s.job.root), Root(s.job.done, s.epoch);
    var keep := (e: Entry) => e.name != name;
    var rest := Filter(s.table, keep);
    FilterOneEach(s.table, keep);
    ReplaceFirstIs(rest, original, root);
    DoneIsWhole(s.job.done, s.job.root, s.epoch);
    forall e | e in t.table
      ensures EntryOk(t, e)
    {
      if e in s.table {
        SameEntry(s, t, e);
      } else {
        assert EntryOk(s, original);
      }
    }
  }

  lemma StepInv(s: State, a: Step)
    requires Inv(s) && Enabled(s, a)
    ensures Inv(Apply(s, a))
  {
    match a
    case Create(n) => CreateInv(s, n);
    case Delete(n) => DeleteInv(s, n);
    case DropOrphans => DropInv(s);
    case Begin(n) => BeginInv(s, n);
    case Stage => StageInv(s);
    case Publish => PublishInv(s);
    case _ => OtherInv(s, a);
  }

  lemma OtherInv(s: State, a: Step)
    requires Inv(s) && Enabled(s, a)
    requires a.Write? || a.StartConversion? || a.Rekey? || a.Interrupt? || a.FinishConversion?
    ensures Inv(Apply(s, a))
  {
    var t := Apply(s, a);
    forall e | e in t.table
      ensures EntryOk(t, e)
    {
      SameEntry(s, t, e);
    }
  }

  // ---------------------------------------------------------------------------------------------
  // Over whole runs.
  // ---------------------------------------------------------------------------------------------

  predicate Runs(s: State, run: seq<Step>)
    decreases |run|
  {
    run == [] || (Enabled(s, run[0]) && Runs(Apply(s, run[0]), run[1..]))
  }

  function Final(s: State, run: seq<Step>): State
    requires Runs(s, run)
    decreases |run|
  {
    if run == [] then s else Final(Apply(s, run[0]), run[1..])
  }

  lemma {:induction false} RunInv(s: State, run: seq<Step>)
    requires Inv(s) && Runs(s, run)
    ensures Inv(Final(s, run))
    decreases |run|
  {
    hide Inv, Enabled, Apply;
    if run != [] {
      StepInv(s, run[0]);
      RunInv(Apply(s, run[0]), run[1..]);
    }
  }

  /** The snapshots a user sees. */
  function Visible(s: State): set<string> {
    set e | e in s.table && e.name.User? :: e.name.name
  }

  /**
   In every reachable state each snapshot a user sees is listed once and means the tree it was created from,
   whatever was rewritten, resumed, deleted or made again under its name in between.
   */
  lemma SnapshotsKeepTheirTrees(s: State, run: seq<Step>)
    requires Init(s) && Runs(s, run)
    ensures var t := Final(s, run);
            && OneEach(t.table)
            && forall e :: e in t.table && e.name.User? ==>
              e.name.name in t.origin && Tree(e.root) == t.origin[e.name.name]
  {
    RunInv(s, run);
    var t := Final(s, run);
    assert forall e :: e in t.table ==> EntryOk(t, e);
  }

  /**
   Only the user changes which snapshots there are: creating adds one, deleting takes one away, and no other step does
   either.
   */
  lemma OnlyUsersChangeTheList(s: State, a: Step)
    requires Inv(s) && Enabled(s, a)
    ensures Visible(Apply(s, a)) ==
            match a
            case Create(n) => Visible(s) + {n}
            case Delete(n) => Visible(s) - {n}
            case _ => Visible(s)
    ensures !a.Create? ==> Apply(s, a).origin == s.origin
  {
    var t := Apply(s, a);
    forall n
      ensures n in Visible(t) <==> match a
                                   case Create(m) => n in Visible(s) || n == m
                                   case Delete(m) => n in Visible(s) && n != m
                                   case _ => n in Visible(s)
    {
      VisibleIs(s, n);
      VisibleIs(t, n);
      SameNames(s, a, n);
    }
  }

  lemma VisibleIs(s: State, n: string)
    ensures n in Visible(s) <==> HasName(s.table, User(n))
  {
    if HasName(s.table, User(n)) {
      var i :| 0 <= i < |s.table| && s.table[i].name == User(n);
      assert s.table[i] in s.table;
    }
  }

  lemma SameNames(s: State, a: Step, n: string)
    requires Enabled(s, a)
    ensures HasName(Apply(s, a).table, User(n)) <==> match a
                                                     case Create(m) => HasName(s.table, User(n)) || n == m
                                                     case Delete(m) => HasName(s.table, User(n)) && n != m
                                                     case _ => HasName(s.table, User(n))
  {
    var t := Apply(s, a);
    match a
    case Create(m) =>
      assert forall i :: 0 <= i < |s.table| ==> t.table[i] == s.table[i];
      assert t.table[|s.table|] == Entry(User(m), s.live);
    case Delete(m) => Kept(s.table, t.table, n, n != m);
    case DropOrphans => Kept(s.table, t.table, n, true);
    case Stage =>
      var rest := Filter(s.table, (e: Entry) => e.name != StagingOf(s.job));
      Kept(s.table, rest, n, true);
      if t.table != rest {
        assert forall i :: 0 <= i < |rest| ==> t.table[i] == rest[i];
      }
    case Publish =>
      var rest := Filter(s.table, (e: Entry) => e.name != StagingOf(s.job));
      Kept(s.table, rest, n, true);
      ReplaceFirstIs(rest, Entry(User(s.job.name), s.job.root), Root(s.job.done, s.epoch));
      assert forall i :: 0 <= i < |rest| ==> t.table[i].name == rest[i].name;
    case _ =>
  }

  lemma Kept(table: seq<Entry>, rest: seq<Entry>, n: string, keep: bool)
    requires forall e :: e in rest ==> e in table
    requires forall e :: e in table && e.name == User(n) ==> (e in rest <==> keep)
    ensures HasName(rest, User(n)) <==> HasName(table, User(n)) && keep
  {
    if HasName(rest, User(n)) {
      var i :| 0 <= i < |rest| && rest[i].name == User(n);
      assert rest[i] in rest;
    }
    if HasName(table, User(n)) && keep {
      var i :| 0 <= i < |table| && table[i].name == User(n);
      assert table[i] in table;
    }
  }

  /**
   Publishing a finished rewrite leaves the snapshot, and every inode in it, in the conversion's epoch, and no staging
   entry of it.
   */
  lemma PublishRekeys(s: State)
    requires Inv(s) && Enabled(s, Publish)
    ensures var t, was := Apply(s, Publish), Entry(User(s.job.name), s.job.root);
            && !HasName(t.table, StagingOf(s.job))
            && (was in s.table ==>
                  exists e :: e in t.table && e.name == was.name && UpTo(e.root, s.epoch, s.epoch)
                    && Tree(e.root) == Tree(was.root))
  {
    var t, was, root := Apply(s, Publish), Entry(User(s.job.name), s.job.root), Root(s.job.done, s.epoch);
    var rest := Filter(s.table, (e: Entry) => e.name != StagingOf(s.job));
    ReplaceFirstIs(rest, was, root);
    assert forall i :: 0 <= i < |rest| ==> rest[i] in rest;
    if was in s.table {
      DoneIsWhole(s.job.done, s.job.root, s.epoch);
      Replaces(rest, was, root);
    }
  }

  /** A rewrite whose snapshot is gone stops when it next stages, and leaves no staging entry. */
  lemma StageStops(s: State)
    requires Enabled(s, Stage) && Entry(User(s.job.name), s.job.root) !in s.table
    ensures Apply(s, Stage).job.Idle? && !HasName(Apply(s, Stage).table, StagingOf(s.job))
  {
    var rest := Filter(s.table, (e: Entry) => e.name != StagingOf(s.job));
    assert forall i :: 0 <= i < |rest| ==> rest[i] in rest;
  }

  /** Dropping orphans takes exactly the staging entries whose snapshot is gone, and leaves none. */
  lemma OrphansDropped(s: State)
    requires Enabled(s, DropOrphans)
    ensures var t := Apply(s, DropOrphans);
            && (forall e :: e in t.table <==> e in s.table && !Orphan(s.table, e))
            && (forall e :: e in t.table ==> !Orphan(t.table, e))
  {
  }

  /** Deleting a snapshot takes it and its staging entry, and nothing else. */
  lemma DeleteTakes(s: State, n: string)
    requires Inv(s) && Enabled(s, Delete(n))
    ensures var t, was := Apply(s, Delete(n)), Find(s.table, User(n)).value;
            forall e :: e in t.table <==> e in s.table && e != was && e.name != Staging(n, was.root)
  {
    var was := Find(s.table, User(n));
    forall e | e in s.table && (e.name == User(n) || (e.name.Staging? && Entry(User(n), e.name.of) in s.table))
      ensures e.name == User(n) ==> e == was.value
      ensures e.name.Staging? && Entry(User(n), e.name.of) in s.table ==> e.name.of == was.value.root
    {
      if e.name == User(n) {
        UniqueName(s.table, e, was.value);
      } else {
        UniqueName(s.table, Entry(User(n), e.name.of), was.value);
      }
    }
  }

  lemma {:induction false} Replaces(table: seq<Entry>, e: Entry, r: Root)
    requires e in table
    ensures e.(root := r) in ReplaceFirst(table, e, r)
  {
    if table[0] != e {
      Replaces(table[1..], e, r);
    }
  }

  // ---------------------------------------------------------------------------------------------
  // Resuming.
  // ---------------------------------------------------------------------------------------------

  ghost predicate Within(a: map<nat, Obj>, b: map<nat, Obj>) {
    forall i :: i in a ==> i in b && b[i] == a[i]
  }

  /** A staging entry of that snapshot has at least `done`. */
  ghost predicate HasStaged(table: seq<Entry>, n: string, root: Root, done: map<nat, Obj>) {
    exists e :: e in table && e.name == Staging(n, root) && Within(done, e.root.inodes)
  }

  /** The snapshot is listed, and what was done of it is staged, and not forgotten by a rewrite of it under way. */
  ghost predicate Staged(s: State, n: string, root: Root, done: map<nat, Obj>) {
    && Entry(User(n), root) in s.table && HasStaged(s.table, n, root, done)
    && (s.job.Rewriting? && s.job.name == n && s.job.root == root ==> Within(done, s.job.done))
  }

  /** The snapshot has been rewritten to a later epoch. */
  ghost predicate Moved(s: State, n: string, root: Root) {
    exists e :: e in s.table && e.name == User(n) && e.root.epoch > root.epoch
  }

  /** A filter that keeps the snapshot and its staging entry. */
  lemma FilterStaged(s: State, t: State, keep: Entry -> bool, n: string, root: Root, done: map<nat, Obj>)
    requires Staged(s, n, root, done) && t.job == s.job && t.table == Filter(s.table, keep)
    requires keep(Entry(User(n), root)) && forall e :: e in s.table && e.name == Staging(n, root) ==> keep(e)
    ensures Staged(t, n, root, done)
  {
  }

  lemma UniqueName(table: seq<Entry>, a: Entry, b: Entry)
    requires OneEach(table) && a in table && b in table && a.name == b.name
    ensures a == b
  {
  }

  lemma StageStaged(s: State, n: string, root: Root, done: map<nat, Obj>)
    requires Inv(s) && Enabled(s, Stage) && Staged(s, n, root, done)
    ensures Staged(Apply(s, Stage), n, root, done)
  {
    var t, name := Apply(s, Stage), StagingOf(s.job);
    var rest := Filter(s.table, (e: Entry) => e.name != name);
    assert Entry(User(n), root) in rest;
    if name == Staging(n, root) {
      var e := Entry(name, Root(s.job.done, s.epoch));
      assert t.table[|rest|] == e;
      assert e in t.table && Within(done, e.root.inodes);
    } else {
      var e :| e in s.table && e.name == Staging(n, root) && Within(done, e.root.inodes);
      assert e in rest;
      assert e in t.table;
    }
  }

  lemma PublishStaged(s: State, n: string, root: Root, done: map<nat, Obj>)
    requires Inv(s) && Enabled(s, Publish) && Staged(s, n, root, done)
    ensures Staged(Apply(s, Publish), n, root, done) || Moved(Apply(s, Publish), n, root)
  {
    var t, name := Apply(s, Publish), StagingOf(s.job);
    var original, now := Entry(User(s.job.name), s.job.root), Root(s.job.done, s.epoch);
    var rest := Filter(s.table, (e: Entry) => e.name != name);
    if original == Entry(User(n), root) {
      Replaces(rest, original, now);
      assert original.(root := now) in t.table;
      assert Moved(t, n, root);
    } else {
      var e :| e in s.table && e.name == Staging(n, root) && Within(done, e.root.inodes);
      assert name != e.name;
      Survives(rest, original, now, Entry(User(n), root));
      Survives(rest, original, now, e);
    }
  }

  lemma {:induction false} Survives(table: seq<Entry>, e: Entry, r: Root, x: Entry)
    requires x in table && x != e
    ensures x in ReplaceFirst(table, e, r)
  {
    if table[0] != e && x != table[0] {
      Survives(table[1..], e, r, x);
    } else if table[0] == e {
      assert table == [e] + table[1..];
    }
  }

  lemma MovedStep(s: State, a: Step, n: string, root: Root)
    requires Inv(s) && Enabled(s, a) && a != Delete(n) && Moved(s, n, root)
    ensures Moved(Apply(s, a), n, root)
  {
    var t := Apply(s, a);
    var e :| e in s.table && e.name == User(n) && e.root.epoch > root.epoch;
    match a
    case Publish =>
      var original, now := Entry(User(s.job.name), s.job.root), Root(s.job.done, s.epoch);
      var rest := Filter(s.table, (x: Entry) => x.name != StagingOf(s.job));
      assert e in rest;
      if e == original {
        Replaces(rest, original, now);
        assert original.(root := now) in t.table;
      } else {
        Survives(rest, original, now, e);
        assert e in t.table;
      }
    case _ => assert e in t.table;
  }

  lemma BeginStaged(s: State, m: string, n: string, root: Root, done: map<nat, Obj>)
    requires Inv(s) && Enabled(s, Begin(m)) && Staged(s, n, root, done)
    ensures Staged(Apply(s, Begin(m)), n, root, done)
    ensures m == n ==> Apply(s, Begin(m)).job.root == root && Within(done, Apply(s, Begin(m)).job.done)
  {
    var e := Find(s.table, User(m)).value;
    if m == n {
      UniqueName(s.table, e, Entry(User(n), root));
      var x :| x in s.table && x.name == Staging(n, root) && Within(done, x.root.inodes);
      UniqueName(s.table, Find(s.table, Staging(n, root)).value, x);
    }
  }

  lemma StagedStep(s: State, a: Step, n: string, root: Root, done: map<nat, Obj>)
    requires Inv(s) && Enabled(s, a) && a != Delete(n) && Staged(s, n, root, done)
    ensures Staged(Apply(s, a), n, root, done) || Moved(Apply(s, a), n, root)
  {
    match a
    case Delete(m) =>
      var keep := (e: Entry) =>
        e.name != User(m) && !(e.name.Staging? && e.name.name == m && Entry(User(m), e.name.of) in s.table);
      FilterStaged(s, Apply(s, a), keep, n, root, done);
    case DropOrphans => FilterStaged(s, Apply(s, a), (e: Entry) => !Orphan(s.table, e), n, root, done);
    case Begin(m) => BeginStaged(s, m, n, root, done);
    case Stage => StageStaged(s, n, root, done);
    case Publish => PublishStaged(s, n, root, done);
    case Create(m) => assert forall e :: e in s.table ==> e in Apply(s, a).table;
    case _ =>
  }

  lemma {:induction false} StagedRun(s: State, run: seq<Step>, n: string, root: Root, done: map<nat, Obj>)
    requires Inv(s) && Runs(s, run) && (forall i :: 0 <= i < |run| ==> run[i] != Delete(n))
    requires Staged(s, n, root, done) || Moved(s, n, root)
    ensures Staged(Final(s, run), n, root, done) || Moved(Final(s, run), n, root)
    decreases |run|
  {
    hide Inv, Enabled, Apply, Staged, Moved;
    if run != [] {
      StepInv(s, run[0]);
      if Moved(s, n, root) {
        MovedStep(s, run[0], n, root);
      } else {
        StagedStep(s, run[0], n, root, done);
      }
      StagedRun(Apply(s, run[0]), run[1..], n, root, done);
    }
  }

  lemma Stages(s: State)
    requires Inv(s) && Enabled(s, Stage) && Entry(User(s.job.name), s.job.root) in s.table
    ensures Staged(Apply(s, Stage), s.job.name, s.job.root, s.job.done)
  {
    var t, name := Apply(s, Stage), StagingOf(s.job);
    var rest := Filter(s.table, (e: Entry) => e.name != name);
    assert Entry(User(s.job.name), s.job.root) in rest;
    assert t.table[|rest|] == Entry(name, Root(s.job.done, s.epoch));
  }

  /**
   What a rewrite has staged of a snapshot is not done again: whatever happens in between, interruptions, other
   snapshots and other rewrites included, as long as that snapshot is not deleted and still waits to be rewritten,
   the next rewrite of it begins with at least the inodes done then, each as it was rewritten.
   */
  lemma RewriteResumes(first: State, before: seq<Step>, s: State, during: seq<Step>)
    requires Init(first) && Runs(first, before) && s == Final(first, before)
    requires Enabled(s, Stage) && Entry(User(s.job.name), s.job.root) in s.table
    requires forall i :: 0 <= i < |during| ==> during[i] != Delete(s.job.name)
    requires Runs(Apply(s, Stage), during) && Enabled(Final(Apply(s, Stage), during), Begin(s.job.name))
    requires Entry(User(s.job.name), s.job.root) in Final(Apply(s, Stage), during).table
    ensures var t := Apply(Final(Apply(s, Stage), during), Begin(s.job.name));
            && t.job.Rewriting? && t.job.name == s.job.name && t.job.root == s.job.root
            && forall i :: i in s.job.done ==> i in t.job.done && t.job.done[i] == s.job.done[i]
  {
    var n, root, done := s.job.name, s.job.root, s.job.done;
    var a := Apply(s, Stage);
    RunInv(first, before);
    StepInv(s, Stage);
    Stages(s);
    var b := Final(a, during);
    RunInv(a, during);
    StagedRun(a, during, n, root, done);
    NotMoved(b, n, root);
    BeginStaged(b, n, n, root, done);
  }

  lemma NotMoved(s: State, n: string, root: Root)
    requires Inv(s) && Entry(User(n), root) in s.table
    ensures !Moved(s, n, root)
  {
    forall e | e in s.table && e.name == User(n)
      ensures e.root == root
    {
      UniqueName(s.table, e, Entry(User(n), root));
    }
  }

  // ---------------------------------------------------------------------------------------------
  // Staging names.
  // ---------------------------------------------------------------------------------------------

  /**
   A staging entry's name on disk: a prefix no user may use, the snapshot's name, and its root hash in 64 hex digits.
   */
  function StagingName(prefix: string, name: string, hex: string): string
    requires |hex| == 64
  {
    prefix + name + "/" + hex
  }

  /** Whatever a name contains, the name and root it was made from can be read back from it. */
  lemma StagingNameInjective(prefix: string, n: string, h: string, m: string, g: string)
    requires |h| == 64 && |g| == 64 && StagingName(prefix, n, h) == StagingName(prefix, m, g)
    ensures n == m && h == g
  {
    var a, b := StagingName(prefix, n, h), StagingName(prefix, m, g);
    assert h == a[|a| - 64..] && g == b[|b| - 64..];
    assert n == a[|prefix|..|a| - 65] && m == b[|prefix|..|b| - 65];
  }
}
