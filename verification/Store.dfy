/**
 Interleavings of Update and UpdateExisting on the JSON-file-backed store
 (internal/store/store.go): per-MAC locks around read-modify-write, one save mutex around
 snapshot and rename. Delete and bare Put are not part of this model.
 */
module Store {
  import opened Options

  type Mac = string

  /** A device value; what it holds is immaterial here. */
  type Value = int

  /** One committed cycle: what it read and what it left. */
  datatype Commit = Commit(mac: Mac, read: Option<Value>, left: Value)

  datatype Thread =
    | Idle
    | Waiting(mac: Mac, upsert: bool)
    | Locked(mac: Mac, upsert: bool)                // holds the per-MAC mutex
    | HasRead(mac: Mac, value: Option<Value>)       // holds the per-MAC mutex, fn is running
    | Stored(mac: Mac, commit: nat)                 // holds the per-MAC mutex, Put happened
    | NeedsSave(commit: nat)
    | Saving(commit: nat)                           // holds saveMu
    | Snapped(commit: nat, upTo: nat)               // holds saveMu, snapshot marshalled
    | Returned(commit: nat)
    | Failed

  type ThreadId = nat

  datatype State = State(
    loaded: map<Mac, Value>,                         // read from the file at startup
    devices: map<Mac, Value>,
    commits: seq<Commit>,
    disk: map<Mac, Value>,
    diskUpTo: nat,                                   // commits the disk file reflects
    threads: map<ThreadId, Thread>)

  function ThreadOf(s: State, t: ThreadId): Thread {
    if t in s.threads then s.threads[t] else Idle
  }

  predicate HoldsMac(th: Thread, mac: Mac) {
    (th.Locked? || th.HasRead? || th.Stored?) && th.mac == mac
  }

  predicate HoldsSave(th: Thread) {
    th.Saving? || th.Snapped?
  }

  ghost predicate MacFree(s: State, mac: Mac) {
    forall t :: t in s.threads ==> !HoldsMac(s.threads[t], mac)
  }

  ghost predicate SaveFree(s: State) {
    forall t :: t in s.threads ==> !HoldsSave(s.threads[t])
  }

  function Lookup(m: map<Mac, Value>, mac: Mac): Option<Value> {
    if mac in m then Some(m[mac]) else None
  }

  /** The device map a list of commits makes of the loaded one. */
  function Memory(loaded: map<Mac, Value>, commits: seq<Commit>): map<Mac, Value> {
    if commits == [] then loaded
    else
      var c := commits[|commits| - 1];
      Memory(loaded, commits[..|commits| - 1])[c.mac := c.left]
  }

  /** One atomic action of thread t. */
  datatype Action =
    | Call(mac: Mac, upsert: bool)
    | LockMac
    | Read
    | Abort                    // fn returned an error, or the MAC is unknown and not upserted
    | Write(value: Value)      // fn succeeded; Put under the store lock
    | UnlockMac
    | LockSave
    | Snapshot                 // marshal under the read lock
    | Rename                   // temp file renamed over the store file, saveMu released
    | SaveError                // any file error, saveMu released

  function Go(s: State, t: ThreadId, th: Thread): State {
    s.(threads := s.threads[t := th])
  }

  ghost predicate Next(s: State, t: ThreadId, a: Action, s': State) {
    var th := ThreadOf(s, t);
    match a
    case Call(mac, upsert) => (th.Idle? || th.Returned? || th.Failed?) && s' == Go(s, t, Waiting(mac, upsert))
    case LockMac => th.Waiting? && MacFree(s, th.mac) && s' == Go(s, t, Locked(th.mac, th.upsert))
    case Read => th.Locked? && (th.upsert || th.mac in s.devices) && s' == Go(s, t, HasRead(th.mac, Lookup(s.devices, th.mac)))
    case Abort => (th.HasRead? || (th.Locked? && !th.upsert && th.mac !in s.devices)) && s' == Go(s, t, Failed)
    case Write(value) => th.HasRead? && s' == Go(Committed(s, Commit(th.mac, th.value, value)), t, Stored(th.mac, |s.commits|))
    case UnlockMac => th.Stored? && s' == Go(s, t, NeedsSave(th.commit))
    case LockSave => th.NeedsSave? && SaveFree(s) && s' == Go(s, t, Saving(th.commit))
    case Snapshot => th.Saving? && s' == Go(s, t, Snapped(th.commit, |s.commits|))
    case Rename =>
      && th.Snapped? && th.upTo <= |s.commits|
      && s' == Go(s.(disk := Memory(s.loaded, s.commits[..th.upTo]), diskUpTo := th.upTo), t, Returned(th.commit))
    case SaveError => HoldsSave(th) && s' == Go(s, t, Failed)
  }

  function Committed(s: State, c: Commit): State {
    s.(devices := s.devices[c.mac := c.left], commits := s.commits + [c])
  }

  /** The last value a MAC was left with by a prefix of the commits. */
  function LastLeft(loaded: map<Mac, Value>, commits: seq<Commit>, mac: Mac): Option<Value> {
    if commits == [] then Lookup(loaded, mac)
    else if commits[|commits| - 1].mac == mac then Some(commits[|commits| - 1].left)
    else LastLeft(loaded, commits[..|commits| - 1], mac)
  }

  /** Every committed cycle started from the value the previous one for that MAC left. */
  ghost predicate Chained(loaded: map<Mac, Value>, commits: seq<Commit>) {
    forall i :: 0 <= i < |commits| ==> commits[i].read == LastLeft(loaded, commits[..i], commits[i].mac)
  }

  ghost predicate ThreadOk(s: State, th: Thread) {
    && (th.HasRead? ==> th.value == Lookup(s.devices, th.mac))
    && (th.Stored? || th.NeedsSave? || th.Saving? ==> th.commit < |s.commits|)
    && (th.Snapped? ==> th.commit < th.upTo <= |s.commits| && s.diskUpTo <= th.upTo)
    && (th.Returned? ==> th.commit < s.diskUpTo)
  }

  ghost predicate DataOk(s: State) {
    && s.devices == Memory(s.loaded, s.commits)
    && Chained(s.loaded, s.commits)
    && s.diskUpTo <= |s.commits| && s.disk == Memory(s.loaded, s.commits[..s.diskUpTo])
  }

  ghost predicate ThreadsOk(s: State) {
    forall t :: t in s.threads ==> ThreadOk(s, s.threads[t])
  }

  /** Two threads never hold one MAC's mutex, nor the save mutex. */
  ghost predicate Exclusive(threads: map<ThreadId, Thread>) {
    && (forall t, u, mac :: t in threads && u in threads && HoldsMac(threads[t], mac) && HoldsMac(threads[u], mac) ==> t == u)
    && (forall t, u :: t in threads && u in threads && HoldsSave(threads[t]) && HoldsSave(threads[u]) ==> t == u)
  }

  ghost predicate Inv(s: State) {
    DataOk(s) && ThreadsOk(s) && Exclusive(s.threads)
  }

  function Opened(loaded: map<Mac, Value>): State {
    State(loaded, loaded, [], loaded, 0, map[])
  }

  lemma {:induction false} MemoryIsLastLeft(loaded: map<Mac, Value>, commits: seq<Commit>, mac: Mac)
    ensures Lookup(Memory(loaded, commits), mac) == LastLeft(loaded, commits, mac)
  {
    if commits != [] {
      MemoryIsLastLeft(loaded, commits[..|commits| - 1], mac);
    }
  }

  /** A thread may take a mutex only when it is free; then exclusion is kept. */
  lemma GoKeepsExclusive(s: State, t: ThreadId, th: Thread)
    requires Exclusive(s.threads)
    requires forall mac :: HoldsMac(th, mac) ==> HoldsMac(ThreadOf(s, t), mac) || MacFree(s, mac)
    requires HoldsSave(th) ==> HoldsSave(ThreadOf(s, t)) || SaveFree(s)
    ensures Exclusive(Go(s, t, th).threads)
  {
  }

  lemma GoKeeps(s: State, t: ThreadId, th: Thread)
    requires Inv(s) && ThreadOk(s, th)
    requires forall mac :: HoldsMac(th, mac) ==> HoldsMac(ThreadOf(s, t), mac) || MacFree(s, mac)
    requires HoldsSave(th) ==> HoldsSave(ThreadOf(s, t)) || SaveFree(s)
    ensures Inv(Go(s, t, th))
  {
    hide Memory, Chained;
    GoKeepsExclusive(s, t, th);
    hide Exclusive;
    assert forall u :: u in s.threads ==> (ThreadOk(s, s.threads[u]) ==> ThreadOk(Go(s, t, th), s.threads[u]));
  }

  lemma OnlyHolder(s: State, t: ThreadId, mac: Mac)
    requires Exclusive(s.threads) && t in s.threads && HoldsMac(s.threads[t], mac)
    ensures forall u :: u in s.threads && u != t ==> !HoldsMac(s.threads[u], mac)
  {
  }

  lemma OnlySaver(s: State, t: ThreadId)
    requires Exclusive(s.threads) && t in s.threads && HoldsSave(s.threads[t])
    ensures forall u :: u in s.threads && u != t ==> !HoldsSave(s.threads[u])
  {
  }

  lemma ChainGrows(loaded: map<Mac, Value>, commits: seq<Commit>, c: Commit)
    requires Chained(loaded, commits) && c.read == LastLeft(loaded, commits, c.mac)
    ensures Chained(loaded, commits + [c])
  {
    hide LastLeft;
    forall i | 0 <= i < |commits + [c]| ensures (commits + [c])[i].read == LastLeft(loaded, (commits + [c])[..i], (commits + [c])[i].mac) {
      if i < |commits| { assert (commits + [c])[..i] == commits[..i]; } else { assert (commits + [c])[..i] == commits; }
    }
  }

  lemma CommitKeepsData(s: State, c: Commit)
    requires DataOk(s) && c.read == Lookup(s.devices, c.mac)
    ensures DataOk(Committed(s, c))
  {
    MemoryIsLastLeft(s.loaded, s.commits, c.mac);
    ChainGrows(s.loaded, s.commits, c);
    hide Chained, LastLeft, Lookup;
    var commits := s.commits + [c];
    assert commits[..|commits| - 1] == s.commits;
    assert commits[..s.diskUpTo] == s.commits[..s.diskUpTo];
  }

  lemma CommitKeepsOthers(s: State, t: ThreadId, c: Commit)
    requires ThreadsOk(s) && Exclusive(s.threads) && ThreadOf(s, t).HasRead? && ThreadOf(s, t).mac == c.mac
    ensures forall u :: u in s.threads && u != t ==> ThreadOk(Committed(s, c), s.threads[u])
  {
    OnlyHolder(s, t, c.mac);
    hide Exclusive;
    forall u | u in s.threads && u != t ensures ThreadOk(Committed(s, c), s.threads[u]) {
      assert !HoldsMac(s.threads[u], c.mac) && ThreadOk(s, s.threads[u]);
    }
  }

  lemma DataIgnoresThreads(s: State, t: ThreadId, th: Thread)
    requires DataOk(s)
    ensures DataOk(Go(s, t, th))
  {
  }

  lemma WriteKeeps(s: State, t: ThreadId, value: Value)
    requires Inv(s) && ThreadOf(s, t).HasRead?
    ensures var th := ThreadOf(s, t); Inv(Go(Committed(s, Commit(th.mac, th.value, value)), t, Stored(th.mac, |s.commits|)))
  {
    var th := ThreadOf(s, t);
    var c := Commit(th.mac, th.value, value);
    assert ThreadOk(s, th);
    hide Exclusive, DataOk, Lookup;
    CommitKeepsData(s, c);
    CommitKeepsOthers(s, t, c);
    GoKeepsExclusive(Committed(s, c), t, Stored(th.mac, |s.commits|));
    DataIgnoresThreads(Committed(s, c), t, Stored(th.mac, |s.commits|));
  }

  lemma RenameKeeps(s: State, t: ThreadId)
    requires Inv(s) && ThreadOf(s, t).Snapped?
    ensures var th := ThreadOf(s, t);
            th.upTo <= |s.commits| && Inv(Go(s.(disk := Memory(s.loaded, s.commits[..th.upTo]), diskUpTo := th.upTo), t, Returned(th.commit)))
  {
    hide Memory, Chained;
    var th := ThreadOf(s, t);
    assert ThreadOk(s, th);
    OnlySaver(s, t);
    var s1 := s.(disk := Memory(s.loaded, s.commits[..th.upTo]), diskUpTo := th.upTo);
    forall u | u in s.threads && u != t ensures ThreadOk(s1, s.threads[u]) {
      assert !HoldsSave(s.threads[u]);
    }
    GoKeepsExclusive(s1, t, Returned(th.commit));
  }

  lemma StepKeeps(s: State, t: ThreadId, a: Action, s': State)
    requires Inv(s) && Next(s, t, a, s')
    ensures Inv(s') && s'.loaded == s.loaded
  {
    var th := ThreadOf(s, t);
    assert t in s.threads ==> ThreadOk(s, th);
    hide Inv, Memory, Lookup;
    match a
    case Call(mac, upsert) => GoKeeps(s, t, Waiting(mac, upsert));
    case LockMac => GoKeeps(s, t, Locked(th.mac, th.upsert));
    case Read => GoKeeps(s, t, HasRead(th.mac, Lookup(s.devices, th.mac)));
    case Abort => GoKeeps(s, t, Failed);
    case Write(value) => WriteKeeps(s, t, value);
    case UnlockMac => GoKeeps(s, t, NeedsSave(th.commit));
    case LockSave => GoKeeps(s, t, Saving(th.commit));
    case Snapshot => DiskBound(s); GoKeeps(s, t, Snapped(th.commit, |s.commits|));
    case Rename => RenameKeeps(s, t);
    case SaveError => GoKeeps(s, t, Failed);
  }

  lemma DiskBound(s: State)
    requires Inv(s)
    ensures s.diskUpTo <= |s.commits| && s.disk == Memory(s.loaded, s.commits[..s.diskUpTo])
  {
  }

  // ---- runs ---------------------------------------------------------------------------------

  datatype Move = Move(thread: ThreadId, action: Action, after: State)

  ghost predicate Run(start: State, moves: seq<Move>) {
    forall i :: 0 <= i < |moves| ==> Next(At(start, moves, i), moves[i].thread, moves[i].action, moves[i].after)
  }

  function At(start: State, moves: seq<Move>, i: nat): State
    requires i <= |moves|
  {
    if i == 0 then start else moves[i - 1].after
  }

  lemma OpenedOk(loaded: map<Mac, Value>)
    ensures Inv(Opened(loaded))
  {
  }

  lemma {:induction false} RunKeeps(start: State, moves: seq<Move>, i: nat)
    requires Run(start, moves) && start == Opened(start.loaded) && i <= |moves|
    ensures Inv(At(start, moves, i)) && At(start, moves, i).loaded == start.loaded
  {
    OpenedOk(start.loaded);
    hide Next, Inv;
    if i > 0 {
      RunKeeps(start, moves, i - 1);
      StepKeeps(At(start, moves, i - 1), moves[i - 1].thread, moves[i - 1].action, moves[i - 1].after);
    }
  }

  lemma StepGrows(s: State, t: ThreadId, a: Action, s': State)
    requires Inv(s) && Next(s, t, a, s')
    ensures s.diskUpTo <= s'.diskUpTo && s.commits <= s'.commits
  {
    hide DataOk, Exclusive, Memory, Lookup, MacFree, SaveFree;
    if a.Rename? { assert ThreadOk(s, ThreadOf(s, t)); }
  }

  /** The file on disk only ever moves forward along one growing list of commits. */
  lemma {:induction false} DiskNeverGoesBackwards(start: State, moves: seq<Move>, i: nat, j: nat)
    requires Run(start, moves) && start == Opened(start.loaded) && i <= j <= |moves|
    ensures At(start, moves, i).diskUpTo <= At(start, moves, j).diskUpTo && At(start, moves, i).commits <= At(start, moves, j).commits
  {
    hide Next, Inv;
    if i < j {
      DiskNeverGoesBackwards(start, moves, i, j - 1);
      RunKeeps(start, moves, j - 1);
      StepGrows(At(start, moves, j - 1), moves[j - 1].thread, moves[j - 1].action, moves[j - 1].after);
    }
  }

  /** And it always is the memory image after some prefix of those commits. */
  lemma DiskIsAPrefix(start: State, moves: seq<Move>, i: nat)
    requires Run(start, moves) && start == Opened(start.loaded) && i <= |moves|
    ensures var s := At(start, moves, i); s.diskUpTo <= |s.commits| && s.disk == Memory(s.loaded, s.commits[..s.diskUpTo])
  {
    hide Next, Inv;
    RunKeeps(start, moves, i);
    DiskBound(At(start, moves, i));
  }

  /** No update is lost: every committed cycle of every run read what its predecessor left. */
  lemma NoLostUpdate(start: State, moves: seq<Move>, i: nat)
    requires Run(start, moves) && start == Opened(start.loaded) && i < |At(start, moves, |moves|).commits|
    ensures var commits := At(start, moves, |moves|).commits;
            commits[i].read == LastLeft(start.loaded, commits[..i], commits[i].mac)
  {
    RunKeeps(start, moves, |moves|);
  }

  /** A successful return means the disk already reflects that commit, now and ever after. */
  lemma ReturnImpliesDurable(start: State, moves: seq<Move>, i: nat, j: nat, t: ThreadId)
    requires Run(start, moves) && start == Opened(start.loaded) && i <= j <= |moves|
    requires t in At(start, moves, i).threads && At(start, moves, i).threads[t].Returned?
    ensures At(start, moves, i).threads[t].commit < At(start, moves, j).diskUpTo
  {
    RunKeeps(start, moves, i);
    assert ThreadOk(At(start, moves, i), At(start, moves, i).threads[t]);
    DiskNeverGoesBackwards(start, moves, i, j);
  }
}
