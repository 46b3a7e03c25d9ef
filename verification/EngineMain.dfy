/** Every step keeps the whole invariant. */
module EngineMain {
  import opened Engine
  import opened EngineInv
  import opened EngineFrame
  import opened EngineRely
  import opened EngineApply
  import L = EngineLight
  import R = EngineReads
  import F = EngineFlags
  import I = EngineInsert
  import S = EngineSerialize
  import W = EngineWrite
  import P = EnginePut
  import T = EngineTree
  import Q = EngineQueue
  import C = EngineClean
  import Tid
  import Ticker

  /** Light steps that add no pointer, read, result or validated read keep the invariant. */
  lemma LightKeepsMost(s: State, s': State, x: nat)
    requires Inv(s) && L.Light(s, s', x) && (s'.txns[x].phase == Unlocking ==> L.DoneWriting(s, x))
    ensures Base(s') && Times(s') && Indexed(s') && Locks(s') && Phases(s') && Tentative(s')
    ensures Logged(s') && Histories(s') && Holdings(s') && Chains(s') && Work(s') && Cuts(s') && Garbage(s')
    ensures TidsGrow(s')
    ensures Grown(s') && Ages(s') && Sweeps(s') && Queues(s')
  {
    L.KeepsGarbage(s, s', x);
    L.KeepsQueues(s, s', x);
    L.KeepsGrown(s, s', x);
    L.KeepsShared(s, s', x);
    L.KeepsChains(s, s', x);
    L.KeepsCuts(s, s', x);
    L.KeepsTimes(s, s', x);
    L.KeepsLogged(s, s', x);
    L.KeepsTids(s, s', x);
    L.KeepsHistories(s, s', x);
    L.KeepsHoldings(s, s', x);
    L.KeepsTentative(s, s', x);
    L.KeepsWork(s, s', x);
  }

  // ----- execution phase

  lemma LookupKeepsSound(s: State, s': State, x: nat, n: Name)
    requires Sound(s) && Lookup(s, s', x, n)
    ensures Sound(s')
  {
    Open(s);
    L.LookupIsLight(s, s', x, n);
    LightKeepsMost(s, s', x);
    R.LookupIsGood(s, s', x, n);
    R.LookupShielded(s, s.txns[x], n);
    R.CursorPointers(s, s', x);
    L.QuietReads(s, s', x);
    L.QuietValidated(s, s', x);
    R.LookupCursor(s, s', x, n);
    L.QuietSnapshots(s, s', x);
    Close(s');
  }

  lemma ReadKeepsSound(s: State, s': State, x: nat)
    requires Sound(s) && Read(s, s', x)
    ensures Sound(s')
  {
    Open(s);
    L.ReadIsLight(s, s', x);
    LightKeepsMost(s, s', x);
    R.ReadIsGood(s, s', x);
    L.KeepsReads(s, s', x);
    L.QuietValidated(s, s', x);
    L.QuietPointers(s, s', x);
    L.QuietSnapshots(s, s', x);
    Close(s');
  }

  lemma PutKeepsSound(s: State, s': State, x: nat, v: Value)
    requires Sound(s) && Put(s, s', x, v)
    ensures Sound(s')
  {
    Open(s);
    L.PutIsLight(s, s', x, v);
    LightKeepsMost(s, s', x);
    R.PutIsGood(s, s', x, v);
    L.KeepsReads(s, s', x);
    L.QuietValidated(s, s', x);
    L.QuietPointers(s, s', x);
    L.QuietSnapshots(s, s', x);
    Close(s');
  }

  lemma InsertKeepsSound(s: State, s': State, x: nat, k: Key, v: Value, p: Ptr, room: nat)
    requires Sound(s) && Insert(s, s', x, k, v, p, room)
    ensures Sound(s')
  {
    Open(s);
    I.NewKey(s, k);
    T.InsertGrown(s, s', x, k, v, p, room);
    T.InsertSweeps(s, s', x, k, v, p, room);
    T.SameAges(s, s');
    I.InsertRely(s, s', x, k, v, p, room);
    I.InsertPtrs(s, s', x, k, v, p, room);
    RelyKeepsMost(s, s');
    I.InsertPhases(s, s', x, k, v, p, room);
    I.InsertLocks(s, s', x, k, v, p, room);
    I.InsertIndexed(s, s', x, k, v, p, room);
    I.InsertTentative(s, s', x, k, v, p, room);
    I.InsertHoldings(s, s', x, k, v, p, room);
    I.InsertChains(s, s', x, k, v, p, room);
    I.InsertHistories(s, s', x, k, v, p, room);
    I.InsertWork(s, s', x, k, v, p, room);
    Q.InsertGarbage(s, s', x, k, v, p, room);
    Close(s');
  }

  // ----- snapshots

  lemma SnapMissKeepsSound(s: State, s': State, x: nat, k: Key)
    requires Sound(s) && SnapMiss(s, s', x, k)
    ensures Sound(s')
  {
    Open(s);
    L.SnapMissIsLight(s, s', x, k);
    LightKeepsMost(s, s', x);
    L.QuietReads(s, s', x);
    L.QuietValidated(s, s', x);
    L.SamePointers(s, s', x);
    R.SnapMissResults(s, s', x, k);
    R.MissSnapshots(s, s', x);
    Close(s');
  }

  lemma SnapReadKeepsSound(s: State, s': State, x: nat)
    requires Sound(s) && SnapRead(s, s', x)
    ensures Sound(s')
  {
    Open(s);
    L.SnapReadIsLight(s, s', x);
    LightKeepsMost(s, s', x);
    L.QuietReads(s, s', x);
    L.QuietValidated(s, s', x);
    R.SnapReadCursor(s, s', x);
    R.CursorPointers(s, s', x);
    R.SnapReadResults(s, s', x);
    L.KeepsSnapshots(s, s', x);
    Close(s');
  }

  /** Steps of one transaction that change only its phase and drop its cursor. */
  lemma QuietKeepsSound(s: State, s': State, x: nat)
    requires Sound(s) && L.Quiet(s, s', x)
    ensures Sound(s')
  {
    Open(s);
    LightKeepsMost(s, s', x);
    L.QuietReads(s, s', x);
    L.QuietValidated(s, s', x);
    L.SamePointers(s, s', x);
    L.QuietSnapshots(s, s', x);
    Close(s');
  }

  lemma SnapDoneKeepsSound(s: State, s': State, x: nat)
    requires Sound(s) && SnapDone(s, s', x)
    ensures Sound(s')
  {
    ThePhases(s);
    L.SnapDoneIsQuiet(s, s', x);
    QuietKeepsSound(s, s', x);
  }

  lemma StartCommitKeepsSound(s: State, s': State, x: nat, order: seq<Ptr>)
    requires Sound(s) && StartCommit(s, s', x, order)
    ensures Sound(s')
  {
    ThePhases(s);
    L.StartCommitIsQuiet(s, s', x, order);
    QuietKeepsSound(s, s', x);
  }

  lemma LockRejectKeepsSound(s: State, s': State, x: nat)
    requires Sound(s) && LockReject(s, s', x)
    ensures Sound(s')
  {
    ThePhases(s);
    L.LockRejectIsQuiet(s, s', x);
    QuietKeepsSound(s, s', x);
  }

  lemma DecideKeepsSound(s: State, s': State, x: nat)
    requires Sound(s) && Decide(s, s', x)
    ensures Sound(s')
  {
    ThePhases(s);
    L.DecideIsQuiet(s, s', x);
    QuietKeepsSound(s, s', x);
  }

  lemma GiveUpKeepsSound(s: State, s': State, x: nat)
    requires Sound(s) && GiveUp(s, s', x)
    ensures Sound(s')
  {
    ThePhases(s);
    L.GiveUpIsQuiet(s, s', x);
    QuietKeepsSound(s, s', x);
  }

  lemma EndWritingKeepsSound(s: State, s': State, x: nat)
    requires Sound(s) && EndWriting(s, s', x)
    ensures Sound(s')
  {
    ThePhases(s);
    L.EndWritingIsQuiet(s, s', x);
    QuietKeepsSound(s, s', x);
  }

  lemma FinishKeepsSound(s: State, s': State, x: nat)
    requires Sound(s) && Finish(s, s', x)
    ensures Sound(s')
  {
    ThePhases(s);
    L.FinishIsQuiet(s, s', x);
    QuietKeepsSound(s, s', x);
  }

  lemma ValidateKeepsSound(s: State, s': State, x: nat)
    requires Sound(s) && Validate(s, s', x)
    ensures Sound(s')
  {
    Open(s);
    L.ValidateIsLight(s, s', x);
    LightKeepsMost(s, s', x);
    L.QuietReads(s, s', x);
    R.ValidateIsGood(s, s', x);
    L.KeepsValidated(s, s', x);
    L.SamePointers(s, s', x);
    L.QuietSnapshots(s, s', x);
    Close(s');
  }

  // ----- steps on tuples

  lemma RelyKeepsMost(s: State, s': State)
    requires Inv(s) && Rely(s, s') && NoNewPtrs(s, s')
    requires forall x :: x in s.txns ==>
      s'.txns[x].puts == s.txns[x].puts && s'.txns[x].inserts <= s.txns[x].inserts + s'.tuples.Keys
    ensures Base(s') && Times(s') && Logged(s') && TidsGrow(s') && Cuts(s')
    ensures Reads(s') && Validated(s') && Snapshots(s') && Shields(s') && Pointers(s')
  {
    RelyBase(s, s');
    RelyTimes(s, s');
    RelyLogged(s, s');
    RelyTids(s, s');
    RelyCuts(s, s');
    RelyReads(s, s');
    RelyValidated(s, s');
    RelySnapshots(s, s');
    RelyShields(s, s');
    RelyPointers(s, s');
  }

  lemma FlagKeepsMost(s: State, s': State, p: Ptr)
    requires Inv(s) && F.FlagStep(s, s', p)
    ensures Base(s') && Times(s') && Logged(s') && TidsGrow(s') && Cuts(s') && Histories(s') && Chains(s')
    ensures Reads(s') && Validated(s') && Snapshots(s') && Shields(s') && Pointers(s')
  {
    F.FlagRely(s, s', p);
    F.FlagPtrs(s, s', p);
    RelyKeepsMost(s, s');
    F.FlagHistories(s, s', p);
    F.FlagChains(s, s', p);
  }

  /** Steps that leave the tree, the cleaners and the queues alone. */
  lemma StillKeeps(s: State, s': State)
    requires T.Still(s, s') && s'.queue == s.queue && s'.rcu == s.rcu && s.tk.current <= s'.tk.current
    requires Grown(s) && Sweeps(s) && Garbage(s) && Queues(s)
    ensures Grown(s') && Sweeps(s') && Garbage(s') && Queues(s')
  {
    T.StillGrown(s, s');
    T.StillSweeps(s, s');
    Q.StillGarbage(s, s');
    Q.StillQueues(s, s');
  }

  lemma LockTakeIsStill(s: State, s': State, x: nat)
    requires LockTake(s, s', x)
    ensures T.Still(s, s') && s'.queue == s.queue && s'.rcu == s.rcu && s'.tk == s.tk
    ensures s'.log == s.log && s'.hist == s.hist && s'.born == s.born
  {
  }

  lemma LockTakeKeepsSound(s: State, s': State, x: nat)
    requires Sound(s) && LockTake(s, s', x)
    ensures Sound(s')
  {
    Open(s);
    F.LockTakeIsFlag(s, s', x);
    FlagKeepsMost(s, s', LockTarget(s, x));
    F.LockTakePhases(s, s', x);
    F.LockTakeLocks(s, s', x);
    assert PhaseOf(s.txns[x]);
    F.LockTakeTentative(s, s', x);
    F.LockTakeHoldings(s, s', x);
    F.LockTakeWork(s, s', x);
    LockTakeIsStill(s, s', x);
    StillKeeps(s, s');
    T.SameAges(s, s');
    Close(s');
  }

  lemma UnlockIsStill(s: State, s': State, x: nat, p: Ptr)
    requires Unlock(s, s', x, p) && !Swept(s, p)
    ensures T.Still(s, s') && s'.queue == s.queue && s'.rcu == s.rcu && s'.tk == s.tk
    ensures s'.log == s.log && s'.hist == s.hist && s'.born == s.born
  {
  }

  lemma UnlockKeepsTuples(s: State, s': State, x: nat, p: Ptr)
    requires Unlock(s, s', x, p) && PhaseOf(s.txns[x])
    requires Indexed(s) && Locks(s) && Phases(s) && Tentative(s) && Holdings(s) && Work(s)
    ensures Indexed(s') && Locks(s') && Phases(s') && Tentative(s') && Holdings(s') && Work(s')
  {
    F.UnlockPhases(s, s', x, p);
    F.UnlockLocks(s, s', x, p);
    F.UnlockIndexed(s, s', x, p);
    F.UnlockTentative(s, s', x, p);
    F.UnlockHoldings(s, s', x, p);
    F.UnlockWork(s, s', x, p);
  }

  lemma UnlockKeepsSound(s: State, s': State, x: nat, p: Ptr)
    requires Sound(s) && Unlock(s, s', x, p)
    ensures Sound(s')
  {
    Open(s);
    F.UnlockIsFlag(s, s', x, p);
    FlagKeepsMost(s, s', p);
    assert PhaseOf(s.txns[x]);
    UnlockKeepsTuples(s, s', x, p);
    UnlockKeepsTree(s, s', x, p);
    Close(s');
  }

  lemma UnlockKeepsTree(s: State, s': State, x: nat, p: Ptr)
    requires Unlock(s, s', x, p) && PhaseOf(s.txns[x]) && Locks(s)
    requires Grown(s) && Sweeps(s) && Ages(s) && Garbage(s) && Queues(s)
    ensures Grown(s') && Sweeps(s') && Ages(s') && Garbage(s') && Queues(s')
  {
    F.MarkIsHeld(s, x, p);
    Q.NotSwept(s, p);
    UnlockIsStill(s, s', x, p);
    StillKeeps(s, s');
    T.SameAges(s, s');
  }

  /** The failed insert, as the abort loop finds it. */
  lemma UnlinkNow(s: State, s': State, x: nat, p: Ptr)
    requires Inv(s) && Unlink(s, s', x, p)
    ensures p in s.txns[x].held && s.tuples[p].owner == Some(x) && s.tuples[p].latest
    ensures s.tuples[p].version == Tid.MAX_TID
    ensures P.AtHome(s, p) && H(s, s.tuples[p].key) == [] && F.FlagStep(s, s', p)
  {
    assert PhaseOf(s.txns[x]) && TimeOf(s, x) && InsertOf(s, x, p) && HoldsOf(s, p);
    F.UnlinkReady(s, s', x, p);
    F.UnlinkIsDrop(s, s', x, p);
    T.OwnedInTree(s, p);
  }

  lemma UnlinkShapes(s: State, s': State, x: nat, p: Ptr)
    requires Unlink(s, s', x, p) && s.tuples[p].latest && s.tuples[p].owner == Some(x) && P.AtHome(s, p)
    ensures F.UnlinksOnly(s, s', x, p) && Q.Hands(s, s', s.txns[x].core, p) && T.Leaves(s, s', p, s.tuples[p].key)
    ensures s'.clean == s.clean && s'.log == s.log && s'.hist == s.hist && s'.born == s.born
  {
  }

  lemma UnlinkKeepsOwn(s: State, s': State, x: nat, p: Ptr)
    requires F.UnlinksOnly(s, s', x, p) && p in s.txns[x].held && s.tuples[p].version == Tid.MAX_TID
    requires Locks(s) && Phases(s) && Tentative(s) && Work(s) && Indexed(s)
    ensures Tentative(s') && Work(s')
  {
    forall y | y in s.txns && y != x ensures p !in s.txns[y].inserts {
      if p in s.txns[y].inserts { assert InsertOf(s, y, p); }
      assert PhaseOf(s.txns[y]);
      F.OneInserter(s, x, p, y);
    }
    F.UnlinkInserts(s, s', x, p);
    F.DropOwned(s, s', p);
    F.UnlinkAside(s, s', x, p);
    F.DropWork(s, s', p);
  }

  lemma UnlinkKeepsSound(s: State, s': State, x: nat, p: Ptr)
    requires Sound(s) && Unlink(s, s', x, p)
    ensures Sound(s')
  {
    Open(s);
    UnlinkNow(s, s', x, p);
    UnlinkShapes(s, s', x, p);
    FlagKeepsMost(s, s', p);
    F.UnlinkPhases(s, s', x, p);
    F.DropIndexed(s, s', p);
    F.DropLocks(s, s', p);
    F.DropHoldings(s, s', p);
    UnlinkKeepsOwn(s, s', x, p);
    T.LeavesGrown(s, s', p, s.tuples[p].key);
    T.UnlinkSweeps(s, s', x, p);
    T.SameAges(s, s');
    Q.LatestAbsent(s, p);
    Q.HandGarbage(s, s', s.txns[x].core, p);
    Q.HandQueues(s, s', s.txns[x].core, p);
    Close(s');
  }

  // ----- the cleaners

  lemma FreeKeepsMost(s: State, s': State, p: Ptr)
    requires Inv(s) && F.FlagStep(s, s', p) && F.Frees(s, s', p)
    ensures Base(s') && Times(s') && Logged(s') && TidsGrow(s') && Cuts(s') && Histories(s') && Chains(s')
    ensures Reads(s') && Validated(s') && Snapshots(s') && Shields(s') && Pointers(s')
    ensures Indexed(s') && Locks(s') && Phases(s') && Tentative(s') && Holdings(s') && Work(s')
  {
    FlagKeepsMost(s, s', p);
    F.FreeLocks(s, s', p);
    F.FreeTentative(s, s', p);
    F.FlagHoldings(s, s', p);
    F.FreeWork(s, s', p);
  }

  /** Freeing a tuple changes neither the tree nor what the cleaners are at. */
  lemma FreeKeepsTree(s: State, s': State, p: Ptr)
    requires F.Frees(s, s', p) && s'.m == s.m && s'.tk == s.tk && s'.tree == s.tree && s'.born == s.born
    requires s'.shut == s.shut
    requires s'.clean == s.clean && s'.gone == s.gone && Grown(s) && Sweeps(s) && Ages(s)
    ensures Grown(s') && Sweeps(s') && Ages(s')
  {
    T.SameAges(s, s');
    F.FreeGrown(s, s', p);
    F.FreeSweeps(s, s', p);
  }

  lemma GcFreeKeepsSound(s: State, s': State, c: nat)
    requires Sound(s) && GcFree(s, s', c)
    ensures Sound(s')
  {
    Open(s);
    F.GcFreeIsFree(s, s', c);
    FreeKeepsMost(s, s', s.queue[c][0].ptr);
    FreeKeepsTree(s, s', s.queue[c][0].ptr);
    Q.GcFreeGarbage(s, s', c);
    Close(s');
  }

  lemma RcuRunKeepsSound(s: State, s': State, c: nat)
    requires Sound(s) && RcuRun(s, s', c)
    ensures Sound(s')
  {
    Open(s);
    F.RcuRunIsFree(s, s', c);
    FreeKeepsMost(s, s', s.rcu[c][0].ptr);
    FreeKeepsTree(s, s', s.rcu[c][0].ptr);
    Q.RcuRunGarbage(s, s', c);
    Q.RcuRunQueues(s, s', c);
    Close(s');
  }

  lemma AsideKeepsMost(s: State, s': State, p: Ptr)
    requires Inv(s) && F.FlagStep(s, s', p) && C.Aside(s, s')
    ensures Base(s') && Times(s') && Logged(s') && TidsGrow(s') && Cuts(s') && Histories(s') && Chains(s')
    ensures Reads(s') && Validated(s') && Snapshots(s') && Shields(s') && Pointers(s')
    ensures Indexed(s') && Locks(s') && Phases(s') && Tentative(s') && Holdings(s') && Work(s') && Ages(s')
  {
    FlagKeepsMost(s, s', p);
    C.AsideLocks(s, s');
    C.AsideTentative(s, s');
    C.AsideHoldings(s, s');
    C.AsideWork(s, s');
    T.SameAges(s, s');
  }

  lemma CleanRequeueKeepsSound(s: State, s': State, c: nat)
    requires Sound(s) && CleanRequeue(s, s', c)
    ensures Sound(s')
  {
    Open(s);
    C.RequeueAside(s, s', c);
    AsideKeepsMost(s, s', s.queue[c][0].ptr);
    T.StillGrown(s, s');
    T.StillSweeps(s, s');
    C.RequeueGarbage(s, s', c);
    Close(s');
  }

  lemma CleanLockKeepsSound(s: State, s': State, c: nat)
    requires Sound(s) && CleanLock(s, s', c)
    ensures Sound(s')
  {
    Open(s);
    C.LockAside(s, s', c);
    AsideKeepsMost(s, s', s.queue[c][0].ptr);
    C.LockGrown(s, s', c);
    C.LockSwept(s, s', c);
    C.LockSweeps(s, s', c);
    C.LockGarbage(s, s', c);
    Close(s');
  }

  lemma CleanRemoveKeepsSound(s: State, s': State, c: nat)
    requires Sound(s) && CleanRemove(s, s', c)
    ensures Sound(s')
  {
    Open(s);
    C.RemoveAside(s, s', c);
    AsideKeepsMost(s, s', s.clean[c].ptr);
    assert SweptOf(s, c);
    C.RemoveGrown(s, s', c);
    C.RemoveSweeps(s, s', c);
    C.AsideGarbage(s, s');
    C.RemoveQueues(s, s', c);
    Close(s');
  }

  lemma ClearKeepsTuples(s: State, s': State, p: Ptr)
    requires F.Drops(s, s', p) && s'.txns == s.txns && s.tuples[p].owner == None && s.tuples[p].version != Tid.MAX_TID
    requires Indexed(s) && Locks(s) && Phases(s) && Tentative(s) && Work(s)
    ensures Indexed(s') && Locks(s') && Tentative(s') && Work(s')
  {
    F.DropIndexed(s, s', p);
    F.DropLocks(s, s', p);
    C.ClearTentative(s, s', p);
    C.ClearAside(s, p);
    F.DropWork(s, s', p);
  }

  lemma ClearKeepsTree(s: State, s': State, c: nat)
    requires s.m >= 1 && CleanClear(s, s', c) && SweptOf(s, c) && Q.Hands(s, s', c, s.clean[c].ptr)
    requires Grown(s) && Sweeps(s) && Ages(s) && Indexed(s) && Garbage(s) && Queues(s)
    ensures Grown(s') && Sweeps(s') && Ages(s') && Garbage(s') && Queues(s')
  {
    C.ClearGrown(s, s', c);
    C.ClearSweeps(s, s', c);
    T.SameAges(s, s');
    C.ClearAbsent(s, c);
    Q.HandGarbage(s, s', c, s.clean[c].ptr);
    Q.HandQueues(s, s', c, s.clean[c].ptr);
  }

  lemma CleanClearKeepsSound(s: State, s': State, c: nat)
    requires Sound(s) && CleanClear(s, s', c)
    ensures Sound(s')
  {
    Open(s);
    var p := s.clean[c].ptr;
    assert SweptOf(s, c);
    C.ClearIsDrop(s, s', c);
    FlagKeepsMost(s, s', p);
    C.SweptClosed(s, c);
    F.DropHoldings(s, s', p);
    ClearKeepsTuples(s, s', p);
    ClearKeepsTree(s, s', c);
    Close(s');
  }

  // ----- applying writes

  /** What the engine knows of a transaction that is writing. */
  lemma WriterFacts(s: State, x: nat)
    requires Inv(s) && x in s.txns && s.txns[x].phase == Writing && HasWrites(s.txns[x])
    ensures PhaseOf(s.txns[x]) && WorkOf(s, x) && PtrsOf(s, s.txns[x]) && s.txns[x].serial
    ensures s.log[s.txns[x].pos].txn == x
    ensures s.tk.last < s.txns[x].epoch <= s.tk.current && s.txns[x].core < |s.queue|
  {
    assert PhaseOf(s.txns[x]) && WorkOf(s, x) && PtrsOf(s, s.txns[x]) && TimeOf(s, x);
    R.LiveEpochAbove(s, x, x);
  }

  lemma WriterTid(s: State, x: nat, k: Key)
    requires Logged(s) && x in s.txns && s.txns[x].serial && k in s.log[s.txns[x].pos].writes
    ensures Tid.MIN_TID < s.txns[x].tid < Tid.MAX_TID
  {
  }

  lemma WriteInsertFrame(s: State, s': State, x: nat, p: Ptr)
    requires Inv(s) && WriteInsert(s, s', x, p)
    ensures InsertReady(s, x, p) && W.WriteFrame(s, s', x) && Rely(s, s') && WorkOf(s', x)
    ensures Tid.MIN_TID < s.txns[x].tid < Tid.MAX_TID && P.AtHome(s, p)
  {
    WriterFacts(s, x);
    assert InsertOf(s, x, p) && HoldsOf(s, p);
    InsertIsReady(s, x, p);
    T.OwnedInTree(s, p);
    WriterTid(s, x, s.tuples[p].key);
    var q := Fresh(s.tuples.Keys);
    W.InsertFrame(s, s', x, p);
    W.WriteInsertRely(s, s', x, p, q);
    W.WriteInsertOwn(s, s', x, p);
  }

  /** Some pointer is not in use. */
  ghost function Fresh(ps: set<Ptr>): (q: Ptr)
    ensures q !in ps
  {
    SomeFresh(ps);
    var q: Ptr :| q !in ps;
    q
  }

  lemma {:induction false} SomeFresh(ps: set<Ptr>)
    ensures exists q: Ptr :: q !in ps
  {
    var n := Above(ps);
    assert n !in ps;
  }

  lemma {:induction false} Above(ps: set<Ptr>) returns (n: Ptr)
    ensures forall p :: p in ps ==> p < n
  {
    if ps == {} {
      n := 0;
    } else {
      var p :| p in ps;
      var m := Above(ps - {p});
      n := if m > p then m else p + 1;
      assert forall r :: r in ps ==> r == p || r in ps - {p};
    }
  }

  lemma WriteInsertKeepsSound(s: State, s': State, x: nat, p: Ptr)
    requires Sound(s) && WriteInsert(s, s', x, p)
    ensures Sound(s')
  {
    Open(s);
    WriteInsertFrame(s, s', x, p);
    W.InsertFrame(s, s', x, p);
    W.FramePtrs(s, s', x);
    RelyKeepsMost(s, s');
    assert PhaseOf(s.txns[x]);
    W.WritePhases(s, s', x);
    W.WriteInsertLocks(s, s', x, p);
    W.WriteInsertTentative(s, s', x, p);
    W.WriteInsertHistories(s, s', x, p);
    W.WriteInsertHoldings(s, s', x, p);
    W.WriteInsertChains(s, s', x, p);
    WriteInsertTree(s, s', x, p);
    WriteInsertWork(s, s', x, p);
    Close(s');
  }

  /** A write to a tuple of the tree keeps the tree and the cleaners' parts. */
  lemma RewriteKeeps(s: State, s': State, x: nat, p: Ptr, q: Ptr)
    requires T.Rewrites(s, s', x, p, q) && Grown(s) && Ages(s) && Sweeps(s)
    ensures Grown(s') && Ages(s') && Sweeps(s')
  {
    T.RewriteGrown(s, s', x, p, q);
    T.RewriteAges(s, s', x, p, q);
    T.RewriteSweeps(s, s', x, p, q);
  }

  lemma WriteInsertTree(s: State, s': State, x: nat, p: Ptr)
    requires WriteInsert(s, s', x, p) && InsertReady(s, x, p) && P.AtHome(s, p)
    requires Garbage(s) && Queues(s) && Grown(s) && Ages(s) && Sweeps(s)
    ensures Garbage(s') && Queues(s') && Grown(s') && Ages(s') && Sweeps(s')
  {
    var q := Fresh(s.tuples.Keys);
    W.WriteInsertRewrites(s, s', x, p, q);
    W.WriteInsertGarbage(s, s', x, p, q);
    RewriteKeeps(s, s', x, p, q);
  }

  lemma WriteInsertWork(s: State, s': State, x: nat, p: Ptr)
    requires WriteInsert(s, s', x, p) && InsertReady(s, x, p) && Locks(s) && Phases(s) && Work(s) && WorkOf(s', x)
    ensures Work(s')
  {
    W.InsertFrame(s, s', x, p);
    ExtendsH(s, s', x, s.tuples[p].key);
    var q := Fresh(s.tuples.Keys);
    W.WriteOthers(s, s', x, p, q);
  }

  lemma PutReadyNow(s: State, x: nat, p: Ptr)
    requires Inv(s) && AtPut(s, x, p)
    ensures PutReady(s, x, p) && s.tk.last < s.txns[x].epoch <= s.tk.current
    ensures Tid.MIN_TID < s.txns[x].tid < Tid.MAX_TID
    ensures P.AtHome(s, p)
    ensures s.log[s.txns[x].pos].txn == x && s.txns[x].core < |s.queue| && WorkOf(s, x) && PtrsOf(s, s.txns[x])
  {
    WriterFacts(s, x);
    assert HoldsOf(s, p);
    if p in s.txns[x].inserts {
      assert InsertOf(s, x, p);
      DraftIsReady(s, x, p);
    } else {
      PutIsReady(s, x, p);
    }
    T.OwnedInTree(s, p);
    WriterTid(s, x, s.tuples[p].key);
  }

  /** What all three kinds of put have in common. */
  ghost predicate PutFrame(s: State, s': State, x: nat, p: Ptr, q: Ptr) {
    && P.PutDone(s, s', x, p) && W.OnlyAt(s, s', p, q) && q !in s.tuples
    && s'.tuples[p].version != Tid.MAX_TID && (q in s'.tuples ==> s'.tuples[q].version != Tid.MAX_TID)
    && s'.tuples.Keys <= s.tuples.Keys + {q}
    && (forall k :: k in s.index && k != s.tuples[p].key ==> k in s'.index && s'.index[k] == s.index[k])
  }

  lemma PutKeepsPhases(s: State, s': State, x: nat, p: Ptr, q: Ptr)
    requires PutFrame(s, s', x, p, q)
    requires Histories(s) && Logged(s) && Phases(s)
    ensures Histories(s') && Phases(s')
  {
    P.PutHistories(s, s', x, p);
    assert PhaseOf(s.txns[x]);
    W.WritePhases(s, s', x);
  }

  lemma PutKeepsTentative(s: State, s': State, x: nat, p: Ptr, q: Ptr)
    requires PutFrame(s, s', x, p, q)
    requires Phases(s) && Tentative(s) && Locks(s) && Pointers(s)
    ensures Tentative(s')
  {
    P.PutInserts(s, s', x, p, q);
    P.PutOwned(s, s', x, p, q);
  }

  lemma PutKeepsWork(s: State, s': State, x: nat, p: Ptr, q: Ptr)
    requires PutFrame(s, s', x, p, q)
    requires Work(s) && Inserts(s) && Indexed(s) && Pointers(s) && Locks(s) && Phases(s)
    ensures Work(s')
  {
    assert WorkOf(s, x) && PtrsOf(s, s.txns[x]);
    forall r | r in s.txns[x].inserts ensures InsertOf(s, x, r) {}
    P.PutOwn(s, s', x, p);
    P.PutWork(s, s', x, p, q);
  }

  lemma WriteKeepsMost(s: State, s': State, x: nat)
    requires Inv(s) && Rely(s, s') && W.WriteFrame(s, s', x)
    ensures Base(s') && Times(s') && Logged(s') && TidsGrow(s') && Cuts(s')
    ensures Reads(s') && Validated(s') && Snapshots(s') && Shields(s') && Pointers(s')
  {
    W.FramePtrs(s, s', x);
    RelyKeepsMost(s, s');
  }

  // in place

  lemma InPlaceNow(s: State, s': State, x: nat, p: Ptr)
    requires Inv(s) && PutInPlace(s, s', x, p)
    ensures P.InPlaceShape(s, s', x, p) && Tid.CanOverwrite(s.tuples[p].version, s.txns[x].tid, s.m) && P.AtHome(s, p)
    ensures Rely(s, s') && W.WriteFrame(s, s', x) && Tid.MIN_TID < s.txns[x].tid < Tid.MAX_TID
    ensures s.tuples[p].value != ""
  {
    PutReadyNow(s, x, p);
    P.InPlaceIsShape(s, s', x, p);
    P.PutHist(s, s', x, p);
    P.InPlaceRely(s, s', x, p, Fresh(s.tuples.Keys));
  }

  lemma InPlaceKeepsTuples(s: State, s': State, x: nat, p: Ptr)
    requires P.InPlaceShape(s, s', x, p) && Locks(s) && Indexed(s) && Holdings(s)
    requires Tid.MIN_TID < s.txns[x].tid < Tid.MAX_TID
    ensures Locks(s') && Indexed(s') && Holdings(s')
  {
    W.WriteInsertLocks(s, s', x, p);
    P.InPlaceHoldings(s, s', x, p);
  }

  lemma InPlaceKeepsTree(s: State, s': State, x: nat, p: Ptr, q: Ptr)
    requires PutInPlace(s, s', x, p) && P.InPlaceShape(s, s', x, p) && P.AtHome(s, p) && q !in s.tuples
    requires s.tuples[p].value != "" && s.txns[x].tid != Tid.MAX_TID
    requires Garbage(s) && Queues(s) && Grown(s) && Ages(s) && Sweeps(s)
    ensures Garbage(s') && Queues(s') && Grown(s') && Ages(s') && Sweeps(s')
  {
    P.InPlaceRewrites(s, s', x, p, q);
    P.InPlaceGarbage(s, s', x, p, q);
    RewriteKeeps(s, s', x, p, q);
  }

  lemma InPlaceKeepsChains(s: State, s': State, x: nat, p: Ptr)
    requires Holdings(s) && Chains(s) && Logged(s) && Histories(s)
    requires P.InPlaceShape(s, s', x, p) && Tid.CanOverwrite(s.tuples[p].version, s.txns[x].tid, s.m)
    ensures Chains(s')
  {
    var k := s.tuples[p].key;
    assert VerOf(s, k, H(s, k)[s.tuples[p].pos]);
    OverwriteGroup(s, x, p);
    P.InPlaceChains(s, s', x, p, Fresh(s.tuples.Keys));
  }

  lemma InPlaceFrame(s: State, s': State, x: nat, p: Ptr, q: Ptr)
    requires P.InPlaceShape(s, s', x, p) && Tid.MIN_TID < s.txns[x].tid < Tid.MAX_TID && Locks(s) && Indexed(s)
    requires q !in s.tuples
    ensures PutFrame(s, s', x, p, q)
  {
  }

  lemma PutInPlaceKeepsSound(s: State, s': State, x: nat, p: Ptr)
    requires Sound(s) && PutInPlace(s, s', x, p)
    ensures Sound(s')
  {
    Open(s);
    InPlaceNow(s, s', x, p);
    WriteKeepsMost(s, s', x);
    InPlaceKeepsTuples(s, s', x, p);
    InPlaceKeepsChains(s, s', x, p);
    var q := Fresh(s.tuples.Keys);
    InPlaceKeepsTree(s, s', x, p, q);
    InPlaceFrame(s, s', x, p, q);
    PutKeepsWork(s, s', x, p, q);
    PutKeepsPhases(s, s', x, p, q);
    PutKeepsTentative(s, s', x, p, q);
    Close(s');
  }

  // in place, with a spill

  lemma SpillNow(s: State, s': State, x: nat, p: Ptr, q: Ptr)
    requires Inv(s) && PutSpill(s, s', x, p, q)
    ensures P.SpillShape(s, s', x, p, q) && P.AtHome(s, p) && s.tuples[p].value != "" && s.txns[x].epoch <= s.tk.current
    ensures Rely(s, s') && W.WriteFrame(s, s', x) && Tid.MIN_TID < s.txns[x].tid < Tid.MAX_TID
  {
    PutReadyNow(s, x, p);
    P.SpillIsShape(s, s', x, p, q);
    P.PutHist(s, s', x, p);
    P.SpillRely(s, s', x, p, q);
  }

  lemma SpillKeepsTuples(s: State, s': State, x: nat, p: Ptr, q: Ptr)
    requires P.SpillShape(s, s', x, p, q) && Tid.MIN_TID < s.txns[x].tid < Tid.MAX_TID
    requires Locks(s) && Indexed(s) && Holdings(s) && Chains(s)
    ensures Locks(s') && Indexed(s') && Holdings(s') && Chains(s')
  {
    P.SpillLocks(s, s', x, p, q);
    P.SpillIndexed(s, s', x, p, q);
    P.SpillHoldings(s, s', x, p, q);
    P.SpillChains(s, s', x, p, q);
  }

  lemma SpillKeepsTree(s: State, s': State, x: nat, p: Ptr, q: Ptr)
    requires PutSpill(s, s', x, p, q) && P.SpillShape(s, s', x, p, q) && P.AtHome(s, p)
    requires s.txns[x].epoch <= s.tk.current
    requires s.tuples[p].value != "" && s.txns[x].tid != Tid.MAX_TID
    requires Garbage(s) && Queues(s) && Grown(s) && Ages(s) && Sweeps(s)
    ensures Garbage(s') && Queues(s') && Grown(s') && Ages(s') && Sweeps(s')
  {
    P.SpillRewrites(s, s', x, p, q);
    P.SpillGarbage(s, s', x, p, q);
    RewriteKeeps(s, s', x, p, q);
  }

  lemma SpillFrame(s: State, s': State, x: nat, p: Ptr, q: Ptr)
    requires P.SpillShape(s, s', x, p, q) && Tid.MIN_TID < s.txns[x].tid < Tid.MAX_TID && Locks(s) && Indexed(s)
    ensures PutFrame(s, s', x, p, q)
  {
  }

  lemma PutSpillKeepsSound(s: State, s': State, x: nat, p: Ptr, q: Ptr)
    requires Sound(s) && PutSpill(s, s', x, p, q)
    ensures Sound(s')
  {
    Open(s);
    SpillNow(s, s', x, p, q);
    WriteKeepsMost(s, s', x);
    SpillKeepsTuples(s, s', x, p, q);
    SpillKeepsTree(s, s', x, p, q);
    SpillFrame(s, s', x, p, q);
    PutKeepsWork(s, s', x, p, q);
    PutKeepsPhases(s, s', x, p, q);
    PutKeepsTentative(s, s', x, p, q);
    Close(s');
  }

  // by replacement

  lemma ReplaceNow(s: State, s': State, x: nat, p: Ptr, q: Ptr, room: nat)
    requires Inv(s) && PutReplace(s, s', x, p, q, room)
    ensures P.ReplaceShape(s, s', x, p, q, room) && P.AtHome(s, p) && s.txns[x].epoch <= s.tk.current
    ensures Rely(s, s') && W.WriteFrame(s, s', x) && Tid.MIN_TID < s.txns[x].tid < Tid.MAX_TID
  {
    PutReadyNow(s, x, p);
    P.ReplaceIsShape(s, s', x, p, q, room);
    P.PutHist(s, s', x, p);
    P.ReplaceRely(s, s', x, p, q, room);
  }

  lemma ReplaceKeepsTuples(s: State, s': State, x: nat, p: Ptr, q: Ptr, room: nat)
    requires P.ReplaceShape(s, s', x, p, q, room) && Tid.MIN_TID < s.txns[x].tid < Tid.MAX_TID
    requires Locks(s) && Indexed(s) && Holdings(s) && Chains(s)
    ensures Locks(s') && Indexed(s') && Holdings(s') && Chains(s')
  {
    P.ReplaceLocks(s, s', x, p, q, room);
    P.ReplaceIndexed(s, s', x, p, q, room);
    P.ReplaceHoldings(s, s', x, p, q, room);
    P.ReplaceChains(s, s', x, p, q, room);
  }

  lemma ReplaceKeepsTree(s: State, s': State, x: nat, p: Ptr, q: Ptr, room: nat)
    requires PutReplace(s, s', x, p, q, room) && P.ReplaceShape(s, s', x, p, q, room) && P.AtHome(s, p)
    requires s.txns[x].epoch <= s.tk.current && s.txns[x].tid != Tid.MAX_TID
    requires Garbage(s) && Queues(s) && Grown(s) && Ages(s) && Sweeps(s)
    ensures Garbage(s') && Queues(s') && Grown(s') && Ages(s') && Sweeps(s')
  {
    P.ReplaceRewrites(s, s', x, p, q, room);
    P.ReplaceGarbage(s, s', x, p, q, room);
    RewriteKeeps(s, s', x, p, q);
  }

  lemma ReplaceFrame(s: State, s': State, x: nat, p: Ptr, q: Ptr, room: nat)
    requires P.ReplaceShape(s, s', x, p, q, room) && Tid.MIN_TID < s.txns[x].tid < Tid.MAX_TID && Locks(s) && Indexed(s)
    ensures PutFrame(s, s', x, p, q)
  {
  }

  lemma PutReplaceKeepsSound(s: State, s': State, x: nat, p: Ptr, q: Ptr, room: nat)
    requires Sound(s) && PutReplace(s, s', x, p, q, room)
    ensures Sound(s')
  {
    Open(s);
    ReplaceNow(s, s', x, p, q, room);
    WriteKeepsMost(s, s', x);
    ReplaceKeepsTuples(s, s', x, p, q, room);
    ReplaceKeepsTree(s, s', x, p, q, room);
    ReplaceFrame(s, s', x, p, q, room);
    PutKeepsWork(s, s', x, p, q);
    PutKeepsPhases(s, s', x, p, q);
    PutKeepsTentative(s, s', x, p, q);
    Close(s');
  }

  // ----- serializing, beginning, clocks

  lemma SerializeKeepsSound(s: State, s': State, x: nat, tid: nat)
    requires Sound(s) && Serialize(s, s', x, tid)
    ensures Sound(s')
  {
    Open(s);
    assert PhaseOf(s.txns[x]) && WorkOf(s, x);
    var e := Entry(x, tid, s.tk.current, Writes(s, s.txns[x]));
    S.SerializeEnters(s, s', x, tid);
    if HasWrites(s.txns[x]) { S.TidIsGood(s, s', x, tid); }
    EntersKeepsTree(s, s', x, e);
    EntersKeeps(s, s', x, e);
    Close(s');
  }

  lemma EntersKeepsTree(s: State, s': State, x: nat, e: Entry)
    requires S.Enters(s, s', x, e) && e.writes == Writes(s, s.txns[x]) && PhaseOf(s.txns[x]) && Indexed(s) && Locks(s)
    requires Grown(s) && Sweeps(s) && Garbage(s) && Queues(s) && Ages(s) && Histories(s)
    ensures Grown(s') && Sweeps(s') && Garbage(s') && Queues(s') && Ages(s')
  {
    StillKeeps(s, s');
    S.LockedAll(s.txns[x]);
    T.SerializeAges(s, s', x, e);
  }

  lemma EntersKeeps(s: State, s': State, x: nat, e: Entry)
    requires Inv(s) && S.Enters(s, s', x, e) && e.writes == Writes(s, s.txns[x])
    requires e.writes != map[] ==>
      && Tid.CoreId(e.tid) == s.txns[x].core && Tid.EpochId(e.tid) == s.tk.current && s.lastTid[s.txns[x].core] < e.tid
      && Tid.MIN_TID < e.tid < Tid.MAX_TID && forall n :: n in SeenTids(s, s.txns[x]) ==> n < e.tid
    requires Grown(s') && Sweeps(s') && Garbage(s') && Queues(s') && Ages(s')
    ensures Inv(s')
  {
    assert PhaseOf(s.txns[x]) && WorkOf(s, x);
    S.SerializeBase(s, s', x, e);
    S.SerializeTimes(s, s', x, e);
    S.SerializePhases(s, s', x, e);
    S.SerializeLocks(s, s', x, e);
    S.SerializeTentative(s, s', x, e);
    S.SerializeLogged(s, s', x, e);
    S.SerializeTids(s, s', x, e);
    S.SerializeHistories(s, s', x, e);
    S.SerializeHoldings(s, s', x, e);
    S.SerializeOwn(s, s', x, e);
    S.SerializeWork(s, s', x, e);
    S.SerializeReads(s, s', x, e);
    S.SerializeValidated(s, s', x, e);
    S.SerializeSnapshots(s, s', x, e);
    S.SerializeShields(s, s', x, e);
  }

  lemma BeginKeepsSound(s: State, s': State, x: nat, c: nat, snapshot: bool)
    requires Sound(s) && Begin(s, s', x, c, snapshot)
    ensures Sound(s')
  {
    Open(s);
    StillKeeps(s, s');
    T.SameAges(s, s');
    I.BeginTimes(s, s', x, c, snapshot);
    I.BeginLocks(s, s', x, c, snapshot);
    I.BeginPhases(s, s', x, c, snapshot);
    I.BeginTentative(s, s', x, c, snapshot);
    I.BeginLogged(s, s', x, c, snapshot);
    I.BeginTids(s, s', x, c, snapshot);
    I.BeginHoldings(s, s', x, c, snapshot);
    I.BeginWork(s, s', x, c, snapshot);
    I.BeginReads(s, s', x, c, snapshot);
    I.BeginValidated(s, s', x, c, snapshot);
    I.BeginSnapshots(s, s', x, c, snapshot);
    I.BeginShields(s, s', x, c, snapshot);
    Close(s');
  }

  lemma ClockKeepsMost(s: State, s': State)
    requires Inv(s) && s' == s.(tk := s'.tk, gc := s'.gc) && s.tk.last <= s'.tk.last && s.tk.current <= s'.tk.current
    requires forall c :: 0 <= c < |s.clean| && s.clean[c].Removed? && Ticker.Open(s.tk, c) ==> Ticker.Open(s'.tk, c)
    ensures Indexed(s') && Locks(s') && Phases(s') && Cuts(s') && Pointers(s') && Tentative(s')
    ensures Holdings(s') && Chains(s') && Histories(s') && Work(s') && Reads(s') && Snapshots(s') && Shields(s')
    ensures Validated(s')
    ensures Grown(s') && Ages(s') && Sweeps(s') && Garbage(s') && Queues(s')
  {
    I.ClockFrame(s, s');
    I.ClockLocks(s, s');
    I.ClockHoldings(s, s');
    I.ClockWork(s, s');
    I.ClockReads(s, s');
    I.ClockValidated(s, s');
    StillKeeps(s, s');
    T.SameAges(s, s');
  }

  lemma TickKeepsSound(s: State, s': State, a: Ticker.Action, tk: Ticker.State)
    requires Sound(s) && Tick(s, s', a, tk)
    ensures Sound(s')
  {
    Open(s);
    I.TickBase(s, s', a, tk);
    ClockKeepsMost(s, s');
    I.TickTimes(s, s', a, tk);
    I.TickLogged(s, s', a, tk);
    Close(s');
  }

  lemma GcLoadKeepsSound(s: State, s': State, c: nat)
    requires Sound(s) && GcLoad(s, s', c)
    ensures Sound(s')
  {
    Open(s);
    ClockKeepsMost(s, s');
    I.GcLoadBase(s, s', c);
    I.GcLoadOther(s, s', c);
    Close(s');
  }

  // ----- all steps

  lemma InitInv(s: State)
    requires Init(s)
    ensures Inv(s)
  {
    InitBase(s);
    InitTree(s);
  }

  lemma InitBase(s: State)
    requires Init(s)
    ensures Base(s) && Times(s) && Indexed(s) && Locks(s) && Phases(s) && Pointers(s) && Tentative(s)
    ensures Logged(s) && Histories(s) && Holdings(s) && Chains(s) && Work(s) && TidsGrow(s)
  {
    Ticker.InitEstablishesInv(s.tk);
  }

  lemma InitTree(s: State)
    requires Init(s)
    ensures Reads(s) && Validated(s) && Cuts(s) && Snapshots(s) && Shields(s) && Garbage(s)
    ensures Grown(s) && Ages(s) && Sweeps(s) && Queues(s)
  {
  }

  lemma BodyStepKeepsSound(s: State, s': State, a: Action)
    requires Sound(s) && BodyStep(s, s', a)
    ensures Sound(s')
  {
    match a
    case ABegin(x, c, snapshot) => BeginKeepsSound(s, s', x, c, snapshot);
    case ALookup(x, n) => LookupKeepsSound(s, s', x, n);
    case ARead(x) => ReadKeepsSound(s, s', x);
    case APut(x, v) => PutKeepsSound(s, s', x, v);
    case AInsert(x, k, v, p, room) => InsertKeepsSound(s, s', x, k, v, p, room);
  }

  lemma SnapStepKeepsSound(s: State, s': State, a: Action)
    requires Sound(s) && SnapStep(s, s', a)
    ensures Sound(s')
  {
    match a
    case ASnapMiss(x, k) => SnapMissKeepsSound(s, s', x, k);
    case ASnapRead(x) => SnapReadKeepsSound(s, s', x);
    case ASnapDone(x) => SnapDoneKeepsSound(s, s', x);
  }

  lemma LockStepKeepsSound(s: State, s': State, a: Action)
    requires Sound(s) && LockStep(s, s', a)
    ensures Sound(s')
  {
    match a
    case AStartCommit(x, order) => StartCommitKeepsSound(s, s', x, order);
    case ALockReject(x) => LockRejectKeepsSound(s, s', x);
    case ALockTake(x) => LockTakeKeepsSound(s, s', x);
    case AGiveUp(x) => GiveUpKeepsSound(s, s', x);
  }

  lemma CheckStepKeepsSound(s: State, s': State, a: Action)
    requires Sound(s) && CheckStep(s, s', a)
    ensures Sound(s')
  {
    match a
    case ASerialize(x, tid) => SerializeKeepsSound(s, s', x, tid);
    case AValidate(x) => ValidateKeepsSound(s, s', x);
    case ADecide(x) => DecideKeepsSound(s, s', x);
  }

  lemma WriteStepKeepsSound(s: State, s': State, a: Action)
    requires Sound(s) && WriteStep(s, s', a)
    ensures Sound(s')
  {
    match a
    case AWriteInsert(x, p) => WriteInsertKeepsSound(s, s', x, p);
    case APutInPlace(x, p) => PutInPlaceKeepsSound(s, s', x, p);
    case APutSpill(x, p, q) => PutSpillKeepsSound(s, s', x, p, q);
    case APutReplace(x, p, q, room) => PutReplaceKeepsSound(s, s', x, p, q, room);
  }

  lemma FreeStepKeepsSound(s: State, s': State, a: Action)
    requires Sound(s) && FreeStep(s, s', a)
    ensures Sound(s')
  {
    match a
    case AEndWriting(x) => EndWritingKeepsSound(s, s', x);
    case AUnlock(x, p) => UnlockKeepsSound(s, s', x, p);
    case AFinish(x) => FinishKeepsSound(s, s', x);
    case AUnlink(x, p) => UnlinkKeepsSound(s, s', x, p);
  }

  lemma ClockStepKeepsSound(s: State, s': State, a: Action)
    requires Sound(s) && ClockStep(s, s', a)
    ensures Sound(s')
  {
    match a
    case ATick(b, tk) => TickKeepsSound(s, s', b, tk);
    case AGcLoad(c) => GcLoadKeepsSound(s, s', c);
    case AGcFree(c) => GcFreeKeepsSound(s, s', c);
  }

  lemma CleanStepKeepsSound(s: State, s': State, a: Action)
    requires Sound(s) && CleanStep(s, s', a)
    ensures Sound(s')
  {
    match a
    case ACleanRequeue(c) => CleanRequeueKeepsSound(s, s', c);
    case ACleanLock(c) => CleanLockKeepsSound(s, s', c);
    case ACleanRemove(c) => CleanRemoveKeepsSound(s, s', c);
    case ACleanClear(c) => CleanClearKeepsSound(s, s', c);
    case ARcuRun(c) => RcuRunKeepsSound(s, s', c);
  }

  /** Every step keeps the invariant. */
  lemma StepKeepsSound(s: State, s': State, a: Action)
    requires Sound(s) && Step(s, s', a)
    ensures Sound(s')
  {
    if BodyStep(s, s', a) {
      BodyStepKeepsSound(s, s', a);
    } else if SnapStep(s, s', a) {
      SnapStepKeepsSound(s, s', a);
    } else if LockStep(s, s', a) {
      LockStepKeepsSound(s, s', a);
    } else if CheckStep(s, s', a) {
      CheckStepKeepsSound(s, s', a);
    } else if WriteStep(s, s', a) {
      WriteStepKeepsSound(s, s', a);
    } else if FreeStep(s, s', a) {
      FreeStepKeepsSound(s, s', a);
    } else if ClockStep(s, s', a) {
      ClockStepKeepsSound(s, s', a);
    } else {
      CleanStepKeepsSound(s, s', a);
    }
  }
}
