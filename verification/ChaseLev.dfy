/** The Chase-Lev work-stealing deque (cdschecker_modified_benchmarks/chase-lev-deque/deque.cc) with one
    owner and any number of thieves, under sequentially consistent interleaving. Every load, store and
    compare-and-swap of a variable that another thread may write is a step of its own; loads of what only
    the owner writes (bottom, array, buffers) go with the owner's next step. Indices are 64-bit words; only the
    subtraction in take is modelled to wrap, the additions would take 2^64 pushes to. */
module ChaseLev {
  import Circular

  /** A pushed value; the tag, the number of pushes before it, is history only. */
  datatype Elem = Elem(x: int, tag: nat)

  datatype OwnerPc =
    | Idle
    | Growing(x: int, b: nat)                                        // push found the array full
    | Copying(x: int, b: nat, into: seq<Elem>, from: nat, i: nat)    // resize's loop
    | Storing(x: int, b: nat)                                        // about to store into the buffer
    | Stored(x: int, b: nat)                                         // about to publish the new bottom
    | Lowered(b: nat)                                                // take has stored bottom - 1
    | Taking(b: nat, e: Elem)                                        // more than one element was left
    | Racing(b: nat, e: Elem)                                        // one was left
    | Won(b: nat, e: Elem)
    | Lost(b: nat)

  datatype ThiefPc =
    | Away
    | SawTop(t: nat)
    | SawWork(t: nat)               // t < bottom held
    | SawArray(t: nat, a: nat)
    | Read(t: nat, e: Elem)

  datatype State = State(
    top: nat, bottom: nat,
    arrays: seq<seq<Elem>>,         // every array ever current
    owner: OwnerPc,
    thieves: map<nat, ThiefPc>,
    // history
    at: map<nat, Elem>,             // what was last pushed at each index
    end: nat,                       // the deque holds exactly the indices from top up to here
    pushes: seq<int>,
    returned: seq<Elem>)

  predicate HasArray(s: State) { |s.arrays| > 0 && forall k :: 0 <= k < |s.arrays| ==> |s.arrays[k]| > 0 }

  function Current(s: State): seq<Elem>
    requires HasArray(s)
  {
    s.arrays[|s.arrays| - 1]
  }

  ghost predicate Init(s: State) {
    && s.top == 0 && s.bottom == 0 && |s.arrays| == 1 && |s.arrays[0]| == 2
    && s.owner == Idle && s.thieves == map[]
    && s.at == map[] && s.end == 0 && s.pushes == [] && s.returned == []
  }

  // ----- push and resize

  ghost predicate PushStart(s: State, s': State, x: int) {
    && HasArray(s) && s.owner == Idle
    && s' == s.(owner := if s.bottom - s.top > |Current(s)| - 1 then Growing(x, s.bottom) else Storing(x, s.bottom))
  }

  ghost predicate Grow(s: State, s': State, blank: seq<Elem>) {
    && HasArray(s) && s.owner.Growing? && |blank| == 2 * |Current(s)|
    && s' == s.(owner := Copying(s.owner.x, s.owner.b, blank, s.top, s.top))
  }

  ghost predicate Copy(s: State, s': State) {
    && HasArray(s) && s.owner.Copying? && s.owner.i < s.owner.b && |s.owner.into| > 0
    && var i := s.owner.i;
       s' == s.(owner := s.owner.(into := s.owner.into[i % |s.owner.into| := Current(s)[i % |Current(s)|]], i := i + 1))
  }

  ghost predicate Publish(s: State, s': State) {
    && s.owner.Copying? && s.owner.i >= s.owner.b
    && s' == s.(arrays := s.arrays + [s.owner.into], owner := Storing(s.owner.x, s.owner.b))
  }

  ghost predicate StoreItem(s: State, s': State) {
    && HasArray(s) && s.owner.Storing?
    && var c := Current(s);
       s' == s.(arrays := s.arrays[|s.arrays| - 1 := c[s.owner.b % |c| := Elem(s.owner.x, |s.pushes|)]],
                owner := Stored(s.owner.x, s.owner.b))
  }

  ghost predicate PushDone(s: State, s': State) {
    && s.owner.Stored?
    && s' == s.(bottom := s.owner.b + 1, owner := Idle,
                at := s.at[s.owner.b := Elem(s.owner.x, |s.pushes|)], end := s.owner.b + 1,
                pushes := s.pushes + [s.owner.x])
  }

  // ----- take

  const WRAP: nat := 0x1_0000_0000_0000_0000

  /** One less, as an unsigned word. */
  function Pred(n: nat): nat { if n == 0 then WRAP - 1 else n - 1 }

  ghost predicate TakeStart(s: State, s': State) {
    s.owner == Idle && s' == s.(bottom := Pred(s.bottom), owner := Lowered(Pred(s.bottom)))
  }

  ghost predicate TakeTop(s: State, s': State) {
    && HasArray(s) && s.owner.Lowered?
    && var b := s.owner.b;
       var e := Current(s)[b % |Current(s)|];
       s' == if s.top < b then s.(owner := Taking(b, e), end := b)
             else if s.top == b then s.(owner := Racing(b, e))
             else s.(owner := Lost(b))
  }

  ghost predicate TakeReturn(s: State, s': State) {
    s.owner.Taking? && s' == s.(owner := Idle, returned := s.returned + [s.owner.e])
  }

  ghost predicate TakeRace(s: State, s': State) {
    && s.owner.Racing?
    && s' == if s.top == s.owner.b then s.(top := s.top + 1, owner := Won(s.owner.b, s.owner.e))
         else s.(owner := Lost(s.owner.b))
  }

  ghost predicate TakeWon(s: State, s': State) {
    s.owner.Won? && s' == s.(bottom := s.owner.b + 1, owner := Idle, returned := s.returned + [s.owner.e])
  }

  ghost predicate TakeLost(s: State, s': State) {
    s.owner.Lost? && s' == s.(bottom := s.owner.b + 1, owner := Idle)
  }

  // ----- steal

  function Thief(s: State, h: nat): ThiefPc { if h in s.thieves then s.thieves[h] else Away }

  function WithThief(s: State, h: nat, pc: ThiefPc): State { s.(thieves := s.thieves[h := pc]) }

  ghost predicate StealTop(s: State, s': State, h: nat) {
    Thief(s, h) == Away && s' == WithThief(s, h, SawTop(s.top))
  }

  ghost predicate StealBottom(s: State, s': State, h: nat) {
    && Thief(s, h).SawTop?
    && s' == WithThief(s, h, if Thief(s, h).t < s.bottom then SawWork(Thief(s, h).t) else Away)
  }

  ghost predicate StealArray(s: State, s': State, h: nat) {
    HasArray(s) && Thief(s, h).SawWork? && s' == WithThief(s, h, SawArray(Thief(s, h).t, |s.arrays| - 1))
  }

  ghost predicate StealRead(s: State, s': State, h: nat) {
    && HasArray(s) && Thief(s, h).SawArray? && Thief(s, h).a < |s.arrays|
    && var a := s.arrays[Thief(s, h).a];
       s' == WithThief(s, h, Read(Thief(s, h).t, a[Thief(s, h).t % |a|]))
  }

  ghost predicate StealWin(s: State, s': State, h: nat) {
    && Thief(s, h).Read? && s.top == Thief(s, h).t
    && s' == WithThief(s, h, Away).(top := s.top + 1, returned := s.returned + [Thief(s, h).e])
  }

  ghost predicate StealAbort(s: State, s': State, h: nat) {
    Thief(s, h).Read? && s.top != Thief(s, h).t && s' == WithThief(s, h, Away)
  }

  datatype Action =
    | APushStart(x: int) | AGrow(blank: seq<Elem>) | ACopy | APublish | AStoreItem | APushDone
    | ATakeStart | ATakeTop | ATakeReturn | ATakeRace | ATakeWon | ATakeLost
    | AStealTop(h: nat) | AStealBottom(h: nat) | AStealArray(h: nat) | AStealRead(h: nat)
    | AStealWin(h: nat) | AStealAbort(h: nat)

  ghost predicate PushStep(s: State, s': State, a: Action) {
    match a
    case APushStart(x) => PushStart(s, s', x)
    case AGrow(blank) => Grow(s, s', blank)
    case ACopy => Copy(s, s')
    case APublish => Publish(s, s')
    case AStoreItem => StoreItem(s, s')
    case APushDone => PushDone(s, s')
    case _ => false
  }

  ghost predicate TakeStep(s: State, s': State, a: Action) {
    match a
    case ATakeStart => TakeStart(s, s')
    case ATakeTop => TakeTop(s, s')
    case ATakeReturn => TakeReturn(s, s')
    case ATakeRace => TakeRace(s, s')
    case ATakeWon => TakeWon(s, s')
    case ATakeLost => TakeLost(s, s')
    case _ => false
  }

  ghost predicate StealStep(s: State, s': State, a: Action) {
    match a
    case AStealTop(h) => StealTop(s, s', h)
    case AStealBottom(h) => StealBottom(s, s', h)
    case AStealArray(h) => StealArray(s, s', h)
    case AStealRead(h) => StealRead(s, s', h)
    case AStealWin(h) => StealWin(s, s', h)
    case AStealAbort(h) => StealAbort(s, s', h)
    case _ => false
  }

  ghost predicate Step(s: State, s': State, a: Action) {
    PushStep(s, s', a) || TakeStep(s, s', a) || StealStep(s, s', a)
  }

  // ----- invariant

  /** Cell of index i in a circular array. */
  function Cell(c: seq<Elem>, i: nat): Elem
    requires |c| > 0
  {
    c[i % |c|]
  }

  /** Where bottom and the owner stand relative to the indices the deque holds. */
  ghost predicate Ends(s: State) {
    && s.top <= s.end && (s.end == 0 <==> s.pushes == [])
    && (match s.owner
        case Idle => s.bottom == s.end
        case Growing(_, b) => s.bottom == b == s.end
        case Copying(_, b, _, from, i) => s.bottom == b == s.end && from <= s.top && from <= i <= b
        case Storing(_, b) => s.bottom == b == s.end
        case Stored(_, b) => s.bottom == b == s.end
        case Lowered(b) => s.bottom == b && s.end == b + 1
        case Taking(b, _) => s.bottom == b == s.end
        case Racing(b, _) => s.bottom == b && s.end == b + 1 && b <= s.top
        case Won(b, _) => s.bottom == b && s.end == b + 1 == s.top
        case Lost(b) => s.bottom == b && s.end == b + 1 == s.top)
  }

  /** The current array has room for, and holds, everything in the deque. */
  ghost predicate Filled(s: State) {
    && HasArray(s) && s.end - s.top <= |Current(s)|
    && (forall i :: s.top <= i < s.end ==> i in s.at && Cell(Current(s), i) == s.at[i])
  }

  /** What the owner holds on its way through push and take. */
  ghost predicate Hands(s: State) {
    && HasArray(s)
    && (match s.owner
        case Copying(_, b, into, from, i) =>
          && b - from <= |Current(s)| < |into|
          && forall k :: s.top <= k < i ==> k in s.at && Cell(into, k) == s.at[k]
        case Storing(_, b) => b - s.top < |Current(s)|
        case Stored(x, b) => b - s.top < |Current(s)| && Cell(Current(s), b) == Elem(x, |s.pushes|)
        case Taking(b, e) => b in s.at && s.at[b] == e
        case Racing(b, e) => b in s.at && s.at[b] == e
        case Won(b, e) => b in s.at && s.at[b] == e
        case _ => true)
  }

  /** A thief whose compare-and-swap could still succeed has the right element. */
  ghost predicate ThiefOf(s: State, pc: ThiefPc)
    requires HasArray(s)
  {
    match pc
    case Away => true
    case SawTop(t) => t <= s.top
    case SawWork(t) => t <= s.top && (s.top == t ==> t < s.end)
    case SawArray(t, a) =>
      && t <= s.top && a < |s.arrays|
      && (s.top == t ==> t < s.end && t in s.at && Cell(s.arrays[a], t) == s.at[t])
    case Read(t, e) => t <= s.top && (s.top == t ==> t < s.end && t in s.at && e == s.at[t])
  }

  ghost predicate Thieves(s: State) {
    HasArray(s) && forall h :: h in s.thieves ==> ThiefOf(s, s.thieves[h])
  }

  /** The element the owner has won and not yet returned. */
  function Hand(s: State): seq<Elem> {
    if s.owner.Taking? || s.owner.Won? then [s.owner.e] else []
  }

  /** Everything already handed out. */
  function Out(s: State): multiset<Elem> { multiset(s.returned) + multiset(Hand(s)) }

  predicate Genuine(pushes: seq<int>, e: Elem) { e.tag < |pushes| && e.x == pushes[e.tag] }

  /** Every push is at one index between lo and hi, or in out, once in all; nothing else is. */
  ghost predicate Tally(at: map<nat, Elem>, lo: nat, hi: nat, out: multiset<Elem>, pushes: seq<int>) {
    && (forall i :: lo <= i < hi ==> i in at && Genuine(pushes, at[i]) && at[i] !in out)
    && (forall i, j :: lo <= i < j < hi ==> at[i] != at[j])
    && (forall e :: e in out ==> Genuine(pushes, e) && out[e] == 1)
    && (forall g :: 0 <= g < |pushes| ==> PushPlaced(at, lo, hi, out, pushes, g))
  }

  ghost predicate PushPlaced(at: map<nat, Elem>, lo: nat, hi: nat, out: multiset<Elem>, pushes: seq<int>, g: nat)
    requires g < |pushes|
  {
    Elem(pushes[g], g) in out || Stays(at, lo, hi, Elem(pushes[g], g))
  }

  ghost predicate Stays(at: map<nat, Elem>, lo: nat, hi: nat, e: Elem) {
    exists i :: lo <= i < hi && i in at && at[i] == e
  }

  ghost predicate Accounted(s: State) {
    Tally(s.at, s.top, s.end, Out(s), s.pushes)
  }

  ghost predicate Shape(s: State) { Ends(s) && Filled(s) && Hands(s) && Thieves(s) }

  ghost predicate Inv(s: State) {
    Shape(s) && Accounted(s)
  }

  // ----- circular indexing

  /** Writing one index leaves every other index within one lap alone. */
  lemma CellFrame(c: seq<Elem>, j: nat, e: Elem, lo: nat, hi: nat)
    requires |c| > 0 && lo <= hi && lo <= j <= hi && hi < lo + |c|
    ensures Cell(c[j % |c| := e], j) == e
    ensures forall i :: lo <= i <= hi && i != j ==> Cell(c[j % |c| := e], i) == Cell(c, i)
  {
    forall i | lo <= i <= hi && i != j ensures Cell(c[j % |c| := e], i) == Cell(c, i) {
      if i < j {
        Circular.Apart(i, j, |c|);
      } else {
        Circular.Apart(j, i, |c|);
      }
    }
  }

  // ----- accounting

  lemma TallyPush(at: map<nat, Elem>, lo: nat, hi: nat, out: multiset<Elem>, pushes: seq<int>, x: int)
    requires lo <= hi && Tally(at, lo, hi, out, pushes)
    ensures Tally(at[hi := Elem(x, |pushes|)], lo, hi + 1, out, pushes + [x])
  {
    var e, p := Elem(x, |pushes|), pushes + [x];
    var at' := at[hi := e];
    var hi' := hi + 1;
    forall g | 0 <= g < |p| ensures PushPlaced(at', lo, hi', out, p, g) {
      if g == |pushes| {
        assert at'[hi] == e;
      } else if PushPlaced(at, lo, hi, out, pushes, g) && Elem(pushes[g], g) in out {
      } else if i :| lo <= i < hi && i in at && at[i] == Elem(pushes[g], g) {
        assert at'[i] == at[i];
      }
    }
  }

  lemma TallyTake(at: map<nat, Elem>, lo: nat, hi: nat, out: multiset<Elem>, pushes: seq<int>)
    requires lo < hi && Tally(at, lo, hi, out, pushes)
    ensures Tally(at, lo, hi - 1, out + multiset{at[hi - 1]}, pushes)
  {
    var hi', out' := hi - 1, out + multiset{at[hi - 1]};
    forall g | 0 <= g < |pushes| ensures PushPlaced(at, lo, hi', out', pushes, g)
    {
      assert PushPlaced(at, lo, hi, out, pushes, g);
      if i :| lo <= i < hi && i in at && at[i] == Elem(pushes[g], g) {
        assert i == hi - 1 || Stays(at, lo, hi - 1, at[i]);
      }
    }
  }

  lemma TallySteal(at: map<nat, Elem>, lo: nat, hi: nat, out: multiset<Elem>, pushes: seq<int>)
    requires lo < hi && Tally(at, lo, hi, out, pushes)
    ensures Tally(at, lo + 1, hi, out + multiset{at[lo]}, pushes)
  {
    var lo', out' := lo + 1, out + multiset{at[lo]};
    forall g | 0 <= g < |pushes| ensures PushPlaced(at, lo', hi, out', pushes, g)
    {
      assert PushPlaced(at, lo, hi, out, pushes, g);
      if i :| lo <= i < hi && i in at && at[i] == Elem(pushes[g], g) {
        assert i == lo || Stays(at, lo + 1, hi, at[i]);
      }
    }
  }

  // ----- every step keeps the invariant

  lemma CopyShape(s: State, s': State)
    requires Shape(s) && Copy(s, s')
    ensures Shape(s')
  {
    CellFrame(s.owner.into, s.owner.i, Cell(Current(s), s.owner.i), s.owner.from, s.owner.b);
  }

  lemma StoreItemShape(s: State, s': State)
    requires Shape(s) && StoreItem(s, s')
    ensures Shape(s')
  {
    CellFrame(Current(s), s.owner.b, Elem(s.owner.x, |s.pushes|), s.top, s.owner.b);
  }

  lemma PushMoveShape(s: State, s': State, a: Action)
    requires Shape(s) && PushStep(s, s', a) && !a.ACopy? && !a.AStoreItem? && !a.APushDone?
    ensures Shape(s')
  {
  }

  lemma PushDoneShape(s: State, s': State)
    requires Shape(s) && PushDone(s, s')
    ensures Shape(s')
  {
  }

  /** What the accounts look at stays the same. */
  ghost predicate SameAccounts(s: State, s': State) {
    s'.at == s.at && s'.top == s.top && s'.end == s.end && s'.pushes == s.pushes && Hand(s') == Hand(s)
      && s'.returned == s.returned
  }

  lemma SameIsAccounted(s: State, s': State)
    requires Accounted(s) && SameAccounts(s, s')
    ensures Accounted(s')
  {
  }

  lemma PushDoneAccounted(s: State, s': State)
    requires Ends(s) && Accounted(s) && PushDone(s, s')
    ensures Accounted(s')
  {
    assert Out(s') == Out(s);
    TallyPush(s.at, s.top, s.end, Out(s), s.pushes, s.owner.x);
  }

  lemma PushAccounted(s: State, s': State, a: Action)
    requires Ends(s) && Accounted(s) && PushStep(s, s', a)
    ensures Accounted(s')
  {
    if a.APushDone? {
      PushDoneAccounted(s, s');
    } else {
      SameIsAccounted(s, s');
    }
  }

  lemma TakeMoveShape(s: State, s': State, a: Action)
    requires Shape(s) && TakeStep(s, s', a) && !a.ATakeTop? && !a.ATakeRace? && (a.ATakeStart? ==> s.pushes != [])
    ensures Shape(s')
  {
  }

  lemma TakeTopShape(s: State, s': State)
    requires Shape(s) && TakeTop(s, s')
    ensures Shape(s')
  {
  }

  lemma TakeRaceShape(s: State, s': State)
    requires Shape(s) && TakeRace(s, s')
    ensures Shape(s')
  {
  }

  lemma TakeTopTakes(s: State, s': State)
    requires Ends(s) && Filled(s) && TakeTop(s, s') && s.top < s.owner.b
    ensures s.top < s.end && s.end - 1 in s.at && Out(s') == Out(s) + multiset{s.at[s.end - 1]}
    ensures s'.at == s.at && s'.top == s.top && s'.end == s.end - 1 && s'.pushes == s.pushes
  {
    assert Cell(Current(s), s.owner.b) == s.at[s.end - 1];
  }

  lemma TakeRaceTakes(s: State, s': State)
    requires Ends(s) && Hands(s) && TakeRace(s, s') && s.top == s.owner.b
    ensures s.top < s.end && s.top in s.at && Out(s') == Out(s) + multiset{s.at[s.top]}
    ensures s'.at == s.at && s'.top == s.top + 1 && s'.end == s.end && s'.pushes == s.pushes
  {
  }

  lemma TallyIsAccounted(s: State, at: map<nat, Elem>, lo: nat, hi: nat, out: multiset<Elem>, pushes: seq<int>)
    requires Tally(at, lo, hi, out, pushes)
    requires s.at == at && s.top == lo && s.end == hi && s.pushes == pushes && Out(s) == out
    ensures Accounted(s)
  {
  }

  lemma LastLeaves(s: State, s': State)
    requires Accounted(s) && s.top < s.end && s.end - 1 in s.at && Out(s') == Out(s) + multiset{s.at[s.end - 1]}
    requires s'.at == s.at && s'.top == s.top && s'.end == s.end - 1 && s'.pushes == s.pushes
    ensures Accounted(s')
  {
    TallyTake(s.at, s.top, s.end, Out(s), s.pushes);
    assert s.at[s.end - 1] == s'.at[s'.end];
  }

  lemma TakeTopAccounted(s: State, s': State)
    requires Ends(s) && Filled(s) && Accounted(s) && TakeTop(s, s')
    ensures Accounted(s')
  {
    if s.top < s.owner.b {
      TakeTopTakes(s, s');
      LastLeaves(s, s');
    } else {
      SameIsAccounted(s, s');
    }
  }

  lemma TakeRaceAccounted(s: State, s': State)
    requires Ends(s) && Hands(s) && Accounted(s) && TakeRace(s, s')
    ensures Accounted(s')
  {
    if s.top == s.owner.b {
      TakeRaceTakes(s, s');
      var out := Out(s) + multiset{s.at[s.top]};
      TallySteal(s.at, s.top, s.end, Out(s), s.pushes);
      TallyIsAccounted(s', s.at, s.top + 1, s.end, out, s.pushes);
    } else {
      SameIsAccounted(s, s');
    }
  }

  /** Returning moves the element from the hand to the results. */
  lemma TakeReturnOut(s: State, s': State, a: Action)
    requires TakeStep(s, s', a) && !a.ATakeTop? && !a.ATakeRace?
    ensures Out(s') == Out(s)
  {
  }

  lemma TakeAccounted(s: State, s': State, a: Action)
    requires Accounted(s) && TakeStep(s, s', a) && !a.ATakeTop? && !a.ATakeRace?
    ensures Accounted(s')
  {
    TakeReturnOut(s, s', a);
  }

  /** A thief's move touches nothing but its own place. */
  lemma ThiefMoves(s: State, s': State, h: nat, pc: ThiefPc)
    requires Shape(s) && s' == WithThief(s, h, pc) && ThiefOf(s, pc)
    ensures Shape(s')
  {
    forall g | g in s'.thieves ensures ThiefOf(s', s'.thieves[g]) {
      if g != h { assert ThiefOf(s, s.thieves[g]); }
    }
  }

  lemma StealMoveShape(s: State, s': State, a: Action)
    requires Shape(s) && StealStep(s, s', a) && !a.AStealWin?
    ensures Shape(s')
  {
    if a.h in s.thieves { assert ThiefOf(s, s.thieves[a.h]); }
    ThiefMoves(s, s', a.h, s'.thieves[a.h]);
  }

  lemma StealWinShape(s: State, s': State, h: nat)
    requires Shape(s) && StealWin(s, s', h)
    ensures Shape(s')
  {
  }

  lemma StealWinAccounted(s: State, s': State, h: nat)
    requires Thieves(s) && Accounted(s) && StealWin(s, s', h)
    ensures Accounted(s')
  {
    assert ThiefOf(s, s.thieves[h]);
    TallySteal(s.at, s.top, s.end, Out(s), s.pushes);
    assert Hand(s') == Hand(s);
    assert Out(s') == Out(s) + multiset{s.at[s.top]};
  }

  lemma StealAccounted(s: State, s': State, a: Action)
    requires Thieves(s) && Accounted(s) && StealStep(s, s', a)
    ensures Accounted(s')
  {
    if a.AStealWin? {
      StealWinAccounted(s, s', a.h);
    } else {
      SameIsAccounted(s, s');
    }
  }

  lemma PushKeepsInv(s: State, s': State, a: Action)
    requires Inv(s) && PushStep(s, s', a)
    ensures Inv(s')
  {
    PushAccounted(s, s', a);
    match a
    case ACopy => CopyShape(s, s');
    case AStoreItem => StoreItemShape(s, s');
    case APushDone => PushDoneShape(s, s');
    case _ => PushMoveShape(s, s', a);
  }

  lemma TakeKeepsInv(s: State, s': State, a: Action)
    requires Inv(s) && TakeStep(s, s', a) && (a.ATakeStart? ==> s.pushes != [])
    ensures Inv(s')
  {
    match a
    case ATakeTop =>
      TakeTopShape(s, s');
      TakeTopAccounted(s, s');
    case ATakeRace =>
      TakeRaceShape(s, s');
      TakeRaceAccounted(s, s');
    case _ =>
      TakeMoveShape(s, s', a);
      TakeAccounted(s, s', a);
  }

  lemma StealKeepsInv(s: State, s': State, a: Action)
    requires Inv(s) && StealStep(s, s', a)
    ensures Inv(s')
  {
    StealAccounted(s, s', a);
    if a.AStealWin? {
      StealWinShape(s, s', a.h);
    } else {
      StealMoveShape(s, s', a);
    }
  }

  /** Every step keeps the invariant, except a take before anything was pushed. */
  lemma StepKeepsInv(s: State, s': State, a: Action)
    requires Inv(s) && Step(s, s', a) && (a.ATakeStart? ==> s.pushes != [])
    ensures Inv(s')
  {
    if PushStep(s, s', a) {
      PushKeepsInv(s, s', a);
    } else if TakeStep(s, s', a) {
      TakeKeepsInv(s, s', a);
    } else {
      StealKeepsInv(s, s', a);
    }
  }

  ghost predicate Run(r: seq<State>) {
    && |r| > 0 && Init(r[0])
    && forall i :: 0 <= i < |r| - 1 ==> Linked(r, i)
  }

  ghost predicate Linked(r: seq<State>, i: nat)
    requires i + 1 < |r|
  {
    exists a {:trigger Step(r[i], r[i + 1], a)} :: Step(r[i], r[i + 1], a)
  }

  /** The owner calls take only once something has been pushed. */
  ghost predicate PushesFirst(r: seq<State>) {
    forall i {:trigger Linked(r, i)} :: 0 <= i < |r| - 1 && r[i].owner == Idle && r[i + 1].owner.Lowered? ==>
      r[i].pushes != []
  }

  lemma {:induction false} RunInv(r: seq<State>, n: nat)
    requires Run(r) && PushesFirst(r) && n < |r|
    ensures Inv(r[n])
  {
    if n > 0 {
      RunInv(r, n - 1);
      assert Linked(r, n - 1);
      LinkKeepsInv(r[n - 1], r[n]);
    }
  }

  lemma LinkKeepsInv(s: State, s': State)
    requires Inv(s) && (exists a :: Step(s, s', a)) && (s.owner == Idle && s'.owner.Lowered? ==> s.pushes != [])
    ensures Inv(s')
  {
    var a :| Step(s, s', a);
    StepKeepsInv(s, s', a);
  }

  // ----- what it guarantees

  /** Nothing is returned twice, and only what was pushed is returned. */
  lemma NothingReturnedTwice(r: seq<State>, n: nat, i: nat, j: nat)
    requires Run(r) && PushesFirst(r) && n < |r| && i < j < |r[n].returned|
    ensures var q := r[n].returned;
            && q[i].tag != q[j].tag
            && q[i].tag < |r[n].pushes| && q[i].x == r[n].pushes[q[i].tag]
  {
    RunInv(r, n);
    var s := r[n];
    var q := s.returned;
    assert q[i] in Out(s) && q[j] in Out(s);
    assert Genuine(s.pushes, q[i]) && Genuine(s.pushes, q[j]);
    if q[i] == q[j] {
      TwiceCounts(q, i, j);
      assert false;
    }
  }

  lemma TwiceCounts(q: seq<Elem>, i: nat, j: nat)
    requires i < j < |q| && q[i] == q[j]
    ensures multiset(q)[q[i]] >= 2
  {
    assert q == q[..j] + [q[j]] + q[j + 1..];
    assert q[i] in q[..j];
  }

  /** Nothing is lost: every push has been returned, is in the owner's hands, or is in the deque. */
  lemma NothingIsLost(r: seq<State>, n: nat, g: nat)
    requires Run(r) && PushesFirst(r) && n < |r| && g < |r[n].pushes|
    ensures var s, e := r[n], Elem(r[n].pushes[g], g);
            || e in s.returned || e in Hand(s)
            || exists i :: s.top <= i < s.end && i in s.at && s.at[i] == e
  {
    RunInv(r, n);
    assert PushPlaced(r[n].at, r[n].top, r[n].end, Out(r[n]), r[n].pushes, g);
  }

  /** Between operations of the owner, the current array holds the deque, from top to bottom. */
  lemma ArrayHoldsDeque(r: seq<State>, n: nat, i: nat)
    requires Run(r) && PushesFirst(r) && n < |r| && r[n].owner == Idle && r[n].top <= i < r[n].bottom
    ensures HasArray(r[n]) && i in r[n].at && Cell(Current(r[n]), i) == r[n].at[i]
    ensures r[n].bottom == r[n].end && r[n].bottom - r[n].top <= |Current(r[n])|
  {
    RunInv(r, n);
  }

  /** A successful steal returns what was last pushed at the top index, whichever array it was read from. */
  lemma StealReturnsTop(r: seq<State>, n: nat, h: nat)
    requires Run(r) && PushesFirst(r) && n + 1 < |r| && StealWin(r[n], r[n + 1], h)
    ensures r[n].top < r[n].end && r[n].top in r[n].at && Thief(r[n], h).e == r[n].at[r[n].top]
  {
    RunInv(r, n);
    assert ThiefOf(r[n], r[n].thieves[h]);
  }

  /** A successful take returns what was last pushed at the bottom index. */
  lemma TakeReturnsBottom(r: seq<State>, n: nat)
    requires Run(r) && PushesFirst(r) && n + 1 < |r| && (TakeReturn(r[n], r[n + 1]) || TakeWon(r[n], r[n + 1]))
    ensures r[n].bottom in r[n].at && r[n].owner.e == r[n].at[r[n].bottom]
  {
    RunInv(r, n);
  }

  // ----- take before the first push

  /** Between its operations the owner finds bottom above 0 if and only if it has pushed something. */
  lemma BottomAfterPush(r: seq<State>, n: nat)
    requires Run(r) && PushesFirst(r) && n < |r| && r[n].owner == Idle
    ensures r[n].bottom >= 1 <==> r[n].pushes != []
  {
    RunInv(r, n);
  }

  lemma Go(r: seq<State>, s: State, a: Action) returns (r': seq<State>)
    requires Run(r) && Step(r[|r| - 1], s, a)
    ensures Run(r') && |r'| == |r| + 1 && r' == r + [s]
  {
    r' := r + [s];
    forall i | 0 <= i < |r'| - 1 ensures Linked(r', i) {
      if i < |r| - 1 {
        assert Linked(r, i);
        assert r'[i] == r[i] && r'[i + 1] == r[i + 1];
      } else {
        assert Step(r'[i], r'[i + 1], a);
      }
    }
  }

  /** Any run up to an idle owner that has pushed nothing goes on to a take that returns an element: one that was never
      pushed. Such a take is the one case the other results leave out, and it begins with [Init]. */
  lemma TakeBeforePush(r: seq<State>) returns (r': seq<State>)
    requires Run(r) && PushesFirst(r) && r[|r| - 1].owner == Idle && r[|r| - 1].pushes == []
    ensures Run(r') && |r'| == |r| + 3 && r'[..|r|] == r
    ensures var s := r'[|r'| - 1]; s.owner == Idle && s.pushes == [] && |s.returned| == 1
  {
    var s := r[|r| - 1];
    RunInv(r, |r| - 1);
    NothingOutYet(s);
    var b := WRAP - 1;
    var s1 := s.(bottom := b, owner := Lowered(b));
    assert TakeStep(s, s1, ATakeStart);
    var r1 := Go(r, s1, ATakeStart);
    var e := Current(s1)[b % |Current(s1)|];
    var s2 := s1.(owner := Taking(b, e), end := b);
    assert TakeStep(s1, s2, ATakeTop);
    var r2 := Go(r1, s2, ATakeTop);
    var s3 := s2.(owner := Idle, returned := s2.returned + [e]);
    assert TakeStep(s2, s3, ATakeReturn);
    r' := Go(r2, s3, ATakeReturn);
  }

  lemma NothingOutYet(s: State)
    requires Inv(s) && s.pushes == []
    ensures s.top == 0 && s.returned == []
  {
    assert Out(s) == multiset{};
    assert |multiset(s.returned)| == 0;
  }

  /** In particular the first call of all may be such a take. */
  lemma FirstTake(s: State) returns (r: seq<State>)
    requires Init(s)
    ensures Run(r) && |r| == 4 && r[0] == s && r[3].owner == Idle && r[3].pushes == [] && |r[3].returned| == 1
  {
    r := TakeBeforePush([s]);
  }
}
