/** One logging thread and the output thread of iris: the byte ring (iris/include/lfringbuffer.h), the
    queue of records (iris/include/sslfqueue.h) and how base_logger::log and do_format_and_flush use them
    together. Each load or store of a variable the other thread writes is a step. The counters, which the
    source keeps in machine words, do not wrap. */
module IrisLog {
  import Circular

  /** A logged record: history. It takes positions start to start + alloc, its bytes begin at position at. */
  datatype Rec = Rec(start: nat, alloc: nat, at: nat, bytes: seq<nat>)

  /** loglet_t; the length stands for what the formatter knows from the argument types. */
  datatype Loglet = Loglet(ptr: nat, len: nat, alloc: nat)

  datatype Producer =
    | PIdle
    | PRoom(bytes: seq<nat>)          // acquire saw enough free bytes in all
    | PFilling(k: nat)                // so many bytes of the newest record are written
    | POffered                        // its loglet is in the queue's buffer

  datatype Consumer =
    | CIdle
    | CCopying(batch: seq<Loglet>)
    | CFormatting(batch: seq<Loglet>, got: seq<nat>)
    | CFormatted(batch: seq<Loglet>)  // the first of the batch is written out

  datatype State = State(
    buffer: seq<nat>, head: nat, tailCache: nat, tail: nat,
    slots: seq<Loglet>, qhead: nat, qtail: nat, qheadCache: nat, qtailCache: nat,
    prod: Producer, cons: Consumer,
    // history
    recs: seq<Rec>, released: nat, output: seq<seq<nat>>)

  function Cap(s: State): nat { |s.buffer| }

  ghost predicate Init(s: State) {
    && Circular.PowerOfTwo(Cap(s)) && Circular.PowerOfTwo(|s.slots|)
    && s.head == 0 && s.tail == Cap(s) && s.tailCache == Cap(s)
    && s.qhead == 0 && s.qtail == 0 && s.qheadCache == 0 && s.qtailCache == 0
    && s.prod == PIdle && s.cons == CIdle && s.recs == [] && s.released == 0 && s.output == []
  }

  // ----- the logging thread

  /** acquire, up to the test of the total: reload tail only if the cached one is not enough. */
  ghost predicate AcquireTotal(s: State, s': State, bytes: seq<nat>) {
    && s.prod == PIdle && bytes != []
    && var cache := if s.tailCache - s.head < |bytes| then s.tail else s.tailCache;
       s' == s.(tailCache := cache, prod := if cache - s.head < |bytes| then PIdle else PRoom(bytes))
  }

  function Rear(s: State): nat
    requires Cap(s) > 0
  {
    Cap(s) - s.head % Cap(s)
  }

  function Take(s: State, r: Rec): State {
    s.(head := s.head + r.alloc, recs := s.recs + [r], prod := PFilling(0))
  }

  /** The rest of acquire: the rear chunk, or else the front, throwing the rear away. */
  ghost predicate AcquirePlace(s: State, s': State) {
    && s.prod.PRoom? && Cap(s) > 0
    && var n := |s.prod.bytes|;
       if Rear(s) >= n then s' == Take(s, Rec(s.head, n, s.head, s.prod.bytes))
       else
         var cache := if s.tailCache % Cap(s) < n then s.tail else s.tailCache;
         s' == if cache % Cap(s) < n then s.(tailCache := cache, prod := PIdle)
               else Take(s.(tailCache := cache), Rec(s.head, Rear(s) + n, s.head + Rear(s), s.prod.bytes))
  }

  ghost predicate FillByte(s: State, s': State) {
    && s.prod.PFilling? && s.recs != [] && Cap(s) > 0
    && var r := s.recs[|s.recs| - 1];
       && s.prod.k < |r.bytes| && r.at % Cap(s) + s.prod.k < Cap(s)
       && s' == s.(buffer := s.buffer[r.at % Cap(s) + s.prod.k := r.bytes[s.prod.k]], prod := PFilling(s.prod.k + 1))
  }

  function LogletOf(s: State, r: Rec): Loglet
    requires Cap(s) > 0
  {
    Loglet(r.at % Cap(s), |r.bytes|, r.alloc)
  }

  /** offer, up to the store into the buffer; log repeats it while the queue is full. */
  ghost predicate Offer(s: State, s': State) {
    && s.prod.PFilling? && s.recs != [] && s.prod.k == |s.recs[|s.recs| - 1].bytes| && |s.slots| > 0 && Cap(s) > 0
    && var len := s.qtail - |s.slots|;
       var cache := if s.qheadCache <= len then s.qhead else s.qheadCache;
       s' == if cache <= len then s.(qheadCache := cache)
             else s.(qheadCache := cache, prod := POffered,
                     slots := s.slots[s.qtail % |s.slots| := LogletOf(s, s.recs[|s.recs| - 1])])
  }

  ghost predicate Publish(s: State, s': State) {
    s.prod == POffered && s' == s.(qtail := s.qtail + 1, prod := PIdle)
  }

  // ----- the output thread

  ghost predicate PollStart(s: State, s': State) {
    && s.cons == CIdle
    && var cache := if s.qhead >= s.qtailCache then s.qtail else s.qtailCache;
       s' == s.(qtailCache := cache, cons := if s.qhead >= cache then CIdle else CCopying([]))
  }

  ghost predicate PollCopy(s: State, s': State) {
    && s.cons.CCopying? && |s.slots| > 0 && s.qhead + |s.cons.batch| < s.qtailCache
    && s' == s.(cons := CCopying(s.cons.batch + [s.slots[(s.qhead + |s.cons.batch|) % |s.slots|]]))
  }

  ghost predicate PollDone(s: State, s': State) {
    && s.cons.CCopying? && s.qhead + |s.cons.batch| >= s.qtailCache
    && s' == s.(qhead := s.qhead + |s.cons.batch|, cons := CFormatting(s.cons.batch, []))
  }

  ghost predicate ReadByte(s: State, s': State) {
    && s.cons.CFormatting? && s.cons.batch != []
    && var l := s.cons.batch[0];
       && |s.cons.got| < l.len && l.ptr + |s.cons.got| < |s.buffer|
       && s' == s.(cons := s.cons.(got := s.cons.got + [s.buffer[l.ptr + |s.cons.got|]]))
  }

  ghost predicate Emit(s: State, s': State) {
    && s.cons.CFormatting? && s.cons.batch != [] && |s.cons.got| == s.cons.batch[0].len
    && s' == s.(output := s.output + [s.cons.got], cons := CFormatted(s.cons.batch))
  }

  ghost predicate Release(s: State, s': State) {
    && s.cons.CFormatted? && s.cons.batch != []
    && s' == s.(tail := s.tail + s.cons.batch[0].alloc, released := s.released + 1,
                cons := if |s.cons.batch| == 1 then CIdle else CFormatting(s.cons.batch[1..], []))
  }

  datatype Action =
    | AAcquireTotal(bytes: seq<nat>) | AAcquirePlace | AFillByte | AOffer | APublish
    | APollStart | APollCopy | APollDone | AReadByte | AEmit | ARelease

  ghost predicate ProducerStep(s: State, s': State, a: Action) {
    match a
    case AAcquireTotal(bytes) => AcquireTotal(s, s', bytes)
    case AAcquirePlace => AcquirePlace(s, s')
    case AFillByte => FillByte(s, s')
    case AOffer => Offer(s, s')
    case APublish => Publish(s, s')
    case _ => false
  }

  ghost predicate ConsumerStep(s: State, s': State, a: Action) {
    match a
    case APollStart => PollStart(s, s')
    case APollCopy => PollCopy(s, s')
    case APollDone => PollDone(s, s')
    case AReadByte => ReadByte(s, s')
    case AEmit => Emit(s, s')
    case ARelease => Release(s, s')
    case _ => false
  }

  ghost predicate Step(s: State, s': State, a: Action) {
    ProducerStep(s, s', a) || ConsumerStep(s, s', a)
  }

  // ----- invariant

  ghost predicate RecOf(s: State, r: Rec) {
    && Cap(s) > 0 && r.bytes != [] && r.start <= r.at && r.at + |r.bytes| == r.start + r.alloc
    && r.at % Cap(s) + |r.bytes| <= Cap(s)
  }

  function StartOf(s: State, i: nat): nat { if i < |s.recs| then s.recs[i].start else s.head }

  ghost predicate NextOf(s: State, i: nat)
    requires i < |s.recs|
  {
    StartOf(s, i + 1) == s.recs[i].start + s.recs[i].alloc
  }

  /** The records, in order, tile the positions handed out; the free ones begin where the oldest unreleased does. */
  ghost predicate Tiled(s: State) {
    && (forall i :: 0 <= i < |s.recs| ==> RecOf(s, s.recs[i]))
    && StartOf(s, 0) == 0
    && (forall i :: 0 <= i < |s.recs| ==> NextOf(s, i))
    && (forall i, j :: 0 <= i < j < |s.recs| ==> s.recs[i].start + s.recs[i].alloc <= s.recs[j].start)
    && (forall i :: 0 <= i < |s.recs| ==> s.recs[i].start + s.recs[i].alloc <= s.head)
    && s.released <= |s.recs| && s.tail == StartOf(s, s.released) + Cap(s)
    && s.head <= s.tailCache <= s.tail
    && (s.prod.PRoom? ==> s.prod.bytes != [] && s.tailCache - s.head >= |s.prod.bytes|)
  }

  /** Queue cells hold the records offered and not yet polled. */
  ghost predicate Queued(s: State) {
    && |s.slots| > 0 && Cap(s) > 0
    && s.qhead <= s.qtail <= s.qhead + |s.slots| && s.qheadCache <= s.qhead && s.qtailCache <= s.qtail
    && |s.recs| == s.qtail + (if s.prod.PFilling? || s.prod.POffered? then 1 else 0)
    && (forall j :: s.qhead <= j < s.qtail ==> s.slots[j % |s.slots|] == LogletOf(s, s.recs[j]))
    && (s.prod.POffered? ==>
          s.qtail < s.qhead + |s.slots| && s.slots[s.qtail % |s.slots|] == LogletOf(s, s.recs[s.qtail]))
  }

  function Batch(c: Consumer): seq<Loglet> { if c.CIdle? then [] else c.batch }

  /** The batch is the records from the oldest unreleased on; the output is all before. */
  ghost predicate Polled(s: State) {
    && Cap(s) > 0 && s.released + |Batch(s.cons)| <= |s.recs|
    && (forall j :: 0 <= j < |Batch(s.cons)| ==> Batch(s.cons)[j] == LogletOf(s, s.recs[s.released + j]))
    && (if s.cons.CIdle? || s.cons.CCopying? then s.released == s.qhead
        else s.released + |s.cons.batch| == s.qhead && s.cons.batch != [])
    && (s.cons.CCopying? ==> s.qhead + |s.cons.batch| <= s.qtailCache && s.qhead < s.qtailCache)
    && (s.cons.CFormatting? ==> s.cons.got <= s.recs[s.released].bytes)
    && |s.output| == s.released + (if s.cons.CFormatted? then 1 else 0)
    && (forall j :: 0 <= j < |s.output| ==> s.output[j] == s.recs[j].bytes)
  }

  ghost predicate Written(s: State, r: Rec, k: nat)
    requires k <= |r.bytes|
  {
    Cap(s) > 0 && r.at % Cap(s) + k <= Cap(s)
    && forall c :: 0 <= c < k ==> s.buffer[r.at % Cap(s) + c] == r.bytes[c]
  }

  /** Every unreleased record's bytes are in place, the newest as far as it is filled. */
  ghost predicate Intact(s: State) {
    && (forall i :: s.released <= i < |s.recs| && i < s.qtail ==> Written(s, s.recs[i], |s.recs[i].bytes|))
    && (s.prod.PFilling? && s.qtail < |s.recs| ==>
          s.prod.k <= |s.recs[s.qtail].bytes| && Written(s, s.recs[s.qtail], s.prod.k))
    && (s.prod.POffered? && s.qtail < |s.recs| ==> Written(s, s.recs[s.qtail], |s.recs[s.qtail].bytes|))
  }

  ghost predicate Inv(s: State) {
    Tiled(s) && Queued(s) && Polled(s) && Intact(s)
  }

  // ----- acquire

  /** Past the rear, the masked tail is exactly the free space at the front. */
  lemma FrontFree(head: nat, tail: nat, cap: nat)
    requires cap > 0 && cap - head % cap < tail - head <= cap
    ensures var m := head + (cap - head % cap);
            m % cap == 0 && m < tail && tail % cap == tail - m
  {
    var m := head + (cap - head % cap);
    var q := head / cap + 1;
    assert m == q * cap;
    Circular.Unique(m, cap, q, 0);
    Circular.Unique(tail, cap, q, tail - m);
  }

  lemma TakeTiled(s: State, r: Rec)
    requires Tiled(s) && s.prod.PRoom? && RecOf(s, r) && r.start == s.head && s.head + r.alloc <= s.tailCache
    ensures Tiled(Take(s, r))
  {
    var s' := Take(s, r);
    forall i | 0 <= i < |s'.recs| ensures RecOf(s', s'.recs[i]) {
      assert i < |s.recs| ==> RecOf(s, s.recs[i]);
    }
    forall i | 0 <= i < |s'.recs| ensures NextOf(s', i) {
      assert i < |s.recs| ==> NextOf(s, i);
    }
  }

  lemma AcquireTiled(s: State, s': State)
    requires Tiled(s) && AcquirePlace(s, s')
    ensures Tiled(s')
  {
    var n := |s.prod.bytes|;
    if Rear(s) >= n {
      TakeTiled(s, Rec(s.head, n, s.head, s.prod.bytes));
    } else {
      var t := s.(tailCache := if s.tailCache % Cap(s) < n then s.tail else s.tailCache);
      SameTiles(s, t);
      if t.tailCache % Cap(s) >= n {
        TakeFront(t);
      } else {
        SameTiles(t, s');
      }
    }
  }

  lemma TakeFront(s: State)
    requires Tiled(s) && s.prod.PRoom? && Cap(s) > 0 && Rear(s) < |s.prod.bytes| <= s.tailCache % Cap(s)
    ensures Tiled(Take(s, Rec(s.head, Rear(s) + |s.prod.bytes|, s.head + Rear(s), s.prod.bytes)))
  {
    StartBelowHead(s);
    FrontFree(s.head, s.tailCache, Cap(s));
    TakeTiled(s, Rec(s.head, Rear(s) + |s.prod.bytes|, s.head + Rear(s), s.prod.bytes));
  }

  lemma StartBelowHead(s: State)
    requires Tiled(s)
    ensures s.tail <= s.head + Cap(s)
  {
  }

  /** Only these fields matter to the tiling. */
  lemma SameTiles(s: State, s': State)
    requires Tiled(s) && s'.recs == s.recs && s'.head == s.head && Cap(s') == Cap(s)
    requires s'.released == s.released && s'.tail == s.tail && s.tailCache <= s'.tailCache <= s.tail
    requires s'.prod.PRoom? ==> s'.prod.bytes != [] && s'.tailCache - s'.head >= |s'.prod.bytes|
    ensures Tiled(s')
  {
    forall i | 0 <= i < |s'.recs| ensures RecOf(s', s'.recs[i]) {
      assert RecOf(s, s.recs[i]);
    }
    forall i | 0 <= i < |s'.recs| ensures NextOf(s', i) {
      assert NextOf(s, i);
    }
  }

  lemma AcquireKeeps(s: State, s': State)
    requires Inv(s) && AcquirePlace(s, s')
    ensures Inv(s')
  {
    AcquireTiled(s, s');
    SameQueue(s, s');
    SameBatch(s, s');
    AcquireIntact(s, s');
  }

  lemma SameQueue(s: State, s': State)
    requires Queued(s) && !s.prod.POffered? && !s'.prod.POffered?
    requires s'.slots == s.slots && s'.qhead == s.qhead && s'.qtail == s.qtail
    requires s'.qheadCache == s.qheadCache && s'.qtailCache == s.qtailCache
    requires Cap(s') == Cap(s) && s.recs <= s'.recs && |s'.recs| == s'.qtail + (if s'.prod.PFilling? then 1 else 0)
    ensures Queued(s')
  {
    forall j | s.qhead <= j < s.qtail ensures s'.slots[j % |s.slots|] == LogletOf(s', s'.recs[j]) {
      assert s.slots[j % |s.slots|] == LogletOf(s, s.recs[j]);
    }
  }

  lemma SameBatch(s: State, s': State)
    requires Polled(s) && s'.cons == s.cons && s'.released == s.released && s'.output == s.output
    requires s'.qhead == s.qhead && s'.qtailCache == s.qtailCache && Cap(s') == Cap(s) && s.recs <= s'.recs
    ensures Polled(s')
  {
    forall j | 0 <= j < |Batch(s.cons)| ensures Batch(s.cons)[j] == LogletOf(s', s'.recs[s.released + j]) {
      assert Batch(s.cons)[j] == LogletOf(s, s.recs[s.released + j]);
    }
  }

  lemma AcquireIntact(s: State, s': State)
    requires Queued(s) && Intact(s) && Tiled(s') && AcquirePlace(s, s')
    ensures Intact(s')
  {
    assert s.recs <= s'.recs && |s.recs| == s.qtail;
    forall i | s.released <= i < s.qtail ensures Written(s', s.recs[i], |s.recs[i].bytes|) {
      assert Written(s, s.recs[i], |s.recs[i].bytes|);
    }
    if |s'.recs| > |s.recs| {
      assert RecOf(s', s'.recs[s.qtail]);
    }
  }

  lemma AcquireTotalKeeps(s: State, s': State, bytes: seq<nat>)
    requires Inv(s) && AcquireTotal(s, s', bytes)
    ensures Inv(s')
  {
    SameTiles(s, s');
    SameBytes(s, s');
    SameQueue(s, s');
    SameBatch(s, s');
  }

  /** Steps that write no byte and hand out no record. */
  lemma SameBytes(s: State, s': State)
    requires Intact(s) && s'.buffer == s.buffer && s'.recs == s.recs && s'.qtail == s.qtail && s.released <= s'.released
    requires s'.prod == s.prod || !(s'.prod.PFilling? || s'.prod.POffered?)
    ensures Intact(s')
  {
    forall r: Rec, k: nat | k <= |r.bytes| ensures Written(s', r, k) == Written(s, r, k) {}
  }

  // ----- filling

  /** Two unreleased records are within one lap of each other, the older one first. */
  lemma WithinOneLap(s: State, i: nat, j: nat)
    requires Tiled(s) && s.released <= i < j < |s.recs|
    ensures RecOf(s, s.recs[i]) && RecOf(s, s.recs[j])
    ensures s.recs[i].at + |s.recs[i].bytes| <= s.recs[j].at
    ensures s.recs[j].at + |s.recs[j].bytes| <= s.recs[i].at + Cap(s)
  {
    assert RecOf(s, s.recs[i]) && RecOf(s, s.recs[j]);
    if s.released < i {
      assert s.recs[s.released].start + s.recs[s.released].alloc <= s.recs[i].start;
    }
  }

  /** Bytes of two pieces within one lap lie in different cells. */
  lemma CellsApart(a: nat, m: nat, b: nat, n: nat, cap: nat, c: nat, d: nat)
    requires cap > 0 && c < m && d < n && a + m <= b && b + n <= a + cap && a % cap + m <= cap && b % cap + n <= cap
    ensures a % cap + c != b % cap + d
  {
    Circular.Contiguous(a, c, cap);
    Circular.Contiguous(b, d, cap);
    Circular.Apart(a + c, b + d, cap);
  }

  /** The bytes of two unreleased records lie in different cells. */
  lemma BytesApart(s: State, i: nat, j: nat, c: nat, d: nat)
    requires Tiled(s) && s.released <= i < j < |s.recs| && c < |s.recs[i].bytes| && d < |s.recs[j].bytes|
    ensures Cap(s) > 0 && s.recs[i].at % Cap(s) + c != s.recs[j].at % Cap(s) + d
  {
    WithinOneLap(s, i, j);
    CellsApart(s.recs[i].at, |s.recs[i].bytes|, s.recs[j].at, |s.recs[j].bytes|, Cap(s), c, d);
  }

  lemma FillKeeps(s: State, s': State)
    requires Inv(s) && FillByte(s, s')
    ensures Inv(s')
  {
    FillIntact(s, s');
    SameTiles(s, s');
    SameQueue(s, s');
    SameBatch(s, s');
  }


  lemma FillIntact(s: State, s': State)
    requires Tiled(s) && Queued(s) && Intact(s) && FillByte(s, s')
    ensures Intact(s')
  {
    var n, k := s.recs[s.qtail], s.prod.k;
    forall i | s.released <= i < |s.recs| && i < s.qtail ensures Written(s', s.recs[i], |s.recs[i].bytes|) {
      assert Written(s, s.recs[i], |s.recs[i].bytes|);
      forall c | 0 <= c < |s.recs[i].bytes| ensures s'.buffer[s.recs[i].at % Cap(s) + c] == s.recs[i].bytes[c] {
        BytesApart(s, i, s.qtail, c, k);
      }
    }
    assert Written(s, n, k);
  }

  // ----- offering

  lemma OfferKeeps(s: State, s': State)
    requires Inv(s) && Offer(s, s')
    ensures Inv(s')
  {
    SameTiles(s, s');
    OfferQueued(s, s');
    SameBatch(s, s');
    OfferIntact(s, s');
  }

  lemma OfferIntact(s: State, s': State)
    requires Intact(s) && |s.recs| == s.qtail + 1 && Offer(s, s')
    ensures Intact(s')
  {
    forall r: Rec, k: nat | k <= |r.bytes| ensures Written(s', r, k) == Written(s, r, k) {}
  }

  lemma OfferQueued(s: State, s': State)
    requires Queued(s) && Offer(s, s')
    ensures Queued(s')
  {
    if s'.prod.POffered? {
      forall j | s.qhead <= j < s.qtail ensures s'.slots[j % |s.slots|] == LogletOf(s, s.recs[j]) {
        Circular.Apart(j, s.qtail, |s.slots|);
      }
    }
  }

  lemma PublishIntact(s: State, s': State)
    requires Intact(s) && |s.recs| == s.qtail + 1 && Publish(s, s')
    ensures Intact(s')
  {
    forall r: Rec, k: nat | k <= |r.bytes| ensures Written(s', r, k) == Written(s, r, k) {}
  }

  lemma PublishQueued(s: State, s': State)
    requires Queued(s) && Publish(s, s')
    ensures Queued(s')
  {
  }

  lemma PublishKeeps(s: State, s': State)
    requires Inv(s) && Publish(s, s')
    ensures Inv(s')
  {
    SameTiles(s, s');
    PublishQueued(s, s');
    SameBatch(s, s');
    PublishIntact(s, s');
  }

  // ----- the output thread

  lemma PollQueued(s: State, s': State, a: Action)
    requires Queued(s) && Polled(s) && ConsumerStep(s, s', a) && (a.APollStart? || a.APollCopy? || a.APollDone?)
    ensures Queued(s')
  {
  }

  lemma PollPolled(s: State, s': State, a: Action)
    requires Queued(s) && Polled(s) && ConsumerStep(s, s', a) && (a.APollStart? || a.APollCopy? || a.APollDone?)
    ensures Polled(s')
  {
  }

  lemma PollKeeps(s: State, s': State, a: Action)
    requires Inv(s) && ConsumerStep(s, s', a) && (a.APollStart? || a.APollCopy? || a.APollDone?)
    ensures Inv(s')
  {
    SameTiles(s, s');
    SameBytes(s, s');
    PollQueued(s, s', a);
    PollPolled(s, s', a);
  }

  lemma ReadPolled(s: State, s': State)
    requires Polled(s) && ReadByte(s, s') && s.released < |s.recs|
    requires Written(s, s.recs[s.released], |s.recs[s.released].bytes|)
    ensures Polled(s')
  {
    assert s.cons.batch[0] == LogletOf(s, s.recs[s.released + 0]);
  }

  lemma ReadKeeps(s: State, s': State)
    requires Inv(s) && ReadByte(s, s')
    ensures Inv(s')
  {
    SameTiles(s, s');
    ReadPolled(s, s');
    SameBytes(s, s');
  }

  lemma EmitPolled(s: State, s': State)
    requires Polled(s) && Emit(s, s')
    ensures Polled(s')
  {
    assert s.cons.batch[0] == LogletOf(s, s.recs[s.released + 0]);
  }

  lemma EmitKeeps(s: State, s': State)
    requires Inv(s) && Emit(s, s')
    ensures Inv(s')
  {
    SameTiles(s, s');
    EmitPolled(s, s');
    SameBytes(s, s');
  }

  lemma ReleaseTiled(s: State, s': State)
    requires Tiled(s) && Polled(s) && Release(s, s')
    ensures Tiled(s')
  {
    assert s.cons.batch[0] == LogletOf(s, s.recs[s.released + 0]);
    assert NextOf(s, s.released);
    forall i | 0 <= i < |s'.recs| ensures RecOf(s', s'.recs[i]) {
      assert RecOf(s, s.recs[i]);
    }
    forall i | 0 <= i < |s'.recs| ensures NextOf(s', i) {
      assert NextOf(s, i);
    }
  }

  lemma ReleaseKeeps(s: State, s': State)
    requires Inv(s) && Release(s, s')
    ensures Inv(s')
  {
    ReleaseTiled(s, s');
    SameBytes(s, s');
    forall j | 0 <= j < |Batch(s'.cons)| ensures Batch(s'.cons)[j] == LogletOf(s', s'.recs[s'.released + j]) {
      assert Batch(s.cons)[j + 1] == LogletOf(s, s.recs[s.released + (j + 1)]);
    }
  }

  lemma ProducerKeepsInv(s: State, s': State, a: Action)
    requires Inv(s) && ProducerStep(s, s', a)
    ensures Inv(s')
  {
    match a
    case AAcquireTotal(bytes) => AcquireTotalKeeps(s, s', bytes);
    case AAcquirePlace => AcquireKeeps(s, s');
    case AFillByte => FillKeeps(s, s');
    case AOffer => OfferKeeps(s, s');
    case APublish => PublishKeeps(s, s');
  }

  lemma ConsumerKeepsInv(s: State, s': State, a: Action)
    requires Inv(s) && ConsumerStep(s, s', a)
    ensures Inv(s')
  {
    match a
    case AReadByte => ReadKeeps(s, s');
    case AEmit => EmitKeeps(s, s');
    case ARelease => ReleaseKeeps(s, s');
    case _ => PollKeeps(s, s', a);
  }

  ghost predicate Run(r: seq<State>) {
    && |r| > 0 && Init(r[0])
    && forall i :: 0 <= i < |r| - 1 ==> Linked(r, i)
  }

  ghost predicate Linked(r: seq<State>, i: nat)
    requires i + 1 < |r|
  {
    exists a {:trigger Step(r[i], r[i + 1], a)} :: Step(r[i], r[i + 1], a)
  }

  lemma StepKeepsInv(s: State, s': State, a: Action)
    requires Inv(s) && Step(s, s', a)
    ensures Inv(s')
  {
    if ProducerStep(s, s', a) {
      ProducerKeepsInv(s, s', a);
    } else {
      ConsumerKeepsInv(s, s', a);
    }
  }

  lemma InitHasInv(s: State)
    requires Init(s)
    ensures Inv(s)
  {
  }

  lemma {:induction false} RunInv(r: seq<State>, n: nat)
    requires Run(r) && n < |r|
    ensures Inv(r[n])
  {
    if n == 0 {
      InitHasInv(r[0]);
    } else {
      RunInv(r, n - 1);
      assert Linked(r, n - 1);
      var a :| Step(r[n - 1], r[n], a);
      StepKeepsInv(r[n - 1], r[n], a);
    }
  }

  // ----- what it guarantees

  /** What is written out is exactly what was logged, in logging order, each record whole. */
  lemma OutputIsTheLog(r: seq<State>, n: nat, j: nat)
    requires Run(r) && n < |r| && j < |r[n].output|
    ensures j < |r[n].recs| && r[n].output[j] == r[n].recs[j].bytes
  {
    RunInv(r, n);
  }

  /** The positions between tail and head are the unreleased records, end to end, and each lies in one piece. */
  lemma LiveRecordsTile(r: seq<State>, n: nat, i: nat)
    requires Run(r) && n < |r| && r[n].released <= i < |r[n].recs|
    ensures var s := r[n];
            && Cap(s) > 0 && s.released <= |s.recs| && s.tail == StartOf(s, s.released) + Cap(s) && s.head <= s.tail
            && StartOf(s, i + 1) == s.recs[i].start + s.recs[i].alloc
            && s.recs[i].start <= s.recs[i].at && s.recs[i].at + |s.recs[i].bytes| == s.recs[i].start + s.recs[i].alloc
            && s.recs[i].at % Cap(s) + |s.recs[i].bytes| <= Cap(s)
  {
    RunInv(r, n);
    assert NextOf(r[n], i) && RecOf(r[n], r[n].recs[i]);
  }

  /** No two unreleased records share a byte of the buffer. */
  lemma LiveRecordsAreApart(r: seq<State>, n: nat, i: nat, j: nat, c: nat, d: nat)
    requires Run(r) && n < |r| && r[n].released <= i < j < |r[n].recs|
    requires c < |r[n].recs[i].bytes| && d < |r[n].recs[j].bytes|
    ensures Cap(r[n]) > 0 && r[n].recs[i].at % Cap(r[n]) + c != r[n].recs[j].at % Cap(r[n]) + d
  {
    RunInv(r, n);
    var s := r[n];
    BytesApart(s, i, j, c, d);
  }

  /** A record that was published stays in place until it has been formatted and released. */
  lemma PublishedStaysIntact(r: seq<State>, n: nat, i: nat, c: nat)
    requires Run(r) && n < |r| && r[n].released <= i < r[n].qtail && i < |r[n].recs| && c < |r[n].recs[i].bytes|
    ensures var s := r[n];
            Cap(s) > 0 && s.recs[i].at % Cap(s) + c < Cap(s)
              && s.buffer[s.recs[i].at % Cap(s) + c] == s.recs[i].bytes[c]
  {
    RunInv(r, n);
    assert Written(r[n], r[n].recs[i], |r[n].recs[i].bytes|);
  }

  /** On an empty ring, acquire finds room exactly for requests that fit before the end or before head:
      up to half the capacity always does. */
  lemma EmptyRingTakes(r: seq<State>, n: nat, s': State)
    requires Run(r) && n < |r| && AcquirePlace(r[n], s') && r[n].released == |r[n].recs|
    ensures var s := r[n];
            && Cap(s) > 0
            && (s'.prod.PFilling? <==> |s.prod.bytes| <= Rear(s) || |s.prod.bytes| <= s.head % Cap(s))
            && (2 * |s.prod.bytes| <= Cap(s) ==> s'.prod.PFilling?)
  {
    RunInv(r, n);
    PlaceOnEmpty(r[n], s');
  }

  lemma PlaceOnEmpty(s: State, s': State)
    requires AcquirePlace(s, s') && |s.prod.bytes| <= s.tailCache - s.head && s.tailCache <= s.tail == s.head + Cap(s)
    ensures s'.prod.PFilling? <==> |s.prod.bytes| <= Rear(s) || |s.prod.bytes| <= s.head % Cap(s)
  {
    if Rear(s) < |s.prod.bytes| {
      FrontFree(s.head, s.tail, Cap(s));
      FrontFree(s.head, s.tailCache, Cap(s));
    }
  }

  // ----- a request that is refused for good

  /** A request that fits neither before the end nor before head. */
  predicate NoPlace(s: State, bytes: seq<nat>)
    requires Cap(s) > 0
  {
    |bytes| > Rear(s) && |bytes| > s.head % Cap(s)
  }

  /** The output thread does something, or the logging thread tries to log the same bytes. */
  ghost predicate Retry(s: State, s': State, bytes: seq<nat>) {
    (exists a :: ConsumerStep(s, s', a)) || AcquireTotal(s, s', bytes) || AcquirePlace(s, s')
  }

  ghost predicate RetryAt(r: seq<State>, i: nat, bytes: seq<nat>)
    requires i + 1 < |r|
  {
    Retry(r[i], r[i + 1], bytes)
  }

  /** Nothing is in the ring and the logging thread is on its way through acquire. */
  predicate Asking(s: State, bytes: seq<nat>) {
    s.released == |s.recs| && (s.prod == PIdle || s.prod == PRoom(bytes))
  }

  lemma RetryIsRefused(s: State, s': State, bytes: seq<nat>)
    requires Inv(s) && Cap(s) > 0 && Asking(s, bytes) && NoPlace(s, bytes) && Retry(s, s', bytes)
    ensures s'.head == s.head && s'.recs == s.recs && Cap(s') == Cap(s) && Asking(s', bytes)
  {
    if a :| ConsumerStep(s, s', a) {
    } else if AcquirePlace(s, s') {
      PlaceOnEmpty(s, s');
    }
  }

  /** Once the ring is empty and a request has no place there, every retry is refused and changes nothing, however
      often it is made and whatever the output thread does: log never returns. */
  lemma {:induction false} RefusedForGood(r: seq<State>, n: nat, k: nat, bytes: seq<nat>)
    requires Run(r) && n <= k < |r| && Cap(r[n]) > 0 && Asking(r[n], bytes) && NoPlace(r[n], bytes)
    requires forall i :: n <= i < k ==> RetryAt(r, i, bytes)
    ensures r[k].head == r[n].head && r[k].recs == r[n].recs && Cap(r[k]) == Cap(r[n]) && Asking(r[k], bytes)
  {
    if n < k {
      RefusedForGood(r, n, k - 1, bytes);
      RunInv(r, k - 1);
      assert RetryAt(r, k - 1, bytes);
      RetryIsRefused(r[k - 1], r[k], bytes);
    }
  }

  lemma Go(r: seq<State>, s: State, a: Action) returns (r': seq<State>)
    requires Run(r) && Step(r[|r| - 1], s, a)
    ensures Run(r') && r' == r + [s]
  {
    r' := r + [s];
    forall i | 0 <= i < |r'| - 1 ensures Linked(r', i) {
      if i < |r| - 1 {
        assert Linked(r, i);
        assert r'[i] == r[i] && r'[i + 1] == r[i + 1];
      } else {
        assert Step(r'[i], r'[i + 1], a);
      }
    }
  }

  /** A ring of two bytes with a queue of one record, after one byte was logged. */
  function Logged(prod: Producer): State {
    State([7, 0], 1, 2, 2, [Loglet(0, 1, 1)], 0, 1, 0, 0, prod, CIdle, [Rec(0, 1, 0, [7])], 0, [])
  }

  lemma LogOne() returns (r: seq<State>)
    ensures Run(r) && r[|r| - 1] == Logged(PIdle)
  {
    var s := State([0, 0], 0, 2, 2, [Loglet(0, 0, 0)], 0, 0, 0, 0, PIdle, CIdle, [], 0, []);
    assert Circular.Pow(0) == 1 && Circular.Pow(1) == 2;
    var s1 := s.(prod := PRoom([7]));
    assert ProducerStep(s, s1, AAcquireTotal([7]));
    r := Go([s], s1, AAcquireTotal([7]));
    var s2 := s.(head := 1, recs := [Rec(0, 1, 0, [7])], prod := PFilling(0));
    assert ProducerStep(s1, s2, AAcquirePlace);
    r := Go(r, s2, AAcquirePlace);
    var s3 := s2.(buffer := [7, 0], prod := PFilling(1));
    assert s3.buffer == s2.buffer[0 := 7];
    assert ProducerStep(s2, s3, AFillByte);
    r := Go(r, s3, AFillByte);
    var s4 := Logged(POffered).(qtail := 0);
    assert s4.slots == s3.slots[0 := Loglet(0, 1, 1)];
    assert ProducerStep(s3, s4, AOffer);
    r := Go(r, s4, AOffer);
    assert ProducerStep(s4, Logged(PIdle), APublish);
    r := Go(r, Logged(PIdle), APublish);
  }

  /** The byte has been written out and released: the ring is empty again. */
  function Emptied(): State {
    Logged(PIdle).(tail := 3, qhead := 1, qtailCache := 1, released := 1, output := [[7]])
  }

  lemma OutputOne() returns (r: seq<State>)
    ensures Run(r) && r[|r| - 1] == Emptied()
  {
    r := LogOne();
    var s := Logged(PIdle);
    var l := Loglet(0, 1, 1);
    var s1 := s.(qtailCache := 1, cons := CCopying([]));
    assert ConsumerStep(s, s1, APollStart);
    r := Go(r, s1, APollStart);
    var s2 := s1.(cons := CCopying([l]));
    assert [] + [l] == [l];
    assert ConsumerStep(s1, s2, APollCopy);
    r := Go(r, s2, APollCopy);
    var s3 := s2.(qhead := 1, cons := CFormatting([l], []));
    assert ConsumerStep(s2, s3, APollDone);
    r := Go(r, s3, APollDone);
    var s4 := s3.(cons := CFormatting([l], [7]));
    assert [] + [7] == [7];
    assert ConsumerStep(s3, s4, AReadByte);
    r := Go(r, s4, AReadByte);
    var s5 := s4.(output := [[7]], cons := CFormatted([l]));
    assert [] + [[7]] == [[7]];
    assert ConsumerStep(s4, s5, AEmit);
    r := Go(r, s5, AEmit);
    assert ConsumerStep(s5, Emptied(), ARelease);
    r := Go(r, Emptied(), ARelease);
  }

  /** A run to an empty ring on which a request within its capacity has no place, and is refused. */
  lemma RefusedRequest() returns (r: seq<State>, n: nat, bytes: seq<nat>)
    ensures Run(r) && n + 2 < |r| && r[n].released == |r[n].recs| && r[n].prod == PIdle && r[n].cons == CIdle
    ensures 0 < |bytes| <= Cap(r[n]) && NoPlace(r[n], bytes)
    ensures AcquireTotal(r[n], r[n + 1], bytes) && r[n + 1].prod == PRoom(bytes)
    ensures AcquirePlace(r[n + 1], r[n + 2]) && r[n + 2].prod == PIdle && r[n + 2].head == r[n].head
  {
    var r0 := OutputOne();
    n, bytes := |r0| - 1, [1, 2];
    var s := Emptied();
    var s1 := s.(tailCache := 3, prod := PRoom(bytes));
    AsksForBoth(bytes);
    var r1 := Go(r0, s1, AAcquireTotal(bytes));
    r := Go(r1, s1.(prod := PIdle), AAcquirePlace);
    assert r[n] == s && r[n + 1] == s1 && r[n + 2] == s1.(prod := PIdle);
  }

  lemma AsksForBoth(bytes: seq<nat>)
    requires bytes == [1, 2]
    ensures var s := Emptied();
            var s1 := s.(tailCache := 3, prod := PRoom(bytes));
            && AcquireTotal(s, s1, bytes) && ProducerStep(s, s1, AAcquireTotal(bytes)) && NoPlace(s, bytes)
            && AcquirePlace(s1, s1.(prod := PIdle)) && ProducerStep(s1, s1.(prod := PIdle), AAcquirePlace)
  {
  }
}
