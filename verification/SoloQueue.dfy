/** The priority queue on the lock-free list, used by one thread at a time: a set that yields its least item. */
module SoloQueue {
  import opened Common
  import opened SyncState
  import opened SyncExec
  import opened SyncInv
  import opened SyncTheorems
  import opened SyncRefine
  import opened Solo
  import opened SoloRuns
  import opened SoloHistories
  import opened SoloLen
  import opened SyncStart
  import M = SeqRuns

  /** The item held by a returned entry. */
  ghost function ItemOf(sh: Shared, a: Ptr): Option<int> {
    if a.Some? && a.value < |sh.heap| then Some(sh.heap[a.value].key) else None
  }

  /** `push` is an insertion, `peek` asks for the first entry, `pop` asks for it and removes it through the entry. */
  ghost predicate QueueCalls(cs: seq<Call>, ops: seq<M.QueueOp>, answers: seq<Option<int>>)
    requires History(cs)
    decreases |ops|
  {
    |answers| == |ops|
    && if ops == [] then cs == []
       else cs != [] && match ops[0]
            case Push(v, _) =>
              cs[0].op == InsertOp(v, 0) && answers[0] == None && QueueCalls(Rest(cs), ops[1..], answers[1..])
            case Peek =>
              cs[0].op == FirstOp && answers[0] == ItemOf(EndOf(cs[0]), AnswerOf(cs[0]))
              && QueueCalls(Rest(cs), ops[1..], answers[1..])
            case Pop =>
              cs[0].op == FirstOp
              && if AnswerOf(cs[0]) == None then answers[0] == None && QueueCalls(Rest(cs), ops[1..], answers[1..])
                 else
                   && |cs| > 1 && cs[1].op == EntryRemoveOp(AnswerOf(cs[0]).value)
                   && answers[0] == ItemOf(EndOf(cs[1]), AnswerOf(cs[1]))
                   && QueueCalls(Rest(Rest(cs)), ops[1..], answers[1..])
  }

  ghost function Rest(cs: seq<Call>): (d: seq<Call>)
    requires History(cs) && cs != []
    ensures History(d) && |d| == |cs| - 1 && forall i :: 0 <= i < |d| ==> d[i] == cs[i + 1]
  {
    if |cs| > 1 then HistoryTail(cs); cs[1..] else []
  }

  /** The history cs goes on from the state sh. */
  ghost predicate GoesOn(sh: Shared, cs: seq<Call>)
    requires History(cs)
  {
    SharedInv(sh) && Quiet(sh, None) && (cs != [] ==> SameTowers(sh, StartOf(cs[0])))
  }

  ghost function Final(sh: Shared, cs: seq<Call>): Shared
    requires History(cs)
  {
    if cs == [] then sh else EndOf(cs[|cs| - 1])
  }

  /** After one call the history goes on from where it ended. */
  lemma OneCall(sh: Shared, cs: seq<Call>)
    requires History(cs) && cs != [] && GoesOn(sh, cs)
    ensures CallGood(cs[0]) && Abs(StartOf(cs[0])) == Abs(sh) && GoesOn(EndOf(cs[0]), Rest(cs))
    ensures Final(EndOf(cs[0]), Rest(cs)) == Final(sh, cs)
  {
    hide Undisturbed, SharedInv, Quiet, Abs, CallGood, SameTowers;
    StartInv(cs[0]);
    TowersSame(sh, StartOf(cs[0]));
    CallIsGood(cs[0]);
    EndsOf(cs[0]);
    GoodQuiet(cs[0]);
    if |cs| > 1 { assert Joins(cs[0], cs[1]); }
  }

  lemma GoodQuiet(c: Call)
    requires Undisturbed(c) && CallGood(c)
    ensures Quiet(EndOf(c), None)
  {
    hide Undisturbed, Quiet;
  }

  lemma {:induction false} OneOp(m: map<int, int>, op: M.Op)
    ensures M.SpecFinal(m, [op]) == M.SpecNext(m, op) && M.SpecReplies(m, [op]) == [M.SpecReply(m, op)]
  {
    assert [op][1..] == [];
  }

  lemma PushStep(c: Call, v: int)
    requires Undisturbed(c) && CallGood(c) && c.op == InsertOp(v, 0)
    ensures Abs(EndOf(c)).Keys == Abs(StartOf(c)).Keys + {v}
  {
    hide Undisturbed, Quiet, Clean, Full, TopOk, Abs;
    var m, op := Abs(StartOf(c)), M.Insert(v, 0, 0);
    OneOp(m, op);
    assert MapOps(StartOf(c), c.op) == [op];
    assert Abs(EndOf(c)) == m[v := 0];
  }

  /** The first entry is the least item. */
  lemma FirstStep(c: Call)
    requires Undisturbed(c) && CallGood(c) && c.op == FirstOp
    ensures Abs(EndOf(c)) == Abs(StartOf(c))
    ensures AnswerOf(c).Some? ==> AnswerOf(c).value in Live(EndOf(c))
    ensures M.IsMin(Abs(StartOf(c)).Keys, ItemOf(EndOf(c), AnswerOf(c)))
  {
    hide Undisturbed, Quiet, Clean, Full, TopOk, Abs;
    var m := Abs(StartOf(c));
    if AnswerOf(c) == None {
      forall k ensures k !in m.Keys { assert !(k in m && !Above(EndOf(c), HEAD, k)); }
      assert m.Keys == {};
    }
  }

  /** Removing through an entry that is live takes out its item. */
  lemma RemoveStep(c: Call, n: NodeId)
    requires Undisturbed(c) && CallGood(c) && c.op == EntryRemoveOp(n) && Quiet(StartOf(c), None) && Solid(StartOf(c), n)
    ensures AnswerOf(c) == Some(n) && n < |EndOf(c).heap| && EndOf(c).heap[n].key == StartOf(c).heap[n].key
    ensures Abs(EndOf(c)) == Abs(StartOf(c)) - {StartOf(c).heap[n].key}
  {
    hide Undisturbed, Quiet, Clean, Full, TopOk, Abs, Mono;
    EndsOf(c);
    NodeKept(StartOf(c), EndOf(c), n);
    var m, op := Abs(StartOf(c)), M.Remove(StartOf(c).heap[n].key);
    OneOp(m, op);
    assert MapOps(StartOf(c), c.op) == [op];
  }

  /** Any undisturbed run of `push`, `peek` and `pop` on the lock-free queue yields the least item each time. */
  lemma {:induction false} QueueRuns(sh: Shared, cs: seq<Call>, ops: seq<M.QueueOp>, answers: seq<Option<int>>)
    requires History(cs) && GoesOn(sh, cs) && QueueCalls(cs, ops, answers)
    ensures M.QueueRun(Abs(sh).Keys, ops, answers, Abs(Final(sh, cs)).Keys)
    decreases |ops|
  {
    hide Undisturbed, SharedInv, Quiet, Abs, CallGood, SameTowers, Live, GoesOn, M.IsMin;
    if ops != [] {
      var c := cs[0];
      OneCall(sh, cs);
      match ops[0]
      case Push(v, _) =>
        PushStep(c, v);
        QueueRuns(EndOf(c), Rest(cs), ops[1..], answers[1..]);
      case Peek =>
        FirstStep(c);
        QueueRuns(EndOf(c), Rest(cs), ops[1..], answers[1..]);
      case Pop =>
        FirstStep(c);
        if AnswerOf(c) == None {
          QueueRuns(EndOf(c), Rest(cs), ops[1..], answers[1..]);
        } else {
          var d, n := cs[1], AnswerOf(c).value;
          assert Joins(c, d);
          OneCall(EndOf(c), Rest(cs));
          InRange(EndOf(c), n);
          FirstSolid(EndOf(c), StartOf(d), n);
          StartQuiet(EndOf(c), d, Rest(cs));
          RemoveStep(d, n);
          var x := EndOf(d).heap[n].key;
          assert answers[0] == Some(x) && ItemOf(EndOf(c), AnswerOf(c)) == Some(x);
          assert (Abs(sh) - {x}).Keys == Abs(sh).Keys - {x};
          QueueRuns(EndOf(d), Rest(Rest(cs)), ops[1..], answers[1..]);
        }
    }
  }

  lemma StartQuiet(sh: Shared, d: Call, cs: seq<Call>)
    requires History(cs) && cs != [] && cs[0] == d && GoesOn(sh, cs)
    ensures Quiet(StartOf(d), None)
  {
    hide Undisturbed, SharedInv, Quiet;
    QuietSame(sh, StartOf(d));
  }

  // ------------------------------------------------------------------ len

  /** How many times `pop` has yielded an item. */
  function Pops(ops: seq<M.QueueOp>, answers: seq<Option<int>>): nat
    requires |answers| == |ops|
  {
    if ops == [] then 0 else (if ops[0].Pop? && answers[0].Some? then 1 else 0) + Pops(ops[1..], answers[1..])
  }

  lemma {:induction false} TakenFirst(cs: seq<Call>, n: nat)
    requires History(cs) && 1 <= n <= |cs|
    ensures EntriesTaken(cs, n) == (if TakesEntry(cs[0]) then 1 else 0) + EntriesTaken(Rest(cs), n - 1)
    decreases n
  {
    hide Undisturbed, TakesEntry, Joins;
    if n > 1 { TakenFirst(cs, n - 1); }
  }

  /** Every `pop` that yields an item takes a node through its entry, and nothing else does. */
  lemma {:induction false} PopsTake(sh: Shared, cs: seq<Call>, ops: seq<M.QueueOp>, answers: seq<Option<int>>)
    requires History(cs) && GoesOn(sh, cs) && QueueCalls(cs, ops, answers)
    ensures EntriesTaken(cs, |cs|) == Pops(ops, answers)
    decreases |ops|
  {
    hide Undisturbed, SharedInv, Quiet, Abs, CallGood, SameTowers, Live, GoesOn, EntriesTaken;
    if ops == [] {
      assert EntriesTaken(cs, 0) == 0 by { TakenNone(cs); }
    } else {
      var c := cs[0];
      OneCall(sh, cs);
      TakenFirst(cs, |cs|);
      if !ops[0].Pop? {
        PopsTake(EndOf(c), Rest(cs), ops[1..], answers[1..]);
      } else {
        FirstStep(c);
        if AnswerOf(c) == None {
          PopsTake(EndOf(c), Rest(cs), ops[1..], answers[1..]);
        } else {
          var d, n := cs[1], AnswerOf(c).value;
          assert Joins(c, d) && Rest(cs)[0] == d;
          OneCall(EndOf(c), Rest(cs));
          TakenFirst(Rest(cs), |Rest(cs)|);
          FirstSolid(EndOf(c), StartOf(d), n);
          StartQuiet(EndOf(c), d, Rest(cs));
          RemoveStep(d, n);
          PopsTake(EndOf(d), Rest(Rest(cs)), ops[1..], answers[1..]);
        }
      }
    }
  }

  lemma {:induction false} TakenNone(cs: seq<Call>)
    requires History(cs)
    ensures EntriesTaken(cs, 0) == 0
  {
  }

  /**
    `len` of the queue: after an undisturbed run on a new or a converted queue it is the number of items, and one
    more for each item that `pop` has yielded. So it is right if and only if `pop` has yielded nothing.
   */
  lemma {:induction false} QueueLen(ts: seq<Tower>, cs: seq<Call>, ops: seq<M.QueueOp>, answers: seq<Option<int>>)
    requires Row(ts) && History(cs) && LenStays(cs) && cs != [] && StartOf(cs[0]) == Built(ts)
    requires TopBefore(cs[0]) <= HEIGHT && forall p :: 0 <= p < |ts| ==> ts[p].height <= TopBefore(cs[0])
    requires QueueCalls(cs, ops, answers)
    ensures EndOf(cs[|cs| - 1]).len == |Abs(EndOf(cs[|cs| - 1])).Keys| + Pops(ops, answers)
  {
    hide Undisturbed, SharedInv, Quiet, Abs, Built, Row, TakesEntry, EntriesTaken, QueueCalls, LenStays, Joins;
    BuiltInv(ts);
    BuiltInPlace(ts, HEIGHT);
    PopsTake(StartOf(cs[0]), cs, ops, answers);
    LenExact(ts, cs);
  }
}
