/**
  One atomic step of one thread of the lock-free list. Every call that the source makes is spelled
  out by the program counter: `find` and `unlink` return to the place recorded in `caller`.
 */
module SyncExec {
  import opened Common
  import opened SyncState

  /** The public operations. `NextOp` is `next_node` on an entry, `FirstOp` is `get_first`. */
  datatype Op =
    | InsertOp(key: int, val: int)
    | RemoveOp(key: int)
    | GetOp(key: int)
    | EntryRemoveOp(node: NodeId)
    | FirstOp
    | NextOp(node: NodeId)

  /** Who called `find`, or for whom a removal runs. */
  datatype Caller =
    | NoCaller
    | InsertFirst    // the search loop before the node exists
    | InsertRetry    // the search loop after `link_nodes` returned an error
    | LinkCleanup    // the last search of `link_nodes`
    | RemoveFirst    // the search of `remove`
    | RemoveCleanup  // the search of `remove` after a failed `unlink`
    | Getter         // `get`
    | EntryCall      // `Entry::remove`
    | NextCall       // `next_node`
    | ClosestCall    // `next_node` after it has turned to the search for the closest node

  datatype Pc =
    | Done(result: Ptr)
    | Ret(answer: Ptr)
    | GetLen | FirstLen | NextStale(node: NodeId)
    // find; lv is the level index, one less than the source's `level`
    | FInit(i: nat) | FStart
    | FLoad(lv: nat, curr: NodeId)
    | FTag(lv: nat, curr: NodeId, next: NodeId)
    | FNext(lv: nat, curr: NodeId, next: NodeId)
    | FCas(lv: nat, curr: NodeId, next: NodeId, nn: Ptr)
    | FSub(lv: nat, curr: NodeId, next: NodeId, nn: Ptr)
    | FRetire(lv: nat, curr: NodeId, next: NodeId, nn: Ptr)
    | FFinal | FCheck(cand: NodeId)
    // set_removed and tag_levels
    | SLoad | SCas(refs: int)
    | TLoad(lv: nat) | TCas(lv: nat, p: Ptr)
    // unlink
    | ULoad(lv: nat) | UCas(lv: nat, nn: Ptr) | USub(lv: nat) | URetire | ULen
    // insert and link_nodes; the level is the register `start`
    | Create | ILen
    | LLoad | LRemoved(cn: Ptr) | LGuard(cn: Ptr) | LOwn(cn: Ptr) | LRef | LCas | LUnref | LEnd
    // a panic of the source; an index outside an allocated tower
    | Panic | Fault

  datatype Local = Local(
    pc: Pc,
    caller: Caller,
    key: int,
    val: int,
    prev: seq<(NodeId, Ptr)>,
    start: nat,
    newNode: Ptr,
    existing: Ptr,
    target: NodeId)

  /** What the environment decides: the operation called, the level `find` starts at, a drawn height. */
  datatype Choice = Choice(op: Op, level: nat, height: nat)

  const NO_PREV: seq<(NodeId, Ptr)> := Repeat(HEIGHT, (HEAD, None))

  const IDLE: Local := Local(Done(None), NoCaller, 0, 0, NO_PREV, 0, None, None, HEAD)

  function Search(r: Local, caller: Caller): Local {
    r.(caller := caller, pc := FInit(0))
  }

  /** `find` with `search_closest`, for the key of n, as `next_node` calls it. */
  function SearchClosest(sh: Shared, n: NodeId): Local {
    Search(IDLE.(key := if n < |sh.heap| then sh.heap[n].key else 0), ClosestCall)
  }

  /** Operations that hand the returned node out as removed or replaced. */
  predicate Hands(c: Caller) {
    c != Getter && c != NextCall
  }

  // ------------------------------------------------------------------ control transfers

  function Invoke(sh: Shared, op: Op): Local {
    match op
    case InsertOp(k, v) => Search(IDLE.(key := k, val := v), InsertFirst)
    case RemoveOp(k) => Search(IDLE.(key := k), RemoveFirst)
    case GetOp(k) => IDLE.(key := k, caller := Getter, pc := GetLen)
    case EntryRemoveOp(n) =>
      if n in sh.entries then IDLE.(target := n, caller := EntryCall, pc := SLoad) else IDLE
    case FirstOp => IDLE.(caller := NextCall, pc := FirstLen)
    case NextOp(n) => if n in sh.entries then IDLE.(caller := NextCall, pc := NextStale(n)) else IDLE
  }

  /** `find` returns `target` to its caller. */
  function AfterFind(r: Local, target: Ptr): Local {
    match r.caller
    case InsertFirst =>
      if target.Some? then r.(target := target.value, pc := SLoad) else r.(pc := Create)
    case InsertRetry =>
      if target.Some? && target != r.newNode then r.(target := target.value, pc := SLoad) else r.(pc := LLoad)
    case LinkCleanup => r.(pc := Ret(r.existing))
    case RemoveFirst =>
      if target.Some? then r.(target := target.value, pc := SLoad) else r.(pc := Ret(None))
    case RemoveCleanup => r.(pc := Ret(Some(r.target)))
    case _ => r.(pc := Ret(target))
  }

  /** `set_removed` failed. */
  function AfterLost(r: Local): Local {
    match r.caller
    case InsertFirst => r.(pc := Create)
    case InsertRetry => r.(pc := LLoad)
    case _ => r.(pc := Ret(None))
  }

  /** All levels of the target are tagged; `unlink` begins, and panics on the head. */
  function AfterTagged(r: Local, height: nat): Local {
    if r.caller == EntryCall then r.(pc := Ret(Some(r.target)))
    else if r.target == HEAD then r.(pc := Panic)
    else if height == 0 then r.(pc := ULen)
    else r.(pc := ULoad(height - 1))
  }

  /** `tag_levels` met a foreign tag. */
  function AfterTagError(r: Local): Local {
    if r.caller == RemoveFirst || r.caller == EntryCall then r.(pc := Panic) else AfterLost(r)
  }

  /** `unlink` returns; `ok` is false for its early return. */
  function AfterUnlink(r: Local, ok: bool): Local {
    if r.caller == InsertFirst || r.caller == InsertRetry then
      Search(r.(existing := Some(r.target)), r.caller)
    else if ok then r.(pc := Ret(Some(r.target)))
    else Search(r, RemoveCleanup)
  }

  /** The next level of `unlink`, or its final `len` update. */
  function NextUnlink(r: Local, lv: nat): Local {
    if lv == 0 then r.(pc := ULen) else r.(pc := ULoad(lv - 1))
  }

  /**
    `next` is settled at this level: advance, descend, finish the search, or answer `next_node`. The search for
    the closest node has left `level` at 0 by then, and goes on to index `level - 1`.
   */
  function Decide(sh: Shared, r: Local, lv: nat, curr: NodeId, next: Ptr): Local {
    if r.caller == NextCall then r.(pc := Ret(next))
    else if lv >= |r.prev| || (next.Some? && next.value >= |sh.heap|) then r.(pc := Fault)
    else
      var r' := r.(prev := r.prev[lv := (curr, next)]);
      if next.Some? && sh.heap[next.value].key < r.key then r'.(pc := FLoad(lv, next.value))
      else if lv == 0 then r'.(pc := if r.caller == ClosestCall then Fault else FFinal)
      else r'.(pc := FLoad(lv - 1, curr))
  }

  function Examine(sh: Shared, r: Local, lv: nat, curr: NodeId, next: Ptr): Local {
    if next.Some? then r.(pc := FTag(lv, curr, next.value)) else Decide(sh, r, lv, curr, None)
  }

  // ------------------------------------------------------------------ steps

  function ExecCall(sh: Shared, r: Local, c: Choice): (Shared, Local) {
    match r.pc
    case Done(_) => (sh, Invoke(sh, c.op))
    case Ret(answer) =>
      (if answer.Some? then ActGive(sh, answer.value, Hands(r.caller)) else sh, IDLE.(pc := Done(answer)))
    case GetLen => (sh, if sh.len < 1 then r.(pc := Ret(None)) else Search(r, Getter))
    case FirstLen => (sh, if sh.len < 1 then r.(pc := Ret(None)) else r.(pc := FLoad(0, HEAD)))
    case NextStale(n) =>
      (sh, match LoadWord(sh, n, 0)
           case None => r.(pc := Fault)
           case Some(w) => if w.tag then SearchClosest(sh, n) else r.(pc := FLoad(0, n)))
    case _ => (sh, r)
  }

  function ExecFind(sh: Shared, t: Tid, r: Local, c: Choice): (Shared, Local) {
    match r.pc
    case FInit(i) =>
      (sh, match LoadWord(sh, HEAD, i)
           case None => r.(pc := Fault)
           case Some(w) =>
             if i >= |r.prev| then r.(pc := Fault)
             else r.(prev := r.prev[i := (HEAD, w.ptr)], pc := if i + 1 < HEIGHT then FInit(i + 1) else FStart))
    case FStart => (sh, if c.level < HEIGHT then r.(pc := FLoad(c.level, HEAD)) else r)
    case FLoad(lv, curr) =>
      (sh, match LoadWord(sh, curr, lv)
           case None => r.(pc := Fault)
           case Some(w) => Examine(sh, r, lv, curr, w.ptr))
    case FTag(lv, curr, next) =>
      (sh, match LoadWord(sh, next, lv)
           case None => r.(pc := Fault)
           case Some(w) => if w.tag then r.(pc := FNext(lv, curr, next)) else Decide(sh, r, lv, curr, Some(next)))
    case FNext(lv, curr, next) =>
      (sh, match LoadWord(sh, next, lv)
           case None => r.(pc := Fault)
           case Some(w) => r.(pc := FCas(lv, curr, next, w.ptr)))
    case FCas(lv, curr, next, nn) =>
      (match LoadWord(sh, curr, lv)
       case None => (sh, r.(pc := Fault))
       case Some(w) =>
         if w == Word(Some(next), false) then
           (ActUnlink(sh, t, curr, next, nn, lv), r.(pc := FSub(lv, curr, next, nn)))
         else (sh, if r.caller == NextCall then SearchClosest(sh, curr) else r.(pc := FStart)))
    case FSub(lv, curr, next, nn) =>
      (match LoadNode(sh, next)
       case None => (sh, r.(pc := Fault))
       case Some(node) =>
         if node.refs == 0 then (sh, r.(pc := Panic))
         else
           var sh' := ActSub(sh, t, next, lv);
           (sh', if node.refs == 1 then r.(pc := FRetire(lv, curr, next, nn)) else Examine(sh', r, lv, curr, nn)))
    case FRetire(lv, curr, next, nn) =>
      (ActRetire(sh, next), Examine(sh, r, lv, curr, nn))
    case FFinal =>
      (sh, match (if |r.prev| > 0 then LoadWord(sh, r.prev[0].0, 0) else None)
           case None => r.(pc := Fault)
           case Some(w) => if w.ptr.Some? then r.(pc := FCheck(w.ptr.value)) else AfterFind(r, None))
    case FCheck(n) =>
      (sh, match LoadNode(sh, n)
           case None => r.(pc := Fault)
           case Some(node) => AfterFind(r, if node.key == r.key && !node.removed then Some(n) else None))
    case _ => (sh, r)
  }

  function ExecRemove(sh: Shared, t: Tid, r: Local): (Shared, Local) {
    match LoadNode(sh, r.target)
    case None => (sh, r.(pc := Fault))
    case Some(node) =>
      match r.pc
      case SLoad => (sh, if node.removed then AfterLost(r) else r.(pc := SCas(node.refs)))
      case SCas(refs) =>
        if node.refs == refs && !node.removed then
          (ActRemove(sh, t, r.target),
           if node.height == 0 then AfterTagged(r, 0) else r.(pc := TLoad(node.height - 1)))
        else (sh, AfterLost(r))
      case TLoad(lv) =>
        (sh, match LoadWord(sh, r.target, lv)
             case None => r.(pc := Fault)
             case Some(w) => r.(pc := TCas(lv, w.ptr)))
      case TCas(lv, p) =>
        (match LoadWord(sh, r.target, lv)
         case None => (sh, r.(pc := Fault))
         case Some(w) =>
           if w == Word(p, false) then
             (ActTag(sh, r.target, lv, p), if lv == 0 then AfterTagged(r, node.height) else r.(pc := TLoad(lv - 1)))
           else if w.tag then (sh, AfterTagError(r))
           else (sh, r.(pc := TCas(lv, w.ptr))))
      case _ => (sh, r)
  }

  function ExecUnlink(sh: Shared, t: Tid, r: Local): (Shared, Local) {
    match r.pc
    case ULoad(lv) =>
      (sh, match LoadWord(sh, r.target, lv)
           case None => r.(pc := Fault)
           case Some(w) => r.(pc := UCas(lv, w.ptr)))
    case UCas(lv, nn) =>
      (match (if lv < |r.prev| then LoadWord(sh, r.prev[lv].0, lv) else None)
       case None => (sh, r.(pc := Fault))
       case Some(w) =>
         if w == Word(Some(r.target), false) then
           (ActUnlink(sh, t, r.prev[lv].0, r.target, nn, lv), r.(pc := USub(lv)))
         else (sh, AfterUnlink(r, false)))
    case USub(lv) =>
      (match LoadNode(sh, r.target)
       case None => (sh, r.(pc := Fault))
       case Some(node) =>
         if node.refs == 0 then (sh, r.(pc := Panic))
         else (ActSub(sh, t, r.target, lv), if node.refs == 1 then r.(pc := URetire) else NextUnlink(r, lv)))
    case URetire => (ActRetire(sh, r.target), r.(pc := ULen))
    case ULen => (ActUncount(sh, r.target), AfterUnlink(r, true))
    case _ => (sh, r)
  }

  function ExecInsert(sh: Shared, t: Tid, r: Local, c: Choice): (Shared, Local) {
    if r.pc == Create then
      if 1 <= c.height <= HEIGHT then
        (ActCreate(sh, t, r.key, r.val, c.height), r.(newNode := Some(|sh.heap|), start := 0, pc := ILen))
      else (sh, r)
    else if r.pc == LEnd && r.newNode == None then (sh, r.(pc := Fault))
    else match (if r.newNode.Some? then LoadNode(sh, r.newNode.value) else None)
      case None => (sh, r.(pc := Fault))
      case Some(node) => ExecLink(sh, r, r.newNode.value, node)
  }

  /** `link_nodes` at level `start` for the new node n. */
  function ExecLink(sh: Shared, r: Local, n: NodeId, node: Node): (Shared, Local)
    requires LoadNode(sh, n) == Some(node)
  {
    match r.pc
    case ILen => (ActCount(sh, n), r.(pc := LLoad))
    case LLoad =>
      if r.start >= node.height then (sh, r.(pc := LEnd))
      else (sh, match LoadWord(sh, n, r.start)
                case None => r.(pc := Fault)
                case Some(w) => r.(pc := LRemoved(w.ptr)))
    case LRemoved(cn) =>
      if node.removed then (sh, r.(pc := LEnd))
      else if r.start >= |r.prev| then (sh, r.(pc := Fault))
      else
        var next := r.prev[r.start].1;
        if next == None then (sh, r.(pc := LOwn(cn)))
        else (match LoadNode(sh, next.value)
              case None => (sh, r.(pc := Fault))
              case Some(x) => (sh, r.(pc := if x.key <= node.key then LGuard(cn) else LOwn(cn))))
    case LGuard(cn) => (sh, r.(pc := if node.removed then LOwn(cn) else LEnd))
    case LOwn(cn) =>
      (match LoadWord(sh, n, r.start)
       case None => (sh, r.(pc := Fault))
       case Some(w) =>
         if r.start >= |r.prev| then (sh, r.(pc := Fault))
         else if w == Word(cn, false) then
           (StoreWord(sh, n, r.start, Word(r.prev[r.start].1, false)), r.(pc := LRef))
         else (sh, Search(r, InsertRetry)))
    case LRef =>
      if r.start > 0 && node.refs == 0 then (sh, r.(pc := LEnd))
      else (ActReserve(sh, n, r.start), r.(pc := LCas))
    case LCas =>
      (match (if r.start < |r.prev| then LoadWord(sh, r.prev[r.start].0, r.start) else None)
       case None => (sh, r.(pc := Fault))
       case Some(w) =>
         if w == Word(r.prev[r.start].1, false) then
           (ActLink(sh, r.prev[r.start].0, n, r.start), r.(start := r.start + 1, pc := LLoad))
         else (sh, r.(pc := LUnref)))
    case LUnref => (ActUnreserve(sh, n, r.start), Search(r, InsertRetry))
    case LEnd => (sh, if node.removed then Search(r, LinkCleanup) else r.(pc := Ret(r.existing)))
    case _ => (sh, r)
  }

  /** One atomic step of thread t. */
  function Exec(sh: Shared, t: Tid, r: Local, c: Choice): (Shared, Local) {
    if InFind(r.pc) then ExecFind(sh, t, r, c)
    else if InRemoval(r.pc) then (if InUnlink(r.pc) then ExecUnlink(sh, t, r) else ExecRemove(sh, t, r))
    else if InInsert(r.pc) then ExecInsert(sh, t, r, c)
    else ExecCall(sh, r, c)
  }

  predicate InFind(pc: Pc) {
    pc.FInit? || pc.FStart? || pc.FLoad? || pc.FTag? || pc.FNext? || pc.FCas? || pc.FSub? || pc.FRetire?
    || pc.FFinal? || pc.FCheck?
  }

  predicate InUnlink(pc: Pc) {
    pc.ULoad? || pc.UCas? || pc.USub? || pc.URetire? || pc.ULen?
  }

  predicate InRemoval(pc: Pc) {
    pc.SLoad? || pc.SCas? || pc.TLoad? || pc.TCas? || InUnlink(pc)
  }

  predicate InInsert(pc: Pc) {
    pc.Create? || pc.ILen? || pc.LLoad? || pc.LRemoved? || pc.LGuard? || pc.LOwn? || pc.LRef? || pc.LCas?
    || pc.LUnref? || pc.LEnd?
  }

  // ------------------------------------------------------------------ the whole system

  datatype State = State(sh: Shared, th: seq<Local>)

  /** One thread takes one step, or a new thread appears. */
  ghost predicate Next(s: State, s': State) {
    || s' == s.(th := s.th + [IDLE])
    || exists t, c :: Steps(s, s', t, c)
  }

  ghost predicate Steps(s: State, s': State, t: Tid, c: Choice) {
    && t < |s.th|
    && s' == State(Exec(s.sh, t, s.th[t], c).0, s.th[t := Exec(s.sh, t, s.th[t], c).1])
  }
}
