/** What every step of the attempt machine keeps. */
module LifecycleInv {
  import opened Base
  import opened Projection
  import opened Lifecycle

  // Only the newest attempt is unfinished, and attempts start in order.
  predicate Ordered(rows: map<nat, RunRow>, clock: nat) {
    && (forall a :: a in rows ==> a >= 1 && rows[a].started <= clock)
    && forall a, b :: a in rows && b in rows && a < b ==> Terminal(rows[a].state) && rows[a].started <= rows[b].started
  }

  // A number no row has reached, for a new attempt.
  predicate Unused(rows: map<nat, RunRow>, notes: seq<Note>, a: nat) {
    && a >= 1 && AllTerminal(rows) && (forall b :: b in rows ==> b < a)
    && (a == 1 ==> notes == []) && (a > 1 ==> notes != [])
  }

  predicate OpFits(op: Op, rows: map<nat, RunRow>, insts: map<nat, Inst>, notes: seq<Note>, claimed: bool, def: Option<Def>) {
    match op
    case Free => true
    case Claiming(d) => def == Some(d) && rows == map[] && notes == []
    case Ensuring(a, d) => claimed && def == Some(d) && (a !in rows ==> Unused(rows, notes, a))
    case Inserting(a, d) => claimed && def == Some(d) && a !in rows && Unused(rows, notes, a)
    case Looking(a, d) => claimed && def == Some(d) && a in rows
    case Creating(a, d) => claimed && def == Some(d) && a in rows && !Alive(insts, a)
  }

  // An unfinished attempt runs the stored definition.
  predicate Current(rows: map<nat, RunRow>, insts: map<nat, Inst>, def: Option<Def>) {
    forall a :: a in rows && !Terminal(rows[a].state) ==> def.Some? && (a in insts ==> insts[a].def == def.value)
  }

  // A claim of attempt a was persisted: it is canceling or canceled, or an execution
  // that was over when the claim was settled completed it.
  predicate Past(rows: map<nat, RunRow>, book: Book, a: nat) {
    a in rows && (rows[a].state == Canceling || rows[a].state == Canceled
                  || (rows[a].state == Completed && a in book.completer && book.completer[a] in book.done))
  }

  predicate InstFits(rows: map<nat, RunRow>, book: Book, a: nat, i: Inst) {
    && (i.canceled || i.pending ==> Past(rows, book, a))
    && (i.stage.Reading? || i.stage.Cleaning? || i.stage.Marked? ==> i.canceled)
    && (i.stage == Working ==> !i.canceled)
    && i.serial < book.serial && (i.stage == Finished <==> i.serial in book.done) && (i.canceled <==> i.serial in book.struck)
  }

  predicate Executions(rows: map<nat, RunRow>, insts: map<nat, Inst>, book: Book) {
    && (forall a :: a in insts ==> a in rows && InstFits(rows, book, a, insts[a]))
    && forall a, b :: a in insts && b in insts && insts[a].serial == insts[b].serial ==> a == b
  }

  predicate Numbers(book: Book) {
    && (forall x :: x in book.done ==> x < book.serial) && (forall x :: x in book.struck ==> x < book.serial)
  }

  // A completed attempt was completed by an execution without a cancel event, which is
  // over or, still running, will not get one.
  predicate Credit(insts: map<nat, Inst>, book: Book, a: nat) {
    && a in book.completer && book.completer[a] < book.serial && book.completer[a] !in book.struck
    && (book.completer[a] in book.done || (a in insts && insts[a].serial == book.completer[a] && !insts[a].pending))
  }

  predicate Credited(rows: map<nat, RunRow>, insts: map<nat, Inst>, book: Book) {
    forall a :: a in rows && rows[a].state == Completed ==> Credit(insts, book, a)
  }

  // The reason of the request that claimed a, or the empty one of a completed row.
  predicate ReasonOk(book: Book, a: nat, reason: string) {
    (a in book.first && reason == book.first[a]) || (a in book.late && reason == "")
  }

  predicate Noticed(rows: map<nat, RunRow>, notes: seq<Note>, book: Book) {
    && (forall k :: 0 <= k < |notes| ==> notes[k].a == 1 && ReasonOk(book, 1, notes[k].reason))
    && (1 in rows && Active(rows[1]) ==> notes == [])
    && (forall a :: a in rows && (a > 1 || rows[a].state == Canceled) ==> notes != [])
  }

  predicate Reasons(rows: map<nat, RunRow>, book: Book) {
    && (forall a :: a in rows && rows[a].state == Canceling ==> a in book.first && rows[a].lastError == book.first[a])
    && forall a :: a in rows && rows[a].state == Completed ==> rows[a].lastError == ""
  }

  predicate CleanupFits(i: Inst, a: nat, notes: seq<Note>, book: Book) {
    && (i.stage.Cleaning? ==> (ReasonOk(book, a, i.stage.reason) || notes != []) && (i.stage.listed ==> a == 1 && ReasonOk(book, 1, i.stage.reason)))
    && (i.stage.Marked? ==> notes != [])
  }

  predicate Cleanups(insts: map<nat, Inst>, notes: seq<Note>, book: Book) {
    forall a :: a in insts ==> CleanupFits(insts[a], a, notes, book)
  }

  predicate CancelFits(c: Cancel, rows: map<nat, RunRow>, notes: seq<Note>, book: Book) {
    match c
    case ReadBack(a) => true
    case Mark(a) => Past(rows, book, a) && notes != []
    case Conclude(a, x) => Past(rows, book, a) && x in book.done && x !in book.struck
    case _ => Past(rows, book, c.a) && c.a in book.first && c.reason == book.first[c.a] && (c.Writing? ==> c.a == 1)
  }

  predicate Requests(cancels: map<nat, Cancel>, rows: map<nat, RunRow>, notes: seq<Note>, book: Book) {
    forall id :: id in cancels ==> CancelFits(cancels[id], rows, notes, book)
  }

  // Labels are only added, and a poll snapshot never shows one too many.
  predicate Labels(rows: map<nat, RunRow>, notes: seq<Note>, claimed: bool, snaps: set<bool>) {
    && (rows != map[] || notes != [] ==> claimed)
    && (true in snaps ==> claimed)
    && (false in snaps && notes != [] ==> rows != map[])
  }

  predicate Inv(s: State) {
    && Ordered(s.rows, s.clock) && OpFits(s.op, s.rows, s.insts, s.notes, s.claimed, s.def)
    && Current(s.rows, s.insts, s.def) && Executions(s.rows, s.insts, s.book) && Numbers(s.book) && Credited(s.rows, s.insts, s.book)
    && Noticed(s.rows, s.notes, s.book) && Reasons(s.rows, s.book) && Cleanups(s.insts, s.notes, s.book)
    && Requests(s.cancels, s.rows, s.notes, s.book) && Labels(s.rows, s.notes, s.claimed, s.snaps)
  }

  /* ---- gated steps ---- */

  lemma InvPoll(s: State, seen: bool)
    requires Inv(s)
    ensures Inv(PollStep(s, seen))
  {
    hide Requests, Cleanups, Reasons, Executions, Ordered, Credited, Numbers, Current;
  }

  // Attempts start in order, so the newest row has the largest number.
  lemma NewestLargest(rows: map<nat, RunRow>, clock: nat, a: nat, c: nat)
    requires Ordered(rows, clock) && Newest(rows, a) && c in rows
    ensures c <= a && (c < a ==> Terminal(rows[c].state))
  {
  }

  lemma NewestTerminal(rows: map<nat, RunRow>, clock: nat)
    requires Ordered(rows, clock) && Restartable(rows)
    ensures AllTerminal(rows) && exists a :: a in rows && rows[a].state == Canceled
  {
    var a: nat :| Newest(rows, a) && rows[a].state == Canceled;
    hide Ordered;
    forall c | c in rows
      ensures Terminal(rows[c].state)
    {
      NewestLargest(rows, clock, a, c);
    }
  }

  lemma InvRestart(s: State)
    requires Inv(s)
    ensures Inv(RestartStep(s))
  {
    hide Requests, Cleanups, Reasons, Executions, Current, Credited, Numbers;
    if Restartable(s.rows) { NewestTerminal(s.rows, s.clock); }
  }

  lemma InvSubmit(s: State, def: Option<Def>)
    requires Inv(s)
    ensures Inv(SubmitStep(s, def))
  {
    hide Requests, Cleanups, Reasons, Executions, Noticed, Ordered, Labels, Credited, Numbers;
  }

  lemma InvReads(s: State)
    requires Inv(s) && (s.op.Claiming? || s.op.Ensuring? || s.op.Looking?)
    ensures Inv(ProceedStep(s))
  {
    hide Requests, Cleanups, Reasons, Executions, Noticed, Ordered, Current, Credited, Numbers;
  }

  // A new row changes nothing for the others.
  lemma RowsMore(s: State, rows: map<nat, RunRow>, a: nat)
    requires Inv(s) && a !in s.rows && rows == s.rows[a := NewRow(s.clock)]
    ensures Executions(rows, s.insts, s.book) && Credited(rows, s.insts, s.book) && Requests(s.cancels, rows, s.notes, s.book) && Reasons(rows, s.book)
  {
    hide Ordered, OpFits, Current, Noticed, Cleanups, Labels, Credit;
  }

  lemma InvInsert(s: State)
    requires Inv(s) && s.op.Inserting?
    ensures Inv(ProceedStep(s))
  {
    RowsMore(s, s.rows[s.op.a := NewRow(s.clock)], s.op.a);
    hide Requests, Cleanups, Reasons, Credited, Numbers;
  }

  lemma CreateBooks(s: State, i: Inst)
    requires Inv(s) && s.op.Creating? && !Alive(s.insts, s.op.a) && i == Inst(s.book.serial, s.op.def, false, false, Working)
    ensures var insts, book := s.insts[s.op.a := i], s.book.(serial := s.book.serial + 1);
            && Executions(s.rows, insts, book) && Numbers(book) && Credited(s.rows, insts, book)
  {
    hide Ordered, Noticed, Reasons, Cleanups, Requests, Labels, Current;
  }

  lemma CreateOthers(s: State, i: Inst)
    requires Inv(s) && s.op.Creating? && i == Inst(s.book.serial, s.op.def, false, false, Working)
    ensures var insts, book := s.insts[s.op.a := i], s.book.(serial := s.book.serial + 1);
            && Current(s.rows, insts, s.def) && Cleanups(insts, s.notes, book)
            && Noticed(s.rows, s.notes, book) && Reasons(s.rows, book) && Requests(s.cancels, s.rows, s.notes, book)
  {
    hide Ordered, Executions, Credited, Labels, Numbers;
  }

  lemma Released(rows: map<nat, RunRow>, insts: map<nat, Inst>, notes: seq<Note>, claimed: bool, def: Option<Def>)
    ensures OpFits(Free, rows, insts, notes, claimed, def)
  {
  }

  lemma Created(s: State)
    requires s.op.Creating?
    ensures ProceedStep(s) == if Alive(s.insts, s.op.a) then s.(op := Free) else
              s.(insts := s.insts[s.op.a := Inst(s.book.serial, s.op.def, false, false, Working)], op := Free,
                 book := s.book.(serial := s.book.serial + 1))
  {
  }

  lemma InvCreate(s: State)
    requires Inv(s) && s.op.Creating?
    ensures Inv(ProceedStep(s))
  {
    Created(s);
    var i := Inst(s.book.serial, s.op.def, false, false, Working);
    Released(s.rows, s.insts, s.notes, s.claimed, s.def);
    Released(s.rows, s.insts[s.op.a := i], s.notes, s.claimed, s.def);
    hide ProceedStep, Ordered, Noticed, Reasons, Cleanups, Requests, Labels, Executions, Credited, Current, Numbers, OpFits, Alive;
    if !Alive(s.insts, s.op.a) {
      CreateBooks(s, i);
      CreateOthers(s, i);
    }
  }

  /* ---- one row changes ---- */

  // The only state changes of a row: an active row may change freely among active
  // states, be completed, or be claimed; a canceling row becomes canceled once the
  // marker is written, or completed; a terminal row keeps its state.
  predicate Transition(was: RunState, next: RunState, notes: seq<Note>) {
    || was == next
    || (!Terminal(was) && was != Canceling && next != Canceled)
    || (was == Canceling && next == Canceled && notes != [])
    || (was == Canceling && next == Completed)
  }

  // What a changed row and the book must still satisfy.
  predicate RowChange(s: State, a: nat, r: RunRow, book: Book) {
    && a in s.rows && Transition(s.rows[a].state, r.state, s.notes) && r.started == s.rows[a].started
    && (r.state == Canceling ==> a in book.first && r.lastError == book.first[a]) && (r.state == Completed ==> r.lastError == "")
    && (forall b :: b in s.book.first && (b != a || !Active(s.rows[a])) ==> b in book.first && book.first[b] == s.book.first[b])
    && book.serial == s.book.serial && book.done == s.book.done && book.struck == s.book.struck && book.late == s.book.late
    && (forall b :: b in s.book.completer && (b != a || Terminal(s.rows[a].state)) ==> b in book.completer && book.completer[b] == s.book.completer[b])
    && (r.state == Completed && s.rows[a].state != Completed ==> Credit(s.insts, book, a))
    && (r.state == Completed && s.rows[a].state == Canceling ==> book.completer[a] in book.done)
  }

  lemma OrderedChange(rows: map<nat, RunRow>, clock: nat, a: nat, r: RunRow)
    requires Ordered(rows, clock) && a in rows && r.started == rows[a].started && (Terminal(rows[a].state) ==> Terminal(r.state))
    ensures Ordered(rows[a := r], clock)
  {
  }

  lemma OpChange(s: State, a: nat, r: RunRow)
    requires OpFits(s.op, s.rows, s.insts, s.notes, s.claimed, s.def) && a in s.rows && (Terminal(s.rows[a].state) ==> Terminal(r.state))
    ensures OpFits(s.op, s.rows[a := r], s.insts, s.notes, s.claimed, s.def)
  {
  }

  lemma ReasonKept(s: State, a: nat, r: RunRow, book: Book, b: nat, reason: string)
    requires RowChange(s, a, r, book) && ReasonOk(s.book, b, reason) && (b != a || !Active(s.rows[a]))
    ensures ReasonOk(book, b, reason)
  {
    hide Transition, Credit;
  }

  lemma NoticedChange(s: State, a: nat, r: RunRow, book: Book)
    requires Noticed(s.rows, s.notes, s.book) && RowChange(s, a, r, book)
    ensures Noticed(s.rows[a := r], s.notes, book)
  {
    forall k | 0 <= k < |s.notes|
      ensures ReasonOk(book, 1, s.notes[k].reason)
    {
      ReasonKept(s, a, r, book, 1, s.notes[k].reason);
    }
    hide ReasonOk, Credit;
  }

  lemma PastChange(s: State, a: nat, r: RunRow, book: Book, b: nat)
    requires Past(s.rows, s.book, b) && RowChange(s, a, r, book)
    ensures Past(s.rows[a := r], book, b)
    ensures b in s.book.first ==> b in book.first && book.first[b] == s.book.first[b]
  {
  }

  lemma RequestsChange(s: State, a: nat, r: RunRow, book: Book)
    requires Requests(s.cancels, s.rows, s.notes, s.book) && RowChange(s, a, r, book)
    ensures Requests(s.cancels, s.rows[a := r], s.notes, book)
  {
    var rows := s.rows[a := r];
    forall id | id in s.cancels
      ensures CancelFits(s.cancels[id], rows, s.notes, book)
    {
      var c := s.cancels[id];
      assert CancelFits(c, s.rows, s.notes, s.book);
      if !c.ReadBack? { PastChange(s, a, r, book, c.a); }
      hide Transition, Credit, Past;
    }
  }

  lemma CleanupsChange(s: State, a: nat, r: RunRow, book: Book)
    requires Cleanups(s.insts, s.notes, s.book) && Executions(s.rows, s.insts, s.book) && RowChange(s, a, r, book)
    ensures Cleanups(s.insts, s.notes, book)
  {
    forall b | b in s.insts
      ensures CleanupFits(s.insts[b], b, s.notes, book)
    {
      assert CleanupFits(s.insts[b], b, s.notes, s.book) && InstFits(s.rows, s.book, b, s.insts[b]);
      if s.insts[b].stage.Cleaning? { CleaningKept(s, a, r, book, b, s.insts[b].stage.reason); }
      hide RowChange, InstFits, ReasonOk, Executions;
    }
  }

  lemma CleaningKept(s: State, a: nat, r: RunRow, book: Book, b: nat, reason: string)
    requires Past(s.rows, s.book, b) && RowChange(s, a, r, book)
    ensures ReasonOk(s.book, b, reason) ==> ReasonOk(book, b, reason)
  {
    if ReasonOk(s.book, b, reason) { ReasonKept(s, a, r, book, b, reason); }
    hide RowChange;
  }

  lemma ExecutionsChange(s: State, a: nat, r: RunRow, book: Book)
    requires Executions(s.rows, s.insts, s.book) && RowChange(s, a, r, book)
    ensures Executions(s.rows[a := r], s.insts, book)
  {
    var rows := s.rows[a := r];
    forall b | b in s.insts
      ensures b in rows && InstFits(rows, book, b, s.insts[b])
    {
      assert InstFits(s.rows, s.book, b, s.insts[b]);
      if Past(s.rows, s.book, b) { PastChange(s, a, r, book, b); }
      hide Transition, Credit, Past;
    }
  }

  lemma CreditedChange(s: State, a: nat, r: RunRow, book: Book)
    requires Credited(s.rows, s.insts, s.book) && RowChange(s, a, r, book)
    ensures Credited(s.rows[a := r], s.insts, book)
  {
    forall b | b in s.rows[a := r] && s.rows[a := r][b].state == Completed
      ensures Credit(s.insts, book, b)
    {
      if b != a || s.rows[a].state == Completed { assert Credit(s.insts, s.book, b); }
    }
  }

  lemma PlainChange(s: State, a: nat, r: RunRow, book: Book)
    requires Current(s.rows, s.insts, s.def) && Reasons(s.rows, s.book) && Numbers(s.book)
    requires Labels(s.rows, s.notes, s.claimed, s.snaps) && RowChange(s, a, r, book)
    ensures var rows := s.rows[a := r];
            Current(rows, s.insts, s.def) && Reasons(rows, book) && Numbers(book) && Labels(rows, s.notes, s.claimed, s.snaps)
  {
    hide Credit;
  }

  lemma TransitionFinal(s: State, a: nat, r: RunRow, book: Book)
    requires RowChange(s, a, r, book)
    ensures Terminal(s.rows[a].state) ==> Terminal(r.state)
  {
    hide Credit;
  }

  lemma InvRow(s: State, a: nat, r: RunRow, book: Book)
    requires Inv(s) && RowChange(s, a, r, book)
    ensures Inv(s.(rows := s.rows[a := r], book := book))
  {
    TransitionFinal(s, a, r, book);
    assert a in s.rows && r.started == s.rows[a].started;
    hide Ordered, OpFits, Noticed, Requests, Cleanups, Current, Executions, Reasons, Labels, Credited, Numbers, RowChange;
    OrderedChange(s.rows, s.clock, a, r);
    OpChange(s, a, r);
    NoticedChange(s, a, r, book);
    RequestsChange(s, a, r, book);
    CleanupsChange(s, a, r, book);
    ExecutionsChange(s, a, r, book);
    CreditedChange(s, a, r, book);
    PlainChange(s, a, r, book);
  }

  /* ---- one execution changes ---- */

  // The execution of attempt a moves on, as the book records; a finished one stays
  // finished and gets no cancel event.
  predicate InstChange(s: State, a: nat, i: Inst, book: Book) {
    && a in s.insts && i.serial == s.insts[a].serial && i.def == s.insts[a].def
    && (s.insts[a].stage == Finished ==> i.stage == Finished && i.canceled == s.insts[a].canceled)
    && (s.insts[a].canceled ==> i.canceled)
    && (i.canceled && !s.insts[a].canceled ==> s.insts[a].pending)
    && (i.pending && !s.insts[a].pending ==> Past(s.rows, s.book, a))
    && (i.stage.Reading? || i.stage.Cleaning? || i.stage.Marked? ==> i.canceled)
    && (i.stage == Working ==> !i.canceled)
    && book.first == s.book.first && book.serial == s.book.serial && book.completer == s.book.completer && s.book.late <= book.late
    && book.done == (if i.stage == Finished then s.book.done + {i.serial} else s.book.done)
    && book.struck == (if i.canceled then s.book.struck + {i.serial} else s.book.struck)
    && CleanupFits(i, a, s.notes, book)
  }

  lemma ExecutionsInst(s: State, a: nat, i: Inst, book: Book)
    requires Executions(s.rows, s.insts, s.book) && InstChange(s, a, i, book)
    ensures Executions(s.rows, s.insts[a := i], book)
  {
    hide CleanupFits;
    var insts := s.insts[a := i];
    forall b | b in insts
      ensures b in s.rows && InstFits(s.rows, book, b, insts[b])
    {
      assert InstFits(s.rows, s.book, b, s.insts[b]);
    }
  }

  lemma CreditedInst(s: State, a: nat, i: Inst, book: Book)
    requires Credited(s.rows, s.insts, s.book) && Executions(s.rows, s.insts, s.book) && InstChange(s, a, i, book)
    ensures Credited(s.rows, s.insts[a := i], book)
  {
    hide CleanupFits;
    assert InstFits(s.rows, s.book, a, s.insts[a]);
    forall b | b in s.rows && s.rows[b].state == Completed
      ensures Credit(s.insts[a := i], book, b)
    {
      assert Credit(s.insts, s.book, b);
      if b in s.insts { assert InstFits(s.rows, s.book, b, s.insts[b]); }
    }
  }

  lemma RequestsInst(s: State, a: nat, i: Inst, book: Book)
    requires Requests(s.cancels, s.rows, s.notes, s.book) && Executions(s.rows, s.insts, s.book) && InstChange(s, a, i, book)
    ensures Requests(s.cancels, s.rows, s.notes, book)
  {
    hide CleanupFits;
    assert InstFits(s.rows, s.book, a, s.insts[a]);
    forall id | id in s.cancels
      ensures CancelFits(s.cancels[id], s.rows, s.notes, book)
    {
      assert CancelFits(s.cancels[id], s.rows, s.notes, s.book);
    }
  }

  lemma OthersInst(s: State, a: nat, i: Inst, book: Book)
    requires OpFits(s.op, s.rows, s.insts, s.notes, s.claimed, s.def) && Current(s.rows, s.insts, s.def) && Numbers(s.book)
    requires Noticed(s.rows, s.notes, s.book) && Reasons(s.rows, s.book) && Executions(s.rows, s.insts, s.book) && InstChange(s, a, i, book)
    ensures var insts := s.insts[a := i];
            && OpFits(s.op, s.rows, insts, s.notes, s.claimed, s.def) && Current(s.rows, insts, s.def) && Numbers(book)
            && Noticed(s.rows, s.notes, book) && Reasons(s.rows, book)
  {
    hide CleanupFits, Past;
    assert InstFits(s.rows, s.book, a, s.insts[a]);
  }

  lemma CleanupsInst(s: State, a: nat, i: Inst, book: Book)
    requires Cleanups(s.insts, s.notes, s.book) && InstChange(s, a, i, book)
    ensures Cleanups(s.insts[a := i], s.notes, book)
  {
    hide Past;
    forall b | b in s.insts && b != a
      ensures CleanupFits(s.insts[b], b, s.notes, book)
    {
      assert CleanupFits(s.insts[b], b, s.notes, s.book);
    }
  }

  lemma InvInst(s: State, a: nat, i: Inst, book: Book)
    requires Inv(s) && InstChange(s, a, i, book)
    ensures Inv(s.(insts := s.insts[a := i], book := book))
  {
    hide Ordered, OpFits, Noticed, Requests, Cleanups, Current, Executions, Reasons, Labels, Credited, Numbers, InstChange;
    ExecutionsInst(s, a, i, book);
    CreditedInst(s, a, i, book);
    RequestsInst(s, a, i, book);
    OthersInst(s, a, i, book);
    CleanupsInst(s, a, i, book);
  }

  /* ---- the execution's steps ---- */

  lemma RowOf(s: State, a: nat)
    requires Inv(s) && a in s.insts
    ensures a in s.rows && InstFits(s.rows, s.book, a, s.insts[a]) && CleanupFits(s.insts[a], a, s.notes, s.book)
    ensures s.rows[a].state == Canceling ==> a in s.book.first && s.rows[a].lastError == s.book.first[a]
    ensures s.rows[a].state == Completed ==> s.rows[a].lastError == ""
  {
    hide Ordered, OpFits, Noticed, Requests, Labels, Current, Credited, InstFits, CleanupFits;
  }

  lemma InvPut(s: State, a: nat, state: RunState, text: string, finished: Option<nat>, book: Book)
    requires Inv(s) && (a !in s.rows ==> book == s.book)
    requires a in s.rows ==> RowChange(s, a, Updated(s.rows[a], None, state, text, finished), book)
    ensures Inv(s.(rows := Put(s, a, state, text, finished), book := book))
  {
    hide Inv, Updated, RowChange;
    if a in s.rows { InvRow(s, a, Updated(s.rows[a], None, state, text, finished), book); }
  }

  lemma InvProgress(s: State, a: nat, state: RunState, message: string)
    requires Inv(s)
    ensures Inv(ProgressStep(s, a, state, message))
  {
    if Alive(s.insts, a) {
      RowOf(s, a);
      hide Inv, InstFits, CleanupFits;
      if state == RunState.Running || state == Waiting || state == Blocked {
        assert RowChange(s, a, Updated(s.rows[a], None, state, message, None), s.book);
        InvPut(s, a, state, message, None, s.book);
      }
    }
  }

  // A stage that fits is kept.
  lemma InvStaged(s: State, a: nat, stage: Stage)
    requires Inv(s) && Alive(s.insts, a)
    requires (stage.Reading? || stage.Cleaning? || stage.Marked? ==> s.insts[a].canceled) && stage != Working
    requires CleanupFits(s.insts[a].(stage := stage), a, s.notes, s.book)
    ensures Inv(Staged(s, a, stage))
  {
    RowOf(s, a);
    var t := Staged(s, a, stage);
    assert CleanupFits(t.insts[a], a, s.notes, t.book);
    hide Inv, CleanupFits;
    assert t.book.struck == (if t.insts[a].canceled then s.book.struck + {t.insts[a].serial} else s.book.struck);
    InvInst(s, a, t.insts[a], t.book);
  }

  lemma InvEnd(s: State, a: nat)
    requires Inv(s)
    ensures Inv(FinishStep(s, a)) && Inv(FailStep(s, a))
  {
    hide Inv;
    if Alive(s.insts, a) { InvStaged(s, a, Finished); }
  }

  lemma InvDeliver(s: State, a: nat)
    requires Inv(s)
    ensures Inv(DeliverStep(s, a))
  {
    if Alive(s.insts, a) && s.insts[a].pending && !s.insts[a].canceled {
      RowOf(s, a);
      var t := DeliverStep(s, a);
      assert CleanupFits(t.insts[a], a, s.notes, t.book);
      hide Inv, CleanupFits;
      InvInst(s, a, t.insts[a], t.book);
    }
  }

  lemma CanceledNoted(s: State, a: nat)
    requires Inv(s) && a in s.rows && s.rows[a].state == Canceled
    ensures s.notes != []
  {
    hide Ordered, OpFits, Requests, Labels, Current, Executions;
  }

  lemma InvLoadReason(s: State, a: nat)
    requires Inv(s)
    ensures Inv(LoadReasonStep(s, a))
  {
    if a in s.insts && s.insts[a].stage == Reading && a in s.rows {
      RowOf(s, a);
      if s.rows[a].state == Canceled { CanceledNoted(s, a); }
      var t := LoadReasonStep(s, a);
      assert CleanupFits(t.insts[a], a, s.notes, t.book);
      assert t.book.struck == s.book.struck + {t.insts[a].serial};
      hide Inv, CleanupFits;
      InvInst(s, a, t.insts[a], t.book);
    }
  }

  lemma InvWriteCompleted(s: State, a: nat, recorded: bool)
    requires Inv(s)
    ensures Inv(WriteCompletedStep(s, a, recorded))
  {
    if a in s.insts && s.insts[a].stage == Working {
      RowOf(s, a);
      var book := if Active(s.rows[a]) then s.book.(completer := s.book.completer[a := s.insts[a].serial]) else s.book;
      CompletedChange(s, a, book);
      hide Inv, InstFits, Updated, RowChange;
      InvPut(s, a, Completed, "", Some(s.clock), book);
      var t := s.(rows := Put(s, a, Completed, "", Some(s.clock)), book := book);
      if recorded { InvStaged(t, a, Closing); }
    }
  }

  lemma CompletedChange(s: State, a: nat, book: Book)
    requires Inv(s) && a in s.insts && a in s.rows && s.insts[a].stage == Working && InstFits(s.rows, s.book, a, s.insts[a])
    requires book == if Active(s.rows[a]) then s.book.(completer := s.book.completer[a := s.insts[a].serial]) else s.book
    ensures RowChange(s, a, Updated(s.rows[a], None, Completed, "", Some(s.clock)), book)
  {
    hide Ordered, OpFits, Noticed, Requests, Labels, Current, Credited, Cleanups, Executions;
  }

  lemma InvWriteCanceled(s: State, a: nat, recorded: bool)
    requires Inv(s)
    ensures Inv(WriteCanceledStep(s, a, recorded))
  {
    if a in s.insts && s.insts[a].stage == Marked {
      RowOf(s, a);
      assert RowChange(s, a, Updated(s.rows[a], None, Canceled, "", Some(s.clock)), s.book);
      hide Inv, InstFits, Updated, RowChange;
      InvPut(s, a, Canceled, "", Some(s.clock), s.book);
      var t := s.(rows := Put(s, a, Canceled, "", Some(s.clock)));
      if recorded { InvStaged(t, a, Finished); }
    }
  }

  /* ---- the marker ---- */

  lemma RequestsNoted(s: State, notes: seq<Note>)
    requires Requests(s.cancels, s.rows, s.notes, s.book) && notes != []
    ensures Requests(s.cancels, s.rows, notes, s.book)
  {
    hide Past;
    forall id | id in s.cancels
      ensures CancelFits(s.cancels[id], s.rows, notes, s.book)
    {
      assert CancelFits(s.cancels[id], s.rows, s.notes, s.book);
    }
  }

  lemma CleanupsNoted(s: State, notes: seq<Note>)
    requires Cleanups(s.insts, s.notes, s.book) && notes != []
    ensures Cleanups(s.insts, notes, s.book)
  {
    hide ReasonOk;
  }

  // The first attempt is past its claim whenever a marker is written.
  lemma InvNoted(s: State, reason: string)
    requires Inv(s) && Past(s.rows, s.book, 1) && ReasonOk(s.book, 1, reason)
    ensures Inv(s.(notes := s.notes + [Note(1, reason)]))
  {
    var notes := s.notes + [Note(1, reason)];
    RequestsNoted(s, notes);
    CleanupsNoted(s, notes);
    hide Requests, Current, Executions, Reasons, Cleanups, Credited, Numbers, ReasonOk, Ordered;
    assert OpFits(s.op, s.rows, s.insts, notes, s.claimed, s.def) by { OpNoted(s, notes); }
  }

  lemma OpNoted(s: State, notes: seq<Note>)
    requires Inv(s) && 1 in s.rows && notes != []
    ensures OpFits(s.op, s.rows, s.insts, notes, s.claimed, s.def)
  {
    hide Requests, Current, Executions, Reasons, Cleanups, Credited, Numbers, Noticed, Labels;
  }

  lemma InvNoteList(s: State, a: nat, recorded: bool)
    requires Inv(s)
    ensures Inv(NoteListStep(s, a, recorded))
  {
    if a in s.insts && s.insts[a].stage.Cleaning? {
      RowOf(s, a);
      if s.notes == [] { FirstAttempt(s, a); }
      hide Inv;
      var r := s.insts[a].stage.reason;
      InvStaged(s, a, if s.notes == [] then Cleaning(r, true) else if recorded then Marked else Cleaning(r, false));
    }
  }

  // Without a marker there is no attempt but the first.
  lemma FirstAttempt(s: State, a: nat)
    requires Inv(s) && a in s.rows && s.notes == []
    ensures a == 1
  {
    hide OpFits, Requests, Labels, Current, Executions, Credited, Cleanups, Reasons;
  }

  lemma InvNoteWrite(s: State, a: nat, wrote: bool, recorded: bool)
    requires Inv(s)
    ensures Inv(NoteWriteStep(s, a, wrote, recorded))
  {
    if a in s.insts && s.insts[a].stage.Cleaning? && s.insts[a].stage.listed {
      RowOf(s, a);
      var r := s.insts[a].stage.reason;
      hide Inv, Past, ReasonOk;
      if wrote { InvNoted(s, r); }
      var t := if wrote then s.(notes := s.notes + [Note(a, r)]) else s;
      InvStaged(t, a, if wrote && recorded then Marked else Cleaning(r, false));
    }
  }

  /* ---- requests ---- */

  lemma InvCancels(s: State, cancels: map<nat, Cancel>)
    requires Inv(s) && forall id :: id in cancels ==> CancelFits(cancels[id], s.rows, s.notes, s.book)
    ensures Inv(s.(cancels := cancels))
  {
    hide Ordered, OpFits, Noticed, Reasons, Cleanups, Labels, Current, Executions, CancelFits, Credited, Numbers;
  }

  lemma RequestsOf(s: State)
    requires Inv(s)
    ensures forall id :: id in s.cancels ==> CancelFits(s.cancels[id], s.rows, s.notes, s.book)
  {
    hide Ordered, OpFits, Noticed, Reasons, Cleanups, Labels, Current, Executions, CancelFits, Credited, Numbers;
  }

  lemma InvCancelRun(s: State, a: nat, reason: string, id: nat)
    requires Inv(s)
    ensures Inv(CancelRunStep(s, a, reason, id))
  {
    if a in s.rows && id !in s.cancels {
      var r := Claimed(s.rows[a], reason);
      var book := if Active(s.rows[a]) then s.book.(first := s.book.first[a := reason]) else s.book;
      ClaimChange(s, a, reason);
      hide Inv, RowChange, Claimed;
      InvRow(s, a, r, book);
      var t := s.(rows := s.rows[a := r], book := book);
      RequestsOf(t);
      InvCancels(t, t.cancels[id := ReadBack(a)]);
    }
  }

  lemma ClaimChange(s: State, a: nat, reason: string)
    requires Inv(s) && a in s.rows
    ensures RowChange(s, a, Claimed(s.rows[a], reason), if Active(s.rows[a]) then s.book.(first := s.book.first[a := reason]) else s.book)
  {
    hide Ordered, OpFits, Noticed, Requests, Cleanups, Labels, Current, Executions, Credited, Numbers;
  }

  lemma CancelingFits(s: State, a: nat)
    requires Inv(s) && a in s.rows && s.rows[a].state == Canceling
    ensures CancelFits(Lookup(a, s.rows[a].lastError), s.rows, s.notes, s.book)
  {
    hide Ordered, OpFits, Noticed, Requests, Cleanups, Labels, Current, Executions, Credited, Numbers;
  }

  lemma InvReconcile(s: State, a: nat, id: nat)
    requires Inv(s)
    ensures Inv(ReconcileStep(s, a, id))
  {
    if a in s.rows && id !in s.cancels && s.rows[a].state == Canceling {
      CancelingFits(s, a);
      RequestsOf(s);
      hide Inv, CancelFits;
      InvCancels(s, s.cancels[id := Lookup(a, s.rows[a].lastError)]);
    }
  }

  lemma SettleChange(s: State, a: nat, state: RunState, x: nat, book: Book)
    requires Inv(s) && a in s.rows && (state == Canceled || state == Completed)
    requires state == Canceled ==> s.notes != [] && book == s.book
    requires state == Completed ==> x in s.book.done && x !in s.book.struck
    requires state == Completed ==> book == if s.rows[a].state == Canceling then s.book.(completer := s.book.completer[a := x]) else s.book
    ensures RowChange(s, a, Updated(s.rows[a], Some(Canceling), state, "", Some(s.clock)), book)
  {
    hide Ordered, OpFits, Noticed, Requests, Cleanups, Labels, Current, Executions, Credited;
  }

  // The effect of a request's next call.
  lemma InvActed(s: State, c: Cancel)
    requires Inv(s) && CancelFits(c, s.rows, s.notes, s.book)
    ensures Inv(Acted(s, c))
  {
    match c
    case Request(a, r, x) =>
      if a in s.insts && s.insts[a].serial == x && !s.insts[a].pending && !s.insts[a].canceled {
        RowOf(s, a);
        var i := s.insts[a].(pending := true);
        assert s.book.done == (if i.stage == Finished then s.book.done + {i.serial} else s.book.done);
        assert CleanupFits(i, a, s.notes, s.book);
        hide Inv, CleanupFits;
        InvInst(s, a, i, s.book);
      }
    case Writing(a, r) =>
      hide Inv, Past;
      InvNoted(s, r);
    case Mark(a) =>
      SettleChange(s, a, Canceled, 0, s.book);
      hide Inv, Updated, RowChange;
      InvRow(s, a, Updated(s.rows[a], Some(Canceling), Canceled, "", Some(s.clock)), s.book);
    case Conclude(a, x) =>
      var book := if s.rows[a].state == Canceling then s.book.(completer := s.book.completer[a := x]) else s.book;
      SettleChange(s, a, Completed, x, book);
      hide Inv, Updated, RowChange;
      InvRow(s, a, Updated(s.rows[a], Some(Canceling), Completed, "", Some(s.clock)), book);
    case _ =>
  }

  // What a call leads to is justified before its own effect.
  lemma NextFits(s: State, c: Cancel)
    requires Inv(s) && CancelFits(c, s.rows, s.notes, s.book) && After(s, c).Some?
    ensures CancelFits(After(s, c).value, Acted(s, c).rows, Acted(s, c).notes, Acted(s, c).book)
  {
    if (c.Lookup? || c.MissingAgain?) && c.a in s.insts { RowOf(s, c.a); }
    if c.ReadBack? && After(s, c).Some? { CancelingFits(s, c.a); }
    if c.Effects? && s.notes == [] { FirstAttempt(s, c.a); }
    hide Inv, CleanupFits;
  }

  lemma InvContinue(s: State, id: nat)
    requires Inv(s)
    ensures Inv(ContinueStep(s, id))
  {
    if id in s.cancels {
      var c := s.cancels[id];
      RequestsOf(s);
      InvActed(s, c);
      if After(s, c).Some? { NextFits(s, c); }
      ActedKeeps(s, c);
      var t := Acted(s, c);
      RequestsOf(t);
      hide Inv, CancelFits, Acted, After;
      InvCancels(t, if After(s, c).Some? then s.cancels[id := After(s, c).value] else s.cancels - {id});
    }
  }

  lemma ActedKeeps(s: State, c: Cancel)
    ensures Acted(s, c).cancels == s.cancels
  {
    hide Updated;
  }

  lemma InvDrop(s: State, id: nat)
    requires Inv(s)
    ensures Inv(s.(cancels := s.cancels - {id}))
  {
    RequestsOf(s);
    hide Inv, CancelFits;
    InvCancels(s, s.cancels - {id});
  }

  /* ---- crashes, retention, time ---- */

  lemma InvCrash(s: State)
    requires Inv(s)
    ensures Inv(CrashStep(s))
  {
    CrashExecutions(s);
    hide Ordered, Noticed, Reasons, Cleanups, Current, Executions, Credited, Numbers;
  }

  lemma CrashExecutions(s: State)
    requires Inv(s)
    ensures var t := CrashStep(s);
            && Executions(t.rows, t.insts, t.book) && Credited(t.rows, t.insts, t.book)
            && Cleanups(t.insts, t.notes, t.book) && Current(t.rows, t.insts, t.def)
  {
    hide Ordered, Noticed, Reasons, OpFits, Requests, Labels, Past, ReasonOk;
  }

  lemma InvSweep(s: State, cutoff: nat)
    requires Inv(s)
    ensures Inv(SweepStep(s, cutoff))
  {
    SweepExecutions(s, cutoff);
    hide Expired, Executions, Credited, Cleanups;
  }

  lemma SweepExecutions(s: State, cutoff: nat)
    requires Inv(s)
    ensures var t := SweepStep(s, cutoff);
            Executions(t.rows, t.insts, t.book) && Credited(t.rows, t.insts, t.book) && Cleanups(t.insts, t.notes, t.book)
  {
    hide Ordered, Noticed, Reasons, OpFits, Requests, Labels, CleanupFits, Current, Expired;
    var t, gone := SweepStep(s, cutoff), Gone(s, cutoff);
    if t != s {
      forall a | a in t.rows && t.rows[a].state == Completed
        ensures Credit(t.insts, t.book, a)
      {
        assert Credit(s.insts, s.book, a);
      }
    }
  }

  lemma InvTime(s: State)
    requires Inv(s)
    ensures Inv(s.(clock := s.clock + 1)) && Inv(s.(snaps := s.snaps + {s.claimed}))
  {
    hide OpFits, Reasons, Cleanups, Current, Executions, Requests, Credited, Numbers;
  }

  lemma InvStep(s: State, e: Event)
    requires Inv(s)
    ensures Inv(Step(s, e))
  {
    hide Inv, PollStep, RestartStep, SubmitStep, ProceedStep, ProgressStep, WriteCompletedStep, FinishStep, FailStep, DeliverStep;
    hide LoadReasonStep, NoteListStep, NoteWriteStep, WriteCanceledStep, CancelRunStep, ReconcileStep, ContinueStep, SweepStep, CrashStep;
    match e
    case Tick => InvTime(s);
    case Snapshot => InvTime(s);
    case Poll(seen) => InvPoll(s, seen);
    case Restart => InvRestart(s);
    case Submit(d) => InvSubmit(s, Some(d));
    case Remove => InvSubmit(s, None);
    case Proceed => InvProceed(s);
    case Progress(a, state, message) => InvProgress(s, a, state, message);
    case WriteCompleted(a, recorded) => InvWriteCompleted(s, a, recorded);
    case FinishRun(a) => InvEnd(s, a);
    case Fail(a) => InvEnd(s, a);
    case Deliver(a) => InvDeliver(s, a);
    case LoadReason(a) => InvLoadReason(s, a);
    case NoteList(a, recorded) => InvNoteList(s, a, recorded);
    case NoteWrite(a, wrote, recorded) => InvNoteWrite(s, a, wrote, recorded);
    case WriteCanceled(a, recorded) => InvWriteCanceled(s, a, recorded);
    case CancelRun(a, reason, id) => InvCancelRun(s, a, reason, id);
    case Reconcile(a, id) => InvReconcile(s, a, id);
    case Continue(id) => InvContinue(s, id);
    case Drop(id) => InvDrop(s, id);
    case Crash => InvCrash(s);
    case Sweep(cutoff) => InvSweep(s, cutoff);
  }

  lemma InvProceed(s: State)
    requires Inv(s)
    ensures Inv(ProceedStep(s))
  {
    hide Inv;
    match s.op
    case Free => assert ProceedStep(s) == s;
    case Inserting(_, _) => InvInsert(s);
    case Creating(_, _) => InvCreate(s);
    case _ => InvReads(s);
  }

  lemma {:induction false} Invariant(es: seq<Event>)
    ensures Inv(Run(es))
  {
    if es == [] {
      InvStart();
    } else {
      Invariant(es[..|es| - 1]);
      hide Inv, Step;
      InvStep(Run(es[..|es| - 1]), es[|es| - 1]);
    }
  }

  lemma InvStart()
    ensures Inv(Run([]))
  {
  }
}
