/**
 Transaction propagation (framework/database/transaction.go).

 User code is a finite `Program`: row writes, event publications, errors, panics and nested calls of
 `Transactional`, with a separate continuation for every way a call can end, so that swallowed errors and
 recovered panics are programs too. What the database answers (begin, savepoint, rollback, commit) is part
 of the program, so a statement about all programs is a statement about all failures.

 `TransactionMeaning` gives programs a meaning by snapshots. `Transactions` runs them the way the source
 does: shared handles with a sticky error, savepoints that are lengths, and an event buffer cut back in place.
 */
module TransactionMeaning {

  datatype Propagation = Required | RequiresNew | Nested | Supports | NotSupported | Mandatory | Never

  /** What the database answers to the statements one `Transactional` call may issue. */
  datatype Answers = Answers(beginOk: bool, readOnlyOk: bool, savepointOk: bool, rollbackToOk: bool, commitOk: bool)

  datatype Program =
    | Return
    | Fail
    | Panic
    | Write(row: int, next: Program)
      // `inserted`: the outbox is enabled and the insert of the outbox row succeeds
    | Publish(event: int, inserted: bool, next: Program)
    | Transactional(mode: Propagation, readOnly: bool, answers: Answers, body: Program,
                    onOk: Program, onError: Program, onPanic: Program)

  datatype Outcome = Ok | Error | Panicked

  datatype Entry = Row(row: int) | OutboxRow(id: nat, event: int)

  /** An event with the id of its outbox row; 0 stands for "no row". */
  datatype Delivery = Delivery(event: int, outboxId: nat)

  /** The committed store, the events dispatched so far, and the outbox id generator. */
  datatype World = World(store: seq<Entry>, delivered: seq<Delivery>, nextId: nat)

  /** The physical transaction a program runs in. A doomed transaction can only roll back. */
  datatype Scope = NoTx | Live(log: seq<Entry>, events: seq<Delivery>) | Doomed

  datatype Result = Result(outcome: Outcome, world: World, scope: Scope)

  function After(call: Program, o: Outcome): Program
    requires call.Transactional?
  {
    match o
    case Ok => call.onOk
    case Error => call.onError
    case Panicked => call.onPanic
  }

  /** What a single write or publication does to the world and to the transaction it is made in. */
  function Effect(p: Program, w: World, t: Scope): (World, Scope)
    requires p.Write? || p.Publish?
  {
    if t.Doomed? then (w, t)
    else if p.Write? then
      if t.NoTx? then (w.(store := w.store + [Row(p.row)]), t)
      else (w, t.(log := t.log + [Row(p.row)]))
    else if t.NoTx? then (w.(delivered := w.delivered + [Delivery(p.event, 0)]), t)
    else if p.inserted then
      (w.(nextId := w.nextId + 1),
       Live(t.log + [OutboxRow(w.nextId + 1, p.event)], t.events + [Delivery(p.event, w.nextId + 1)]))
    else (w, t.(events := t.events + [Delivery(p.event, 0)]))
  }

  /** The end of a physical transaction: all of its log and events take effect, or none of them. */
  function Settle(r: Result, answers: Answers, outer: Scope): Result {
    if r.outcome.Ok? && r.scope.Live? && answers.commitOk then
      Result(Ok, r.world.(store := r.world.store + r.scope.log, delivered := r.world.delivered + r.scope.events), outer)
    else Result(if r.outcome.Panicked? then Panicked else Error, r.world, outer)
  }

  function Mean(p: Program, w: World, t: Scope): Result
    decreases p, 0
  {
    match p
    case Return => Result(Ok, w, t)
    case Fail => Result(Error, w, t)
    case Panic => Result(Panicked, w, t)
    case Write(_, next) => var (w', t') := Effect(p, w, t); Mean(next, w', t')
    case Publish(_, _, next) => var (w', t') := Effect(p, w, t); Mean(next, w', t')
    case Transactional(mode, readOnly, answers, body, _, _, _) =>
      var r := MeanCall(mode, readOnly, answers, body, w, t);
      Mean(After(p, r.outcome), r.world, r.scope)
  }

  function MeanCall(mode: Propagation, readOnly: bool, answers: Answers, body: Program, w: World, t: Scope): Result
    decreases body, 2
  {
    match mode
    case Required => if t.NoTx? then MeanNew(readOnly, answers, body, w, t) else MeanJoin(body, w, t)
    case RequiresNew => MeanNew(readOnly, answers, body, w, t)
    case Nested => if t.NoTx? then MeanNew(readOnly, answers, body, w, t) else MeanNested(answers, body, w, t)
    case Supports => Mean(body, w, t)
    case NotSupported => Mean(body, w, NoTx).(scope := t)
    case Mandatory => if t.NoTx? then Result(Error, w, t) else MeanJoin(body, w, t)
    case Never => if t.NoTx? then Mean(body, w, t) else Result(Error, w, t)
  }

  function MeanNew(readOnly: bool, answers: Answers, body: Program, w: World, t: Scope): Result
    decreases body, 1
  {
    if !answers.beginOk || (readOnly && !answers.readOnlyOk) then Result(Error, w, t)
    else Settle(Mean(body, w, Live([], [])), answers, t)
  }

  /** A participant that fails dooms the physical transaction it takes part in. */
  function MeanJoin(body: Program, w: World, t: Scope): Result
    decreases body, 1
  {
    var r := Mean(body, w, t);
    if r.outcome.Ok? then r else r.(scope := Doomed)
  }

  /** A nested scope that fails restores the transaction it found. */
  function MeanNested(answers: Answers, body: Program, w: World, t: Scope): Result
    decreases body, 1
  {
    if t.Doomed? || !answers.savepointOk then Result(Error, w, Doomed)
    else
      var r := Mean(body, w, t);
      if r.outcome.Ok? then r
      else if r.scope.Doomed? || !answers.rollbackToOk then r.(scope := Doomed)
      else r.(scope := t)
  }

  // ---------------------------------------------------------------------------------------------
  // What a program can do to the transaction it runs in.

  ghost predicate Extends(t: Scope, t': Scope) {
    match t
    case NoTx => t'.NoTx?
    case Doomed => t'.Doomed?
    case Live(log, events) => t'.Doomed? || (t'.Live? && log <= t'.log && events <= t'.events)
  }

  lemma ExtendsTransitive(a: Scope, b: Scope, c: Scope)
    requires Extends(a, b) && Extends(b, c)
    ensures Extends(a, c)
  {
  }

  /** A program never leaves its transaction, never shortens it, and never revives a doomed one. */
  lemma {:induction false} MeanExtends(p: Program, w: World, t: Scope)
    ensures Extends(t, Mean(p, w, t).scope)
    decreases p, 0
  {
    if p.Write? || p.Publish? {
      var (w', t') := Effect(p, w, t);
      MeanExtends(p.next, w', t');
      ExtendsTransitive(t, t', Mean(p, w, t).scope);
    } else if p.Transactional? {
      MeanCallExtends(p.mode, p.readOnly, p.answers, p.body, w, t);
      var r := MeanCall(p.mode, p.readOnly, p.answers, p.body, w, t);
      MeanExtends(After(p, r.outcome), r.world, r.scope);
      ExtendsTransitive(t, r.scope, Mean(p, w, t).scope);
    }
  }

  lemma {:induction false} MeanCallExtends(mode: Propagation, readOnly: bool, answers: Answers, body: Program,
                                           w: World, t: Scope)
    ensures Extends(t, MeanCall(mode, readOnly, answers, body, w, t).scope)
    decreases body, 1
  {
    MeanExtends(body, w, t);
  }

  // ---------------------------------------------------------------------------------------------
  // When a physical transaction commits.

  /**
   Whether running `p` makes some participant of the current physical transaction fail, or some savepoint
   statement of it fail, however deep and whether or not the error is swallowed. Scopes with a physical
   transaction of their own, or with none, are looked through only for where they end.
   */
  ghost predicate Spoils(p: Program, w: World, t: Scope)
    decreases p, 0
  {
    match p
    case Return => false
    case Fail => false
    case Panic => false
    case Write(_, next) => var (w', t') := Effect(p, w, t); Spoils(next, w', t')
    case Publish(_, _, next) => var (w', t') := Effect(p, w, t); Spoils(next, w', t')
    case Transactional(mode, readOnly, answers, body, _, _, _) =>
      var r := MeanCall(mode, readOnly, answers, body, w, t);
      || CallSpoils(mode, answers, body, w, t)
      || Spoils(After(p, r.outcome), r.world, r.scope)
  }

  ghost predicate CallSpoils(mode: Propagation, answers: Answers, body: Program, w: World, t: Scope)
    decreases body, 1
  {
    && !t.NoTx?
    && match mode
       case Required => Spoils(body, w, t) || !Mean(body, w, t).outcome.Ok?
       case Mandatory => Spoils(body, w, t) || !Mean(body, w, t).outcome.Ok?
       case Nested =>
         || !answers.savepointOk
         || (!t.Doomed? && Spoils(body, w, t))
         || (!t.Doomed? && !Mean(body, w, t).outcome.Ok? && !answers.rollbackToOk)
       case Supports => Spoils(body, w, t)
       case RequiresNew => false
       case NotSupported => false
       case Never => false
  }

  /** A live transaction ends doomed exactly when something spoiled it on the way. */
  lemma {:induction false} DoomedIffSpoiled(p: Program, w: World, t: Scope)
    requires t.Live?
    ensures Mean(p, w, t).scope.Doomed? <==> Spoils(p, w, t)
    decreases p, 0
  {
    if p.Write? || p.Publish? {
      var (w', t') := Effect(p, w, t);
      DoomedIffSpoiled(p.next, w', t');
    } else if p.Transactional? {
      var r := MeanCall(p.mode, p.readOnly, p.answers, p.body, w, t);
      MeanCallExtends(p.mode, p.readOnly, p.answers, p.body, w, t);
      CallDoomedIffSpoiled(p.mode, p.readOnly, p.answers, p.body, w, t);
      if r.scope.Live? {
        DoomedIffSpoiled(After(p, r.outcome), r.world, r.scope);
      } else {
        MeanExtends(After(p, r.outcome), r.world, r.scope);
      }
    }
  }

  lemma {:induction false} CallDoomedIffSpoiled(mode: Propagation, readOnly: bool, answers: Answers, body: Program,
                                                w: World, t: Scope)
    requires t.Live?
    ensures MeanCall(mode, readOnly, answers, body, w, t).scope.Doomed? <==> CallSpoils(mode, answers, body, w, t)
    decreases body, 1
  {
    DoomedIffSpoiled(body, w, t);
    MeanExtends(body, w, t);
    match mode
    case Required => case RequiresNew => case Nested => case Supports =>
    case NotSupported => case Mandatory => case Never =>
  }

  /**
   The exact condition for a new physical transaction to report success: the database let it begin and
   commit, its body returned without error, and no participant in it failed, swallowed or not. On success
   everything the body kept is committed and delivered; otherwise nothing of it is, and only what scopes
   with their own transaction did remains.
   */
  lemma CommitsIff(readOnly: bool, answers: Answers, body: Program, w: World, t: Scope)
    ensures
      var r := MeanNew(readOnly, answers, body, w, t);
      var b := Mean(body, w, Live([], []));
      var begun := answers.beginOk && (readOnly ==> answers.readOnlyOk);
      && (r.outcome.Ok? <==>
          begun && answers.commitOk && b.outcome.Ok? && !Spoils(body, w, Live([], [])))
      && (r.outcome.Ok? ==> b.scope.Live? && r.world.store == b.world.store + b.scope.log
                            && r.world.delivered == b.world.delivered + b.scope.events)
      && (!r.outcome.Ok? ==> r.world == if begun then b.world else w)
  {
    DoomedIffSpoiled(body, w, Live([], []));
    MeanExtends(body, w, Live([], []));
  }

  /** Running `p` comes to `call` in the same physical transaction, with the world and the transaction as given. */
  ghost predicate Reaches(p: Program, w: World, t: Scope, call: Program, w': World, t': Scope)
    decreases p
  {
    || (p == call && w == w' && t == t')
    || match p
       case Return => false
       case Fail => false
       case Panic => false
       case Write(_, next) => Reaches(next, Effect(p, w, t).0, Effect(p, w, t).1, call, w', t')
       case Publish(_, _, next) => Reaches(next, Effect(p, w, t).0, Effect(p, w, t).1, call, w', t')
       case Transactional(mode, readOnly, answers, body, onOk, onError, onPanic) =>
         var r := MeanCall(mode, readOnly, answers, body, w, t);
         || (Shares(mode, answers) && Reaches(body, w, t, call, w', t'))
         || match r.outcome
            case Ok => Reaches(onOk, r.world, r.scope, call, w', t')
            case Error => Reaches(onError, r.world, r.scope, call, w', t')
            case Panicked => Reaches(onPanic, r.world, r.scope, call, w', t')
  }

  /** Inside a live transaction, a call of this mode runs its body in that transaction. */
  predicate Shares(mode: Propagation, answers: Answers) {
    mode.Required? || mode.Mandatory? || mode.Supports? || (mode.Nested? && answers.savepointOk)
  }

  /**
   A participant that fails anywhere inside a live transaction dooms it: whatever the program does with the error
   afterwards, and in however many scopes it happened, nested ones included.
   */
  lemma {:induction false} SwallowedFailureStillDooms(p: Program, w: World, t: Scope, call: Program, w': World,
                                                      t': Scope)
    requires t.Live? && Reaches(p, w, t, call, w', t')
    requires call.Transactional? && (call.mode.Required? || call.mode.Mandatory?)
    requires t'.Live? && !Mean(call.body, w', t').outcome.Ok?
    ensures Mean(p, w, t).scope.Doomed?
    decreases p
  {
    if p == call && w == w' && t == t' {
      DoomedIffSpoiled(p, w, t);
    } else if p.Write? || p.Publish? {
      SwallowedFailureStillDooms(p.next, Effect(p, w, t).0, Effect(p, w, t).1, call, w', t');
    } else {
      FailureInCall(p, w, t, call, w', t');
    }
  }

  lemma DoomSpreads(mode: Propagation, readOnly: bool, answers: Answers, body: Program, w: World, t: Scope)
    requires t.Live? && Shares(mode, answers) && Mean(body, w, t).scope.Doomed?
    ensures MeanCall(mode, readOnly, answers, body, w, t).scope.Doomed?
  {
  }

  lemma {:induction false} FailureInCall(p: Program, w: World, t: Scope, call: Program, w': World, t': Scope)
    requires t.Live? && p.Transactional? && Reaches(p, w, t, call, w', t') && !(p == call && w == w' && t == t')
    requires call.Transactional? && (call.mode.Required? || call.mode.Mandatory?)
    requires t'.Live? && !Mean(call.body, w', t').outcome.Ok?
    ensures Mean(p, w, t).scope.Doomed?
    decreases p, 0
  {
    var r := MeanCall(p.mode, p.readOnly, p.answers, p.body, w, t);
    var next := After(p, r.outcome);
    MeanCallExtends(p.mode, p.readOnly, p.answers, p.body, w, t);
    MeanExtends(next, r.world, r.scope);
    if Shares(p.mode, p.answers) && Reaches(p.body, w, t, call, w', t') {
      SwallowedFailureStillDooms(p.body, w, t, call, w', t');
      DoomSpreads(p.mode, p.readOnly, p.answers, p.body, w, t);
    } else if r.scope.Live? {
      SwallowedFailureStillDooms(next, r.world, r.scope, call, w', t');
    }
  }

  /** So the physical transaction around it reports failure, and none of its log or events takes effect. */
  lemma FailureReported(p: Program, w: World, call: Program, w': World, t': Scope, readOnly: bool, answers: Answers,
                        outer: Scope)
    requires Reaches(p, w, Live([], []), call, w', t')
    requires call.Transactional? && (call.mode.Required? || call.mode.Mandatory?)
    requires t'.Live? && !Mean(call.body, w', t').outcome.Ok?
    ensures var r := MeanNew(readOnly, answers, p, w, outer);
      !r.outcome.Ok? && (r.world == w || r.world == Mean(p, w, Live([], [])).world)
  {
    SwallowedFailureStillDooms(p, w, Live([], []), call, w', t');
  }

  /** No scope of the program has a transaction of its own or leaves the one around it. */
  predicate SelfContained(p: Program) {
    match p
    case Return => true
    case Fail => true
    case Panic => true
    case Write(_, next) => SelfContained(next)
    case Publish(_, _, next) => SelfContained(next)
    case Transactional(mode, _, _, body, onOk, onError, onPanic) =>
      && !mode.RequiresNew? && !mode.NotSupported?
      && SelfContained(body) && SelfContained(onOk) && SelfContained(onError) && SelfContained(onPanic)
  }

  lemma {:induction false} TransactionHidesWork(p: Program, w: World, t: Scope)
    requires SelfContained(p) && !t.NoTx?
    ensures
      var r := Mean(p, w, t);
      r.world.store == w.store && r.world.delivered == w.delivered && !r.scope.NoTx?
    decreases p, 0
  {
    if p.Write? || p.Publish? {
      var (w', t') := Effect(p, w, t);
      TransactionHidesWork(p.next, w', t');
    } else if p.Transactional? {
      var r := MeanCall(p.mode, p.readOnly, p.answers, p.body, w, t);
      CallHidesWork(p.mode, p.readOnly, p.answers, p.body, w, t);
      TransactionHidesWork(After(p, r.outcome), r.world, r.scope);
    }
  }

  lemma {:induction false} CallHidesWork(mode: Propagation, readOnly: bool, answers: Answers, body: Program, w: World,
                                         t: Scope)
    requires SelfContained(body) && !mode.RequiresNew? && !mode.NotSupported? && !t.NoTx?
    ensures
      var r := MeanCall(mode, readOnly, answers, body, w, t);
      r.world.store == w.store && r.world.delivered == w.delivered && !r.scope.NoTx?
    decreases body, 1
  {
    TransactionHidesWork(body, w, t);
    match mode
    case Required => case RequiresNew => case Nested => case Supports =>
    case NotSupported => case Mandatory => case Never =>
  }

  /** A transaction without independent scopes in it is all or nothing, for the store and for the events. */
  lemma AllOrNothing(readOnly: bool, answers: Answers, body: Program, w: World)
    requires SelfContained(body)
    ensures
      var r := MeanNew(readOnly, answers, body, w, NoTx);
      var b := Mean(body, w, Live([], []));
      if r.outcome.Ok? then
        b.scope.Live? && r.world.store == w.store + b.scope.log && r.world.delivered == w.delivered + b.scope.events
      else r.world.store == w.store && r.world.delivered == w.delivered
  {
    TransactionHidesWork(body, w, Live([], []));
  }

  // ---------------------------------------------------------------------------------------------
  // What statements and modes do to the store, the delivered events and the transaction.

  /** A write is committed at once outside a transaction, kept in the log inside one, and lost in a doomed one. */
  lemma WriteMeans(row: int, next: Program, w: World, log: seq<Entry>, events: seq<Delivery>)
    ensures Mean(Write(row, next), w, NoTx) == Mean(next, World(w.store + [Row(row)], w.delivered, w.nextId), NoTx)
    ensures Mean(Write(row, next), w, Live(log, events)) == Mean(next, w, Live(log + [Row(row)], events))
    ensures Mean(Write(row, next), w, Doomed) == Mean(next, w, Doomed)
  {
  }

  /**
   A publication is delivered at once outside a transaction, without an outbox row. Inside one it is buffered, with
   the row that goes into the log under the next id if its insert succeeds.
   */
  lemma PublishMeans(event: int, inserted: bool, next: Program, w: World, log: seq<Entry>, events: seq<Delivery>)
    ensures Mean(Publish(event, inserted, next), w, NoTx)
         == Mean(next, World(w.store, w.delivered + [Delivery(event, 0)], w.nextId), NoTx)
    ensures Mean(Publish(event, true, next), w, Live(log, events))
         == Mean(next, World(w.store, w.delivered, w.nextId + 1),
                 Live(log + [OutboxRow(w.nextId + 1, event)], events + [Delivery(event, w.nextId + 1)]))
    ensures Mean(Publish(event, false, next), w, Live(log, events))
         == Mean(next, w, Live(log, events + [Delivery(event, 0)]))
    ensures Mean(Publish(event, inserted, next), w, Doomed) == Mean(next, w, Doomed)
  {
  }

  /** What follows a call is chosen by how the call ends, and goes on where it left off. */
  lemma CallThen(mode: Propagation, readOnly: bool, answers: Answers, body: Program, onOk: Program, onError: Program,
                 onPanic: Program, w: World, t: Scope)
    ensures
      var r := Mean(Transactional(mode, readOnly, answers, body, Return, Fail, Panic), w, t);
      var whole := Mean(Transactional(mode, readOnly, answers, body, onOk, onError, onPanic), w, t);
      && (r.outcome.Ok? ==> whole == Mean(onOk, r.world, r.scope))
      && (r.outcome.Error? ==> whole == Mean(onError, r.world, r.scope))
      && (r.outcome.Panicked? ==> whole == Mean(onPanic, r.world, r.scope))
  {
  }

  lemma LastStatement(w: World, t: Scope)
    ensures Mean(Return, w, t) == Result(Ok, w, t)
    ensures Mean(Fail, w, t) == Result(Error, w, t)
    ensures Mean(Panic, w, t) == Result(Panicked, w, t)
  {
  }

  lemma CallAlone(mode: Propagation, readOnly: bool, answers: Answers, body: Program, w: World, t: Scope)
    ensures Mean(Transactional(mode, readOnly, answers, body, Return, Fail, Panic), w, t)
         == MeanCall(mode, readOnly, answers, body, w, t)
  {
  }

  /**
   How a call ends that opens a physical transaction: RequiresNew anywhere, Required and Nested where there is none.
   It is Ok exactly when the database lets it begin and commit and the body ends well without dooming it; a panic of
   the body goes through, and everything else is an error. What scopes of their own did stays, and the rest is all or
   nothing. A transaction around it is left alone.
   */
  lemma OpensAndEnds(mode: Propagation, readOnly: bool, answers: Answers, body: Program, w: World, t: Scope)
    requires mode.RequiresNew? || (t.NoTx? && (mode.Required? || mode.Nested?))
    ensures
      var r := Mean(Transactional(mode, readOnly, answers, body, Return, Fail, Panic), w, t);
      var b := Mean(body, w, Live([], []));
      var begun := answers.beginOk && (readOnly ==> answers.readOnlyOk);
      && r.scope == t
      && (r.outcome.Ok? <==> begun && answers.commitOk && b.outcome.Ok? && b.scope.Live?)
      && (r.outcome.Panicked? <==> begun && b.outcome.Panicked?)
      && r.world ==
        if !begun then w
        else if r.outcome.Ok? then
          World(b.world.store + b.scope.log, b.world.delivered + b.scope.events, b.world.nextId)
        else b.world
  {
    CallAlone(mode, readOnly, answers, body, w, t);
    assert MeanCall(mode, readOnly, answers, body, w, t) == MeanNew(readOnly, answers, body, w, t);
  }

  /**
   Such a call is atomic: for a self-contained body, store and delivered events get exactly what the body wrote and
   published, in order, if the call is Ok, and nothing otherwise.
   */
  lemma OpensAtomic(mode: Propagation, readOnly: bool, answers: Answers, body: Program, w: World, t: Scope)
    requires SelfContained(body)
    requires mode.RequiresNew? || (t.NoTx? && (mode.Required? || mode.Nested?))
    ensures
      var r := Mean(Transactional(mode, readOnly, answers, body, Return, Fail, Panic), w, t);
      var b := Mean(body, w, Live([], []));
      var begun := answers.beginOk && (readOnly ==> answers.readOnlyOk);
      && r.scope == t
      && (r.outcome.Ok? <==> begun && answers.commitOk && b.outcome.Ok? && b.scope.Live?)
      && (r.outcome.Panicked? <==> begun && b.outcome.Panicked?)
      && (r.outcome.Ok? ==>
            r.world.store == w.store + b.scope.log && r.world.delivered == w.delivered + b.scope.events)
      && (!r.outcome.Ok? ==> r.world.store == w.store && r.world.delivered == w.delivered)
  {
    hide Mean, SelfContained;
    OpensAndEnds(mode, readOnly, answers, body, w, t);
    TransactionHidesWork(body, w, Live([], []));
  }

  /** Without a transaction: Mandatory refuses, and Supports, NotSupported and Never run the body bare. */
  lemma WithoutTransaction(mode: Propagation, readOnly: bool, answers: Answers, body: Program, w: World)
    ensures
      var r := Mean(Transactional(mode, readOnly, answers, body, Return, Fail, Panic), w, NoTx);
      && (mode.Mandatory? ==> r == Result(Error, w, NoTx))
      && (mode.Supports? || mode.NotSupported? || mode.Never? ==> r == Mean(body, w, NoTx))
  {
    MeanExtends(body, w, NoTx);
  }

  /** No program takes back what is committed or delivered. */
  lemma {:induction false} StoreGrows(p: Program, w: World, t: Scope)
    ensures w.store <= Mean(p, w, t).world.store && w.delivered <= Mean(p, w, t).world.delivered
    decreases p, 0
  {
    if p.Write? || p.Publish? {
      var (w', t') := Effect(p, w, t);
      StoreGrows(p.next, w', t');
    } else if p.Transactional? {
      CallGrows(p.mode, p.readOnly, p.answers, p.body, w, t);
      var r := MeanCall(p.mode, p.readOnly, p.answers, p.body, w, t);
      StoreGrows(After(p, r.outcome), r.world, r.scope);
    }
  }

  lemma {:induction false} CallGrows(mode: Propagation, readOnly: bool, answers: Answers, body: Program, w: World,
                                     t: Scope)
    ensures
      var r := MeanCall(mode, readOnly, answers, body, w, t);
      w.store <= r.world.store && w.delivered <= r.world.delivered
    decreases body, 1
  {
    StoreGrows(body, w, t);
    StoreGrows(body, w, NoTx);
    StoreGrows(body, w, Live([], []));
  }

  /** What is written in a bare body stands at once, whatever the body and the program do afterwards. */
  lemma BareWriteStands(mode: Propagation, readOnly: bool, answers: Answers, row: int, body: Program, onOk: Program,
                        onError: Program, onPanic: Program, w: World, t: Scope)
    requires mode.NotSupported? || (t.NoTx? && (mode.Supports? || mode.Never?))
    ensures
      var p := Transactional(mode, readOnly, answers, Write(row, body), onOk, onError, onPanic);
      w.store + [Row(row)] <= Mean(p, w, t).world.store
  {
    var w' := World(w.store + [Row(row)], w.delivered, w.nextId);
    var r := MeanCall(mode, readOnly, answers, Write(row, body), w, t);
    WriteMeans(row, body, w, [], []);
    assert r.world == Mean(Write(row, body), w, NoTx).world;
    StoreGrows(body, w', NoTx);
    StoreGrows(After(Transactional(mode, readOnly, answers, Write(row, body), onOk, onError, onPanic), r.outcome),
               r.world, r.scope);
  }

  /**
   Inside a transaction: Required and Mandatory take part in it, and doom it unless the body ends well; Supports
   takes part and dooms nothing; NotSupported runs the body bare and leaves the transaction alone; Never refuses and
   changes nothing.
   */
  lemma InsideTransaction(mode: Propagation, readOnly: bool, answers: Answers, body: Program, w: World, t: Scope)
    requires !t.NoTx?
    ensures
      var r := Mean(Transactional(mode, readOnly, answers, body, Return, Fail, Panic), w, t);
      var b := Mean(body, w, t);
      && (mode.Required? || mode.Mandatory? ==>
            r == Result(b.outcome, b.world, if b.outcome.Ok? then b.scope else Doomed))
      && (mode.Supports? ==> r == b)
      && (mode.NotSupported? ==>
            var bare := Mean(body, w, NoTx); r == Result(bare.outcome, bare.world, t))
      && (mode.Never? ==> r == Result(Error, w, t))
  {
    CallAlone(mode, readOnly, answers, body, w, t);
  }

  /**
   A nested scope: without a savepoint the body does not run and the transaction is doomed. With one, a body that ends
   well keeps what it did; otherwise the transaction is exactly what it was before, if it was not doomed meanwhile and
   the rollback to the savepoint goes through, and doomed if not.
   */
  lemma NestedRestores(readOnly: bool, answers: Answers, body: Program, w: World, log: seq<Entry>,
                       events: seq<Delivery>)
    ensures
      var r := Mean(Transactional(Nested, readOnly, answers, body, Return, Fail, Panic), w, Live(log, events));
      var b := Mean(body, w, Live(log, events));
      && (!answers.savepointOk ==> r == Result(Error, w, Doomed))
      && (answers.savepointOk && b.outcome.Ok? ==> r == b)
      && (answers.savepointOk && !b.outcome.Ok? ==>
            && r.outcome == b.outcome && r.world == b.world
            && r.scope == if b.scope.Live? && answers.rollbackToOk then Live(log, events) else Doomed)
    ensures Mean(Transactional(Nested, readOnly, answers, body, Return, Fail, Panic), w, Doomed)
         == Result(Error, w, Doomed)
  {
    CallAlone(Nested, readOnly, answers, body, w, Live(log, events));
    CallAlone(Nested, readOnly, answers, body, w, Doomed);
    MeanExtends(body, w, Live(log, events));
  }

  // ---------------------------------------------------------------------------------------------
  // A program's effect on its transaction does not depend on what the transaction holds already.

  function Prepend(log: seq<Entry>, events: seq<Delivery>, t: Scope): Scope {
    if t.Live? then Live(log + t.log, events + t.events) else t
  }

  /**
   Running in a transaction that already holds `log` and `events` adds exactly what running in a fresh one
   would hold, and everything else (outcome, committed store, dispatched events) is the same. Hence a
   savepoint taken anywhere separates a transaction from what happens after it.
   */
  lemma {:induction false} MeanIsLocal(p: Program, w: World, log: seq<Entry>, events: seq<Delivery>, t: Scope)
    requires t.Live?
    ensures
      var r := Mean(p, w, t);
      Mean(p, w, Prepend(log, events, t)) == r.(scope := Prepend(log, events, r.scope))
    decreases p, 0
  {
    if p.Write? || p.Publish? {
      var (w', t') := Effect(p, w, t);
      assert Effect(p, w, Prepend(log, events, t)) == (w', Prepend(log, events, t')) by {
        assert log + t'.log == log + t.log + t'.log[|t.log|..];
        assert events + t'.events == events + t.events + t'.events[|t.events|..];
      }
      MeanIsLocal(p.next, w', log, events, t');
    } else if p.Transactional? {
      CallIsLocal(p.mode, p.readOnly, p.answers, p.body, w, log, events, t);
      var r := MeanCall(p.mode, p.readOnly, p.answers, p.body, w, t);
      MeanCallExtends(p.mode, p.readOnly, p.answers, p.body, w, t);
      if r.scope.Live? {
        MeanIsLocal(After(p, r.outcome), r.world, log, events, r.scope);
      } else {
        MeanExtends(After(p, r.outcome), r.world, r.scope);
      }
    }
  }

  lemma {:induction false} CallIsLocal(mode: Propagation, readOnly: bool, answers: Answers, body: Program, w: World,
                                       log: seq<Entry>, events: seq<Delivery>, t: Scope)
    requires t.Live?
    ensures
      var r := MeanCall(mode, readOnly, answers, body, w, t);
      MeanCall(mode, readOnly, answers, body, w, Prepend(log, events, t)) == r.(scope := Prepend(log, events, r.scope))
    decreases body, 1
  {
    MeanIsLocal(body, w, log, events, t);
    match mode
    case Required => case RequiresNew => case Nested => case Supports =>
    case NotSupported => case Mandatory => case Never =>
  }

  // ---------------------------------------------------------------------------------------------
  // Outbox rows and delivered events.

  function OutboxRows(log: seq<Entry>): seq<Delivery> {
    if log == [] then []
    else
      var rest := OutboxRows(log[..|log| - 1]);
      var e := log[|log| - 1];
      if e.OutboxRow? then rest + [Delivery(e.event, e.id)] else rest
  }

  function Tracked(events: seq<Delivery>): seq<Delivery> {
    if events == [] then []
    else
      var rest := Tracked(events[..|events| - 1]);
      var d := events[|events| - 1];
      if d.outboxId != 0 then rest + [d] else rest
  }

  lemma {:induction false} OutboxRowsConcat(a: seq<Entry>, b: seq<Entry>)
    ensures OutboxRows(a + b) == OutboxRows(a) + OutboxRows(b)
  {
    if b == [] {
      assert a + b == a;
    } else {
      assert (a + b)[..|a + b| - 1] == a + b[..|b| - 1];
      OutboxRowsConcat(a, b[..|b| - 1]);
    }
  }

  lemma {:induction false} TrackedConcat(a: seq<Delivery>, b: seq<Delivery>)
    ensures Tracked(a + b) == Tracked(a) + Tracked(b)
  {
    if b == [] {
      assert a + b == a;
    } else {
      assert (a + b)[..|a + b| - 1] == a + b[..|b| - 1];
      TrackedConcat(a, b[..|b| - 1]);
    }
  }

  /** The outbox rows of an open transaction are its buffered events with a row, in order. */
  ghost predicate Matched(t: Scope) {
    t.Live? ==> OutboxRows(t.log) == Tracked(t.events)
  }

  /**
   What has been added to the store and to the dispatched events agrees on the outbox rows, one for one and in
   order. Rows of before that were never dispatched play no part.
   */
  ghost predicate Grown(w: World, w': World) {
    && w.store <= w'.store && w.delivered <= w'.delivered
    && OutboxRows(w'.store[|w.store|..]) == Tracked(w'.delivered[|w.delivered|..])
  }

  lemma GrownBy(w: World, w': World, rows: seq<Entry>, events: seq<Delivery>)
    requires w'.store == w.store + rows && w'.delivered == w.delivered + events && OutboxRows(rows) == Tracked(events)
    ensures Grown(w, w')
  {
    assert w'.store[|w.store|..] == rows && w'.delivered[|w.delivered|..] == events;
  }

  lemma Appended<T>(a: seq<T>, b: seq<T>, c: seq<T>)
    requires a <= b <= c
    ensures c == a + (b[|a|..] + c[|b|..])
  {
  }

  lemma GrownTransitive(a: World, b: World, c: World)
    requires Grown(a, b) && Grown(b, c)
    ensures Grown(a, c)
  {
    hide OutboxRows, Tracked;
    var rows, more := b.store[|a.store|..], c.store[|b.store|..];
    var events, others := b.delivered[|a.delivered|..], c.delivered[|b.delivered|..];
    OutboxRowsConcat(rows, more);
    TrackedConcat(events, others);
    Appended(a.store, b.store, c.store);
    Appended(a.delivered, b.delivered, c.delivered);
    GrownBy(a, c, rows + more, events + others);
  }

  /**
   For every program, from every world: the outbox rows it commits and the events with a row it has dispatched
   are the same sequence, and so are those of the transaction still open. Rows and events are cut back,
   suspended, committed and dropped together.
   */
  lemma {:induction false} OutboxMatchesEvents(p: Program, w: World, t: Scope)
    requires Matched(t)
    ensures Matched(Mean(p, w, t).scope) && Grown(w, Mean(p, w, t).world)
    decreases p, 0
  {
    if p.Write? || p.Publish? {
      var (w', t') := Effect(p, w, t);
      EffectMatches(p, w, t);
      OutboxMatchesEvents(p.next, w', t');
      GrownTransitive(w, w', Mean(p, w, t).world);
    } else if p.Transactional? {
      CallMatches(p.mode, p.readOnly, p.answers, p.body, w, t);
      var r := MeanCall(p.mode, p.readOnly, p.answers, p.body, w, t);
      OutboxMatchesEvents(After(p, r.outcome), r.world, r.scope);
      GrownTransitive(w, r.world, Mean(p, w, t).world);
    } else {
      GrownBy(w, w, [], []);
    }
  }

  lemma EffectOutside(p: Program, w: World)
    requires p.Write? || p.Publish?
    ensures Effect(p, w, NoTx).1 == NoTx && Grown(w, Effect(p, w, NoTx).0)
  {
    hide Grown;
    var w' := Effect(p, w, NoTx).0;
    if p.Write? {
      GrownBy(w, w', [Row(p.row)], []);
    } else {
      GrownBy(w, w', [], [Delivery(p.event, 0)]);
    }
  }

  lemma EffectInside(p: Program, w: World, t: Scope)
    requires (p.Write? || p.Publish?) && !t.NoTx? && Matched(t)
    ensures var (w', t') := Effect(p, w, t); Matched(t') && w'.store == w.store && w'.delivered == w.delivered
  {
  }

  lemma EffectMatches(p: Program, w: World, t: Scope)
    requires p.Write? || p.Publish?
    requires Matched(t)
    ensures Matched(Effect(p, w, t).1) && Grown(w, Effect(p, w, t).0)
  {
    hide Grown, Effect;
    if t.NoTx? {
      EffectOutside(p, w);
    } else {
      EffectInside(p, w, t);
      GrownBy(w, Effect(p, w, t).0, [], []);
    }
  }

  lemma {:induction false} CallMatches(mode: Propagation, readOnly: bool, answers: Answers, body: Program, w: World,
                                       t: Scope)
    requires Matched(t)
    ensures
      var r := MeanCall(mode, readOnly, answers, body, w, t);
      Matched(r.scope) && Grown(w, r.world)
    decreases body, 2
  {
    GrownBy(w, w, [], []);
    match mode
    case Required => NewMatches(readOnly, answers, body, w, t); OutboxMatchesEvents(body, w, t);
    case RequiresNew => NewMatches(readOnly, answers, body, w, t);
    case Nested => NewMatches(readOnly, answers, body, w, t); OutboxMatchesEvents(body, w, t);
    case NotSupported => OutboxMatchesEvents(body, w, NoTx);
    case Supports => OutboxMatchesEvents(body, w, t);
    case Mandatory => OutboxMatchesEvents(body, w, t);
    case Never => OutboxMatchesEvents(body, w, t);
  }

  lemma {:induction false} NewMatches(readOnly: bool, answers: Answers, body: Program, w: World, t: Scope)
    ensures Grown(w, MeanNew(readOnly, answers, body, w, t).world)
    decreases body, 1
  {
    OutboxMatchesEvents(body, w, Live([], []));
    GrownBy(w, w, [], []);
    var r := Mean(body, w, Live([], []));
    var after := MeanNew(readOnly, answers, body, w, t).world;
    if r.scope.Live? && after.store == r.world.store + r.scope.log && after.delivered
      == r.world.delivered + r.scope.events {
      GrownBy(r.world, after, r.scope.log, r.scope.events);
      GrownTransitive(w, r.world, after);
    }
  }

  /** Every publication in the program has its outbox row inserted. */
  predicate AllInserted(p: Program) {
    match p
    case Return => true
    case Fail => true
    case Panic => true
    case Write(_, next) => AllInserted(next)
    case Publish(_, inserted, next) => inserted && AllInserted(next)
    case Transactional(_, _, _, body, onOk, onError, onPanic) =>
      AllInserted(body) && AllInserted(onOk) && AllInserted(onError) && AllInserted(onPanic)
  }

  ghost predicate AllTracked(t: Scope) {
    t.Live? ==> Tracked(t.events) == t.events
  }

  lemma {:induction false} InsertedMeansTracked(p: Program, w: World, t: Scope)
    requires AllInserted(p) && AllTracked(t)
    ensures AllTracked(Mean(p, w, t).scope)
    decreases p, 0
  {
    if p.Write? || p.Publish? {
      var (w', t') := Effect(p, w, t);
      InsertedMeansTracked(p.next, w', t');
    } else if p.Transactional? {
      var r := MeanCall(p.mode, p.readOnly, p.answers, p.body, w, t);
      CallTracked(p.mode, p.readOnly, p.answers, p.body, w, t);
      InsertedMeansTracked(After(p, r.outcome), r.world, r.scope);
    }
  }

  lemma {:induction false} CallTracked(mode: Propagation, readOnly: bool, answers: Answers, body: Program, w: World,
                                       t: Scope)
    requires AllInserted(body) && AllTracked(t)
    ensures AllTracked(MeanCall(mode, readOnly, answers, body, w, t).scope)
    decreases body, 1
  {
    InsertedMeansTracked(body, w, t);
    match mode
    case Required => case RequiresNew => case Nested => case Supports =>
    case NotSupported => case Mandatory => case Never =>
  }

  /**
   With the outbox on and every insert succeeding, what a committing transaction hands to the post-commit
   hook is, one for one and in order, the outbox rows the same transaction commits.
   */
  lemma HookGetsCommittedRows(readOnly: bool, answers: Answers, body: Program, w: World, outer: Scope)
    requires AllInserted(body)
    requires MeanNew(readOnly, answers, body, w, outer).outcome.Ok?
    ensures
      var r := Mean(body, w, Live([], []));
      var after := MeanNew(readOnly, answers, body, w, outer).world;
      && r.scope.Live?
      && after.store == r.world.store + r.scope.log
      && after.delivered == r.world.delivered + r.scope.events
      && OutboxRows(r.scope.log) == r.scope.events
  {
    OutboxMatchesEvents(body, w, Live([], []));
    InsertedMeansTracked(body, w, Live([], []));
  }
}

/** The same programs, run as framework/database/transaction.go runs them. */
module Transactions {
  import opened TransactionMeaning

  /**
   A GORM transaction handle. Assumed of the library: a handle keeps its error once set and issues no
   statement after that; `SavePoint` and `RollbackTo` report the error, and add an error of their own to it.
   */
  class TxHandle {
    var log: seq<Entry>
    var failed: bool

    constructor ()
      ensures log == [] && !failed
    {
      log, failed := [], false;
    }

    method AddError()
      modifies this`failed
      ensures failed
    {
      failed := true;
    }

    method SavePoint(ok: bool) returns (mark: nat, err: bool)
      modifies this`failed
      ensures mark == |log| && err == (old(failed) || !ok) && failed == err
    {
      mark := |log|;
      if !ok {
        AddError();
      }
      err := failed;
    }

    method RollbackTo(mark: nat, ok: bool) returns (err: bool)
      requires mark <= |log|
      modifies this
      ensures err == (old(failed) || !ok) && failed == err
      ensures log == if err then old(log) else old(log)[..mark]
    {
      if !failed && ok {
        log := log[..mark];
      }
      if !ok {
        AddError();
      }
      err := failed;
    }
  }

  class EventBuffer {
    var events: seq<Delivery>

    constructor ()
      ensures events == []
    {
      events := [];
    }
  }

  /** The context values under which `Transactional` keeps the handle, the buffer and the read-only flag. */
  datatype Context = Context(tx: TxHandle?, buffer: EventBuffer?, readOnly: bool) {
    ghost predicate Valid() {
      tx == null <==> buffer == null
    }

    ghost function Objects(): set<object> {
      (if tx == null then {} else {tx as object}) + (if buffer == null then {} else {buffer as object})
    }

    ghost function Scope(): Scope
      reads Objects()
      requires Valid()
    {
      if tx == null then NoTx
      else if tx.failed then Doomed
      else Live(tx.log, buffer.events)
    }
  }

  class Runtime {
    var store: seq<Entry>
    var delivered: seq<Delivery>
    var nextId: nat

    constructor ()
      ensures World() == TransactionMeaning.World([], [], 0)
    {
      store, delivered, nextId := [], [], 0;
    }

    ghost function World(): World
      reads this
    {
      TransactionMeaning.World(store, delivered, nextId)
    }

    /** Nothing already in the handle or the buffer is lost, so a remembered length stays in range. */
    twostate predicate Kept(ctx: Context)
      reads ctx.Objects()
      requires ctx.Valid()
    {
      ctx.tx != null ==>
        && old(ctx.tx.log) <= ctx.tx.log
        && old(ctx.buffer.events) <= ctx.buffer.events
    }

    /** Runs user code; the result is the program's meaning. */
    method Run(ctx: Context, p: Program) returns (o: Outcome)
      requires ctx.Valid()
      modifies this, ctx.Objects()
      ensures Result(o, World(), ctx.Scope()) == Mean(p, old(World()), old(ctx.Scope()))
      ensures Kept(ctx)
      decreases p, 0
    {
      match p
      case Return => o := Ok;
      case Fail => o := Error;
      case Panic => o := Panicked;
      case Write(row, next) =>
        if ctx.tx == null {
          store := store + [Row(row)];
        } else if !ctx.tx.failed {
          ctx.tx.log := ctx.tx.log + [Row(row)];
        }
        o := Run(ctx, next);
      case Publish(event, inserted, next) =>
        PublishEvent(ctx, event, inserted);
        o := Run(ctx, next);
      case Transactional(mode, readOnly, answers, body, onOk, onError, onPanic) =>
        o := Call(ctx, mode, readOnly, answers, body);
        match o {
          case Ok => o := Run(ctx, onOk);
          case Error => o := Run(ctx, onError);
          case Panicked => o := Run(ctx, onPanic);
        }
    }

    /** `Publish`: outbox row through the handle, then the buffer, or dispatch at once outside a transaction. */
    method PublishEvent(ctx: Context, event: int, inserted: bool)
      requires ctx.Valid()
      modifies this, ctx.Objects()
      ensures ctx.tx == null ==>
                World() == old(World()).(delivered := old(delivered) + [Delivery(event, 0)])
      ensures ctx.tx != null && (old(ctx.tx.failed) || !inserted) ==>
                && World() == old(World()) && ctx.tx.failed == old(ctx.tx.failed)
                && ctx.tx.log == old(ctx.tx.log)
                && ctx.buffer.events == old(ctx.buffer.events) + [Delivery(event, 0)]
      ensures ctx.tx != null && !old(ctx.tx.failed) && inserted ==>
                && World() == old(World()).(nextId := old(nextId) + 1) && !ctx.tx.failed
                && ctx.tx.log == old(ctx.tx.log) + [OutboxRow(old(nextId) + 1, event)]
                && ctx.buffer.events == old(ctx.buffer.events) + [Delivery(event, old(nextId) + 1)]
    {
      var outboxId := 0;
      if ctx.tx != null && !ctx.tx.failed && inserted {
        nextId := nextId + 1;
        outboxId := nextId;
        ctx.tx.log := ctx.tx.log + [OutboxRow(outboxId, event)];
      }
      if ctx.buffer != null {
        ctx.buffer.events := ctx.buffer.events + [Delivery(event, outboxId)];
      } else {
        delivered := delivered + [Delivery(event, 0)];
      }
    }

    /** `Transactional`. */
    method Call(ctx: Context, mode: Propagation, readOnly: bool, answers: Answers, body: Program) returns (o: Outcome)
      requires ctx.Valid()
      modifies this, ctx.Objects()
      ensures Result(o, World(), ctx.Scope()) == MeanCall(mode, readOnly, answers, body, old(World()), old(ctx.Scope()))
      ensures Kept(ctx)
      decreases body, 3
    {
      match mode
      case Required =>
        if ctx.tx != null {
          o := ExecuteInActiveTx(ctx, body);
        } else {
          o := ExecuteInNewTx(ctx, readOnly, answers, body, NoTx);
        }
      case RequiresNew =>
        var suspended := if ctx.tx != null then Context(null, null, false) else ctx;
        o := ExecuteInNewTx(suspended, readOnly, answers, body, ctx.Scope());
      case Nested =>
        if ctx.tx != null {
          o := ExecuteInNestedTx(ctx, answers, body);
        } else {
          o := ExecuteInNewTx(ctx, readOnly, answers, body, NoTx);
        }
      case Supports => o := Run(ctx, body);
      case NotSupported =>
        var suspended := if ctx.tx != null then Context(null, null, false) else ctx;
        o := Run(suspended, body);
        MeanExtends(body, old(World()), NoTx);
      case Mandatory =>
        if ctx.tx == null {
          o := Error;
        } else {
          o := ExecuteInActiveTx(ctx, body);
        }
      case Never =>
        if ctx.tx != null {
          o := Error;
        } else {
          o := Run(ctx, body);
        }
    }

    method ExecuteInActiveTx(ctx: Context, body: Program) returns (o: Outcome)
      requires ctx.Valid() && ctx.tx != null
      modifies this, ctx.Objects()
      ensures Result(o, World(), ctx.Scope()) == MeanJoin(body, old(World()), old(ctx.Scope()))
      ensures Kept(ctx)
      decreases body, 2
    {
      o := Run(ctx, body);
      if o != Ok {
        ctx.tx.AddError();
      }
    }

    method ExecuteInNestedTx(ctx: Context, answers: Answers, body: Program) returns (o: Outcome)
      requires ctx.Valid() && ctx.tx != null
      modifies this, ctx.Objects()
      ensures Result(o, World(), ctx.Scope()) == MeanNested(answers, body, old(World()), old(ctx.Scope()))
      ensures Kept(ctx)
      decreases body, 2
    {
      var mark, spErr := ctx.tx.SavePoint(answers.savepointOk);
      if spErr {
        return Error;
      }
      var initialLen := |ctx.buffer.events|;
      o := Run(ctx, body);
      match o
      case Ok =>
      case Error =>
        var rollbackErr := ctx.tx.RollbackTo(mark, answers.rollbackToOk);
        if !rollbackErr {
          ctx.buffer.events := ctx.buffer.events[..initialLen];
        }
      case Panicked =>
        var _ := ctx.tx.RollbackTo(mark, answers.rollbackToOk);
        ctx.buffer.events := ctx.buffer.events[..initialLen];
    }

    /** `outer` is the transaction, if any, that is suspended meanwhile. */
    method ExecuteInNewTx(ctx: Context, readOnly: bool, answers: Answers, body: Program, ghost outer: Scope)
      returns (o: Outcome)
      requires ctx.Valid() && ctx.tx == null
      modifies this
      ensures Result(o, World(), outer) == MeanNew(readOnly, answers, body, old(World()), outer)
      decreases body, 2
    {
      if !answers.beginOk || (readOnly && !answers.readOnlyOk) {
        return Error;
      }
      var tx, buffer, ended := RunPhysical(readOnly, body);
      o := Finish(tx, buffer, readOnly, ended, answers, outer);
    }

    /** The body of a physical transaction, run under a handle and a buffer of its own. */
    method RunPhysical(readOnly: bool, body: Program) returns (tx: TxHandle, buffer: EventBuffer, o: Outcome)
      modifies this
      ensures Result(o, World(), Context(tx, buffer, readOnly).Scope()) == Mean(body, old(World()), Live([], []))
      decreases body, 1
    {
      tx := new TxHandle();
      buffer := new EventBuffer();
      o := Run(Context(tx, buffer, readOnly), body);
    }

    /** What follows the body of a physical transaction: roll back, or commit and then run the post-commit hook. */
    method Finish(tx: TxHandle, buffer: EventBuffer, ghost readOnly: bool, ended: Outcome, answers: Answers,
                  ghost outer: Scope)
      returns (o: Outcome)
      modifies this
      ensures Result(o, World(), outer)
           == Settle(Result(ended, old(World()), Context(tx, buffer, readOnly).Scope()), answers, outer)
    {
      o := ended;
      if o == Ok {
        if tx.failed || !answers.commitOk {
          o := Error;
        } else {
          store := store + tx.log;
          delivered := delivered + buffer.events;
        }
      }
    }
  }
}
