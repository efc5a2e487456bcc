/** Generation results (routers/generate.py): one listener moves messages from a Redis list to a
    processing list, commits their effect and acknowledges them, and may stop at any point. */
module Results {
  import opened Common
  import Credits

  datatype Status = Pending | Processing | PendingSkin | ProcessingSkin | Success | Failed | Deleted | Unlisted(name: nat)
  datatype Stage = TextToImage | ImageEdit | RealToRender | ImageToSkin | RenderToUv | NoStage

  // None is a null or empty value.
  type Text = Option<nat>

  datatype Row = Row(
    status: Status, model: nat, skingDdj: bool, recoverable: bool, result: Text, edited: Text, skinEdited: Text,
    task: Text, submission: Text, error: Text)

  // A field that is None is absent from the message; a missing log matches no row.
  datatype Msg =
    | Garbage
    | Report(log: Option<nat>, status: Option<Status>, model: Option<nat>, stage: Stage, result: Option<Text>,
             edited: Option<Text>, skinEdited: Option<Text>, task: Option<Text>, submission: Option<Text>, error: Option<Text>)

  // Row g and job g of the bank belong to the same generation.
  datatype Db = Db(rows: seq<Row>, bank: Credits.Bank)

  // ---- the effect of one message ----

  function Rank(s: Status): int {
    match s
    case Pending => 0
    case Processing => 1
    case PendingSkin => 2
    case ProcessingSkin => 3
    case _ => -1
  }

  // should_apply_generation_status
  predicate ShouldApply(r: Row, m: Msg)
    requires m.Report?
  {
    if m.status.None? then false
    else
      var incoming := m.status.value;
      if r.status == Deleted then false
      else if r.status == Success then incoming == Success && r.result.None?
      else if incoming == Success then true
      else if incoming == Failed then
        match m.stage
        case TextToImage | ImageEdit | RealToRender => r.status == Pending || r.status == Processing || r.status == Failed
        case ImageToSkin | RenderToUv =>
          r.status == Pending || r.status == Processing || r.status == PendingSkin || r.status == ProcessingSkin || r.status == Failed
        case NoStage => true
      else if r.status == Failed then true
      else Rank(incoming) >= Rank(r.status)
  }

  function Or(incoming: Option<Text>, current: Text): Text { if incoming.Some? then incoming.value else current }

  predicate Updates(r: Row, m: Msg)
    requires m.Report?
  {
    !(m.model.Some? && m.model.value != r.model) && ShouldApply(r, m)
  }

  // apply_generation_result_update, when it applies.
  function Updated(r: Row, m: Msg): Row
    requires m.Report? && m.status.Some?
  {
    var internal := r.skingDdj && (m.stage == RealToRender || m.stage == RenderToUv);
    var skin := Or(m.skinEdited, r.skinEdited);
    r.(status := m.status.value, result := Or(m.result, r.result),
       edited := if internal then r.edited else Or(m.edited, r.edited),
       skinEdited := if internal then Or(m.edited, skin) else skin,
       task := Or(m.task, r.task), submission := Or(m.submission, r.submission),
       error := if m.error.Some? then m.error.value else if m.status.value != Failed then None else r.error)
  }

  predicate Refunds(r: Row, m: Msg)
    requires m.Report?
  {
    Updates(r, m) && m.status == Some(Failed) && !r.recoverable
  }

  predicate Known(db: Db, m: Msg) {
    |db.rows| == |db.bank.jobs| && (m.Report? && m.log.Some? ==> m.log.value < |db.rows|)
  }

  // The refund of a debit whose user row is gone raises, so the transaction is rolled back.
  predicate Raises(db: Db, m: Msg)
    requires Known(db, m)
  {
    && m.Report? && m.log.Some? && Refunds(db.rows[m.log.value], m)
    && var job := db.bank.jobs[m.log.value];
       !job.refunded && job.user.Some? && job.user.value >= |db.bank.accounts|
       && (job.charged > 0 || Credits.LoggedDebit(db.bank.log, job.user.value, m.log.value) > 0)
  }

  // One committed transaction of the listener.
  function Apply(db: Db, m: Msg): Db
    requires Known(db, m)
  {
    if m.Garbage? || m.log.None? || Raises(db, m) then db
    else
      var g := m.log.value;
      var r := db.rows[g];
      if !Updates(r, m) then db
      else Db(db.rows[g := Updated(r, m)], if Refunds(r, m) then Credits.RefundBank(db.bank, g) else db.bank)
  }

  // ---- the lists and the listener ----

  // The listener between two operations. Acknowledged messages leave the processing list.
  datatype Hand = Idle | Popped(msg: Msg) | Committed(msg: Msg) | Recovering(moved: Option<Msg>)

  // Lists grow to the left; the right end is delivered next.
  datatype State = State(db: Db, main: seq<Msg>, processing: seq<Msg>, hand: Hand)

  datatype Step =
    | Push(msg: Msg)              // a worker reports
    | Pop                         // brpoplpush
    | Commit
    | Ack
    | AckUnheard                  // executed, but the listener saw an error
    | Requeue(twice: bool)        // again when the first try was executed but raised
    | Crash                       // the process stops and a new one starts recovering
    | RecoverPop                  // rpop, or the end of the recovery
    | RecoverPush                 // rpush
    | Generate(user: nat, cost: nat, row: Row)
    | Withdraw(log: nat)
    | Bank(step: Credits.Step)

  // lrem with count 1
  function RemoveFirst(list: seq<Msg>, m: Msg): seq<Msg> {
    if list == [] then [] else if list[0] == m then list[1..] else [list[0]] + RemoveFirst(list[1..], m)
  }

  function Last<T>(s: seq<T>): T
    requires s != []
  {
    s[|s| - 1]
  }

  function Front<T>(s: seq<T>): seq<T>
    requires s != []
  {
    s[..|s| - 1]
  }

  // A withdrawn row keeps none of its artifacts.
  function Withdrawn(r: Row): Row { r.(status := Deleted, result := None, edited := None, skinEdited := None) }

  // What the other writers of these tables do.
  function Outside(db: Db, t: Step): Db {
    match t
    case Generate(user, cost, row) =>
      var bank := Credits.Do(db.bank, Credits.Charge(user, cost));
      if |bank.jobs| > |db.bank.jobs| then Db(db.rows + [row.(status := Pending)], bank) else db
    case Withdraw(g) => if g < |db.rows| then db.(rows := db.rows[g := Withdrawn(db.rows[g])]) else db
    case Bank(step) => if step.Charge? || step.RefundJob? then db else db.(bank := Credits.Do(db.bank, step))
    case _ => db
  }

  function Do(s: State, t: Step): State {
    match t
    case Push(m) => if Known(s.db, m) then s.(main := [m] + s.main) else s
    case Pop =>
      if s.hand.Idle? && s.main != []
      then s.(main := Front(s.main), processing := [Last(s.main)] + s.processing, hand := Popped(Last(s.main)))
      else s
    case Commit =>
      if s.hand.Popped? && Known(s.db, s.hand.msg) && !Raises(s.db, s.hand.msg)
      then s.(db := Apply(s.db, s.hand.msg), hand := Committed(s.hand.msg))
      else s
    case Ack =>
      if s.hand.Committed? then s.(processing := RemoveFirst(s.processing, s.hand.msg), hand := Idle) else s
    case AckUnheard =>
      if s.hand.Committed? then s.(processing := RemoveFirst(s.processing, s.hand.msg)) else s
    case Requeue(twice) =>
      if s.hand.Popped? || s.hand.Committed?
      then s.(processing := RemoveFirst(s.processing, s.hand.msg),
              main := s.main + if twice then [s.hand.msg, s.hand.msg] else [s.hand.msg], hand := Idle)
      else s
    case Crash => s.(hand := Recovering(None))
    case RecoverPop =>
      if s.hand != Recovering(None) then s
      else if s.processing == [] then s.(hand := Idle)
      else s.(processing := Front(s.processing), hand := Recovering(Some(Last(s.processing))))
    case RecoverPush =>
      if s.hand.Recovering? && s.hand.moved.Some?
      then s.(main := s.main + [s.hand.moved.value], hand := Recovering(None))
      else s
    case _ => s.(db := Outside(s.db, t))
  }

  function Run(s: State, steps: seq<Step>): State
    decreases |steps|
  {
    if steps == [] then s else Run(Do(s, steps[0]), steps[1..])
  }

  // ---- the specification: a queue whose messages are applied once, in order ----

  datatype Ideal = Ideal(db: Db, queue: seq<Msg>)

  datatype IdealStep = Arrive(msg: Msg) | Consume | Lose | Elsewhere(step: Step) | Rest

  function Effect(db: Db, m: Msg): Db { if Known(db, m) then Apply(db, m) else db }

  function IdealDo(i: Ideal, t: IdealStep): Ideal {
    match t
    case Arrive(m) => i.(queue := [m] + i.queue)
    case Consume =>
      if i.queue != [] then Ideal(Effect(i.db, Last(i.queue)), Front(i.queue)) else i
    case Lose => if i.queue != [] then i.(queue := Front(i.queue)) else i
    case Elsewhere(step) => i.(db := Outside(i.db, step))
    case Rest => i
  }

  function IdealRun(i: Ideal, steps: seq<IdealStep>): Ideal
    decreases |steps|
  {
    if steps == [] then i else IdealRun(IdealDo(i, steps[0]), steps[1..])
  }
}
