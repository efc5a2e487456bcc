/** The result listener as it moves messages between the lists and updates the rows. */
module ResultListener {
  import opened Common
  import Credits
  import CreditDesk
  import opened Results

  // A generation_logs row; its charge and refund flag live in the credit rows.
  class LogRow {
    const model: nat
    const skingDdj: bool
    const recoverable: bool
    var status: Status
    var result: Text
    var edited: Text
    var skinEdited: Text
    var task: Text
    var submission: Text
    var error: Text

    constructor (r: Row)
      ensures View() == r
    {
      model, skingDdj, recoverable := r.model, r.skingDdj, r.recoverable;
      status, result, edited, skinEdited, task, submission, error :=
        r.status, r.result, r.edited, r.skinEdited, r.task, r.submission, r.error;
    }

    function View(): Row
      reads this
    {
      Row(status, model, skingDdj, recoverable, result, edited, skinEdited, task, submission, error)
    }

    // An internal artifact never overwrites the text or image edit.
    method StoreEdited(m: Msg)
      requires m.Report?
      modifies this`edited, this`skinEdited
      ensures var internal := skingDdj && (m.stage == RealToRender || m.stage == RenderToUv);
              && edited == (if internal then old(edited) else Or(m.edited, old(edited)))
              && skinEdited == (if internal then Or(m.edited, old(skinEdited)) else old(skinEdited))
    {
      if m.edited.Some? {
        if skingDdj && (m.stage == RealToRender || m.stage == RenderToUv) {
          skinEdited := m.edited.value;
        } else {
          edited := m.edited.value;
        }
      }
    }

    method ApplyResultUpdate(m: Msg) returns (updated: bool)
      requires m.Report?
      modifies this
      ensures updated == old(Updates(View(), m))
      ensures View() == if updated && m.status.Some? then Updated(old(View()), m) else old(View())
    {
      if m.model.Some? && m.model.value != model { return false; }
      if !ShouldApply(View(), m) { return false; }
      status := m.status.value;
      if m.result.Some? { result := m.result.value; }
      if m.skinEdited.Some? { skinEdited := m.skinEdited.value; }
      StoreEdited(m);
      if m.task.Some? { task := m.task.value; }
      if m.submission.Some? { submission := m.submission.value; }
      if m.error.Some? {
        error := m.error.value;
      } else if status != Failed {
        error := None;
      }
      return true;
    }
  }

  class Listener {
    var main: seq<Msg>
    var processing: seq<Msg>
    var rows: seq<Row>
    const desk: CreditDesk.Desk

    constructor (db: Db)
      ensures DbView() == db && main == [] && processing == [] && fresh(desk)
    {
      main, processing, rows := [], [], db.rows;
      desk := new CreditDesk.Desk(db.bank);
    }

    function DbView(): Db
      reads this, desk
    {
      Db(rows, desk.View())
    }

    method Pop() returns (m: Option<Msg>)
      modifies this`main, this`processing
      ensures old(main) == [] ==> m == None && main == [] && processing == old(processing)
      ensures old(main) != [] ==>
                && m == Some(Last(old(main))) && main == Front(old(main)) && processing == [m.value] + old(processing)
    {
      if main == [] { return None; }
      m := Some(Last(main));
      main, processing := Front(main), [Last(main)] + processing;
    }

    // One database transaction; a raised refund leaves every row alone.
    method CommitMessage(m: Msg) returns (raised: bool)
      requires Known(DbView(), m)
      modifies this`rows, desk
      ensures raised == old(Raises(DbView(), m))
      ensures DbView() == Apply(old(DbView()), m)
    {
      if m.Garbage? || m.log.None? { return false; }
      var g := m.log.value;
      var row := new LogRow(rows[g]);
      var updated := row.ApplyResultUpdate(m);
      if updated && m.status == Some(Failed) && !row.recoverable {
        if Raises(DbView(), m) { return true; }
        var refunded := desk.RefundGeneration(g);
      }
      rows := rows[g := row.View()];
      return false;
    }

    // One delivery of m is over: any further copy, and every other message in its order, stays.
    method Acknowledge(m: Msg)
      modifies this`processing
      ensures multiset(processing) == multiset(old(processing)) - multiset{m}
      ensures Others(processing, m) == Others(old(processing), m)
      ensures processing == RemoveFirst(old(processing), m)
    {
      RemoveFirstCounts(processing, m);
      processing := RemoveFirst(processing, m);
    }

    // A message in hand changes lists without loss or copy, and is the next one to be read.
    method RequeueMessage(m: Msg)
      modifies this`main, this`processing
      ensures m in old(processing) ==>
                multiset(main) + multiset(processing) == multiset(old(main)) + multiset(old(processing))
      ensures main != [] && Last(main) == m && Front(main) == old(main) && Others(processing, m) == Others(old(processing), m)
      ensures processing == RemoveFirst(old(processing), m) && main == old(main) + [m]
    {
      RemoveFirstCounts(processing, m);
      processing := RemoveFirst(processing, m);
      main := main + [m];
    }

    // Moves every unacknowledged message back. The oldest goes first, so more than one would
    // come out newest first; the listener never leaves more than one.
    method RecoverInflight() returns (recovered: nat)
      modifies this`main, this`processing
      ensures processing == [] && recovered == |old(processing)|
      ensures main == old(main) + Reversed(old(processing))
      ensures |old(processing)| <= 1 ==> main == old(main) + old(processing)
    {
      recovered := 0;
      while processing != []
        invariant recovered + |processing| == |old(processing)| && processing == old(processing)[..|processing|]
        invariant main == old(main) + Reversed(old(processing)[|processing|..])
        decreases |processing|
      {
        var m := Last(processing);
        assert old(processing)[|processing| - 1..] == [m] + old(processing)[|processing|..];
        ReversedCons(m, old(processing)[|processing|..]);
        processing := Front(processing);
        main := main + [m];
        recovered := recovered + 1;
      }
      assert old(processing)[0..] == old(processing);
    }

    // One turn of the loop with no failure: the next message takes effect and leaves both lists.
    method Turn() returns (handled: bool)
      requires processing == [] && (main != [] ==> Known(DbView(), Last(main)))
      modifies this`main, this`processing, this`rows, desk
      ensures handled == (old(main) != [] && !old(Raises(DbView(), Last(main))))
      ensures processing == [] && main == if handled then Front(old(main)) else old(main)
      ensures DbView() == if handled then Apply(old(DbView()), Last(old(main))) else old(DbView())
    {
      var m := Pop();
      if m.None? { return false; }
      var raised := CommitMessage(m.value);
      if raised {
        RequeueMessage(m.value);
        assert Front(old(main)) + [Last(old(main))] == old(main);
        return false;
      }
      Acknowledge(m.value);
      return true;
    }
  }

  function Others(list: seq<Msg>, m: Msg): seq<Msg> {
    if list == [] then [] else (if list[0] == m then [] else [list[0]]) + Others(list[1..], m)
  }

  lemma RemoveFirstCounts(list: seq<Msg>, m: Msg)
    ensures multiset(RemoveFirst(list, m)) == multiset(list) - multiset{m}
    ensures Others(RemoveFirst(list, m), m) == Others(list, m)
  {
    hide RemoveFirst, Others;
    RemoveFirstOne(list, m);
    RemoveFirstOthers(list, m);
  }

  lemma {:induction false} RemoveFirstOne(list: seq<Msg>, m: Msg)
    ensures multiset(RemoveFirst(list, m)) == multiset(list) - multiset{m}
  {
    if list != [] {
      var (x, rest) := (list[0], list[1..]);
      assert list == [x] + rest;
      if x != m {
        RemoveFirstOne(rest, m);
        MoreOfOthers(multiset(rest), x, m);
      }
    }
  }

  lemma MoreOfOthers<T>(s: multiset<T>, x: T, m: T)
    requires x != m
    ensures multiset{x} + (s - multiset{m}) == multiset{x} + s - multiset{m}
  {
  }

  lemma {:induction false} RemoveFirstOthers(list: seq<Msg>, m: Msg)
    ensures Others(RemoveFirst(list, m), m) == Others(list, m)
  {
    if list != [] {
      var (x, rest) := (list[0], list[1..]);
      if x != m {
        RemoveFirstOthers(rest, m);
        OthersCons(x, RemoveFirst(rest, m), m);
      }
    }
  }

  lemma OthersCons(x: Msg, list: seq<Msg>, m: Msg)
    requires x != m
    ensures Others([x] + list, m) == [x] + Others(list, m)
  {
    assert ([x] + list)[1..] == list;
  }

  function Reversed(s: seq<Msg>): (r: seq<Msg>)
    ensures |s| <= 1 ==> r == s
  {
    if s == [] then [] else Reversed(s[1..]) + [s[0]]
  }

  lemma ReversedCons(m: Msg, s: seq<Msg>)
    ensures Reversed([m] + s) == Reversed(s) + [m]
  {
    assert ([m] + s)[1..] == s;
  }
}
