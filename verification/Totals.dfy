/** What a journal adds up to: orders, conversation, hours, and what was seen of the days. */
module Totals {
  import opened Sequences
  import opened Times
  import opened CleaningService
  import opened Clock
  import opened FrameAccounting
  import opened Journal

  /** The orders that come with it. */
  function Placed(e: Entry): seq<CleaningOrder> {
    match e {
      case Ordered(order) => [order]
      case Admitted(_, b) => [CleaningOrder(b.cottageName, PrepareForGuest)]
      case Done(CheckOut(b, _)) => [CleaningOrder(b.cottageName, FullCleaning)]
      case _ => []
    }
  }

  /** The orders placed, the conversation, the hours that came, the day events received and the clock times read. */
  datatype Total = Total(orders: seq<CleaningOrder>, talk: seq<Talk>, hours: seq<int>, days: seq<Time>,
                         times: seq<Time>)
  {
    function With(e: Entry): Total {
      match e {
        case Said(t) => this.(talk := talk + [t])
        case Came(hour) => this.(hours := hours + [hour])
        case Looked(At(t)) => this.(times := times + [t])
        case Woke(DayChange(t)) => this.(days := days + [t])
        case _ => this.(orders := orders + Placed(e))
      }
    }

    function Plus(t: Total): Total {
      Total(orders + t.orders, talk + t.talk, hours + t.hours, days + t.days, times + t.times)
    }
  }

  const NOTHING := Total([], [], [], [], [])

  function TotalTo(entries: seq<Entry>, k: nat): Total
    requires k <= |entries|
  {
    if k == 0 then NOTHING else TotalTo(entries, k - 1).With(entries[k - 1])
  }

  function TotalOf(entries: seq<Entry>): Total {
    TotalTo(entries, |entries|)
  }

  lemma TalkWith(t: Total, e: Entry)
    ensures t.With(e).talk == if e.Said? then t.talk + [e.talk] else t.talk
  {
  }

  lemma {:induction false} TotalOfPrefix(entries: seq<Entry>, more: seq<Entry>, k: nat)
    requires k <= |entries|
    ensures TotalTo(entries + more, k) == TotalTo(entries, k)
  {
    if k > 0 {
      TotalOfPrefix(entries, more, k - 1);
    }
  }

  lemma {:induction false} TotalAlike(entries: seq<Entry>, entries': seq<Entry>, k: nat)
    requires k <= |entries| && k <= |entries'| && entries[..k] == entries'[..k]
    ensures TotalTo(entries, k) == TotalTo(entries', k)
  {
    if k > 0 {
      assert entries[k - 1] == entries[..k][k - 1] == entries'[k - 1];
      assert entries[..k - 1] == entries[..k][..k - 1] == entries'[..k - 1];
      TotalAlike(entries, entries', k - 1);
    }
  }

  lemma {:induction false} TotalGrows(entries: seq<Entry>, i: nat, j: nat)
    requires i <= j <= |entries|
    ensures TotalTo(entries, i).talk <= TotalTo(entries, j).talk
    ensures TotalTo(entries, i).hours <= TotalTo(entries, j).hours
  {
    if i < j {
      TotalGrows(entries, i, j - 1);
    }
  }

  lemma WithPlus(a: Total, t: Total, e: Entry)
    ensures a.Plus(t).With(e) == a.Plus(t.With(e))
  {
    match e {
      case Said(x) => Regroup(a.talk, t.talk, [x]);
      case Came(hour) => Regroup(a.hours, t.hours, [hour]);
      case Looked(At(x)) => Regroup(a.times, t.times, [x]);
      case Woke(DayChange(x)) => Regroup(a.days, t.days, [x]);
      case _ => Regroup(a.orders, t.orders, Placed(e));
    }
  }

  lemma {:induction false} TotalFrom(entries: seq<Entry>, more: seq<Entry>, k: nat)
    requires k <= |more|
    ensures TotalTo(entries + more, |entries| + k) == TotalOf(entries).Plus(TotalTo(more, k))
  {
    if k == 0 {
      TotalOfPrefix(entries, more, |entries|);
    } else {
      TotalFrom(entries, more, k - 1);
      WithPlus(TotalOf(entries), TotalTo(more, k - 1), more[k - 1]);
    }
  }

  lemma TotalOfBoth(entries: seq<Entry>, more: seq<Entry>)
    ensures TotalOf(entries + more) == TotalOf(entries).Plus(TotalOf(more))
  {
    TotalFrom(entries, more, |more|);
  }

  // ---------- totals and scenes ----------

  /** The scene is the opening one and what the totals say came of it. */
  ghost predicate AddsUp(opening: Scene, s: Scene, t: Total) {
    && s.desk.orders == opening.desk.orders + t.orders
    && s.chat.talk == opening.chat.talk + t.talk
    && EventsOf(opening.wakes) == t.days + EventsOf(s.wakes)
    && TimesOf(opening.readings) == t.times + TimesOf(s.readings)
  }

  lemma LookAddsUp(o: Oracles, opening: Scene, s: Scene, t: Total, e: Entry, s': Scene)
    requires AddsUp(opening, s, t) && Leads(o, s, e, s') && e.Looked?
    ensures AddsUp(opening, s', t.With(e))
  {
    if e.reading.At? {
      Regroup(t.times, [e.reading.t], TimesOf(s'.readings));
    }
  }

  lemma WakeAddsUp(o: Oracles, opening: Scene, s: Scene, t: Total, e: Entry, s': Scene)
    requires AddsUp(opening, s, t) && Leads(o, s, e, s') && e.Woke?
    ensures AddsUp(opening, s', t.With(e))
  {
    if e.wake.DayChange? {
      Regroup(t.days, [e.wake.t], EventsOf(s'.wakes));
    }
  }

  lemma StepAddsUp(o: Oracles, opening: Scene, s: Scene, t: Total, e: Entry, s': Scene)
    requires AddsUp(opening, s, t) && Leads(o, s, e, s')
    ensures AddsUp(opening, s', t.With(e))
  {
    match e {
      case Said(x) => Regroup(opening.chat.talk, t.talk, [x]);
      case Looked(_) => LookAddsUp(o, opening, s, t, e, s');
      case Woke(_) => WakeAddsUp(o, opening, s, t, e, s');
      case _ => Regroup(opening.desk.orders, t.orders, Placed(e));
    }
  }

  /** In every scene of a record the orders, the conversation, the day events and the clock times are those entered. */
  lemma {:induction false} RecordAddsUp(o: Oracles, opening: Scene, history: seq<Scene>, entries: seq<Entry>, k: nat)
    requires IsRecord(o, opening, history, entries) && k <= |entries|
    ensures AddsUp(opening, history[k], TotalTo(entries, k))
  {
    if k == 0 {
      assert AddsUp(opening, opening, NOTHING);
    } else {
      RecordAddsUp(o, opening, history, entries, k - 1);
      assert FollowsFrom(o, history, entries, k - 1);
      assert Leads(o, history[k - 1], entries[k - 1], history[k]);
      StepAddsUp(o, opening, history[k - 1], TotalTo(entries, k - 1), entries[k - 1], history[k]);
    }
  }

  /** Every hour that was waited for before has come. */
  ghost predicate AllCame(entries: seq<Entry>, k: nat)
    requires k <= |entries|
  {
    forall i :: 0 <= i < k ==> !entries[i].NeverCame?
  }

  /** The hours that came were served by hour changes used up, one after the other. */
  lemma {:induction false} RecordServes(o: Oracles, opening: Scene, history: seq<Scene>, entries: seq<Entry>, k: nat)
    requires IsRecord(o, opening, history, entries) && k <= |entries| && AllCame(entries, k)
    ensures Serves(opening.hours, history[k].hours, TotalTo(entries, k).hours)
  {
    if k > 0 {
      RecordServes(o, opening, history, entries, k - 1);
      assert FollowsFrom(o, history, entries, k - 1);
      assert Leads(o, history[k - 1], entries[k - 1], history[k]);
      if entries[k - 1].Came? {
        var hour := entries[k - 1].hour;
        assert Serves(history[k].hours, history[k].hours, []);
        assert [hour][1..] == [] && [hour][0] == hour;
        assert Serves(history[k - 1].hours, history[k].hours, [hour]);
        ServesThen(opening.hours, history[k - 1].hours, history[k].hours, TotalTo(entries, k - 1).hours, [hour]);
      }
    }
  }
}
