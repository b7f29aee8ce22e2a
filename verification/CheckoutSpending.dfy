/** The rolling spend bound: no window of one hour ever holds more than the hourly limit. */
module CheckoutSpending {
  import opened Wrappers
  import opened Checkout
  import opened CheckoutRuns

  /** The recorded reservations with these numbers. */
  function Chosen(book: map<nat, Reservation>, ids: set<nat>): map<nat, Reservation> {
    map id | id in ids && id in book :: book[id]
  }

  /** Reservations charged, and not given back, by the first `i + 1` spends within a window before spend `i`. */
  function WindowBefore(spends: seq<Spend>, i: nat): set<nat>
    requires i < |spends|
  {
    set j | 0 <= j <= i && !spends[j].released && spends[j].at > spends[i].at - SPEND_WINDOW :: spends[j].id
  }

  ghost predicate WindowOk(s: System, i: nat, limit: nat)
    requires i < |s.spends|
  {
    forall principal :: Total(Chosen(s.book, WindowBefore(s.spends, i)), principal) <= limit
  }

  ghost predicate WindowsOk(s: System, limit: nat) {
    forall i :: 0 <= i < |s.spends| ==> WindowOk(s, i, limit)
  }

  /** Spends are only appended, and only ever become released; recorded reservations keep their amounts. */
  predicate Extends(s: System, s': System) {
    && |s.spends| <= |s'.spends|
    && (forall i :: 0 <= i < |s.spends| ==>
          s'.spends[i] == s.spends[i].(released := s'.spends[i].released) && (s.spends[i].released ==> s'.spends[i].released))
    && (forall id :: id in s.book ==> id in s'.book && s'.book[id] == s.book[id])
  }

  lemma OldWindowOk(s: System, s': System, i: nat, limit: nat)
    requires Extends(s, s') && i < |s.spends| && WindowOk(s, i, limit)
    requires forall j :: 0 <= j < |s.spends| ==> SpendOk(s, s.spends[j])
    ensures WindowOk(s', i, limit)
  {
    hide SpendOk;
    assert forall j :: 0 <= j < |s.spends| ==> s.spends[j].id in s.book by { SpendsAreBooked(s); }
    forall principal
      ensures Total(Chosen(s'.book, WindowBefore(s'.spends, i)), principal) <= limit
    {
      TotalOfFewer(Chosen(s.book, WindowBefore(s.spends, i)), Chosen(s'.book, WindowBefore(s'.spends, i)), principal);
    }
  }

  lemma SpendsAreBooked(s: System)
    requires forall j :: 0 <= j < |s.spends| ==> SpendOk(s, s.spends[j])
    ensures forall j :: 0 <= j < |s.spends| ==> s.spends[j].id in s.book
  {
    forall j | 0 <= j < |s.spends|
      ensures s.spends[j].id in s.book
    {
      assert SpendOk(s, s.spends[j]);
    }
  }

  /** Everything charged in the window that ends now still has its reservation. */
  lemma NewWindowOk(s: System, i: nat, limit: nat)
    requires BooksOk(s, limit) && i < |s.spends| && s.spends[i].at == s.now
    ensures WindowOk(s, i, limit)
  {
    forall principal
      ensures Total(Chosen(s.book, WindowBefore(s.spends, i)), principal) <= limit
    {
      var charged := Chosen(s.book, WindowBefore(s.spends, i));
      forall id | id in charged
        ensures id in s.policy.reservations && AmountOf(charged[id], principal) <= AmountOf(s.policy.reservations[id], principal)
      {
        var j :| 0 <= j <= i && !s.spends[j].released && s.spends[j].at > s.spends[i].at - SPEND_WINDOW && s.spends[j].id == id;
        assert SpendOk(s, s.spends[j]);
        assert Booked(s, id);
      }
      TotalOfFewer(s.policy.reservations, charged, principal);
    }
  }

  lemma NextExtends(s: System, e: Event, limit: nat)
    requires Inv(s, limit) && Enabled(s, e, limit)
    ensures Extends(s, Next(s, e))
    ensures |Next(s, e).spends| <= |s.spends| + 1
    ensures |Next(s, e).spends| == |s.spends| + 1 ==> Next(s, e).spends[|s.spends|].at == e.at == Next(s, e).now
  {
    hide KeysOk, Prune, AdmitKey, Total, SpendOk, Bind, Refresh;
    if e.op.Admission? { BookGrows(s, e, limit); }
  }

  /** A new reservation takes a fresh number. */
  lemma EntryExtends(s: System, s': System, h: Handle, id: nat, limit: nat)
    requires BooksOk(s, limit) && Enters(s, s', h, id, limit)
    ensures Extends(s, s') && s'.spends == s.spends
  {
    hide Total, SpendOk, RestartedReservation;
    assert id !in s.book;
  }

  lemma BookGrows(s: System, e: Event, limit: nat)
    requires Inv(s, limit) && Enabled(s, e, limit) && e.op.Admission?
    ensures Extends(s, Admitting(s, e)) && Admitting(s, e).spends == s.spends
  {
    AdmissionEnters(s, e, limit);
    var pruned := s.(policy := Prune(s.policy, e.at), now := e.at);
    var s' := Admitting(s, e);
    var (p, answer) := Admit(s.policy, e.op.request, e.at, e.op.generation, e.op.id);
    hide KeysOk, Prune, Admit, Admitting, BooksOk, Enters;
    if answer.Admitted? { EntryExtends(pruned, s', answer.handle, e.op.id, limit); }
  }

  lemma WindowsStep(s: System, e: Event, limit: nat)
    requires Inv(s, limit) && Enabled(s, e, limit) && WindowsOk(s, limit)
    ensures WindowsOk(Next(s, e), limit)
  {
    var s' := Next(s, e);
    NextExtends(s, e, limit);
    StepKeepsInv(s, e, limit);
    hide Next, KeysOk, WindowOk, Extends, Enabled;
    forall i | 0 <= i < |s'.spends|
      ensures WindowOk(s', i, limit)
    {
      if i < |s.spends| { OldWindowOk(s, s', i, limit); } else { NewWindowOk(s', i, limit); }
    }
  }

  lemma {:induction false} WindowsOverRuns(events: seq<Event>, limit: nat)
    requires IsRun(events, limit)
    ensures WindowsOk(Run(events), limit) && Inv(Run(events), limit)
    decreases |events|
  {
    hide Enabled, Next, Inv, WindowOk;
    InvOverRuns(events, limit);
    if events != [] {
      PrefixIsRun(events, limit);
      InvOverRuns(events[..|events| - 1], limit);
      WindowsOverRuns(events[..|events| - 1], limit);
      WindowsStep(Run(events[..|events| - 1]), events[|events| - 1], limit);
    }
  }

  /** Reservations charged in the window that starts at `from`, and neither aborted nor discarded since. */
  function Charged(spends: seq<Spend>, from: int): set<nat> {
    set j | 0 <= j < |spends| && !spends[j].released && from <= spends[j].at < from + SPEND_WINDOW :: spends[j].id
  }

  /**
   The rolling bound. In every run, for every window of an hour, the full debits behind the non-replay
   checkpoints passed in that window, and not aborted or discarded, sum to at most the hourly limit.
   */
  lemma RollingSpendBound(events: seq<Event>, limit: nat, from: int, principal: nat)
    requires IsRun(events, limit)
    ensures Total(Chosen(Run(events).book, Charged(Run(events).spends, from)), principal) <= limit
  {
    WindowsOverRuns(events, limit);
    var s := Run(events);
    hide Run, Inv;
    if i :| LastIn(s.spends, from, i) {
      ChargedWithin(s.spends, from, i);
      assert WindowOk(s, i, limit);
      hide Charged, WindowBefore;
      TotalOfFewer(Chosen(s.book, WindowBefore(s.spends, i)), Chosen(s.book, Charged(s.spends, from)), principal);
    } else {
      NothingIn(s.spends, from, |s.spends|);
      assert Charged(s.spends, from) == {} by { NothingCharged(s.spends, from); }
      assert Chosen(s.book, {}) == map[];
    }
  }

  lemma ChargedWithin(spends: seq<Spend>, from: int, i: nat)
    requires LastIn(spends, from, i)
    ensures Charged(spends, from) <= WindowBefore(spends, i)
  {
    forall id | id in Charged(spends, from)
      ensures id in WindowBefore(spends, i)
    {
      var j: nat :| j < |spends| && !spends[j].released && from <= spends[j].at < from + SPEND_WINDOW && spends[j].id == id;
      assert InWindow(spends, from, j);
    }
  }

  lemma NothingCharged(spends: seq<Spend>, from: int)
    requires forall j :: 0 <= j < |spends| ==> !InWindow(spends, from, j)
    ensures Charged(spends, from) == {}
  {
    forall id | id in Charged(spends, from)
      ensures false
    {
      var j: nat :| j < |spends| && !spends[j].released && from <= spends[j].at < from + SPEND_WINDOW && spends[j].id == id;
      assert InWindow(spends, from, j);
    }
  }

  predicate InWindow(spends: seq<Spend>, from: int, i: nat) {
    i < |spends| && !spends[i].released && from <= spends[i].at < from + SPEND_WINDOW
  }

  predicate LastIn(spends: seq<Spend>, from: int, i: nat) {
    InWindow(spends, from, i) && forall j :: i < j < |spends| ==> !InWindow(spends, from, j)
  }

  /** A window with no last spend has no spend. */
  lemma {:induction false} NothingIn(spends: seq<Spend>, from: int, n: nat)
    requires n <= |spends| && forall i :: !LastIn(spends, from, i)
    requires forall j :: n <= j < |spends| ==> !InWindow(spends, from, j)
    ensures forall j :: 0 <= j < |spends| ==> !InWindow(spends, from, j)
  {
    if n > 0 {
      assert !LastIn(spends, from, n - 1);
      NothingIn(spends, from, n - 1);
    }
  }

  /** What a spend is charged: the full debit of the key it was made for. */
  lemma SpendChargesFullDebit(s: System, g: nat, at: int, limit: nat)
    requires Inv(s, limit) && g in s.handles && at >= s.now && Current(s.policy, s.handles[g]) && !Replays(s.handles[g])
    ensures var s' := Next(s, CheckoutRuns.Event(at, CheckpointAt(g)));
            && |s'.spends| == |s.spends| + 1
            && var x := s'.spends[|s.spends|];
            && x.at == at && x.generation == g && !x.released
            && x.id in s'.book && s'.book[x.id].amount == s.handles[g].active.maxDebit
            && s'.book[x.id].principal == s.handles[g].key.principal
  {
    CurrentHandle(s, g, limit);
    assert Booked(s, s.handles[g].active.reservation.value);
    hide Total;
  }
}
