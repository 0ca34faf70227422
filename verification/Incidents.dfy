/** Low-disk detection and incident correlation (helpdesktool/incidents.py). */
module Incidents {
  import opened Text
  import Rounding

  const HOUR := 3_600_000_000

  datatype Status = Open | Investigating | Resolved | Closed

  /** Tenant, device and correlation key. */
  datatype Where = Where(tenant: string, device: string, key: string)

  datatype Incident = Incident(
    where: Where, status: Status, severe: bool, count: nat, firstAt: int, lastAt: int, resolvedAt: Option<int>,
    ticket: nat)

  datatype TicketStatus = TicketOpen | TicketResolved

  datatype Tables = Tables(incidents: seq<Incident>, tickets: seq<TicketStatus>)

  /** One filesystem of an inventory: over the threshold, or recovered below it. */
  datatype Observation = Over(where: Where, at: int, severe: bool) | Under(where: Where, at: int)

  // ---- Correlation

  predicate Correlates(i: Incident, where: Where, at: int, window: int) {
    i.where == where && i.lastAt >= at - window
  }

  predicate Recoverable(i: Incident, where: Where) {
    i.where == where && i.status in {Open, Investigating}
  }

  /** The most recently observed incident among those that match; which one, on a tie, is left open. */
  ghost predicate Latest(incidents: seq<Incident>, matches: Incident -> bool, pick: Option<nat>) {
    match pick
    case None => forall i <- incidents :: !matches(i)
    case Some(k) =>
      && k < |incidents| && matches(incidents[k])
      && forall i <- incidents :: matches(i) ==> i.lastAt <= incidents[k].lastAt
  }

  function Reopened(i: Incident): Incident {
    if i.status in {Resolved, Closed} then i.(status := Open, resolvedAt := None) else i
  }

  /** An over-threshold observation counts on the picked incident, reopening it, or creates one. */
  function Counted(t: Tables, o: Observation, pick: Option<nat>): Tables
    requires o.Over? && (pick.Some? ==> pick.value < |t.incidents|)
  {
    match pick
    case Some(k) =>
      var i := t.incidents[k];
      t.(incidents := t.incidents[k := Reopened(i.(lastAt := o.at, count := i.count + 1, severe := o.severe))])
    case None =>
      Tables(t.incidents + [Incident(o.where, Open, o.severe, 1, o.at, o.at, None, |t.tickets|)],
             t.tickets + [TicketOpen])
  }

  /** A recovery resolves the picked incident and its ticket. */
  function Recovered(t: Tables, o: Observation, pick: Option<nat>): Tables
    requires o.Under? && (pick.Some? ==> pick.value < |t.incidents|)
  {
    match pick
    case None => t
    case Some(k) =>
      var i := t.incidents[k];
      Tables(t.incidents[k := i.(status := Resolved, resolvedAt := Some(o.at), lastAt := o.at)],
             if i.ticket < |t.tickets| then t.tickets[i.ticket := TicketResolved] else t.tickets)
  }

  ghost predicate Handled(before: Tables, o: Observation, after: Tables, window: int) {
    if o.Over? then
      exists pick: Option<nat> ::
        && Latest(before.incidents, i => Correlates(i, o.where, o.at, window), pick)
        && after == Counted(before, o, pick)
    else
      exists pick: Option<nat> ::
        && Latest(before.incidents, i => Recoverable(i, o.where), pick)
        && after == Recovered(before, o, pick)
  }

  /** A history of observations, each handled in turn. */
  ghost predicate Evolves(states: seq<Tables>, observed: seq<Observation>, window: int) {
    && |states| == |observed| + 1
    && forall i {:trigger observed[i]} :: 0 <= i < |observed| ==> Handled(states[i], observed[i], states[i + 1], window)
  }

  // ---- One observation

  /** The incidents an over-threshold observation may count on: of its key, seen within the window before it. */
  predicate Recent(i: Incident, o: Observation, window: int) {
    i.where == o.where && o.at - i.lastAt <= window
  }

  /** Over the threshold: the most recently seen incident of the key within the window counts one more, takes the
      new severity and time, and is open again if it was resolved or closed; without one a new incident is opened
      with a new ticket. Nothing else changes. */
  lemma OverExactly(before: Tables, o: Observation, after: Tables, window: int) returns (k: nat)
    requires Handled(before, o, after, window) && o.Over?
    ensures
      if exists i <- before.incidents :: Recent(i, o, window) then
        && k < |before.incidents| && Recent(before.incidents[k], o, window)
        && (forall i <- before.incidents :: Recent(i, o, window) ==> i.lastAt <= before.incidents[k].lastAt)
        && var i := before.incidents[k];
        && var again := i.status == Resolved || i.status == Closed;
        && after == Tables(
             before.incidents[k := i.(lastAt := o.at, count := i.count + 1, severe := o.severe,
                                      status := if again then Open else i.status,
                                      resolvedAt := if again then None else i.resolvedAt)],
             before.tickets)
      else
        && after == Tables(
             before.incidents + [Incident(o.where, Open, o.severe, 1, o.at, o.at, None, |before.tickets|)],
             before.tickets + [TicketOpen])
  {
    var pick: Option<nat> :| Latest(before.incidents, i => Correlates(i, o.where, o.at, window), pick)
        && after == Counted(before, o, pick);
    k := if pick.Some? then pick.value else 0;
    assert forall i <- before.incidents :: Correlates(i, o.where, o.at, window) <==> Recent(i, o, window);
  }

  /** Below it: the most recently seen unresolved incident of the key, however old, is resolved at that time, and
      so is its ticket; without one nothing changes. */
  lemma UnderExactly(before: Tables, o: Observation, after: Tables, window: int) returns (k: nat)
    requires Handled(before, o, after, window) && o.Under?
    ensures
      if exists i <- before.incidents :: i.where == o.where && (i.status == Open || i.status == Investigating) then
        && k < |before.incidents|
        && var i := before.incidents[k];
        && i.where == o.where && (i.status == Open || i.status == Investigating)
        && (forall j <- before.incidents ::
              j.where == o.where && (j.status == Open || j.status == Investigating) ==> j.lastAt <= i.lastAt)
        && after.incidents == before.incidents[k := i.(status := Resolved, resolvedAt := Some(o.at), lastAt := o.at)]
        && |after.tickets| == |before.tickets|
        && forall n :: 0 <= n < |after.tickets| ==>
             after.tickets[n] == if n == i.ticket then TicketResolved else before.tickets[n]
      else after == before
  {
    var pick: Option<nat> :| Latest(before.incidents, i => Recoverable(i, o.where), pick)
        && after == Recovered(before, o, pick);
    k := if pick.Some? then pick.value else 0;
    assert forall i <- before.incidents ::
      Recoverable(i, o.where) <==> i.where == o.where && (i.status == Open || i.status == Investigating);
  }

  // ---- Conservation

  function Occurrences(incidents: seq<Incident>, where: Where): nat {
    if incidents == [] then 0
    else
      var last := incidents[|incidents| - 1];
      Occurrences(incidents[..|incidents| - 1], where) + (if last.where == where then last.count else 0)
  }

  function Overs(observed: seq<Observation>, where: Where): nat {
    if observed == [] then 0
    else
      var last := observed[|observed| - 1];
      Overs(observed[..|observed| - 1], where) + (if last.Over? && last.where == where then 1 else 0)
  }

  function CountAt(incidents: seq<Incident>, where: Where): nat {
    if incidents == [] then 0
    else CountAt(incidents[..|incidents| - 1], where) + (if incidents[|incidents| - 1].where == where then 1 else 0)
  }

  lemma {:induction false} UpdateOne(incidents: seq<Incident>, k: nat, i: Incident, where: Where)
    requires k < |incidents| && i.where == incidents[k].where
    ensures Occurrences(incidents[k := i], where)
         == Occurrences(incidents, where) + (if i.where == where then i.count - incidents[k].count else 0)
    ensures CountAt(incidents[k := i], where) == CountAt(incidents, where)
  {
    var n := |incidents| - 1;
    if k < n {
      UpdateOne(incidents[..n], k, i, where);
      assert incidents[k := i][..n] == incidents[..n][k := i];
    } else {
      assert incidents[k := i][..n] == incidents[..n];
    }
  }

  lemma AddOne(incidents: seq<Incident>, i: Incident, where: Where)
    ensures Occurrences(incidents + [i], where)
        == Occurrences(incidents, where) + (if i.where == where then i.count else 0)
    ensures CountAt(incidents + [i], where) == CountAt(incidents, where) + (if i.where == where then 1 else 0)
  {
    assert (incidents + [i])[..|incidents|] == incidents;
  }

  lemma HandledCounts(before: Tables, o: Observation, after: Tables, window: int, where: Where)
    requires Handled(before, o, after, window)
    ensures Occurrences(after.incidents, where)
         == Occurrences(before.incidents, where) + (if o.Over? && o.where == where then 1 else 0)
  {
    if o.Over? {
      var pick: Option<nat> :| Latest(before.incidents, i => Correlates(i, o.where, o.at, window), pick)
          && after == Counted(before, o, pick);
      match pick
      case Some(k) => UpdateOne(before.incidents, k, after.incidents[k], where);
      case None => AddOne(before.incidents, after.incidents[|before.incidents|], where);
    } else {
      var pick: Option<nat> :| Latest(before.incidents, i => Recoverable(i, o.where), pick)
          && after == Recovered(before, o, pick);
      if pick.Some? {
        UpdateOne(before.incidents, pick.value, after.incidents[pick.value], where);
      }
    }
  }

  /** Per device and correlation key, the occurrence counts add up to the number of over-threshold
      observations, in whatever order their timestamps came. */
  lemma {:induction false} OccurrencesConserved(states: seq<Tables>, observed: seq<Observation>, window: int, n: nat,
                                                where: Where)
    requires Evolves(states, observed, window) && states[0] == Tables([], []) && n <= |observed|
    ensures Occurrences(states[n].incidents, where) == Overs(observed[..n], where)
  {
    if n > 0 {
      OccurrencesConserved(states, observed, window, n - 1, where);
      assert Handled(states[n - 1], observed[n - 1], states[n], window);
      HandledCounts(states[n - 1], observed[n - 1], states[n], window, where);
      assert observed[..n][..n - 1] == observed[..n - 1];
    }
  }

  // ---- Resolved and resolved_at

  ghost predicate ResolvedDated(t: Tables) {
    forall i <- t.incidents :: i.status in {Open, Resolved} && (i.status == Resolved <==> i.resolvedAt.Some?)
  }

  lemma HandledDates(before: Tables, o: Observation, after: Tables, window: int)
    requires Handled(before, o, after, window) && ResolvedDated(before)
    ensures ResolvedDated(after)
  {
  }

  /** An incident is resolved exactly when it carries a resolution time. */
  lemma {:induction false} ResolvedExactlyWhenDated(states: seq<Tables>, observed: seq<Observation>, window: int,
                                                    n: nat)
    requires Evolves(states, observed, window) && states[0] == Tables([], []) && n <= |observed|
    ensures ResolvedDated(states[n])
  {
    if n > 0 {
      ResolvedExactlyWhenDated(states, observed, window, n - 1);
      assert Handled(states[n - 1], observed[n - 1], states[n], window);
      HandledDates(states[n - 1], observed[n - 1], states[n], window);
    }
  }

  // ---- How many incidents a key gets

  /** What the observations alone say: none yet, one (open or not, last recorded when), or a second one. */
  datatype Track = Nothing | One(open: bool, last: int) | Several

  function Follow(t: Track, o: Observation, window: int): Track {
    match (t, o)
    case (Nothing, Over(_, at, _)) => One(true, at)
    case (One(_, last), Over(_, at, _)) => if last >= at - window then One(true, at) else Several
    case (One(true, _), Under(_, at)) => One(false, at)
    case _ => t
  }

  function Tracked(observed: seq<Observation>, where: Where, window: int): Track {
    if observed == [] then Nothing
    else
      var last := observed[|observed| - 1];
      var before := Tracked(observed[..|observed| - 1], where, window);
      if last.where == where then Follow(before, last, window) else before
  }

  ghost predicate Agrees(t: Track, incidents: seq<Incident>, where: Where) {
    match t
    case Nothing => CountAt(incidents, where) == 0
    case One(open, last) =>
      && CountAt(incidents, where) == 1
      && forall i <- incidents :: i.where == where ==> (i.status == Open <==> open) && i.lastAt == last
    case Several => CountAt(incidents, where) >= 2
  }

  lemma {:induction false} CountZero(incidents: seq<Incident>, where: Where)
    ensures CountAt(incidents, where) == 0 <==> forall i <- incidents :: i.where != where
  {
    if incidents != [] {
      var n := |incidents| - 1;
      CountZero(incidents[..n], where);
      assert incidents == incidents[..n] + [incidents[n]];
    }
  }

  lemma {:induction false} CountOneUnique(incidents: seq<Incident>, where: Where, j: nat, k: nat)
    requires CountAt(incidents, where) == 1 && j < |incidents| && k < |incidents|
    requires incidents[j].where == where && incidents[k].where == where
    ensures j == k
  {
    var n := |incidents| - 1;
    CountZero(incidents[..n], where);
    if j < n {
      assert incidents[..n][j] == incidents[j];
    }
    if k < n {
      assert incidents[..n][k] == incidents[k];
    }
    if j < n && k < n {
      CountOneUnique(incidents[..n], where, j, k);
    }
  }

  /** Updating the key's only incident leaves it the only one, with the new values. */
  lemma OnlyOneUpdated(incidents: seq<Incident>, k: nat, i: Incident, where: Where)
    requires CountAt(incidents, where) == 1 && k < |incidents| && incidents[k].where == where && i.where == where
    ensures CountAt(incidents[k := i], where) == 1
    ensures forall x <- incidents[k := i] :: x.where == where ==> x == i
  {
    UpdateOne(incidents, k, i, where);
    var updated := incidents[k := i];
    forall j | 0 <= j < |updated| && updated[j].where == where ensures updated[j] == i {
      CountOneUnique(updated, where, j, k);
    }
  }

  lemma OverCounts(t: Track, before: Tables, o: Observation, k: nat, window: int)
    requires o.Over? && Agrees(t, before.incidents, o.where) && ResolvedDated(before)
    requires Latest(before.incidents, i => Correlates(i, o.where, o.at, window), Some(k))
    ensures Agrees(Follow(t, o, window), Counted(before, o, Some(k)).incidents, o.where)
  {
    CountZero(before.incidents, o.where);
    var i := before.incidents[k];
    var updated := Reopened(i.(lastAt := o.at, count := i.count + 1, severe := o.severe));
    UpdateOne(before.incidents, k, updated, o.where);
    if t.One? {
      OnlyOneUpdated(before.incidents, k, updated, o.where);
    }
  }

  lemma OverOpens(t: Track, before: Tables, o: Observation, window: int)
    requires o.Over? && Agrees(t, before.incidents, o.where) && ResolvedDated(before)
    requires Latest(before.incidents, i => Correlates(i, o.where, o.at, window), None)
    ensures Agrees(Follow(t, o, window), Counted(before, o, None).incidents, o.where)
  {
    CountZero(before.incidents, o.where);
    var added := Counted(before, o, None).incidents;
    AddOne(before.incidents, added[|before.incidents|], o.where);
  }

  lemma OverAgrees(t: Track, before: Tables, o: Observation, pick: Option<nat>, window: int)
    requires o.Over? && Agrees(t, before.incidents, o.where) && ResolvedDated(before)
    requires Latest(before.incidents, i => Correlates(i, o.where, o.at, window), pick)
    ensures Agrees(Follow(t, o, window), Counted(before, o, pick).incidents, o.where)
  {
    match pick
    case Some(k) => OverCounts(t, before, o, k, window);
    case None => OverOpens(t, before, o, window);
  }

  lemma UnderAgrees(t: Track, before: Tables, o: Observation, pick: Option<nat>, window: int)
    requires o.Under? && Agrees(t, before.incidents, o.where) && ResolvedDated(before)
    requires Latest(before.incidents, i => Recoverable(i, o.where), pick)
    ensures Agrees(Follow(t, o, window), Recovered(before, o, pick).incidents, o.where)
  {
    CountZero(before.incidents, o.where);
    match pick
    case Some(k) =>
      var updated := before.incidents[k].(status := Resolved, resolvedAt := Some(o.at), lastAt := o.at);
      UpdateOne(before.incidents, k, updated, o.where);
      if t.One? {
        OnlyOneUpdated(before.incidents, k, updated, o.where);
      }
    case None =>
  }

  /** Touching another key's incident, or adding one, changes nothing here. */
  lemma OtherTouched(t: Track, incidents: seq<Incident>, k: nat, i: Incident, where: Where)
    requires Agrees(t, incidents, where) && k <= |incidents| && i.where != where
    requires k < |incidents| ==> incidents[k].where == i.where
    ensures Agrees(t, if k < |incidents| then incidents[k := i] else incidents + [i], where)
  {
    if k < |incidents| {
      UpdateOne(incidents, k, i, where);
    } else {
      AddOne(incidents, i, where);
    }
  }

  lemma OthersAgree(before: Tables, o: Observation, after: Tables, window: int, t: Track, where: Where)
    requires Handled(before, o, after, window) && o.where != where && Agrees(t, before.incidents, where)
    ensures Agrees(t, after.incidents, where)
  {
    if o.Over? {
      var pick: Option<nat> :| Latest(before.incidents, i => Correlates(i, o.where, o.at, window), pick)
          && after == Counted(before, o, pick);
      var k := if pick.Some? then pick.value else |before.incidents|;
      OtherTouched(t, before.incidents, k, after.incidents[k], where);
    } else {
      var pick: Option<nat> :| Latest(before.incidents, i => Recoverable(i, o.where), pick)
          && after == Recovered(before, o, pick);
      if pick.Some? {
        OtherTouched(t, before.incidents, pick.value, after.incidents[pick.value], where);
      }
    }
  }

  lemma HandledAgrees(before: Tables, o: Observation, after: Tables, window: int, t: Track)
    requires Handled(before, o, after, window) && ResolvedDated(before) && Agrees(t, before.incidents, o.where)
    ensures Agrees(Follow(t, o, window), after.incidents, o.where)
  {
    if o.Over? {
      var pick: Option<nat> :| Latest(before.incidents, i => Correlates(i, o.where, o.at, window), pick)
          && after == Counted(before, o, pick);
      OverAgrees(t, before, o, pick, window);
    } else {
      var pick: Option<nat> :| Latest(before.incidents, i => Recoverable(i, o.where), pick)
          && after == Recovered(before, o, pick);
      UnderAgrees(t, before, o, pick, window);
    }
  }

  /** A key has exactly one incident exactly as long as every over-threshold observation came within the
      window of the last recorded one; the first that comes later opens a second, for any timestamps. */
  lemma {:induction false} OneIncidentExactly(states: seq<Tables>, observed: seq<Observation>, window: int, n: nat,
                                              where: Where)
    requires Evolves(states, observed, window) && states[0] == Tables([], []) && n <= |observed|
    ensures Agrees(Tracked(observed[..n], where, window), states[n].incidents, where)
    ensures CountAt(states[n].incidents, where) == 1 <==> Tracked(observed[..n], where, window).One?
  {
    if n > 0 {
      var o := observed[n - 1];
      OneIncidentExactly(states, observed, window, n - 1, where);
      ResolvedExactlyWhenDated(states, observed, window, n - 1);
      assert Handled(states[n - 1], o, states[n], window);
      assert observed[..n][..n - 1] == observed[..n - 1];
      var t := Tracked(observed[..n - 1], where, window);
      if o.where == where {
        HandledAgrees(states[n - 1], o, states[n], window, t);
      } else {
        OthersAgree(states[n - 1], o, states[n], window, t, where);
      }
    }
  }

  /** Time of the key's last over-threshold observation, if any. */
  function LastOver(observed: seq<Observation>, where: Where): Option<int> {
    if observed == [] then None
    else
      var last := observed[|observed| - 1];
      if last.Over? && last.where == where then Some(last.at) else LastOver(observed[..|observed| - 1], where)
  }

  /** Timestamps never decrease, and each over-threshold observation is within the window of the previous one. */
  ghost predicate Steady(observed: seq<Observation>, where: Where, window: int) {
    && (forall i, j :: 0 <= i < j < |observed| ==> observed[i].at <= observed[j].at)
    && forall i | 0 <= i < |observed| && observed[i].Over? && observed[i].where == where ::
         var last := LastOver(observed[..i], where);
         last.Some? ==> last.value >= observed[i].at - window
  }

  lemma {:induction false} SteadyTracks(observed: seq<Observation>, where: Where, window: int)
    requires Steady(observed, where, window)
    ensures
      var t := Tracked(observed, where, window);
      && !t.Several?
      && (t.One? <==> LastOver(observed, where).Some?)
      && (t.One? ==>
          LastOver(observed, where).value <= t.last && exists i :: 0 <= i < |observed| && t.last == observed[i].at)
  {
    if observed != [] {
      var n := |observed| - 1;
      assert forall i :: 0 <= i <= n ==> observed[..n][..i] == observed[..i];
      SteadyTracks(observed[..n], where, window);
      assert forall i :: 0 <= i < n ==> observed[..n][i] == observed[i];
      assert observed[n].at == observed[n].at;
    }
  }

  /** A steady stream of observations leaves exactly one incident of its key in the tables from the first
      over-threshold one on, however often it recovers in between. */
  lemma SteadyKeepsOne(states: seq<Tables>, observed: seq<Observation>, window: int, where: Where)
    requires Evolves(states, observed, window) && states[0] == Tables([], []) && Steady(observed, where, window)
    ensures CountAt(states[|observed|].incidents, where) == if LastOver(observed, where).Some? then 1 else 0
  {
    SteadyTracks(observed, where, window);
    OneIncidentExactly(states, observed, window, |observed|, where);
    assert observed[..|observed|] == observed;
  }

  // ---- Tickets

  /** The observation that takes incident k from open to resolved. */
  ghost predicate RecoversAt(states: seq<Tables>, m: nat, k: nat)
    requires m + 1 < |states|
  {
    && k < |states[m].incidents| && k < |states[m + 1].incidents|
    && states[m].incidents[k].status != Resolved && states[m + 1].incidents[k].status == Resolved
  }

  /** The observation that takes it from resolved to open. */
  ghost predicate ReopensAt(states: seq<Tables>, m: nat, k: nat)
    requires m + 1 < |states|
  {
    && k < |states[m].incidents| && k < |states[m + 1].incidents|
    && states[m].incidents[k].status == Resolved && states[m + 1].incidents[k].status == Open
  }

  ghost predicate EverRecovered(states: seq<Tables>, n: nat, k: nat)
    requires n < |states|
  {
    exists m {:trigger RecoversAt(states, m, k)} :: 0 <= m < n && RecoversAt(states, m, k)
  }

  /** Every incident has its own ticket. */
  predicate OwnTickets(t: Tables) {
    |t.tickets| == |t.incidents| && forall k :: 0 <= k < |t.incidents| ==> t.incidents[k].ticket == k
  }

  /** What one observation does to incident k and its ticket. */
  lemma HandledTicket(before: Tables, o: Observation, after: Tables, window: int, k: nat)
    requires Handled(before, o, after, window) && ResolvedDated(before) && OwnTickets(before)
    ensures OwnTickets(after) && |before.incidents| <= |after.incidents| <= |before.incidents| + 1
    ensures k < |before.incidents| ==>
      && after.incidents[k].where == before.incidents[k].where
      && (after.incidents[k].status != before.incidents[k].status && o.Over? ==> after.incidents[k].status == Open)
      && (after.incidents[k].status != before.incidents[k].status && o.Under? ==> after.incidents[k].status == Resolved)
      && after.tickets[k] == if before.incidents[k].status != Resolved && after.incidents[k].status == Resolved
                             then TicketResolved else before.tickets[k]
    ensures |before.incidents| == k < |after.incidents| ==>
        after.incidents[k].status == Open && after.tickets[k] == TicketOpen
  {
  }

  /** Over every history an incident's own ticket is resolved exactly when that incident has ever recovered. */
  lemma {:induction false} TicketResolvedExactly(states: seq<Tables>, observed: seq<Observation>, window: int, n: nat,
                                                 k: nat)
    requires Evolves(states, observed, window) && states[0] == Tables([], []) && n <= |observed|
    ensures OwnTickets(states[n])
    ensures k < |states[n].incidents| ==> (states[n].tickets[k] == TicketResolved <==> EverRecovered(states, n, k))
    ensures k >= |states[n].incidents| ==> !EverRecovered(states, n, k)
  {
    if n > 0 {
      TicketResolvedExactly(states, observed, window, n - 1, k);
      ResolvedExactlyWhenDated(states, observed, window, n - 1);
      assert Handled(states[n - 1], observed[n - 1], states[n], window);
      HandledTicket(states[n - 1], observed[n - 1], states[n], window, k);
      assert EverRecovered(states, n, k) <==> EverRecovered(states, n - 1, k) || RecoversAt(states, n - 1, k);
    }
  }

  /** What last happened to an incident: it never recovered, is recovered, or was reopened after a recovery. */
  datatype Past = NeverRecovered | RecoveredLast | ReopenedLast

  ghost function PastOf(states: seq<Tables>, n: nat, k: nat): Past
    requires n < |states|
  {
    if n == 0 then NeverRecovered
    else if RecoversAt(states, n - 1, k) then RecoveredLast
    else if ReopensAt(states, n - 1, k) then ReopenedLast
    else PastOf(states, n - 1, k)
  }

  /** Over every history an incident is open while its ticket is resolved exactly when it was reopened after
      its last recovery; status and ticket agree in every other case. */
  lemma {:induction false} TicketDisagreesExactly(states: seq<Tables>, observed: seq<Observation>, window: int, n: nat,
                                                  k: nat)
    requires Evolves(states, observed, window) && states[0] == Tables([], []) && n <= |observed|
    ensures OwnTickets(states[n])
    ensures k < |states[n].incidents| ==>
      var status, ticket, past := states[n].incidents[k].status, states[n].tickets[k], PastOf(states, n, k);
      && (status == Open && ticket == TicketResolved <==> past == ReopenedLast)
      && (status == Resolved && ticket == TicketResolved <==> past == RecoveredLast)
      && (status == Open && ticket == TicketOpen <==> past == NeverRecovered)
    ensures k >= |states[n].incidents| ==> PastOf(states, n, k) == NeverRecovered
  {
    ResolvedExactlyWhenDated(states, observed, window, n);
    if n > 0 {
      TicketDisagreesExactly(states, observed, window, n - 1, k);
      ResolvedExactlyWhenDated(states, observed, window, n - 1);
      assert Handled(states[n - 1], observed[n - 1], states[n], window);
      HandledTicket(states[n - 1], observed[n - 1], states[n], window, k);
      if k < |states[n].incidents| {
        assert states[n].incidents[k] in states[n].incidents;
      }
      if k < |states[n - 1].incidents| {
        assert states[n - 1].incidents[k] in states[n - 1].incidents;
      }
    }
  }

  /** Told from the observations alone, for a key with one incident: some recovery found it open. */
  function RecoveryObserved(observed: seq<Observation>, where: Where, window: int): bool {
    if observed == [] then false
    else
      var o, before := observed[|observed| - 1], observed[..|observed| - 1];
      RecoveryObserved(before, where, window)
      || (o.Under? && o.where == where && Tracked(before, where, window).One? && Tracked(before, where, window).open)
  }

  lemma {:induction false} NothingMeansNoRecovery(observed: seq<Observation>, where: Where, window: int)
    requires Tracked(observed, where, window) == Nothing
    ensures !RecoveryObserved(observed, where, window)
  {
    if observed != [] {
      NothingMeansNoRecovery(observed[..|observed| - 1], where, window);
    }
  }

  /** Whether this observation resolves the key's only incident. */
  lemma OnlyRecovery(before: Tables, o: Observation, after: Tables, window: int, t: Track, k: nat)
    requires Handled(before, o, after, window) && ResolvedDated(before) && OwnTickets(before)
    requires k < |before.incidents| && t.One? && Agrees(t, before.incidents, before.incidents[k].where)
    ensures k < |after.incidents| && after.incidents[k].where == before.incidents[k].where
    ensures before.incidents[k].status != Resolved && after.incidents[k].status == Resolved
            <==> o.Under? && o.where == before.incidents[k].where && t.open
  {
    HandledTicket(before, o, after, window, k);
    assert before.incidents[k] in before.incidents;
    if o.Under? {
      var pick: Option<nat> :| Latest(before.incidents, i => Recoverable(i, o.where), pick)
          && after == Recovered(before, o, pick);
      if pick.Some? && o.where == before.incidents[k].where {
        CountOneUnique(before.incidents, o.where, k, pick.value);
      }
    }
  }

  /** For a key whose observations kept to one incident, its ticket is resolved exactly when some recovery
      was observed while the incident was open; with the automaton's own flag this says when an open
      incident has a resolved ticket. */
  lemma {:induction false} OnlyTicketExactly(states: seq<Tables>, observed: seq<Observation>, window: int, n: nat,
                                             k: nat)
    requires Evolves(states, observed, window) && states[0] == Tables([], []) && n <= |observed|
        && k < |states[n].incidents|
    requires Tracked(observed[..n], states[n].incidents[k].where, window).One?
    ensures OwnTickets(states[n])
    ensures
      var where := states[n].incidents[k].where;
      && (states[n].tickets[k] == TicketResolved <==> RecoveryObserved(observed[..n], where, window))
      && (states[n].incidents[k].status == Open <==> Tracked(observed[..n], where, window).open)
  {
    var where, p := states[n].incidents[k].where, n - 1;
    OneIncidentExactly(states, observed, window, n, where);
    TicketDisagreesExactly(states, observed, window, n, k);
    assert states[n].incidents[k] in states[n].incidents;
    OneIncidentExactly(states, observed, window, p, where);
    TicketDisagreesExactly(states, observed, window, p, k);
    ResolvedExactlyWhenDated(states, observed, window, p);
    assert Handled(states[p], observed[p], states[n], window);
    HandledTicket(states[p], observed[p], states[n], window, k);
    assert observed[..n][..p] == observed[..p];
    var t := Tracked(observed[..p], where, window);
    if k < |states[p].incidents| {
      CountZero(states[p].incidents, where);
      assert states[p].incidents[k] in states[p].incidents;
      OnlyTicketExactly(states, observed, window, p, k);
      OnlyRecovery(states[p], observed[p], states[n], window, t, k);
    } else {
      FirstOfItsKey(states[p], observed[p], states[n], window, where, k);
      NothingMeansNoRecovery(observed[..p], where, window);
    }
  }

  /** A new incident that is its key's only one: the key had none before. */
  lemma FirstOfItsKey(before: Tables, o: Observation, after: Tables, window: int, where: Where, k: nat)
    requires Handled(before, o, after, window) && |before.incidents| == k < |after.incidents|
    requires after.incidents[k].where == where && CountAt(after.incidents, where) == 1
    ensures CountAt(before.incidents, where) == 0 && o.Over?
  {
    assert after.incidents == before.incidents + [after.incidents[k]];
    AddOne(before.incidents, after.incidents[k], where);
  }

  /** A history that ends with an open incident and a resolved ticket: over, recovered, over again in time. */
  lemma ReopenedWithResolvedTicket(where: Where, window: int) returns (states: seq<Tables>, observed: seq<Observation>)
    requires window >= 1
    ensures observed == [Over(where, 0, false), Under(where, 1), Over(where, 2, false)]
    ensures Evolves(states, observed, window) && states[0] == Tables([], [])
    ensures |states[3].incidents| == 1 && states[3].incidents[0].status == Open && states[3].tickets == [TicketResolved]
  {
    observed := [Over(where, 0, false), Under(where, 1), Over(where, 2, false)];
    var s0 := Tables([], []);
    var s1 := Counted(s0, observed[0], None);
    var s2 := Recovered(s1, observed[1], Some(0));
    var s3 := Counted(s2, observed[2], Some(0));
    assert Latest(s0.incidents, i => Correlates(i, where, 0, window), None);
    assert s1.incidents == [Incident(where, Open, false, 1, 0, 0, None, 0)] && s1.tickets == [TicketOpen];
    assert Latest(s1.incidents, i => Recoverable(i, where), Some(0));
    assert s2.incidents == [Incident(where, Resolved, false, 1, 0, 1, Some(1), 0)] && s2.tickets == [TicketResolved];
    assert Latest(s2.incidents, i => Correlates(i, where, 2, window), Some(0));
    assert Handled(s0, observed[0], s1, window) && Handled(s1, observed[1], s2, window)
        && Handled(s2, observed[2], s3, window);
    states := [s0, s1, s2, s3];
  }

  // ---- Detection

  /** An inventory's filesystem entry with numeric sizes; other entries are skipped before this point. */
  datatype Filesystem = Filesystem(mountpoint: string, total: real, free: real)

  /** round(x, 2) */
  function UsedPercent(f: Filesystem): real
    requires f.total > 0.0
  {
    Rounding.RoundHalfEven((f.total - f.free) * 100.0 / f.total * 100.0) as real / 100.0
  }

  predicate Sensible(f: Filesystem) {
    f.total > 0.0 && 0.0 <= f.free <= f.total
  }

  function KeyOf(f: Filesystem): string {
    "low_disk_space:" + (if |f.mountpoint| > 180 then f.mountpoint[..180] else f.mountpoint)
  }

  function ObservationOf(f: Filesystem, tenant: string, device: string, at: int, threshold: real): Observation
    requires Sensible(f)
  {
    var where := Where(tenant, device, KeyOf(f));
    if UsedPercent(f) < threshold then Under(where, at) else Over(where, at, UsedPercent(f) >= 95.0)
  }

  /** What a filesystem counts as, told from its own numbers: over the threshold when the used percentage, to the
      nearest hundredth, reaches it, and severe when that reaches 95. */
  lemma ObservedExactly(f: Filesystem, tenant: string, device: string, at: int, threshold: real)
    requires Sensible(f)
    ensures
      var o, used := ObservationOf(f, tenant, device, at, threshold), (f.total - f.free) * 100.0 / f.total;
      && (used >= threshold + 0.005 ==> o.Over?)
      && (used < threshold - 0.005 ==> o.Under?)
      && (o.Over? && used >= 95.005 ==> o.severe)
      && (o.Over? && used < 94.995 ==> !o.severe)
      && used - 0.005 <= UsedPercent(f) <= used + 0.005
      && (o.Over? <==> UsedPercent(f) >= threshold)
      && (o.Over? ==> (o.severe <==> UsedPercent(f) >= 95.0))
      && o.where == Where(tenant, device, "low_disk_space:" + if |f.mountpoint| <= 180 then f.mountpoint
                                                             else f.mountpoint[..180])
      && o.at == at
  {
    Rounding.RoundIsNearest((f.total - f.free) * 100.0 / f.total * 100.0);
  }

  function ObservationsOf(fs: seq<Filesystem>, tenant: string, device: string, at: int, threshold: real)
      : seq<Observation> {
    if fs == [] then []
    else
      var last := fs[|fs| - 1];
      ObservationsOf(fs[..|fs| - 1], tenant, device, at, threshold)
      + (if Sensible(last) then [ObservationOf(last, tenant, device, at, threshold)] else [])
  }

  /** A filesystem is observed exactly when it has a size and its free space lies between none and all of it. */
  lemma ObservedWhenSensible(f: Filesystem, tenant: string, device: string, at: int, threshold: real)
    ensures |ObservationsOf([f], tenant, device, at, threshold)|
         == if 0.0 < f.total && 0.0 <= f.free && f.free <= f.total then 1 else 0
  {
    assert [f][..0] == [];
  }

  lemma ObservationsSnoc(fs: seq<Filesystem>, n: nat, tenant: string, device: string, at: int, threshold: real)
    requires n < |fs|
    ensures ObservationsOf(fs[..n + 1], tenant, device, at, threshold)
         == ObservationsOf(fs[..n], tenant, device, at, threshold)
            + (if Sensible(fs[n]) then [ObservationOf(fs[n], tenant, device, at, threshold)] else [])
  {
    assert fs[..n + 1][..n] == fs[..n];
  }

  lemma EvolvesOn(states: seq<Tables>, observed: seq<Observation>, o: Observation, after: Tables, window: int)
    requires Evolves(states, observed, window) && Handled(states[|observed|], o, after, window)
    ensures Evolves(states + [after], observed + [o], window)
  {
    var longer, more := states + [after], observed + [o];
    forall i {:trigger more[i]} | 0 <= i < |more| ensures Handled(longer[i], more[i], longer[i + 1], window) {
      if i < |observed| {
        assert Handled(states[i], observed[i], states[i + 1], window);
      }
    }
  }

  /** No incident takes the observation, so it opens one, with a ticket. */
  ghost predicate OpensIncident(t: Tables, o: Observation, window: int) {
    o.Over? && Latest(t.incidents, i => Correlates(i, o.where, o.at, window), None)
  }

  /** Handling stops before filesystem `stop`, which would open an incident. */
  ghost predicate StopsAt(
    before: Tables, states: seq<Tables>, fs: seq<Filesystem>, stop: nat, tenant: string, device: string, at: int,
    threshold: real, window: int)
  {
    && stop < |fs| && Sensible(fs[stop]) && states != [] && states[0] == before
    && Evolves(states, ObservationsOf(fs[..stop], tenant, device, at, threshold), window)
    && OpensIncident(states[|states| - 1], ObservationOf(fs[stop], tenant, device, at, threshold), window)
  }

  class IncidentStore {
    var incidents: seq<Incident>
    var tickets: seq<TicketStatus>
    /** Minutes, hours and so on are microseconds throughout; an owner must exist before tickets can. */
    const window: int
    const threshold: real

    function View(): Tables
      reads this
    {
      Tables(incidents, tickets)
    }

    constructor (hours: int, threshold: real)
      ensures View() == Tables([], []) && window == hours * HOUR && this.threshold == threshold
    {
      window, this.threshold := hours * HOUR, threshold;
      incidents, tickets := [], [];
    }

    method Pick(matches: Incident -> bool) returns (pick: Option<nat>)
      ensures Latest(incidents, matches, pick)
    {
      pick := None;
      for k := 0 to |incidents|
        invariant pick.Some? ==> pick.value < k
        invariant Latest(incidents[..k], matches, pick)
      {
        assert incidents[..k + 1] == incidents[..k] + [incidents[k]];
        if matches(incidents[k]) && (pick.None? || incidents[pick.value].lastAt < incidents[k].lastAt) {
          pick := Some(k);
        }
      }
      assert incidents[..|incidents|] == incidents;
    }

    method ResolveRecovered(o: Observation)
      requires o.Under?
      modifies this
      ensures Handled(old(View()), o, View(), window)
    {
      var pick := Pick(i => Recoverable(i, o.where));
      ghost var before := View();
      assert Latest(before.incidents, i => Recoverable(i, o.where), pick);
      if pick.Some? {
        var i := incidents[pick.value];
        i := i.(status := Resolved, resolvedAt := Some(o.at), lastAt := o.at);
        incidents := incidents[pick.value := i];
        if i.ticket < |tickets| {
          tickets := tickets[i.ticket := TicketResolved];
        }
      }
      assert View() == Recovered(before, o, pick);
    }

    /** False when a ticket would be needed and the tenant has no active user: the exception. */
    method Correlate(o: Observation, hasUser: bool) returns (ok: bool)
      requires o.Over?
      modifies this
      ensures if ok then Handled(old(View()), o, View(), window)
              else View() == old(View()) && !hasUser && OpensIncident(old(View()), o, window)
    {
      var pick := Pick(i => Correlates(i, o.where, o.at, window));
      ghost var before := View();
      assert Latest(before.incidents, i => Correlates(i, o.where, o.at, window), pick);
      if pick.Some? {
        var i := incidents[pick.value];
        i := i.(lastAt := o.at, count := i.count + 1, severe := o.severe);
        if i.status in {Resolved, Closed} {
          i := i.(status := Open, resolvedAt := None);
        }
        incidents := incidents[pick.value := i];
      } else {
        if !hasUser {
          return false;
        }
        incidents := incidents + [Incident(o.where, Open, o.severe, 1, o.at, o.at, None, |tickets|)];
        tickets := tickets + [TicketOpen];
      }
      assert View() == Counted(before, o, pick);
      return true;
    }

    /** detect_inventory_incidents: the sensible filesystems in order, each one observation. If one needs a
        ticket and the tenant has no active user, the exception undoes the whole request. */
    method DetectInventory(tenant: string, device: string, fs: seq<Filesystem>, at: int, hasUser: bool)
      returns (ok: bool, ghost states: seq<Tables>, ghost stop: nat)
      modifies this
      ensures ok ==> Evolves(states, ObservationsOf(fs, tenant, device, at, threshold), window)
      ensures ok ==> states[0] == old(View()) && states[|states| - 1] == View()
      ensures !ok ==> View() == old(View())
      ensures !ok ==> !hasUser && StopsAt(old(View()), states, fs, stop, tenant, device, at, threshold, window)
    {
      var incidentsBefore, ticketsBefore := incidents, tickets;
      states, stop := [View()], 0;
      ok := true;
      for k := 0 to |fs|
        invariant Evolves(states, ObservationsOf(fs[..k], tenant, device, at, threshold), window)
        invariant states[0] == old(View()) && states[|states| - 1] == View()
      {
        ObservationsSnoc(fs, k, tenant, device, at, threshold);
        if !Sensible(fs[k]) {
          continue;
        }
        ghost var observed := ObservationsOf(fs[..k], tenant, device, at, threshold);
        var o := ObservationOf(fs[k], tenant, device, at, threshold);
        if o.Under? {
          ResolveRecovered(o);
        } else {
          ok := Correlate(o, hasUser);
          if !ok {
            stop := k;
            incidents, tickets := incidentsBefore, ticketsBefore;
            return;
          }
        }
        EvolvesOn(states, observed, o, View(), window);
        states := states + [View()];
      }
      assert fs[..|fs|] == fs;
    }
  }
}
