/**
  The app-event routing registry: a table of routes, each binding an event of
  an external app (qualified by an identifier value) to a flow of a project.
  Rows are written by conflict-keyed upserts and removed per (project, flow).
 */
module AppEventRouting {
  import opened Wrappers

  /** One stored row of the routing table. */
  datatype Route = Route(
    id: string,
    appName: string,
    event: string,
    identifierValue: string,
    flowId: string,
    projectId: string)

  /** The columns an upsert resolves conflicts on; flowId is not one of them. */
  datatype ConflictKey = ConflictKey(appName: string, event: string, identifierValue: string, projectId: string)

  function KeyOf(r: Route): ConflictKey {
    ConflictKey(r.appName, r.event, r.identifierValue, r.projectId)
  }

  /** The table invariant: at most one row per conflict key. */
  ghost predicate UniqueKeys(rows: seq<Route>) {
    forall i, j :: 0 <= i < j < |rows| ==> KeyOf(rows[i]) != KeyOf(rows[j])
  }

  /** What a row routes, with its identity left out. */
  datatype Binding = Binding(key: ConflictKey, flowId: string)

  function Bindings(rows: seq<Route>): (b: seq<Binding>)
    ensures |b| == |rows|
  {
    seq(|rows|, i requires 0 <= i < |rows| => Binding(KeyOf(rows[i]), rows[i].flowId))
  }

  /** Some row of `rows` routes key `k` to flow `flowId`. */
  predicate BindsTo(rows: seq<Route>, k: ConflictKey, flowId: string) {
    Binding(k, flowId) in Bindings(rows)
  }

  predicate HasKey(rows: seq<Route>, k: ConflictKey) {
    exists i :: 0 <= i < |rows| && KeyOf(rows[i]) == k
  }

  // ---------------------------------------------------------------------------
  // The repository's filters: findBy and delete take a partial row of column
  // values, and a row matches when it agrees on every column given.
  // ---------------------------------------------------------------------------

  datatype RouteFilter = RouteFilter(
    appName: Option<string>,
    event: Option<string>,
    identifierValue: Option<string>,
    flowId: Option<string>,
    projectId: Option<string>)

  predicate ColumnMatches(want: Option<string>, have: string) {
    want.None? || want.value == have
  }

  predicate Satisfies(r: Route, f: RouteFilter) {
    && ColumnMatches(f.appName, r.appName)
    && ColumnMatches(f.event, r.event)
    && ColumnMatches(f.identifierValue, r.identifierValue)
    && ColumnMatches(f.flowId, r.flowId)
    && ColumnMatches(f.projectId, r.projectId)
  }

  /** The filter listListeners passes to findBy. */
  function ListFilter(appName: string, event: string, identifierValue: string): RouteFilter {
    RouteFilter(Some(appName), Some(event), Some(identifierValue), None, None)
  }

  /** The filter deleteListeners passes to delete. */
  function FlowFilter(projectId: string, flowId: string): RouteFilter {
    RouteFilter(None, None, None, Some(flowId), Some(projectId))
  }

  /**
    The rows whose match against `f` equals `keep`, in table order: with
    keep = true this is findBy(f), with keep = false what delete(f) leaves.
   */
  function Select(rows: seq<Route>, f: RouteFilter, keep: bool): (r: seq<Route>)
    ensures forall x {:trigger multiset(r)[x]} ::
      multiset(r)[x] == if Satisfies(x, f) == keep then multiset(rows)[x] else 0
    ensures forall i :: 0 <= i < |r| ==> Satisfies(r[i], f) == keep
    ensures |r| <= |rows|
  {
    if rows == [] then []
    else
      assert rows == [rows[0]] + rows[1..];
      assert multiset(rows) == multiset{rows[0]} + multiset(rows[1..]);
      var rest := Select(rows[1..], f, keep);
      if Satisfies(rows[0], f) == keep then [rows[0]] + rest else rest
  }

  /** Selection keeps the table order: it distributes over concatenation. */
  lemma {:induction false} SelectAppend(a: seq<Route>, b: seq<Route>, f: RouteFilter, keep: bool)
    ensures Select(a + b, f, keep) == Select(a, f, keep) + Select(b, f, keep)
  {
    if a == [] {
      assert a + b == b;
    } else {
      assert (a + b)[0] == a[0];
      assert (a + b)[1..] == a[1..] + b;
      SelectAppend(a[1..], b, f, keep);
      if Satisfies(a[0], f) == keep {
        assert [a[0]] + (Select(a[1..], f, keep) + Select(b, f, keep))
            == ([a[0]] + Select(a[1..], f, keep)) + Select(b, f, keep);
      }
    }
  }

  /** Selecting when every row already qualifies returns the table unchanged. */
  lemma {:induction false} SelectAll(rows: seq<Route>, f: RouteFilter, keep: bool)
    requires forall i :: 0 <= i < |rows| ==> Satisfies(rows[i], f) == keep
    ensures Select(rows, f, keep) == rows
  {
    if rows != [] {
      SelectAll(rows[1..], f, keep);
    }
  }

  /** Removing rows cannot create a duplicate conflict key. */
  lemma {:induction false} SelectKeepsUnique(rows: seq<Route>, f: RouteFilter, keep: bool)
    requires UniqueKeys(rows)
    ensures UniqueKeys(Select(rows, f, keep))
  {
    if rows != [] {
      SelectKeepsUnique(rows[1..], f, keep);
      var rest := Select(rows[1..], f, keep);
      if Satisfies(rows[0], f) == keep {
        var r := [rows[0]] + rest;
        forall i, j | 0 <= i < j < |r| ensures KeyOf(r[i]) != KeyOf(r[j]) {
          if i == 0 {
            assert r[j] == rest[j - 1];
            assert multiset(rest)[rest[j - 1]] > 0;
            assert rest[j - 1] in rows[1..];
            var k :| 0 <= k < |rows[1..]| && rows[1..][k] == rest[j - 1];
            assert rows[k + 1] == r[j];
          } else {
            assert r[i] == rest[i - 1] && r[j] == rest[j - 1];
          }
        }
      }
    }
  }

  // ---------------------------------------------------------------------------
  // listListeners
  // ---------------------------------------------------------------------------

  /** A row is selected exactly when it is stored and its match against `f` equals `keep`. */
  lemma SelectMembers(rows: seq<Route>, f: RouteFilter, keep: bool)
    ensures forall x :: x in Select(rows, f, keep) <==> x in rows && Satisfies(x, f) == keep
  {
    var r := Select(rows, f, keep);
    forall x ensures x in r <==> x in rows && Satisfies(x, f) == keep {
      assert x in r <==> x in multiset(r);
      assert x in rows <==> x in multiset(rows);
    }
  }

  /**
    listListeners returns exactly the stored rows that carry the given app
    name, event and identifier value, from any project; when no row carries
    the triple the result is empty.
   */
  lemma ListListenersExact(rows: seq<Route>, appName: string, event: string, identifierValue: string)
    ensures var found := Select(rows, ListFilter(appName, event, identifierValue), true);
      && (forall x :: x in found <==>
            x in rows && x.appName == appName && x.event == event && x.identifierValue == identifierValue)
      && (found == [] <==>
            forall i :: 0 <= i < |rows| ==>
              !(rows[i].appName == appName && rows[i].event == event && rows[i].identifierValue == identifierValue))
  {
    var found := Select(rows, ListFilter(appName, event, identifierValue), true);
    SelectMembers(rows, ListFilter(appName, event, identifierValue), true);
    if found != [] {
      assert found[0] in rows;
    }
    forall i | 0 <= i < |rows| &&
      rows[i].appName == appName && rows[i].event == event && rows[i].identifierValue == identifierValue
      ensures found != []
    {
      assert rows[i] in found;
    }
  }

  // ---------------------------------------------------------------------------
  // Upsert on the conflict key
  // ---------------------------------------------------------------------------

  /** The first row holding conflict key `k`, if any. */
  function IndexOfKey(rows: seq<Route>, k: ConflictKey): (r: Option<nat>)
    ensures r.Some? ==> r.value < |rows| && KeyOf(rows[r.value]) == k
    ensures r.Some? ==> forall j :: 0 <= j < r.value ==> KeyOf(rows[j]) != k
    ensures r.None? <==> !HasKey(rows, k)
  {
    if rows == [] then None
    else if KeyOf(rows[0]) == k then Some(0)
    else
      match IndexOfKey(rows[1..], k)
      case None =>
        assert forall j :: 1 <= j < |rows| ==> rows[j] == rows[1..][j - 1];
        None
      case Some(i) =>
        assert rows[i + 1] == rows[1..][i];
        Some(i + 1)
  }

  /** IndexOfKey looks at keys only: tables with the same key column agree on it. */
  lemma {:induction false} IndexOfKeySameKeys(a: seq<Route>, b: seq<Route>, k: ConflictKey)
    requires |a| == |b|
    requires forall i :: 0 <= i < |a| ==> KeyOf(a[i]) == KeyOf(b[i])
    ensures IndexOfKey(a, k) == IndexOfKey(b, k)
  {
    if a != [] && KeyOf(a[0]) != k {
      assert KeyOf(b[0]) == KeyOf(a[0]);
      IndexOfKeySameKeys(a[1..], b[1..], k);
    }
  }

  /**
    The repository upsert: when a row holds the route's conflict key it is
    overwritten in place by the route (a new flowId and id), otherwise the
    route is appended.
   */
  function Upsert(rows: seq<Route>, route: Route): (r: seq<Route>)
    ensures route in r
    ensures |r| == if HasKey(rows, KeyOf(route)) then |rows| else |rows| + 1
  {
    match IndexOfKey(rows, KeyOf(route))
    case Some(i) =>
      assert rows[i := route][i] == route;
      rows[i := route]
    case None =>
      assert (rows + [route])[|rows|] == route;
      rows + [route]
  }

  /**
    An upsert touches one row only: every old row keeps its place and key,
    rows of other keys keep their content, and every row is the route or
    the old row at its place.
   */
  lemma UpsertFrame(rows: seq<Route>, route: Route)
    ensures var r := Upsert(rows, route);
      && (forall i :: 0 <= i < |rows| ==> KeyOf(r[i]) == KeyOf(rows[i]))
      && (forall i :: 0 <= i < |rows| && KeyOf(rows[i]) != KeyOf(route) ==> r[i] == rows[i])
      && (forall i :: 0 <= i < |r| ==> r[i] == route || (i < |rows| && r[i] == rows[i]))
  {
  }

  /** After an upsert the route's key is bound to the route's flow. */
  lemma UpsertBinds(rows: seq<Route>, route: Route)
    ensures BindsTo(Upsert(rows, route), KeyOf(route), route.flowId)
  {
    var r := Upsert(rows, route);
    var k :| 0 <= k < |r| && r[k] == route;
    assert Bindings(r)[k] == Binding(KeyOf(route), route.flowId);
  }

  /** An upsert keeps every binding of another key. */
  lemma UpsertKeepsOtherBinding(rows: seq<Route>, route: Route, key: ConflictKey, flowId: string)
    requires key != KeyOf(route)
    requires BindsTo(rows, key, flowId)
    ensures BindsTo(Upsert(rows, route), key, flowId)
  {
    var r := Upsert(rows, route);
    UpsertFrame(rows, route);
    var k :| 0 <= k < |rows| && Bindings(rows)[k] == Binding(key, flowId);
    assert r[k] == rows[k];
    assert Bindings(r)[k] == Binding(key, flowId);
  }

  /** An upsert keeps the at-most-one-row-per-key invariant. */
  lemma UpsertKeepsUnique(rows: seq<Route>, route: Route)
    requires UniqueKeys(rows)
    ensures UniqueKeys(Upsert(rows, route))
  {
    var r := Upsert(rows, route);
    if !HasKey(rows, KeyOf(route)) {
      forall i, j | 0 <= i < j < |r| ensures KeyOf(r[i]) != KeyOf(r[j]) {
        if j == |rows| {
          assert r[j] == route;
        }
      }
    }
  }

  /**
    Overwrite: upserting a key that is already stored leaves the row count
    as it was and routes the key to the new flow, and on a table satisfying
    the invariant no row of that key keeps another flow.
   */
  lemma UpsertOverwrites(rows: seq<Route>, route: Route)
    requires UniqueKeys(rows)
    requires HasKey(rows, KeyOf(route))
    ensures |Upsert(rows, route)| == |rows|
    ensures BindsTo(Upsert(rows, route), KeyOf(route), route.flowId)
    ensures forall i :: 0 <= i < |rows| && KeyOf(Upsert(rows, route)[i]) == KeyOf(route) ==>
      Upsert(rows, route)[i] == route
  {
    UpsertBinds(rows, route);
    UpsertKeepsUnique(rows, route);
    var r := Upsert(rows, route);
    var k :| 0 <= k < |r| && r[k] == route;
    assert forall i :: 0 <= i < |r| && KeyOf(r[i]) == KeyOf(route) ==> i == k;
  }

  /** Updates of two different rows can be applied in either order. */
  lemma UpdatesCommute(rows: seq<Route>, i: nat, a: Route, j: nat, b: Route)
    requires i < |rows| && j < |rows| && i != j
    ensures rows[i := a][j := b] == rows[j := b][i := a]
  {
  }

  /** Updating a row and appending another can be applied in either order. */
  lemma UpdateAppendCommute(rows: seq<Route>, i: nat, a: Route, b: Route)
    requires i < |rows|
    ensures rows[i := a] + [b] == (rows + [b])[i := a]
  {
  }

  /** Where the key is stored at index i, the upsert is the update of row i. */
  lemma UpsertAt(rows: seq<Route>, route: Route, i: nat)
    requires IndexOfKey(rows, KeyOf(route)) == Some(i)
    ensures Upsert(rows, route) == rows[i := route]
  {
  }

  /** Overwriting a row with a route of the same key leaves the key column as it was. */
  lemma OverwriteKeepsKeys(rows: seq<Route>, i: nat, route: Route)
    requires i < |rows| && KeyOf(rows[i]) == KeyOf(route)
    ensures forall j :: 0 <= j < |rows| ==> KeyOf(rows[i := route][j]) == KeyOf(rows[j])
  {
  }

  /** Appending a route of another key does not make an absent key present. */
  lemma AppendKeepsAbsent(rows: seq<Route>, route: Route, k: ConflictKey)
    requires !HasKey(rows, k) && KeyOf(route) != k
    ensures !HasKey(rows + [route], k)
  {
    assert forall j :: 0 <= j < |rows| ==> (rows + [route])[j] == rows[j];
  }

  /** Commuting upserts, both keys stored: two in-place overwrites at different rows. */
  lemma UpsertsCommuteStored(rows: seq<Route>, a: Route, b: Route)
    requires KeyOf(a) != KeyOf(b)
    requires HasKey(rows, KeyOf(a)) && HasKey(rows, KeyOf(b))
    ensures Upsert(Upsert(rows, a), b) == Upsert(Upsert(rows, b), a)
  {
    var i, j := IndexOfKey(rows, KeyOf(a)).value, IndexOfKey(rows, KeyOf(b)).value;
    OverwriteKeepsKeys(rows, i, a);
    OverwriteKeepsKeys(rows, j, b);
    IndexOfKeySameKeys(rows[i := a], rows, KeyOf(b));
    IndexOfKeySameKeys(rows[j := b], rows, KeyOf(a));
    UpsertAt(rows, a, i);
    UpsertAt(rows, b, j);
    UpsertAt(rows[i := a], b, j);
    UpsertAt(rows[j := b], a, i);
    UpdatesCommute(rows, i, a, j, b);
  }

  /** Commuting upserts, only a's key stored: an overwrite and an append. */
  lemma UpsertsCommuteMixed(rows: seq<Route>, a: Route, b: Route)
    requires KeyOf(a) != KeyOf(b)
    requires HasKey(rows, KeyOf(a)) && !HasKey(rows, KeyOf(b))
    ensures Upsert(Upsert(rows, a), b) == Upsert(Upsert(rows, b), a)
  {
    var i := IndexOfKey(rows, KeyOf(a)).value;
    OverwriteKeepsKeys(rows, i, a);
    IndexOfKeySameKeys(rows[i := a], rows, KeyOf(b));
    assert IndexOfKey(rows + [b], KeyOf(a)) == Some(i) by {
      assert forall j :: 0 <= j < |rows| ==> (rows + [b])[j] == rows[j];
    }
    UpsertAt(rows, a, i);
    UpsertAt(rows + [b], a, i);
    UpdateAppendCommute(rows, i, a, b);
  }

  /** Commuting upserts, neither key stored: two appends. */
  lemma UpsertsCommuteFresh(rows: seq<Route>, a: Route, b: Route)
    requires KeyOf(a) != KeyOf(b)
    requires !HasKey(rows, KeyOf(a)) && !HasKey(rows, KeyOf(b))
    ensures multiset(Upsert(Upsert(rows, a), b)) == multiset(Upsert(Upsert(rows, b), a))
  {
    AppendKeepsAbsent(rows, a, KeyOf(b));
    AppendKeepsAbsent(rows, b, KeyOf(a));
    assert multiset(rows + [a] + [b]) == multiset(rows + [b] + [a]);
  }

  /**
    Two upserts on different conflict keys commute up to row order, which is
    why issuing them concurrently does not change the resulting table.
   */
  lemma UpsertsCommute(rows: seq<Route>, a: Route, b: Route)
    requires KeyOf(a) != KeyOf(b)
    ensures multiset(Upsert(Upsert(rows, a), b)) == multiset(Upsert(Upsert(rows, b), a))
  {
    var ha, hb := HasKey(rows, KeyOf(a)), HasKey(rows, KeyOf(b));
    if ha && hb {
      UpsertsCommuteStored(rows, a, b);
    } else if ha {
      UpsertsCommuteMixed(rows, a, b);
    } else if hb {
      UpsertsCommuteMixed(rows, b, a);
    } else {
      UpsertsCommuteFresh(rows, a, b);
    }
  }

  /** Two upserts on the same conflict key: the later write wins outright. */
  lemma UpsertLastWriteWins(rows: seq<Route>, a: Route, b: Route)
    requires KeyOf(a) == KeyOf(b)
    ensures Upsert(Upsert(rows, a), b) == Upsert(rows, b)
  {
    var k := KeyOf(a);
    match IndexOfKey(rows, k)
    case Some(i) =>
      IndexOfKeySameKeys(rows[i := a], rows, k);
    case None =>
      var ra := rows + [a];
      assert IndexOfKey(ra, k) == Some(|rows|) by {
        assert KeyOf(ra[|rows|]) == k;
        assert forall j :: 0 <= j < |rows| ==> ra[j] == rows[j];
      }
  }

  // ---------------------------------------------------------------------------
  // createListeners
  // ---------------------------------------------------------------------------

  /** The arguments createListeners shares across all its events. */
  datatype Subscription = Subscription(appName: string, identifierValue: string, flowId: string, projectId: string)

  /** The row createListeners upserts for one event, with `id` from the id generator. */
  function RouteFor(s: Subscription, event: string, id: string): Route {
    Route(id, s.appName, event, s.identifierValue, s.flowId, s.projectId)
  }

  function KeyFor(s: Subscription, event: string): ConflictKey {
    ConflictKey(s.appName, event, s.identifierValue, s.projectId)
  }

  /** Key `k` is one that registering `events` for `s` writes. */
  predicate Covers(s: Subscription, events: seq<string>, k: ConflictKey) {
    k.appName == s.appName && k.identifierValue == s.identifierValue && k.projectId == s.projectId && k.event in events
  }

  /** The table after upserting the route of each event in turn; ids[i] is the id made for events[i]. */
  function CreateAll(rows: seq<Route>, s: Subscription, events: seq<string>, ids: seq<string>): seq<Route>
    requires |ids| == |events|
    decreases |events|
  {
    if |events| == 0 then rows
    else
      var n := |events| - 1;
      Upsert(CreateAll(rows, s, events[..n], ids[..n]), RouteFor(s, events[n], ids[n]))
  }

  /** createListeners keeps the at-most-one-row-per-key invariant. */
  lemma {:induction false} CreateAllKeepsUnique(
    rows: seq<Route>, s: Subscription, events: seq<string>, ids: seq<string>)
    requires |ids| == |events|
    requires UniqueKeys(rows)
    ensures UniqueKeys(CreateAll(rows, s, events, ids))
    decreases |events|
  {
    if |events| > 0 {
      var n := |events| - 1;
      var prev := CreateAll(rows, s, events[..n], ids[..n]);
      var route := RouteFor(s, events[n], ids[n]);
      assert CreateAll(rows, s, events, ids) == Upsert(prev, route);
      CreateAllKeepsUnique(rows, s, events[..n], ids[..n]);
      UpsertKeepsUnique(prev, route);
    }
  }

  /** One upsert of createListeners binds its event and keeps the events bound before it. */
  lemma BindsStep(prev: seq<Route>, s: Subscription, done: seq<string>, event: string, id: string)
    requires forall e :: e in done ==> BindsTo(prev, KeyFor(s, e), s.flowId)
    ensures forall e :: e in done + [event] ==>
      BindsTo(Upsert(prev, RouteFor(s, event, id)), KeyFor(s, e), s.flowId)
  {
    var route := RouteFor(s, event, id);
    forall e | e in done + [event] ensures BindsTo(Upsert(prev, route), KeyFor(s, e), s.flowId) {
      if e == event {
        UpsertBinds(prev, route);
      } else {
        assert e in done;
        UpsertKeepsOtherBinding(prev, route, KeyFor(s, e), s.flowId);
      }
    }
  }

  /** After createListeners every event's key is routed to the given flow. */
  lemma {:induction false} CreateAllBinds(
    rows: seq<Route>, s: Subscription, events: seq<string>, ids: seq<string>)
    requires |ids| == |events|
    ensures forall e :: e in events ==> BindsTo(CreateAll(rows, s, events, ids), KeyFor(s, e), s.flowId)
    decreases |events|
  {
    if |events| > 0 {
      var n := |events| - 1;
      CreateAllBinds(rows, s, events[..n], ids[..n]);
      BindsStep(CreateAll(rows, s, events[..n], ids[..n]), s, events[..n], events[n], ids[n]);
      assert events[..n] + [events[n]] == events;
    }
  }

  /**
    Exactly one row per registered event: on a table satisfying the
    invariant, createListeners leaves one row for each (appName, e,
    identifierValue, projectId) with e in events, and that row holds flowId.
   */
  lemma CreateAllRegisters(rows: seq<Route>, s: Subscription, events: seq<string>, ids: seq<string>)
    requires |ids| == |events|
    requires UniqueKeys(rows)
    ensures var r := CreateAll(rows, s, events, ids);
      && UniqueKeys(r)
      && forall e :: e in events ==>
           exists i :: 0 <= i < |r| && KeyOf(r[i]) == KeyFor(s, e) && r[i].flowId == s.flowId
  {
    var r := CreateAll(rows, s, events, ids);
    CreateAllKeepsUnique(rows, s, events, ids);
    CreateAllBinds(rows, s, events, ids);
    forall e | e in events
      ensures exists i :: 0 <= i < |r| && KeyOf(r[i]) == KeyFor(s, e) && r[i].flowId == s.flowId
    {
      var i :| 0 <= i < |r| && Bindings(r)[i] == Binding(KeyFor(s, e), s.flowId);
      assert KeyOf(r[i]) == KeyFor(s, e) && r[i].flowId == s.flowId;
    }
  }

  /** createListeners adds at most one row per event, and stored rows keep their place and key. */
  lemma {:induction false} CreateAllKeepsKeys(
    rows: seq<Route>, s: Subscription, events: seq<string>, ids: seq<string>)
    requires |ids| == |events|
    ensures var r := CreateAll(rows, s, events, ids);
      && |rows| <= |r| <= |rows| + |events|
      && forall i :: 0 <= i < |rows| ==> KeyOf(r[i]) == KeyOf(rows[i])
    decreases |events|
  {
    if |events| > 0 {
      var n := |events| - 1;
      CreateAllKeepsKeys(rows, s, events[..n], ids[..n]);
      UpsertFrame(CreateAll(rows, s, events[..n], ids[..n]), RouteFor(s, events[n], ids[n]));
    }
  }

  /** One upsert of createListeners keeps the rows of keys it does not register. */
  lemma UntouchedStep(
    rows: seq<Route>, prev: seq<Route>, s: Subscription,
    done: seq<string>, event: string, id: string, events: seq<string>)
    requires events == done + [event]
    requires |rows| <= |prev|
    requires forall i :: 0 <= i < |rows| && !Covers(s, done, KeyOf(rows[i])) ==> prev[i] == rows[i]
    ensures var r := Upsert(prev, RouteFor(s, event, id));
      && |rows| <= |r|
      && forall i :: 0 <= i < |rows| && !Covers(s, events, KeyOf(rows[i])) ==> r[i] == rows[i]
  {
    var route := RouteFor(s, event, id);
    UpsertFrame(prev, route);
    forall i | 0 <= i < |rows| && !Covers(s, done + [event], KeyOf(rows[i]))
      ensures Upsert(prev, route)[i] == rows[i]
    {
      var k := KeyOf(rows[i]);
      assert !Covers(s, done, k) by {
        if k.event in done {
          assert k.event in done + [event];
        }
      }
      assert k != KeyOf(route) by {
        assert event in done + [event];
      }
    }
  }

  /** Rows whose key is not one being registered keep their content. */
  lemma {:induction false} CreateAllUntouched(
    rows: seq<Route>, s: Subscription, events: seq<string>, ids: seq<string>)
    requires |ids| == |events|
    ensures var r := CreateAll(rows, s, events, ids);
      && |rows| <= |r|
      && forall i :: 0 <= i < |rows| && !Covers(s, events, KeyOf(rows[i])) ==> r[i] == rows[i]
    decreases |events|
  {
    if |events| > 0 {
      var n := |events| - 1;
      var prev := CreateAll(rows, s, events[..n], ids[..n]);
      CreateAllUntouched(rows, s, events[..n], ids[..n]);
      assert events == events[..n] + [events[n]];
      UntouchedStep(rows, prev, s, events[..n], events[n], ids[n], events);
      assert CreateAll(rows, s, events, ids) == Upsert(prev, RouteFor(s, events[n], ids[n]));
    }
  }

  /** One upsert of createListeners only writes a route of the given flow for a registered event. */
  lemma WritesOnlyFlowStep(
    rows: seq<Route>, prev: seq<Route>, s: Subscription,
    done: seq<string>, event: string, id: string, events: seq<string>)
    requires events == done + [event]
    requires forall i :: 0 <= i < |prev| ==>
      (i < |rows| && prev[i] == rows[i]) || (Covers(s, done, KeyOf(prev[i])) && prev[i].flowId == s.flowId)
    ensures var r := Upsert(prev, RouteFor(s, event, id));
      forall i :: 0 <= i < |r| ==>
        (i < |rows| && r[i] == rows[i]) || (Covers(s, events, KeyOf(r[i])) && r[i].flowId == s.flowId)
  {
    var route := RouteFor(s, event, id);
    var r := Upsert(prev, route);
    UpsertFrame(prev, route);
    forall i | 0 <= i < |r|
      ensures (i < |rows| && r[i] == rows[i]) || (Covers(s, events, KeyOf(r[i])) && r[i].flowId == s.flowId)
    {
      if r[i] == route {
        assert event in done + [event];
      } else if !(i < |rows| && prev[i] == rows[i]) {
        assert KeyOf(prev[i]).event in done + [event];
      }
    }
  }

  /** Every row that differs from the old table is a route of the given flow for one of the events. */
  lemma {:induction false} CreateAllWritesOnlyFlow(
    rows: seq<Route>, s: Subscription, events: seq<string>, ids: seq<string>)
    requires |ids| == |events|
    ensures var r := CreateAll(rows, s, events, ids);
      forall i :: 0 <= i < |r| ==>
        (i < |rows| && r[i] == rows[i]) || (Covers(s, events, KeyOf(r[i])) && r[i].flowId == s.flowId)
    decreases |events|
  {
    if |events| > 0 {
      var n := |events| - 1;
      var prev := CreateAll(rows, s, events[..n], ids[..n]);
      CreateAllWritesOnlyFlow(rows, s, events[..n], ids[..n]);
      assert events == events[..n] + [events[n]];
      WritesOnlyFlowStep(rows, prev, s, events[..n], events[n], ids[n], events);
      assert CreateAll(rows, s, events, ids) == Upsert(prev, RouteFor(s, events[n], ids[n]));
    }
  }

  /**
    What createListeners leaves alone: stored rows keep their place and key,
    rows whose key is not one being registered keep their content, and every
    row that differs from the old table is a route of the subscription's flow
    for one of the events. With no events the table is unchanged.
   */
  lemma CreateAllFrame(rows: seq<Route>, s: Subscription, events: seq<string>, ids: seq<string>)
    requires |ids| == |events|
    ensures var r := CreateAll(rows, s, events, ids);
      && |rows| <= |r| <= |rows| + |events|
      && (forall i :: 0 <= i < |rows| ==> KeyOf(r[i]) == KeyOf(rows[i]))
      && (forall i :: 0 <= i < |rows| && !Covers(s, events, KeyOf(rows[i])) ==> r[i] == rows[i])
      && (forall i :: 0 <= i < |r| ==>
            (i < |rows| && r[i] == rows[i]) || (Covers(s, events, KeyOf(r[i])) && r[i].flowId == s.flowId))
      && (events == [] ==> r == rows)
  {
    CreateAllKeepsKeys(rows, s, events, ids);
    CreateAllUntouched(rows, s, events, ids);
    CreateAllWritesOnlyFlow(rows, s, events, ids);
  }

  /**
    Overwrite at the level of a whole call: when every event's key is
    already stored, createListeners does not add a row.
   */
  lemma {:induction false} CreateAllNoGrowth(
    rows: seq<Route>, s: Subscription, events: seq<string>, ids: seq<string>)
    requires |ids| == |events|
    requires forall e :: e in events ==> HasKey(rows, KeyFor(s, e))
    ensures |CreateAll(rows, s, events, ids)| == |rows|
    decreases |events|
  {
    if |events| > 0 {
      var n := |events| - 1;
      var prev := CreateAll(rows, s, events[..n], ids[..n]);
      assert forall e :: e in events[..n] ==> e in events;
      CreateAllNoGrowth(rows, s, events[..n], ids[..n]);
      CreateAllKeepsKeys(rows, s, events[..n], ids[..n]);
      assert HasKey(prev, KeyFor(s, events[n])) by {
        assert events[n] in events;
        var i :| 0 <= i < |rows| && KeyOf(rows[i]) == KeyFor(s, events[n]);
        assert KeyOf(prev[i]) == KeyOf(rows[i]);
      }
    }
  }

  /** Upserting a key that is already routed to the route's flow changes no binding. */
  lemma UpsertRebinds(rows: seq<Route>, route: Route)
    requires UniqueKeys(rows)
    requires BindsTo(rows, KeyOf(route), route.flowId)
    ensures Bindings(Upsert(rows, route)) == Bindings(rows)
  {
    var k :| 0 <= k < |rows| && Bindings(rows)[k] == Binding(KeyOf(route), route.flowId);
    var i := IndexOfKey(rows, KeyOf(route)).value;
    assert KeyOf(rows[k]) == KeyOf(route);
    assert i == k;
    assert Bindings(rows[i := route]) == Bindings(rows);
  }

  /** Re-registering keys already routed to the flow changes no binding. */
  lemma {:induction false} CreateAllRebinds(
    rows: seq<Route>, s: Subscription, events: seq<string>, ids: seq<string>)
    requires |ids| == |events|
    requires UniqueKeys(rows)
    requires forall e :: e in events ==> BindsTo(rows, KeyFor(s, e), s.flowId)
    ensures Bindings(CreateAll(rows, s, events, ids)) == Bindings(rows)
    decreases |events|
  {
    if |events| > 0 {
      var n := |events| - 1;
      var prev := CreateAll(rows, s, events[..n], ids[..n]);
      var route := RouteFor(s, events[n], ids[n]);
      forall e | e in events[..n] ensures BindsTo(rows, KeyFor(s, e), s.flowId) {
        assert e in events;
      }
      CreateAllRebinds(rows, s, events[..n], ids[..n]);
      CreateAllKeepsUnique(rows, s, events[..n], ids[..n]);
      assert BindsTo(prev, KeyOf(route), route.flowId) by {
        assert events[n] in events;
        assert Bindings(prev) == Bindings(rows);
      }
      UpsertRebinds(prev, route);
      assert CreateAll(rows, s, events, ids) == Upsert(prev, route);
    }
  }

  /**
    Idempotence: calling createListeners a second time with the same
    arguments (and fresh ids) leaves, position by position, the same
    (key, flowId) bindings as calling it once; only the ids may differ.
   */
  lemma CreateListenersIdempotent(
    rows: seq<Route>, s: Subscription, events: seq<string>, ids1: seq<string>, ids2: seq<string>)
    requires |ids1| == |events| && |ids2| == |events|
    requires UniqueKeys(rows)
    ensures var once := CreateAll(rows, s, events, ids1);
      Bindings(CreateAll(once, s, events, ids2)) == Bindings(once)
  {
    var once := CreateAll(rows, s, events, ids1);
    CreateAllKeepsUnique(rows, s, events, ids1);
    CreateAllBinds(rows, s, events, ids1);
    CreateAllRebinds(once, s, events, ids2);
  }

  /** On a table with unique keys binding every event's key to the flow, such a key has no other binding. */
  lemma CoveredBindings(r: seq<Route>, s: Subscription, events: seq<string>, b: Binding)
    requires UniqueKeys(r)
    requires forall e :: e in events ==> BindsTo(r, KeyFor(s, e), s.flowId)
    requires Covers(s, events, b.key)
    ensures b in Bindings(r) <==> b.flowId == s.flowId
  {
    assert KeyFor(s, b.key.event) == b.key;
    assert BindsTo(r, b.key, s.flowId);
    if b in Bindings(r) {
      var i :| 0 <= i < |r| && Bindings(r)[i] == b;
      var j :| 0 <= j < |r| && Bindings(r)[j] == Binding(b.key, s.flowId);
      assert KeyOf(r[i]) == KeyOf(r[j]);
    }
  }

  /**
    A key that is not being registered has the same bindings in r as in
    rows, given the frame of createListeners.
   */
  lemma UncoveredBindings(rows: seq<Route>, r: seq<Route>, s: Subscription, events: seq<string>, b: Binding)
    requires |rows| <= |r|
    requires forall i :: 0 <= i < |rows| && !Covers(s, events, KeyOf(rows[i])) ==> r[i] == rows[i]
    requires forall i :: 0 <= i < |r| ==>
      (i < |rows| && r[i] == rows[i]) || (Covers(s, events, KeyOf(r[i])) && r[i].flowId == s.flowId)
    requires !Covers(s, events, b.key)
    ensures b in Bindings(r) <==> b in Bindings(rows)
  {
    if b in Bindings(r) {
      var i :| 0 <= i < |r| && Bindings(r)[i] == b;
      assert Bindings(rows)[i] == b;
    }
    if b in Bindings(rows) {
      var i :| 0 <= i < |rows| && Bindings(rows)[i] == b;
      assert Bindings(r)[i] == b;
    }
  }

  /**
    The bindings after createListeners, independent of the events' order: a
    key of the subscription for one of the events is bound to the flow and
    to nothing else; every other key keeps exactly the bindings it had.
   */
  lemma CreateAllBindingsExact(rows: seq<Route>, s: Subscription, events: seq<string>, ids: seq<string>)
    requires |ids| == |events|
    requires UniqueKeys(rows)
    ensures var r := CreateAll(rows, s, events, ids);
      forall b :: b in Bindings(r) <==>
        if Covers(s, events, b.key) then b.flowId == s.flowId else b in Bindings(rows)
  {
    var r := CreateAll(rows, s, events, ids);
    CreateAllKeepsUnique(rows, s, events, ids);
    CreateAllBinds(rows, s, events, ids);
    CreateAllUntouched(rows, s, events, ids);
    CreateAllWritesOnlyFlow(rows, s, events, ids);
    forall b
      ensures b in Bindings(r) <==> if Covers(s, events, b.key) then b.flowId == s.flowId else b in Bindings(rows)
    {
      if Covers(s, events, b.key) {
        CoveredBindings(r, s, events, b);
      } else {
        UncoveredBindings(rows, r, s, events, b);
      }
    }
  }

  /**
    The order of a call's events does not matter: two calls over the same
    set of events (in any order, with repeats, and with any ids) leave the
    same set of (key, flowId) bindings, one row per key.
   */
  lemma CreateListenersOrderFree(
    rows: seq<Route>, s: Subscription,
    events1: seq<string>, ids1: seq<string>, events2: seq<string>, ids2: seq<string>)
    requires |ids1| == |events1| && |ids2| == |events2|
    requires UniqueKeys(rows)
    requires forall e :: e in events1 <==> e in events2
    ensures UniqueKeys(CreateAll(rows, s, events1, ids1)) && UniqueKeys(CreateAll(rows, s, events2, ids2))
    ensures forall b :: b in Bindings(CreateAll(rows, s, events1, ids1)) <==>
      b in Bindings(CreateAll(rows, s, events2, ids2))
  {
    CreateAllKeepsUnique(rows, s, events1, ids1);
    CreateAllKeepsUnique(rows, s, events2, ids2);
    CreateAllBindingsExact(rows, s, events1, ids1);
    CreateAllBindingsExact(rows, s, events2, ids2);
  }

  // ---------------------------------------------------------------------------
  // deleteListeners
  // ---------------------------------------------------------------------------

  /**
    deleteListeners(projectId, flowId) removes every row of that project and
    flow, whatever its app, event and identifier value, keeps every other row
    with its multiplicity, and keeps the table order.
   */
  lemma DeleteListenersScope(rows: seq<Route>, projectId: string, flowId: string)
    ensures var r := Select(rows, FlowFilter(projectId, flowId), false);
      && (forall i :: 0 <= i < |r| ==> !(r[i].projectId == projectId && r[i].flowId == flowId))
      && (forall x: Route :: !(x.projectId == projectId && x.flowId == flowId) ==> multiset(r)[x] == multiset(rows)[x])
      && (forall x :: x in r <==> x in rows && !(x.projectId == projectId && x.flowId == flowId))
  {
    var r := Select(rows, FlowFilter(projectId, flowId), false);
    forall x ensures x in r <==> x in rows && !(x.projectId == projectId && x.flowId == flowId) {
      assert x in r <==> multiset(r)[x] > 0;
      assert x in rows <==> multiset(rows)[x] > 0;
    }
  }

  /** Deleting a (project, flow) pair that owns no row is not an error and changes nothing. */
  lemma DeleteListenersNoMatch(rows: seq<Route>, projectId: string, flowId: string)
    requires forall i :: 0 <= i < |rows| ==> !(rows[i].projectId == projectId && rows[i].flowId == flowId)
    ensures Select(rows, FlowFilter(projectId, flowId), false) == rows
  {
    SelectAll(rows, FlowFilter(projectId, flowId), false);
  }

  /** After deleteListeners(P, F), no listing returns a row of project P and flow F. */
  lemma DeleteThenListNone(rows: seq<Route>, projectId: string, flowId: string,
                           appName: string, event: string, identifierValue: string)
    ensures var found := Select(Select(rows, FlowFilter(projectId, flowId), false),
                                ListFilter(appName, event, identifierValue), true);
      forall i :: 0 <= i < |found| ==> !(found[i].projectId == projectId && found[i].flowId == flowId)
  {
    var kept := Select(rows, FlowFilter(projectId, flowId), false);
    var found := Select(kept, ListFilter(appName, event, identifierValue), true);
    forall i | 0 <= i < |found| ensures !(found[i].projectId == projectId && found[i].flowId == flowId) {
      assert multiset(found)[found[i]] > 0;
      assert multiset(kept)[found[i]] > 0;
    }
  }

  // ---------------------------------------------------------------------------
  // The service over an in-memory table standing in for the repository
  // ---------------------------------------------------------------------------

  class RouteTable {
    var rows: seq<Route>

    ghost predicate Valid()
      reads this
    {
      UniqueKeys(rows)
    }

    constructor ()
      ensures Valid() && rows == []
    {
      rows := [];
    }

    /** listListeners: findBy on (appName, event, identifierValue). */
    method ListListeners(appName: string, event: string, identifierValue: string) returns (found: seq<Route>)
      ensures found == Select(rows, ListFilter(appName, event, identifierValue), true)
      ensures forall x :: x in found <==>
        x in rows && x.appName == appName && x.event == event && x.identifierValue == identifierValue
    {
      found := Select(rows, ListFilter(appName, event, identifierValue), true);
      ListListenersExact(rows, appName, event, identifierValue);
    }

    /** The repository's upsert on (appName, event, identifierValue, projectId). */
    method UpsertRoute(route: Route)
      requires Valid()
      modifies this
      ensures Valid()
      ensures rows == Upsert(old(rows), route)
    {
      UpsertKeepsUnique(rows, route);
      rows := Upsert(rows, route);
    }

    /**
      createListeners: one upsert per event, in order; ids[i] is the id the
      generator makes for events[i].
     */
    method CreateListeners(s: Subscription, events: seq<string>, ids: seq<string>)
      requires Valid()
      requires |ids| == |events|
      modifies this
      ensures Valid()
      ensures rows == CreateAll(old(rows), s, events, ids)
      ensures forall e :: e in events ==> BindsTo(rows, KeyFor(s, e), s.flowId)
    {
      var i := 0;
      while i < |events|
        invariant 0 <= i <= |events|
        invariant rows == CreateAll(old(rows), s, events[..i], ids[..i])
        invariant Valid()
      {
        assert events[..i + 1][..i] == events[..i] && ids[..i + 1][..i] == ids[..i];
        UpsertRoute(RouteFor(s, events[i], ids[i]));
        i := i + 1;
      }
      assert events[..i] == events && ids[..i] == ids;
      CreateAllBinds(old(rows), s, events, ids);
    }

    /** deleteListeners: delete on (projectId, flowId). */
    method DeleteListeners(projectId: string, flowId: string)
      requires Valid()
      modifies this
      ensures Valid()
      ensures rows == Select(old(rows), FlowFilter(projectId, flowId), false)
    {
      SelectKeepsUnique(rows, FlowFilter(projectId, flowId), false);
      rows := Select(rows, FlowFilter(projectId, flowId), false);
    }
  }
}
