/**
 Session rows and tracker together. An inform commits its access point's rows under the device
 lock and hands the transitions to the tracker only after the lock is released
 (internal/server/server.go), so reports wait in between. Where reports of each access point are
 observed in commit order, rows and tracker agree once an access point has none waiting; in any
 order, they agree exactly when the last report observed says what the last one committed said.
 */
module Pipeline {
  import opened Options
  import opened Text
  import opened Sessions
  import opened Tracker
  import opened TrackerLog

  type Reported = seq<Transition>

  /** Committed rows and waiting reports of every access point, and the tracker. */
  datatype World = World(rows: map<string, Rows>, waiting: map<string, seq<Reported>>, tracker: State)

  /** A commit of one table; waiting report k of an access point observed; a held disconnect released. */
  datatype Move =
    | Commit(ap: string, present: map<string, Station>, now: int, out: Reported, kept: Rows)
    | Observe(ap: string, k: nat, deadline: nat -> int)
    | Expire(client: string)

  function RowsAt(w: World, ap: string): Rows {
    if ap in w.rows then w.rows[ap] else map[]
  }

  function WaitingAt(w: World, ap: string): seq<Reported> {
    if ap in w.waiting then w.waiting[ap] else []
  }

  /** The tracker steps of one report; deadline(i) is when transition i's hold, if any, would run out. */
  function Fed(ap: string, out: Reported, deadline: nat -> int): seq<Step> {
    seq(|out|, i requires 0 <= i < |out| => See(ap, out[i], deadline(i)))
  }

  /** A commit reports its refresh and keeps, within the cap, at least the clients of the table. */
  ghost predicate MoveOk(w: World, m: Move) {
    match m
    case Commit(ap, present, now, out, kept) =>
      && Report(RowsAt(w, ap), present, now, out)
      && Capped(Refreshed(RowsAt(w, ap), present, now), kept)
      && forall c :: c in present ==> c in kept
    case Observe(ap, k, _) => k < |WaitingAt(w, ap)|
    case Expire(_) => true
  }

  /** What the cap rule gives: with the clock past every stored proof, a table within the cap is kept. */
  lemma ClockKeepsClients(prev: Rows, present: map<string, Station>, now: int, kept: Rows)
    requires forall m :: m in prev ==> prev[m].lastSeen < now
    requires |present| <= ROW_CAP && Capped(Refreshed(prev, present, now), kept)
    ensures forall c :: c in present ==> c in kept
  {
    forall c | c in present ensures c in kept { NoConnectedRowEvicted(prev, present, now, kept, c); }
  }

  function Moved(w: World, m: Move): World {
    match m
    case Commit(ap, _, _, out, kept) => World(w.rows[ap := kept], w.waiting[ap := WaitingAt(w, ap) + [out]], w.tracker)
    case Observe(ap, k, deadline) =>
      var q := WaitingAt(w, ap);
      if k >= |q| then w else World(w.rows, w.waiting[ap := q[..k] + q[k + 1..]], DoAll(w.tracker, Fed(ap, q[k], deadline)))
    case Expire(c) => w.(tracker := Releasing(w.tracker, c))
  }

  const Quiet := World(map[], map[], State(map[], map[], []))

  /**
   How a controller starts: no report waits, no disconnect is held, and the tracker was seeded from
   the stored rows, so that it places exactly the clients with a connected row, each at such a row.
   */
  ghost predicate Seeded(w: World) {
    && w.waiting == map[] && w.tracker.pending == map[]
    && (forall c :: c in w.tracker.current ==> !Fresh(RowsAt(w, w.tracker.current[c].ap), c))
    && (forall ap, c :: !Fresh(RowsAt(w, ap), c) ==> c in w.tracker.current)
  }

  /** The rows of the devices a controller starts with. */
  ghost predicate RowsOf(rows: map<string, Rows>, devices: seq<Tracker.Device>) {
    && (forall d :: d in devices ==> d.ap in rows && rows[d.ap] == d.rows)
    && (forall ap :: ap in rows ==> exists d :: d in devices && d.ap == ap)
  }

  /** Seeding an empty tracker from the stored rows starts a run. */
  lemma SeedStarts(rows: map<string, Rows>, devices: seq<Tracker.Device>, current: map<string, Presence>, log: seq<Event>)
    requires RowsOf(rows, devices) && SeededFrom(map[], devices, current)
    ensures Seeded(World(rows, map[], State(current, map[], log)))
  {
    var w := World(rows, map[], State(current, map[], log));
    forall c | c in current ensures !Fresh(RowsAt(w, current[c].ap), c) {
      var d :| d in devices && Offers(d, c, current[c]);
    }
    forall ap, c | !Fresh(RowsAt(w, ap), c) ensures c in current {
      var d :| d in devices && d.ap == ap;
      assert IsOn(d, c);
    }
  }

  function SeededAp(w: World, c: string): Option<string> {
    if c in w.tracker.current then Some(w.tracker.current[c].ap) else None
  }

  function ConnectedAps(w: World, c: string): set<string> {
    set ap | ap in w.rows && !Fresh(w.rows[ap], c)
  }

  function KindAtStart(w: World, ap: string, c: string): Option<Kind> {
    if !Fresh(RowsAt(w, ap), c) then Some(Connect) else None
  }

  function Played(start: World, moves: seq<Move>): World {
    if moves == [] then start else Moved(Played(start, moves[..|moves| - 1]), moves[|moves| - 1])
  }

  ghost predicate Playable(start: World, moves: seq<Move>) {
    moves != [] ==> Playable(start, moves[..|moves| - 1]) && MoveOk(Played(start, moves[..|moves| - 1]), moves[|moves| - 1])
  }

  /** Reports of each access point are observed first in, first out. */
  predicate InOrder(moves: seq<Move>) {
    forall i :: 0 <= i < |moves| && moves[i].Observe? ==> moves[i].k == 0
  }

  // ---- one client at a time -----------------------------------------------------------------------

  /** What the tracker holds about one client. */
  datatype Status = Status(at: Option<string>, held: Option<string>)

  function StatusOf(s: State, c: string): Status {
    Status(if c in s.current then Some(s.current[c].ap) else None, if c in s.pending then Some(s.pending[c].ap) else None)
  }

  /** The same transition seen by the client's status alone. */
  function SeenStatus(t: Status, ap: string, kind: Kind): Status {
    match kind
    case Connect => Status(Some(ap), None)
    case Disconnect => if t.at == Some(ap) && t.held.None? then Status(t.at, Some(ap)) else t
    case RadioChange => t
  }

  lemma SeeStatus(s: State, ap: string, tr: Transition, deadline: int, c: string)
    ensures StatusOf(Do(s, See(ap, tr, deadline)), c) == if tr.mac == c then SeenStatus(StatusOf(s, c), ap, tr.kind) else StatusOf(s, c)
  {
  }

  predicate Says(out: Reported, c: string, kind: Kind) {
    exists i :: 0 <= i < |out| && out[i].mac == c && out[i].kind == kind
  }

  /** At most one transition of each client. */
  ghost predicate Apart(out: Reported) {
    forall i, j :: 0 <= i < j < |out| ==> out[i].mac != out[j].mac
  }

  /** A report has at most one transition of each client, so that one alone decides its status. */
  lemma {:induction false} FedStatus(s: State, ap: string, out: Reported, deadline: nat -> int, c: string)
    requires Apart(out)
    ensures var after := StatusOf(DoAll(s, Fed(ap, out, deadline)), c);
            && ((forall t :: t in out ==> t.mac != c) ==> after == StatusOf(s, c))
            && (forall t :: t in out && t.mac == c ==> after == SeenStatus(StatusOf(s, c), ap, t.kind))
  {
    if out == [] {
      assert Fed(ap, out, deadline) == [];
    } else {
      var n := |out| - 1;
      FedStatus(s, ap, out[..n], deadline, c);
      var steps := Fed(ap, out, deadline);
      assert steps[..n] == Fed(ap, out[..n], deadline) && steps[..n + 1] == steps;
      DoOneMore(s, steps, n);
      SeeStatus(DoAll(s, steps[..n]), ap, out[n], deadline(n), c);
      assert out == out[..n] + [out[n]];
      hide DoAll, SeenStatus, StatusOf, Do;
      assert forall t :: t in out[..n] ==> exists i :: 0 <= i < n && out[i] == t;
    }
  }

  lemma ObservedStatus(s: State, ap: string, out: Reported, deadline: nat -> int, c: string)
    requires Apart(out)
    ensures var before, after := StatusOf(s, c), StatusOf(DoAll(s, Fed(ap, out, deadline)), c);
            after == if Says(out, c, Connect) then Status(Some(ap), None)
                     else if Says(out, c, Disconnect) then SeenStatus(before, ap, Disconnect) else before
  {
    hide DoAll, StatusOf;
    FedStatus(s, ap, out, deadline, c);
    if i :| 0 <= i < |out| && out[i].mac == c {
      assert out[i] in out;
      assert Says(out, c, out[i].kind);
      assert forall k :: Says(out, c, k) ==> k == out[i].kind;
    } else {
      assert forall t :: t in out ==> exists j :: 0 <= j < |out| && out[j] == t;
    }
  }

  /** What a report says of a client, in terms of the table. */
  lemma ReportSays(prev: Rows, present: map<string, Station>, now: int, out: Reported, c: string)
    requires Report(prev, present, now, out)
    ensures Apart(out)
    ensures Says(out, c, Connect) <==> c in present && Fresh(prev, c)
    ensures Says(out, c, Disconnect) <==> c !in present && !Fresh(prev, c)
  {
    ReportApart(prev, present, now, out);
    hide Sighted, Moved, Less, Sessions.Moved;
    var t := TransitionOf(prev, present, now, c);
    if t.Some? {
      assert IsTransition(prev, present, now, t.value) && t.value in out && t.value.mac == c;
      var i :| 0 <= i < |out| && out[i] == t.value;
    }
    forall i | 0 <= i < |out| && out[i].mac == c ensures t == Some(out[i]) {
      assert out[i] in out && IsTransition(prev, present, now, out[i]);
    }
  }

  // ---- what was told so far --------------------------------------------------------------------------

  /** The access points whose rows at the start and observed reports since leave c connected there. */
  function Told(start: World, moves: seq<Move>, c: string): set<string> {
    if moves == [] then ConnectedAps(start, c)
    else
      var init, m := moves[..|moves| - 1], moves[|moves| - 1];
      var before := Told(start, init, c);
      if !m.Observe? || m.k >= |WaitingAt(Played(start, init), m.ap)| then before
      else Hear(before, m.ap, WaitingAt(Played(start, init), m.ap)[m.k], c)
  }

  function Hear(told: set<string>, ap: string, out: Reported, c: string): set<string> {
    if Says(out, c, Connect) then told + {ap} else if Says(out, c, Disconnect) then told - {ap} else told
  }

  /** The access point whose connect of c was observed last, or where c was seeded. */
  function LastConnect(start: World, moves: seq<Move>, c: string): Option<string> {
    if moves == [] then SeededAp(start, c)
    else
      var init, m := moves[..|moves| - 1], moves[|moves| - 1];
      if m.Observe? && m.k < |WaitingAt(Played(start, init), m.ap)| && Says(WaitingAt(Played(start, init), m.ap)[m.k], c, Connect) then Some(m.ap)
      else LastConnect(start, init, c)
  }

  /** Whether c is connected once a list of waiting reports was heard too. */
  function HeardAll(told: bool, q: seq<Reported>, c: string): bool {
    if q == [] then told
    else if Says(q[|q| - 1], c, Connect) then true
    else if Says(q[|q| - 1], c, Disconnect) then false
    else HeardAll(told, q[..|q| - 1], c)
  }

  lemma {:induction false} HearFirst(told: set<string>, ap: string, q: seq<Reported>, c: string)
    requires q != []
    ensures HeardAll(ap in told, q, c) == HeardAll(ap in Hear(told, ap, q[0], c), q[1..], c)
  {
    hide Says;
    if |q| == 1 {
      assert q[..0] == [];
    } else {
      HearFirst(told, ap, q[..|q| - 1], c);
      assert q[..|q| - 1][1..] == q[1..][..|q| - 2];
    }
  }

  // ---- the invariant ---------------------------------------------------------------------------------------

  /** Rows are what the observed and the waiting reports say together. */
  ghost predicate RowsTold(w: World, told: set<string>, c: string) {
    forall ap :: HeardAll(ap in told, WaitingAt(w, ap), c) == !Fresh(RowsAt(w, ap), c)
  }

  ghost predicate WaitingApart(w: World) {
    forall ap, k :: 0 <= k < |WaitingAt(w, ap)| ==> Apart(WaitingAt(w, ap)[k])
  }

  /** The tracker follows the last connect it was told. */
  predicate Follows(t: Status, told: set<string>, last: Option<string>) {
    && (t.held.Some? ==> t.at == t.held)
    && (t.at.Some? ==> t.at == last)
    && (t.at.Some? && t.held.None? ==> t.at.value in told)
    && (last.Some? && last.value in told ==> t == Status(last, None))
    && (told != {} ==> last.Some?)
  }

  ghost predicate InStep(w: World, told: set<string>, last: Option<string>, c: string) {
    RowsTold(w, told, c) && WaitingApart(w) && Follows(StatusOf(w.tracker, c), told, last)
  }

  lemma FreshAfter(prev: Rows, present: map<string, Station>, now: int, kept: Rows, c: string)
    requires Capped(Refreshed(prev, present, now), kept) && forall m :: m in present ==> m in kept
    ensures Fresh(kept, c) <==> c !in present
  {
    ConnectedIffPresent(prev, present, now);
    assert c in Connected(Refreshed(prev, present, now)) <==> c in present;
    hide Refreshed;
  }

  lemma CommitInStep(w: World, m: Move, told: set<string>, last: Option<string>, c: string)
    requires m.Commit? && MoveOk(w, m) && InStep(w, told, last, c)
    ensures InStep(Moved(w, m), told, last, c)
  {
    hide Report, Says, Refreshed, Capped, Follows, Apart;
    ReportSays(RowsAt(w, m.ap), m.present, m.now, m.out, c);
    FreshAfter(RowsAt(w, m.ap), m.present, m.now, m.kept, c);
    var w', q := Moved(w, m), WaitingAt(w, m.ap);
    assert (q + [m.out])[..|q|] == q;
    forall ap ensures HeardAll(ap in told, WaitingAt(w', ap), c) == !Fresh(RowsAt(w', ap), c) {
      assert HeardAll(ap in told, WaitingAt(w, ap), c) == !Fresh(RowsAt(w, ap), c);
    }
    hide HeardAll;
  }

  lemma ObserveFollows(s: State, ap: string, out: Reported, deadline: nat -> int, c: string, told: set<string>, last: Option<string>)
    requires Apart(out) && Follows(StatusOf(s, c), told, last)
    ensures Follows(StatusOf(DoAll(s, Fed(ap, out, deadline)), c), Hear(told, ap, out, c), if Says(out, c, Connect) then Some(ap) else last)
  {
    hide Says, DoAll, StatusOf, Apart;
    ObservedStatus(s, ap, out, deadline, c);
  }

  lemma ObserveInStep(w: World, m: Move, told: set<string>, last: Option<string>, c: string)
    requires m.Observe? && MoveOk(w, m) && m.k == 0 && InStep(w, told, last, c)
    ensures var out := WaitingAt(w, m.ap)[0];
            InStep(Moved(w, m), Hear(told, m.ap, out, c), if Says(out, c, Connect) then Some(m.ap) else last, c)
  {
    hide Says, Follows, DoAll, HeardAll, StatusOf, Apart;
    var q, w' := WaitingAt(w, m.ap), Moved(w, m);
    assert q[..0] + q[1..] == q[1..];
    var told' := Hear(told, m.ap, q[0], c);
    assert Apart(q[0]);
    ObserveFollows(w.tracker, m.ap, q[0], m.deadline, c, told, last);
    HearFirst(told, m.ap, q, c);
    forall ap ensures HeardAll(ap in told', WaitingAt(w', ap), c) == !Fresh(RowsAt(w', ap), c) {
      assert HeardAll(ap in told, WaitingAt(w, ap), c) == !Fresh(RowsAt(w, ap), c);
    }
    forall ap, k | 0 <= k < |WaitingAt(w', ap)| ensures Apart(WaitingAt(w', ap)[k]) {
      if ap == m.ap { assert WaitingAt(w', ap)[k] == q[k + 1]; } else { assert Apart(WaitingAt(w, ap)[k]); }
    }
  }

  lemma ExpireInStep(w: World, d: string, told: set<string>, last: Option<string>, c: string)
    requires InStep(w, told, last, c)
    ensures InStep(Moved(w, Expire(d)), told, last, c)
  {
    hide HeardAll, Apart, Fresh;
    var w' := Moved(w, Expire(d));
    assert forall ap :: WaitingAt(w', ap) == WaitingAt(w, ap) && RowsAt(w', ap) == RowsAt(w, ap);
  }

  lemma {:induction false} RunInStep(start: World, moves: seq<Move>, c: string)
    requires Seeded(start) && Playable(start, moves) && InOrder(moves)
    ensures InStep(Played(start, moves), Told(start, moves, c), LastConnect(start, moves, c), c)
  {
    if moves != [] {
      var init, m := moves[..|moves| - 1], moves[|moves| - 1];
      RunInStep(start, init, c);
      hide InStep, Moved, MoveOk, Hear, Says;
      match m
      case Commit(_, _, _, _, _) => CommitInStep(Played(start, init), m, Told(start, init, c), LastConnect(start, init, c), c);
      case Observe(_, _, _) =>
        assert m.k < |WaitingAt(Played(start, init), m.ap)| by { ObserveOk(Played(start, init), m); }
        ObserveInStep(Played(start, init), m, Told(start, init, c), LastConnect(start, init, c), c);
      case Expire(d) => ExpireInStep(Played(start, init), d, Told(start, init, c), LastConnect(start, init, c), c);
    }
  }

  lemma ObserveOk(w: World, m: Move)
    requires m.Observe? && MoveOk(w, m)
    ensures m.k < |WaitingAt(w, m.ap)|
  {
  }

  // ---- rows and tracker -------------------------------------------------------------------------------------

  /** The tracker places c on ap and holds no disconnect of it. */
  predicate PlacedAt(w: World, ap: string, c: string) {
    StatusOf(w.tracker, c) == Status(Some(ap), None)
  }

  /**
   In every in-order run over any number of access points: once no report of ap waits, the tracker
   places c there exactly when c's row there is connected and ap's connect of c was the last one
   observed. A connected row whose client connected elsewhere since is the only disagreement.
   */
  lemma PlacedIffConnectedLast(start: World, moves: seq<Move>, ap: string, c: string)
    requires Seeded(start) && Playable(start, moves) && InOrder(moves) && WaitingAt(Played(start, moves), ap) == []
    ensures PlacedAt(Played(start, moves), ap, c) <==> !Fresh(RowsAt(Played(start, moves), ap), c) && LastConnect(start, moves, c) == Some(ap)
  {
    RunInStep(start, moves, c);
    hide Played, Told, LastConnect, Fresh, WaitingApart;
    assert HeardAll(ap in Told(start, moves, c), [], c) == !Fresh(RowsAt(Played(start, moves), ap), c);
  }

  /** Hence a client placed and not held has a connected row there. */
  lemma PlacedMeansConnected(start: World, moves: seq<Move>, ap: string, c: string)
    requires Seeded(start) && Playable(start, moves) && InOrder(moves) && WaitingAt(Played(start, moves), ap) == [] && PlacedAt(Played(start, moves), ap, c)
    ensures !Fresh(RowsAt(Played(start, moves), ap), c)
  {
    hide Played, Playable, LastConnect, Fresh;
    PlacedIffConnectedLast(start, moves, ap, c);
  }

  lemma {:induction false} OnlyOneAp(start: World, moves: seq<Move>, ap: string, c: string)
    requires SeededAp(start, c) in {None, Some(ap)} && forall i :: 0 <= i < |moves| && moves[i].Observe? ==> moves[i].ap == ap
    ensures LastConnect(start, moves, c) == None || LastConnect(start, moves, c) == Some(ap)
  {
    hide Played, Says;
    if moves != [] { OnlyOneAp(start, moves[..|moves| - 1], ap, c); }
  }

  /** With one access point, connected rows and clients placed without a held disconnect coincide. */
  lemma OneApAgreesBothWays(start: World, moves: seq<Move>, ap: string, c: string)
    requires Seeded(start) && Playable(start, moves) && InOrder(moves) && WaitingAt(Played(start, moves), ap) == []
    requires start.rows.Keys <= {ap} && forall i :: 0 <= i < |moves| && moves[i].Observe? ==> moves[i].ap == ap
    ensures PlacedAt(Played(start, moves), ap, c) <==> !Fresh(RowsAt(Played(start, moves), ap), c)
  {
    PlacedIffConnectedLast(start, moves, ap, c);
    RunInStep(start, moves, c);
    OnlyOneAp(start, moves, ap, c);
    hide Played, Told, LastConnect, Fresh, WaitingApart;
    assert HeardAll(ap in Told(start, moves, c), [], c) == !Fresh(RowsAt(Played(start, moves), ap), c);
  }

  // ---- in any order ------------------------------------------------------------------------------------------

  /** What a report says of a client's connection. */
  function KindIn(out: Reported, c: string): Option<Kind> {
    if Says(out, c, Connect) then Some(Connect) else if Says(out, c, Disconnect) then Some(Disconnect) else None
  }

  /** The last connection report of c that ap committed; a row connected at the start counts as one. */
  function LastCommitted(start: World, moves: seq<Move>, ap: string, c: string): Option<Kind> {
    if moves == [] then KindAtStart(start, ap, c)
    else
      var m := moves[|moves| - 1];
      if m.Commit? && m.ap == ap && KindIn(m.out, c).Some? then KindIn(m.out, c) else LastCommitted(start, moves[..|moves| - 1], ap, c)
  }

  function ReportSeen(start: World, init: seq<Move>, m: Move): Reported {
    if m.Observe? && m.k < |WaitingAt(Played(start, init), m.ap)| then WaitingAt(Played(start, init), m.ap)[m.k] else []
  }

  /** The last connection report of c from ap that the tracker observed, likewise. */
  function LastObserved(start: World, moves: seq<Move>, ap: string, c: string): Option<Kind> {
    if moves == [] then KindAtStart(start, ap, c)
    else
      var init, m := moves[..|moves| - 1], moves[|moves| - 1];
      if m.Observe? && m.ap == ap && KindIn(ReportSeen(start, init, m), c).Some? then KindIn(ReportSeen(start, init, m), c) else LastObserved(start, init, ap, c)
  }

  lemma {:induction false} ToldIsLastObserved(start: World, moves: seq<Move>, ap: string, c: string)
    ensures ap in Told(start, moves, c) <==> LastObserved(start, moves, ap, c) == Some(Connect)
  {
    hide Played, WaitingAt;
    if moves != [] {
      ToldIsLastObserved(start, moves[..|moves| - 1], ap, c);
      NothingSaid(c);
      hide Says;
    }
  }

  lemma NothingSaid(c: string)
    ensures KindIn([], c) == None
  {
  }

  /** A row is connected exactly when the last report committed about it was a connect, whatever was observed. */
  lemma {:induction false} RowIsLastCommitted(start: World, moves: seq<Move>, ap: string, c: string)
    requires Seeded(start) && Playable(start, moves)
    ensures !Fresh(RowsAt(Played(start, moves), ap), c) <==> LastCommitted(start, moves, ap, c) == Some(Connect)
  {
    hide Report, Says, Refreshed, Capped, Apart, Fresh, DoAll;
    if moves == [] {
      NoRow(ap, c);
    } else {
      var init, m := moves[..|moves| - 1], moves[|moves| - 1];
      RowIsLastCommitted(start, init, ap, c);
      if m.Commit? {
        ReportSays(RowsAt(Played(start, init), m.ap), m.present, m.now, m.out, c);
        FreshAfter(RowsAt(Played(start, init), m.ap), m.present, m.now, m.kept, c);
      }
    }
  }

  lemma NoRow(ap: string, c: string)
    ensures Fresh(RowsAt(Quiet, ap), c)
  {
  }

  lemma {:induction false} RunApart(start: World, moves: seq<Move>)
    requires Seeded(start) && Playable(start, moves)
    ensures WaitingApart(Played(start, moves))
  {
    if moves != [] {
      var init, m := moves[..|moves| - 1], moves[|moves| - 1];
      RunApart(start, init);
      hide DoAll, Report, Capped, Refreshed, Played, Playable, Apart;
      MoveApart(Played(start, init), m);
    }
  }

  lemma MoveApart(w: World, m: Move)
    requires MoveOk(w, m) && WaitingApart(w)
    ensures WaitingApart(Moved(w, m))
  {
    hide DoAll, Report, Capped, Refreshed, Apart, Says;
    if m.Commit? { ReportSays(RowsAt(w, m.ap), m.present, m.now, m.out, ""); }
    var w' := Moved(w, m);
    forall ap, k | 0 <= k < |WaitingAt(w', ap)| ensures Apart(WaitingAt(w', ap)[k]) {
      var q := WaitingAt(w, ap);
      assert forall j :: 0 <= j < |q| ==> Apart(WaitingAt(w, ap)[j]);
    }
  }

  /** The tracker follows what it was told, in whatever order it was told. */
  lemma SeedFollows(w: World, c: string)
    requires Seeded(w)
    ensures Follows(StatusOf(w.tracker, c), ConnectedAps(w, c), SeededAp(w, c))
  {
    var told := ConnectedAps(w, c);
    if told != {} {
      var ap :| ap in told;
      assert !Fresh(RowsAt(w, ap), c);
    }
  }

  lemma {:induction false} RunFollows(start: World, moves: seq<Move>, c: string)
    requires Seeded(start) && Playable(start, moves)
    ensures Follows(StatusOf(Played(start, moves).tracker, c), Told(start, moves, c), LastConnect(start, moves, c))
  {
    SeedFollows(start, c);
    if moves != [] {
      var init, m := moves[..|moves| - 1], moves[|moves| - 1];
      RunFollows(start, init, c);
      RunApart(start, init);
      hide DoAll, Report, Capped, Refreshed, Says, Apart, StatusOf;
      match m
      case Commit(_, _, _, _, _) =>
      case Observe(ap, k, deadline) =>
        ObserveFollows(Played(start, init).tracker, ap, WaitingAt(Played(start, init), ap)[k], deadline, c, Told(start, init, c), LastConnect(start, init, c));
      case Expire(d) => ExpireFollows(Played(start, init).tracker, d, c, Told(start, init, c), LastConnect(start, init, c));
    }
  }

  lemma ExpireFollows(s: State, d: string, c: string, told: set<string>, last: Option<string>)
    requires Follows(StatusOf(s, c), told, last)
    ensures Follows(StatusOf(Releasing(s, d), c), told, last)
  {
  }

  /**
   In every run, observed in any order and with any reports still waiting: the tracker places c at
   ap exactly when ap's was the last connect of c it observed and nothing later from ap took it back.
   */
  lemma PlacedIffToldLast(start: World, moves: seq<Move>, ap: string, c: string)
    requires Seeded(start) && Playable(start, moves)
    ensures PlacedAt(Played(start, moves), ap, c) <==> LastConnect(start, moves, c) == Some(ap) && LastObserved(start, moves, ap, c) == Some(Connect)
  {
    RunFollows(start, moves, c);
    ToldIsLastObserved(start, moves, ap, c);
    hide Played, Playable, Told, LastConnect, LastObserved, StatusOf;
  }

  predicate AnySays(q: seq<Reported>, c: string) {
    exists k :: 0 <= k < |q| && KindIn(q[k], c).Some?
  }

  /** Every report committed is observed or waits. */
  lemma {:induction false} CommittedIsObservedOrWaits(start: World, moves: seq<Move>, ap: string, c: string)
    requires Seeded(start) && Playable(start, moves)
    ensures LastCommitted(start, moves, ap, c).Some? <==> LastObserved(start, moves, ap, c).Some? || AnySays(WaitingAt(Played(start, moves), ap), c)
  {
    hide DoAll, Report, Capped, Refreshed, KindIn;
    if moves != [] {
      var init, m := moves[..|moves| - 1], moves[|moves| - 1];
      CommittedIsObservedOrWaits(start, init, ap, c);
      var q := WaitingAt(Played(start, init), ap);
      match m
      case Commit(_, _, _, out, _) => SaysMore(q, out, c);
      case Observe(_, k, _) => if m.ap == ap { SaysLess(q, k, c); }
      case Expire(d) =>
    }
  }

  lemma SaysMore(q: seq<Reported>, out: Reported, c: string)
    ensures AnySays(q + [out], c) <==> AnySays(q, c) || KindIn(out, c).Some?
  {
    hide KindIn;
    var r := q + [out];
    assert r[|q|] == out && forall k :: 0 <= k < |q| ==> r[k] == q[k];
  }

  lemma SaysLess(q: seq<Reported>, k: nat, c: string)
    requires k < |q|
    ensures AnySays(q, c) <==> AnySays(q[..k] + q[k + 1..], c) || KindIn(q[k], c).Some?
  {
    hide KindIn;
    var r := q[..k] + q[k + 1..];
    assert forall j :: 0 <= j < k ==> r[j] == q[j];
    assert forall j :: k < j < |q| ==> r[j - 1] == q[j];
  }

  /**
   The exact condition out of order: on a drained access point where c connected last, tracker and
   row agree exactly when the last report observed there about c and the last one committed are of
   one kind.
   */
  lemma DrainedAgreeIff(start: World, moves: seq<Move>, ap: string, c: string)
    requires Seeded(start) && Playable(start, moves) && WaitingAt(Played(start, moves), ap) == [] && LastConnect(start, moves, c) == Some(ap)
    ensures (PlacedAt(Played(start, moves), ap, c) <==> !Fresh(RowsAt(Played(start, moves), ap), c))
       <==> LastObserved(start, moves, ap, c) == LastCommitted(start, moves, ap, c)
  {
    PlacedIffToldLast(start, moves, ap, c);
    RowIsLastCommitted(start, moves, ap, c);
    CommittedIsObservedOrWaits(start, moves, ap, c);
    OnlyConnections(start, moves, ap, c);
    hide Played, Playable, LastConnect, LastObserved, LastCommitted, Fresh, PlacedAt;
  }

  lemma {:induction false} OnlyConnections(start: World, moves: seq<Move>, ap: string, c: string)
    ensures LastCommitted(start, moves, ap, c) in {None, Some(Connect), Some(Disconnect)}
    ensures LastObserved(start, moves, ap, c) in {None, Some(Connect), Some(Disconnect)}
  {
    hide Says, Played;
    if moves != [] { OnlyConnections(start, moves[..|moves| - 1], ap, c); }
  }

  // ---- the two ways to disagree ---------------------------------------------------------------------------------

  /** One client's rows and table. */
  predicate Sole(prev: Rows, present: map<string, Station>, c: string) {
    prev.Keys <= {c} && present.Keys <= {c}
  }

  lemma SoleReport(prev: Rows, present: map<string, Station>, now: int, c: string)
    requires Sole(prev, present, c) && TransitionOf(prev, present, now, c).Some?
    ensures Report(prev, present, now, [TransitionOf(prev, present, now, c).value])
  {
    hide Sighted, Sessions.Moved, Less;
  }

  lemma SmallCapped(rows: Rows, c: string)
    requires rows.Keys <= {c}
    ensures Capped(rows, rows)
  {
    var keys := rows.Keys;
    assert keys == {} || keys == {c};
    assert |rows| == |keys| <= 1;
  }

  /** The commit of a table about c alone. */
  function SoleCommit(ap: string, prev: Rows, present: map<string, Station>, now: int, c: string): (m: Move)
    ensures m.Commit? && m.ap == ap
  {
    var t := TransitionOf(prev, present, now, c);
    Commit(ap, present, now, if t.Some? then [t.value] else [], Refreshed(prev, present, now))
  }

  lemma SoleCommitOk(w: World, ap: string, present: map<string, Station>, now: int, c: string)
    requires Sole(RowsAt(w, ap), present, c) && TransitionOf(RowsAt(w, ap), present, now, c).Some?
    ensures MoveOk(w, SoleCommit(ap, RowsAt(w, ap), present, now, c))
  {
    var prev := RowsAt(w, ap);
    SoleReport(prev, present, now, c);
    SmallCapped(Refreshed(prev, present, now), c);
    hide Report, Capped, TransitionOf;
  }

  lemma PlayOne(moves: seq<Move>, m: Move)
    requires Playable(Quiet, moves) && MoveOk(Played(Quiet, moves), m)
    ensures Playable(Quiet, moves + [m]) && Played(Quiet, moves + [m]) == Moved(Played(Quiet, moves), m)
  {
    assert (moves + [m])[..|moves|] == moves;
  }

  function Joined(ap: string, c: string, st: Station): (m: Move)
    ensures m.Commit? && m.ap == ap
  {
    SoleCommit(ap, map[], map[c := st], 1, c)
  }

  const AtOnce: nat -> int := i => 0

  /** The client joins one access point and then another; every report is observed in order. */
  function Walk(a: string, b: string, c: string, st: Station): seq<Move> {
    [Joined(a, c, st)] + [Observe(a, 0, AtOnce)] + [Joined(b, c, st)] + [Observe(b, 0, AtOnce)]
  }

  /** A joining client: what the report says and what the row becomes. */
  lemma JoinedMeaning(ap: string, c: string, st: Station)
    ensures var m := Joined(ap, c, st); Apart(m.out) && Says(m.out, c, Connect) && !Fresh(m.kept, c)
  {
    var present := map[c := st];
    SoleReport(map[], present, 1, c);
    SmallCapped(Refreshed(map[], present, 1), c);
    hide Report, Refreshed, Capped, TransitionOf;
    ReportSays(map[], present, 1, Joined(ap, c, st).out, c);
    FreshAfter(map[], present, 1, Joined(ap, c, st).kept, c);
  }

  lemma JoinedOk(w: World, ap: string, c: string, st: Station)
    requires RowsAt(w, ap) == map[]
    ensures MoveOk(w, Joined(ap, c, st))
  {
    hide MoveOk;
    SoleCommitOk(w, ap, map[c := st], 1, c);
  }

  lemma JoinAndObserve(moves: seq<Move>, ap: string, c: string, st: Station)
    requires Playable(Quiet, moves) && WaitingAt(Played(Quiet, moves), ap) == [] && RowsAt(Played(Quiet, moves), ap) == map[]
    ensures var w, next := Played(Quiet, moves), moves + [Joined(ap, c, st)] + [Observe(ap, 0, AtOnce)]; var w' := Played(Quiet, next);
            && Playable(Quiet, next) && WaitingAt(w', ap) == [] && !Fresh(RowsAt(w', ap), c)
            && StatusOf(w'.tracker, c) == Status(Some(ap), None)
            && (forall other :: other != ap ==> WaitingAt(w', other) == WaitingAt(w, other) && RowsAt(w', other) == RowsAt(w, other))
  {
    hide DoAll, Played, Playable, Refreshed, Report, Capped, TransitionOf, Says, Apart, Fresh, StatusOf;
    var w, m := Played(Quiet, moves), Joined(ap, c, st);
    JoinedMeaning(ap, c, st);
    JoinedOk(w, ap, c, st);
    PlayOne(moves, m);
    var w1 := Moved(w, m);
    assert WaitingAt(w1, ap) == [m.out];
    PlayOne(moves + [m], Observe(ap, 0, AtOnce));
    assert [m.out][..0] + [m.out][1..] == [];
    ObservedStatus(w1.tracker, ap, m.out, AtOnce, c);
  }

  /** A connected row is not matched: the client connected at b since, and a has had no table to notice. */
  lemma OlderApKeepsRow(a: string, b: string, c: string, st: Station)
    requires a != b
    ensures var moves := Walk(a, b, c, st); var w := Played(Quiet, moves);
            && Playable(Quiet, moves) && InOrder(moves) && WaitingAt(w, a) == [] && WaitingAt(w, b) == []
            && !Fresh(RowsAt(w, a), c) && !Fresh(RowsAt(w, b), c) && PlacedAt(w, b, c) && !PlacedAt(w, a, c)
  {
    hide Joined, WaitingAt, RowsAt, Fresh, StatusOf;
    var first := [Joined(a, c, st)] + [Observe(a, 0, AtOnce)];
    StartsQuiet(a);
    StartsQuiet(b);
    assert [] + [Joined(a, c, st)] == [Joined(a, c, st)];
    JoinAndObserve([], a, c, st);
    hide Played, Playable;
    JoinAndObserve(first, b, c, st);
    var moves := Walk(a, b, c, st);
    assert moves == first + [Joined(b, c, st)] + [Observe(b, 0, AtOnce)];
    WalkInOrder(a, b, c, st);
  }

  lemma StartsQuiet(ap: string)
    ensures Playable(Quiet, []) && Played(Quiet, []) == Quiet && WaitingAt(Played(Quiet, []), ap) == [] && RowsAt(Played(Quiet, []), ap) == map[]
  {
  }

  lemma WalkInOrder(a: string, b: string, c: string, st: Station)
    ensures InOrder(Walk(a, b, c, st))
  {
    hide Joined, Played;
  }

  // ---- observation out of order -----------------------------------------------------------------------------------

  /** The client joins and leaves; the two reports are observed newest first. */
  function Overtaken(ap: string, c: string, st: Station): seq<Move> {
    var join := Joined(ap, c, st);
    [join] + [SoleCommit(ap, join.kept, map[], 2, c)] + [Observe(ap, 1, AtOnce)] + [Observe(ap, 0, AtOnce)]
  }

  lemma LeftMeaning(ap: string, c: string, st: Station)
    ensures var rows := Joined(ap, c, st).kept; var m := SoleCommit(ap, rows, map[], 2, c);
            && (forall w :: RowsAt(w, ap) == rows ==> MoveOk(w, m))
            && Apart(m.out) && Says(m.out, c, Disconnect) && !Says(m.out, c, Connect) && Fresh(m.kept, c)
  {
    JoinedMeaning(ap, c, st);
    hide Says, Apart;
    var rows := Joined(ap, c, st).kept;
    assert rows.Keys <= {c};
    SoleReport(rows, map[], 2, c);
    SmallCapped(Refreshed(rows, map[], 2), c);
    hide Report, Refreshed, Capped, Joined, TransitionOf;
    var m := SoleCommit(ap, rows, map[], 2, c);
    forall w | RowsAt(w, ap) == rows ensures MoveOk(w, m) { SoleCommitOk(w, ap, map[], 2, c); }
    hide MoveOk;
    ReportSays(rows, map[], 2, m.out, c);
    FreshAfter(rows, map[], 2, m.kept, c);
  }

  /** Observing the later of two waiting reports first: the earlier one has the last word. */
  lemma NewestFirst(w: World, ap: string, join: Reported, leave: Reported, c: string)
    requires WaitingAt(w, ap) == [join, leave] && Apart(join) && Says(join, c, Connect)
    ensures var late, early := Observe(ap, 1, AtOnce), Observe(ap, 0, AtOnce); var w1 := Moved(w, late); var w2 := Moved(w1, early);
            && MoveOk(w, late) && MoveOk(w1, early)
            && WaitingAt(w2, ap) == [] && RowsAt(w2, ap) == RowsAt(w, ap) && PlacedAt(w2, ap, c)
  {
    hide DoAll, Says, Apart, StatusOf;
    var w1 := Moved(w, Observe(ap, 1, AtOnce));
    assert [join, leave][..1] + [join, leave][2..] == [join];
    assert WaitingAt(w1, ap) == [join];
    assert [join][..0] + [join][1..] == [];
    ObservedStatus(w1.tracker, ap, join, AtOnce, c);
  }

  lemma TwoWaiting(join: Move, leave: Move, ap: string)
    requires join.Commit? && leave.Commit? && join.ap == leave.ap == ap
    requires MoveOk(Quiet, join) && MoveOk(Moved(Quiet, join), leave)
    ensures var w := Played(Quiet, [join] + [leave]);
            Playable(Quiet, [join] + [leave]) && WaitingAt(w, ap) == [join.out, leave.out] && RowsAt(w, ap) == leave.kept
  {
    hide Played, Playable, MoveOk;
    StartsQuiet(ap);
    PlayOne([], join);
    assert [] + [join] == [join] && [] + [join.out] == [join.out];
    PlayOne([join], leave);
  }

  lemma OvertakenWaits(ap: string, c: string, st: Station, join: Move, leave: Move)
    requires join == Joined(ap, c, st) && leave == SoleCommit(ap, join.kept, map[], 2, c)
    ensures var w := Played(Quiet, [join] + [leave]);
            Playable(Quiet, [join] + [leave]) && WaitingAt(w, ap) == [join.out, leave.out] && RowsAt(w, ap) == leave.kept
  {
    hide Joined, SoleCommit, Says, Apart, Fresh, MoveOk, Played, Playable;
    LeftMeaning(ap, c, st);
    JoinedOk(Quiet, ap, c, st);
    assert RowsAt(Moved(Quiet, join), ap) == join.kept;
    TwoWaiting(join, leave, ap);
  }

  /** Two informs of one access point overtake each other: the tracker places a client whose row is gone. */
  lemma OvertakenReportsDisagree(ap: string, c: string, st: Station)
    ensures var moves := Overtaken(ap, c, st); var w := Played(Quiet, moves);
            && Playable(Quiet, moves) && !InOrder(moves) && WaitingAt(w, ap) == []
            && PlacedAt(w, ap, c) && Fresh(RowsAt(w, ap), c)
  {
    hide Joined, SoleCommit, Fresh, PlacedAt, Says, Apart, Played, Playable, MoveOk, Moved;
    var join := Joined(ap, c, st);
    var leave := SoleCommit(ap, join.kept, map[], 2, c);
    var late, early := Observe(ap, 1, AtOnce), Observe(ap, 0, AtOnce);
    JoinedMeaning(ap, c, st);
    LeftMeaning(ap, c, st);
    OvertakenWaits(ap, c, st, join, leave);
    NewestFirst(Played(Quiet, [join] + [leave]), ap, join.out, leave.out, c);
    PlayOne([join] + [leave], late);
    PlayOne([join] + [leave] + [late], early);
    assert Overtaken(ap, c, st)[2] == late;
  }
}
