/** The coverage proof of internal/scanner/coverage_proof.go: counters over the
    inventory and the runs, and the lists one can drill down to. */
module CoverageProofs {
  import opened Wrappers
  import opened RowOrders
  import opened NormalForms
  import opened Dispatches

  datatype Item = Item(id: string, endpointID: string, state: string, reason: string, attemptID: string)

  /** Of an endpoint: what Dispatches knows of it and how it was found. */
  datatype Node = Node(ep: Endpoint, observation: string, observedWithAuth: bool)

  datatype Host = Host(id: string, state: string)

  datatype Service = Service(id: string, state: string, tls: bool)

  datatype Surface = Surface(scope: string, expanded: bool, hosts: seq<Host>, services: seq<Service>, nodes: seq<Node>)

  datatype InputRow = InputRow(endpointID: string, scope: string, selected: bool, reason: string)

  datatype Submission = Submission(endpointID: string, status: string, reason: string)

  datatype Event = Event(kind: string, phase: string, endpointIDs: seq<string>)

  /** A run with the files it names; None when a file cannot be read. `startedAt` is
      the parsed time, or the zero time when it does not parse. */
  datatype Run = Run(scanner: string, scope: string, startedAt: int, attemptID: string, templates: Option<seq<string>>,
                     manifest: Option<seq<InputRow>>, submissions: seq<Submission>, events: Option<seq<Event>>)

  datatype Kind = Discovered | Observed | Approved | Eligible | Seeds | Candidates | Hosts | Services | TlsServices
    | Forms | Parameterized | ObservedWithAuth

  datatype SetKind = Selected | Submitted | Acknowledged | Exercised | BatchCompleted | Failed | Skipped

  datatype Metric = Of(kind: Kind) | ByScanner(scanner: string, part: SetKind) | Unknown(scanner: string)
    | Templates(scanner: string)

  /** One member of one of a scanner's sets. */
  datatype Mark = Mark(scanner: string, kind: SetKind, key: string)

  // ----- what a list contributes -------------------------------------------

  ghost function Union<T, U>(xs: seq<T>, f: T -> set<U>): set<U> {
    if xs == [] then {} else Union(xs[..|xs| - 1], f) + f(xs[|xs| - 1])
  }

  ghost function Sum<T>(xs: seq<T>, f: T -> nat): nat {
    if xs == [] then 0 else Sum(xs[..|xs| - 1], f) + f(xs[|xs| - 1])
  }

  lemma {:induction false} UnionMore<T, U>(base: set<U>, xs: seq<T>, f: T -> set<U>, x: T)
    ensures Union(xs + [x], f) == Union(xs, f) + f(x)
    ensures base + Union(xs + [x], f) == base + Union(xs, f) + f(x)
  {
    assert (xs + [x])[..|xs|] == xs;
  }

  lemma {:induction false} SumMore<T>(xs: seq<T>, f: T -> nat, x: T)
    ensures Sum(xs + [x], f) == Sum(xs, f) + f(x)
  {
    assert (xs + [x])[..|xs|] == xs;
  }

  /** A union holds what some element contributes. */
  lemma {:induction false} UnionMembers<T, U>(xs: seq<T>, f: T -> set<U>, x: U)
    ensures x in Union(xs, f) <==> exists i :: 0 <= i < |xs| && x in f(xs[i])
  {
    if xs != [] {
      var n := |xs| - 1;
      UnionMembers(xs[..n], f, x);
      assert forall i :: 0 <= i < n ==> xs[..n][i] == xs[i];
    }
  }

  // ----- which set a status belongs to -------------------------------------

  function RowKinds(status: string): set<SetKind> {
    if status == "dispatched" then {Selected}
    else if status == "batch_completed" then {Selected, BatchCompleted}
    else if status == "failed" then {Selected, Failed}
    else if status == "skipped" then {Skipped}
    else {}
  }

  function SubmissionKinds(status: string): set<SetKind> {
    if status == "submitted" then {Submitted}
    else if status == "acknowledged" then {Submitted, Acknowledged}
    else if status == "failed" then {Failed}
    else if status == "skipped" then {Skipped}
    else {}
  }

  function EventKinds(kind: string, phase: string): set<SetKind> {
    if kind == "submitted" then {Submitted}
    else if kind == "observed" then if phase == "active_test" then {Exercised} else {}
    else if kind == "failed" then {Failed}
    else {}
  }

  function Marks(scanner: string, kinds: set<SetKind>, key: string): set<Mark> {
    set k | k in kinds :: Mark(scanner, k, key)
  }

  // ----- what the inputs mark ----------------------------------------------

  function EndpointKey(scope: string, id: string): string {
    scope + ":" + id
  }

  ghost function RowMarks(key: string): Coverage -> set<Mark> {
    (c: Coverage) => Marks(c.scanner, RowKinds(c.status), key)
  }

  ghost function NodeMarks(scope: string): Node -> set<Mark> {
    (n: Node) => Union(n.ep.coverage, RowMarks(EndpointKey(scope, n.ep.id)))
  }

  ghost function SurfaceMarks(): Surface -> set<Mark> {
    (surface: Surface) => Union(surface.nodes, NodeMarks(surface.scope))
  }

  function InputScope(row: InputRow, run: Run): string {
    if row.scope == "" then run.scope else row.scope
  }

  /** The scope each endpoint of the manifest belongs to; a later row wins. */
  function Scopes(rows: seq<InputRow>, run: Run): map<string, string> {
    if rows == [] then map[]
    else
      var n := |rows| - 1;
      Scopes(rows[..n], run)[rows[n].endpointID := InputScope(rows[n], run)]
  }

  function RunKey(scopes: map<string, string>, run: Run, id: string): string {
    EndpointKey(if id in scopes && scopes[id] != "" then scopes[id] else run.scope, id)
  }

  ghost function InputMarks(run: Run): InputRow -> set<Mark> {
    (r: InputRow) =>
      Marks(run.scanner, if r.selected then {Selected} else {Skipped}, EndpointKey(InputScope(r, run), r.endpointID))
  }

  ghost function SubmissionMarks(run: Run, scopes: map<string, string>): Submission -> set<Mark> {
    (x: Submission) => if x.endpointID == "" then {}
      else Marks(run.scanner, SubmissionKinds(x.status), RunKey(scopes, run, x.endpointID))
  }

  ghost function IdMarks(kinds: set<SetKind>, run: Run, scopes: map<string, string>): string -> set<Mark> {
    (id: string) => Marks(run.scanner, kinds, RunKey(scopes, run, id))
  }

  ghost function EventMarks(run: Run, scopes: map<string, string>): Event -> set<Mark> {
    (e: Event) => Union(e.endpointIDs, IdMarks(EventKinds(e.kind, e.phase), run, scopes))
  }

  function ManifestOf(run: Run): seq<InputRow> {
    if run.manifest.Some? then run.manifest.value else []
  }

  function EventsOf(run: Run): seq<Event> {
    if run.events.Some? then run.events.value else []
  }

  ghost function RunMarks(): Run -> set<Mark> {
    (run: Run) =>
      var scopes := Scopes(ManifestOf(run), run);
      Union(ManifestOf(run), InputMarks(run)) + Union(run.submissions, SubmissionMarks(run, scopes))
        + Union(EventsOf(run), EventMarks(run, scopes))
  }

  // ----- which statuses mark what ------------------------------------------

  /** A coverage row with this status puts its endpoint into the set. */
  predicate RowSays(kind: SetKind, status: string) {
    match kind
    case Selected => status in {"dispatched", "batch_completed", "failed"}
    case BatchCompleted => status == "batch_completed"
    case Failed => status == "failed"
    case Skipped => status == "skipped"
    case _ => false
  }

  predicate SubmissionSays(kind: SetKind, status: string) {
    match kind
    case Submitted => status in {"submitted", "acknowledged"}
    case Acknowledged => status == "acknowledged"
    case Failed => status == "failed"
    case Skipped => status == "skipped"
    case _ => false
  }

  /** Only what was observed in the active phase was exercised. */
  predicate EventSays(kind: SetKind, event: string, phase: string) {
    match kind
    case Submitted => event == "submitted"
    case Exercised => event == "observed" && phase == "active_test"
    case Failed => event == "failed"
    case _ => false
  }

  lemma {:induction false} KindsExactly(kind: SetKind, status: string, event: string, phase: string)
    ensures kind in RowKinds(status) <==> RowSays(kind, status)
    ensures kind in SubmissionKinds(status) <==> SubmissionSays(kind, status)
    ensures kind in EventKinds(event, phase) <==> EventSays(kind, event, phase)
  {
  }

  /** A surface marks a key for the rows of its endpoints, and nothing else. */
  lemma {:induction false} SurfaceMarksExactly(surface: Surface, scanner: string, kind: SetKind, key: string)
    ensures Mark(scanner, kind, key) in SurfaceMarks()(surface) <==>
            exists i, j :: 0 <= i < |surface.nodes| && 0 <= j < |surface.nodes[i].ep.coverage|
              && RowMarksAs(surface, i, j, scanner, kind, key)
  {
    hide Union, RowKinds, RowSays;
    var mark := Mark(scanner, kind, key);
    UnionMembers(surface.nodes, NodeMarks(surface.scope), mark);
    forall i | 0 <= i < |surface.nodes|
      ensures mark in NodeMarks(surface.scope)(surface.nodes[i]) <==>
              exists j :: 0 <= j < |surface.nodes[i].ep.coverage| && RowMarksAs(surface, i, j, scanner, kind, key)
    {
      var node := surface.nodes[i];
      UnionMembers(node.ep.coverage, RowMarks(EndpointKey(surface.scope, node.ep.id)), mark);
      forall j | 0 <= j < |node.ep.coverage|
        ensures mark in RowMarks(EndpointKey(surface.scope, node.ep.id))(node.ep.coverage[j]) <==>
            RowMarksAs(surface, i, j, scanner, kind, key)
      {
        KindsExactly(kind, node.ep.coverage[j].status, "", "");
      }
    }
  }

  ghost predicate RowMarksAs(surface: Surface, i: int, j: int, scanner: string, kind: SetKind, key: string) {
    && 0 <= i < |surface.nodes| && 0 <= j < |surface.nodes[i].ep.coverage|
    && surface.nodes[i].ep.coverage[j].scanner == scanner && RowSays(kind, surface.nodes[i].ep.coverage[j].status)
    && key == surface.scope + ":" + surface.nodes[i].ep.id
  }

  /** The key of an endpoint of a run: the scope of the last manifest row that names
      the endpoint, or that of the run when there is none or it is blank. */
  ghost predicate KeyIn(run: Run, id: string, key: string) {
    var rows := ManifestOf(run);
    && (forall i: nat :: LastRow(rows, id, i) ==>
       key == (if rows[i].scope != "" then rows[i].scope else run.scope) + ":" + id)
    && ((forall i :: 0 <= i < |rows| ==> rows[i].endpointID != id) ==> key == run.scope + ":" + id)
  }

  ghost predicate LastRow(rows: seq<InputRow>, id: string, i: nat) {
    i < |rows| && rows[i].endpointID == id && forall j :: i < j < |rows| ==> rows[j].endpointID != id
  }

  lemma {:induction false} ScopesExactly(rows: seq<InputRow>, run: Run, id: string)
    ensures forall i: nat :: LastRow(rows, id, i) ==>
      id in Scopes(rows, run) && Scopes(rows, run)[id] == if rows[i].scope != "" then rows[i].scope else run.scope
    ensures (forall i :: 0 <= i < |rows| ==> rows[i].endpointID != id) <==> id !in Scopes(rows, run)
    ensures id in Scopes(rows, run) ==> exists i: nat :: LastRow(rows, id, i)
  {
    hide LastRow, InputScope;
    LastRowWithin(rows, id);
    if rows != [] {
      var n := |rows| - 1;
      ScopesExactly(rows[..n], run, id);
      LastRowWithin(rows[..n], id);
      LastRowMore(rows, id);
      InputScopeIs(rows[n], run);
      assert rows[n].endpointID == id ==> LastRow(rows, id, n);
    }
  }

  lemma {:induction false} InputScopeIs(row: InputRow, run: Run)
    ensures InputScope(row, run) == if row.scope != "" then row.scope else run.scope
  {
  }

  lemma {:induction false} LastRowMore(rows: seq<InputRow>, id: string)
    requires rows != []
    ensures var n := |rows| - 1;
      forall i: nat :: LastRow(rows, id, i) <==> if rows[n].endpointID == id then i == n else LastRow(rows[..n], id, i)
  {
  }

  lemma {:induction false} LastRowWithin(rows: seq<InputRow>, id: string)
    ensures forall i: nat :: LastRow(rows, id, i) ==> i < |rows|
  {
  }

  lemma {:induction false} KeyExactly(run: Run, id: string, key: string)
    ensures KeyIn(run, id, key) <==> key == RunKey(Scopes(ManifestOf(run), run), run, id)
  {
    hide Scopes, LastRow;
    ScopesExactly(ManifestOf(run), run, id);
  }

  /** What a run marks: its manifest, its submissions and its recorded events. */
  ghost predicate InputMarksAs(run: Run, i: int, kind: SetKind, key: string) {
    && 0 <= i < |ManifestOf(run)| && kind == (if ManifestOf(run)[i].selected then Selected else Skipped)
    && key == (if ManifestOf(run)[i].scope == "" then run.scope else ManifestOf(run)[i].scope) + ":"
       + ManifestOf(run)[i].endpointID
  }

  ghost predicate SubmissionMarksAs(run: Run, i: int, kind: SetKind, key: string) {
    && 0 <= i < |run.submissions| && run.submissions[i].endpointID != ""
    && SubmissionSays(kind, run.submissions[i].status) && KeyIn(run, run.submissions[i].endpointID, key)
  }

  ghost predicate EventMarksAs(run: Run, i: int, j: int, kind: SetKind, key: string) {
    && 0 <= i < |EventsOf(run)| && 0 <= j < |EventsOf(run)[i].endpointIDs|
    && EventSays(kind, EventsOf(run)[i].kind, EventsOf(run)[i].phase)
    && KeyIn(run, EventsOf(run)[i].endpointIDs[j], key)
  }

  lemma {:induction false} RunMarksExactly(run: Run, scanner: string, kind: SetKind, key: string)
    ensures Mark(scanner, kind, key) in RunMarks()(run) <==>
            && scanner == run.scanner
            && ((exists i :: InputMarksAs(run, i, kind, key)) || (exists i :: SubmissionMarksAs(run, i, kind, key))
                || exists i, j :: EventMarksAs(run, i, j, kind, key))
  {
    hide Union, InputMarks, SubmissionMarks, EventMarks, InputMarksAs, SubmissionMarksAs, EventMarksAs, Scopes;
    ManifestMarksExactly(run, scanner, kind, key);
    SubmittedExactly(run, scanner, kind, key);
    RecordedExactly(run, scanner, kind, key);
  }

  lemma {:induction false} ManifestMarksExactly(run: Run, scanner: string, kind: SetKind, key: string)
    ensures Mark(scanner, kind, key) in Union(ManifestOf(run), InputMarks(run)) <==>
            scanner == run.scanner && exists i :: InputMarksAs(run, i, kind, key)
  {
    hide Union;
    var mark, rows := Mark(scanner, kind, key), ManifestOf(run);
    UnionMembers(rows, InputMarks(run), mark);
    assert forall i :: 0 <= i < |rows| ==>
      (mark in InputMarks(run)(rows[i]) <==> scanner == run.scanner && InputMarksAs(run, i, kind, key));
  }

  lemma {:induction false} SubmittedExactly(run: Run, scanner: string, kind: SetKind, key: string)
    ensures Mark(scanner, kind, key) in Union(run.submissions, SubmissionMarks(run, Scopes(ManifestOf(run), run))) <==>
            scanner == run.scanner && exists i :: SubmissionMarksAs(run, i, kind, key)
  {
    hide Union, SubmissionKinds, SubmissionSays, KeyIn, RunKey, Scopes;
    var mark, scopes := Mark(scanner, kind, key), Scopes(ManifestOf(run), run);
    UnionMembers(run.submissions, SubmissionMarks(run, scopes), mark);
    forall i | 0 <= i < |run.submissions|
      ensures mark in SubmissionMarks(run, scopes)(run.submissions[i]) <==>
          scanner == run.scanner && SubmissionMarksAs(run, i, kind, key)
    {
      KindsExactly(kind, run.submissions[i].status, "", "");
      KeyExactly(run, run.submissions[i].endpointID, key);
    }
  }

  lemma {:induction false} RecordedExactly(run: Run, scanner: string, kind: SetKind, key: string)
    ensures Mark(scanner, kind, key) in Union(EventsOf(run), EventMarks(run, Scopes(ManifestOf(run), run))) <==>
            scanner == run.scanner && exists i, j :: EventMarksAs(run, i, j, kind, key)
  {
    hide Union, EventKinds, EventSays, KeyIn, RunKey, Scopes;
    var mark, scopes, events := Mark(scanner, kind, key), Scopes(ManifestOf(run), run), EventsOf(run);
    UnionMembers(events, EventMarks(run, scopes), mark);
    forall i | 0 <= i < |events|
      ensures mark in EventMarks(run, scopes)(events[i]) <==>
          scanner == run.scanner && exists j :: EventMarksAs(run, i, j, kind, key)
    {
      var e := events[i];
      var kinds := EventKinds(e.kind, e.phase);
      KindsExactly(kind, "", e.kind, e.phase);
      UnionMembers(e.endpointIDs, IdMarks(kinds, run, scopes), mark);
      forall j | 0 <= j < |e.endpointIDs|
        ensures mark in IdMarks(kinds, run, scopes)(e.endpointIDs[j]) <==>
            scanner == run.scanner && EventMarksAs(run, i, j, kind, key)
      {
        KeyExactly(run, e.endpointIDs[j], key);
      }
    }
  }

  // ----- the latest run of a scanner and scope -----------------------------

  predicate SameSlot(a: Run, b: Run) {
    a.scanner == b.scanner && a.scope == b.scope
  }

  /** No run of the slot started later, and none that started as late comes after. */
  predicate IsLatest(runs: seq<Run>, i: nat)
    requires i < |runs|
  {
    forall j :: 0 <= j < |runs| && SameSlot(runs[j], runs[i]) ==>
      runs[j].startedAt < runs[i].startedAt || (runs[j].startedAt == runs[i].startedAt && j <= i)
  }

  method LatestRuns(runs: seq<Run>) returns (latest: map<(string, string), nat>)
    ensures forall k :: k in latest ==> latest[k] < |runs| && (runs[latest[k]].scanner, runs[latest[k]].scope) == k
    ensures forall i :: 0 <= i < |runs| ==> (runs[i].scanner, runs[i].scope) in latest
    ensures forall i :: 0 <= i < |runs| ==> (latest[(runs[i].scanner, runs[i].scope)] == i <==> IsLatest(runs, i))
  {
    latest := map[];
    for i := 0 to |runs|
      invariant forall k :: k in latest ==> latest[k] < i && (runs[latest[k]].scanner, runs[latest[k]].scope) == k
      invariant forall j :: 0 <= j < i ==> (runs[j].scanner, runs[j].scope) in latest
      invariant forall j :: 0 <= j < i ==> Later(runs, j, latest[(runs[j].scanner, runs[j].scope)])
    {
      var key := (runs[i].scanner, runs[i].scope);
      if key in latest && runs[latest[key]].startedAt > runs[i].startedAt {
        continue;
      }
      latest := latest[key := i];
    }
    forall i | 0 <= i < |runs|
      ensures latest[(runs[i].scanner, runs[i].scope)] == i <==> IsLatest(runs, i)
    {
      var m := latest[(runs[i].scanner, runs[i].scope)];
      assert Later(runs, i, m);
      if m == i {
        forall j | 0 <= j < |runs| && SameSlot(runs[j], runs[i])
          ensures runs[j].startedAt < runs[i].startedAt || (runs[j].startedAt == runs[i].startedAt && j <= i)
        {
          assert Later(runs, j, m);
        }
      } else {
        assert SameSlot(runs[m], runs[i]);
      }
    }
  }

  /** Run `m` is as late as run `j`, and later in the list if it is not later. */
  predicate Later(runs: seq<Run>, j: nat, m: nat)
    requires j < |runs|
  {
    m < |runs| && (runs[j].startedAt < runs[m].startedAt || (runs[j].startedAt == runs[m].startedAt && j <= m))
  }

  /** Every slot that has a run has exactly one latest run. */
  lemma {:induction false} OneLatest(runs: seq<Run>, i: nat)
    requires i < |runs|
    ensures exists m :: 0 <= m < |runs| && SameSlot(runs[m], runs[i]) && IsLatest(runs, m)
    ensures forall m, k ::
      0 <= m < |runs| && 0 <= k < |runs| && SameSlot(runs[m], runs[k]) && IsLatest(runs, m) && IsLatest(runs, k) ==>
        m == k
  {
    var m: nat := i;
    for j := 0 to |runs|
      invariant m < |runs| && SameSlot(runs[m], runs[i])
      invariant forall k :: 0 <= k < j && SameSlot(runs[k], runs[i]) ==> Later(runs, k, m)
    {
      if SameSlot(runs[j], runs[i]) && Later(runs, m, j) {
        m := j;
      }
    }
    assert IsLatest(runs, m);
  }

  /** The latest runs among the first `n`. */
  function LatestOf(runs: seq<Run>, n: nat): seq<Run>
    requires n <= |runs|
  {
    if n == 0 then [] else LatestOf(runs, n - 1) + if IsLatest(runs, n - 1) then [runs[n - 1]] else []
  }

  // ----- counters and lists ------------------------------------------------

  /** The counters that are incremented, and all lists. */
  datatype Books = Books(counts: map<Kind, nat>, items: map<Metric, seq<Item>>)

  function List(b: Books, m: Metric): seq<Item> {
    if m in b.items then b.items[m] else []
  }

  function AddItem(b: Books, m: Metric, item: Item): Books {
    b.(items := b.items[m := List(b, m) + [item]])
  }

  function Get(counts: map<Kind, nat>, k: Kind): nat {
    if k in counts then counts[k] else 0
  }

  /** The counters that go up with their list. The others are the number of
      endpoints, known before they are listed, and the sizes of two sets. */
  predicate Counting(k: Kind) {
    k != Discovered && k != Hosts && k != Services
  }

  function Note(b: Books, k: Kind, item: Item): Books {
    AddItem(if Counting(k) then b.(counts := b.counts[k := Get(b.counts, k) + 1]) else b, Of(k), item)
  }

  function Due(b: Books, k: Kind, ahead: nat, hosts: nat, services: nat): int {
    match k
    case Discovered => Get(b.counts, k) - ahead
    case Hosts => hosts
    case Services => services
    case _ => Get(b.counts, k)
  }

  /** Every counter is the length of its list. `ahead` is what the counter of the
      discovered endpoints is ahead of its list, `hosts` and `services` are counted
      by their sets. */
  ghost predicate Even(b: Books, ahead: nat, hosts: nat, services: nat) {
    forall k :: |List(b, Of(k))| == Due(b, k, ahead, hosts, services)
  }

  /** Nothing but the lists of the inventory so far ... */
  ghost predicate OnlyInventory(b: Books) {
    forall m :: m in b.items ==> m.Of?
  }

  /** ... and nothing but those and the lists of templates. */
  ghost predicate NoSetLists(b: Books) {
    forall m :: m in b.items ==> m.Of? || m.Templates?
  }

  /** One counter went up by one, if `when`; the others are as they were. */
  ghost predicate Raised(c: map<Kind, nat>, c': map<Kind, nat>, when: bool, k: Kind) {
    forall j :: Get(c', j) == Get(c, j) + if when && j == k then 1 else 0
  }

  lemma {:induction false} NoteIs(b: Books, k: Kind, item: Item, j: Kind)
    ensures List(Note(b, k, item), Of(j)) == if j == k then List(b, Of(k)) + [item] else List(b, Of(j))
    ensures Get(Note(b, k, item).counts, j) == Get(b.counts, j) + if j == k && Counting(k) then 1 else 0
    ensures OnlyInventory(b) ==> OnlyInventory(Note(b, k, item))
  {
  }

  /** An item more on one list, and on its counter unless that runs ahead. */
  lemma {:induction false} NoteKeepsEven(b: Books, k: Kind, item: Item, ahead: nat, hosts: nat, services: nat)
    requires Even(b, ahead, hosts, services) && OnlyInventory(b) && (k == Discovered ==> ahead > 0)
    ensures Even(Note(b, k, item), if k == Discovered then ahead - 1 else ahead,
                 if k == Hosts then hosts + 1 else hosts, if k == Services then services + 1 else services)
    ensures OnlyInventory(Note(b, k, item)) && Raised(b.counts, Note(b, k, item).counts, Counting(k), k)
  {
    forall j: Kind
      ensures Get(Note(b, k, item).counts, j) == Get(b.counts, j) + if j == k && Counting(k) then 1 else 0
      ensures |List(Note(b, k, item), Of(j))| == |List(b, Of(j))| + if j == k then 1 else 0
    {
      NoteIs(b, k, item, j);
    }
    NoteIs(b, k, item, k);
    forall j: Kind
      ensures |List(Note(b, k, item), Of(j))| == Due(Note(b, k, item), j, if k == Discovered then ahead - 1 else ahead,
                                                     if k == Hosts then hosts + 1 else hosts,
                                                     if k == Services then services + 1 else services)
    {
      assert |List(b, Of(j))| == Due(b, j, ahead, hosts, services);
    }
  }

  method NoteIf(b: Books, when: bool, k: Kind, item: Item, ghost ahead: nat, ghost hosts: nat, ghost services: nat)
    returns (b': Books)
    requires Even(b, ahead, hosts, services) && OnlyInventory(b) && Counting(k)
    ensures Even(b', ahead, hosts, services) && OnlyInventory(b')
    ensures Raised(b.counts, b'.counts, when, k)
  {
    hide Even, OnlyInventory, Note, Get;
    b' := b;
    if when {
      NoteKeepsEven(b, k, item, ahead, hosts, services);
      b' := Note(b, k, item);
    }
  }

  // ----- the inventory -----------------------------------------------------

  /** The pass of one of the four scanners, without a scope. */
  function ProofPass(scanner: string, look: Endpoint -> Look, expanded: bool): Pass {
    Pass(scanner, 0, false, look, expanded, "", "", None)
  }

  predicate EligibleForSome(ep: Endpoint, look: Endpoint -> Look, expanded: bool) {
    || Refusal(ProofPass("zap", look, expanded), ep).None? || Refusal(ProofPass("nuclei", look, expanded), ep).None?
    || Refusal(ProofPass("wapiti", look, expanded), ep).None? || Refusal(ProofPass("dalfox", look, expanded), ep).None?
  }

  /** What an endpoint counts as, besides being discovered. */
  predicate CountsAs(node: Node, look: Endpoint -> Look, expanded: bool, k: Kind) {
    match k
    case Observed => node.observation == "observed"
    case Approved => StateDispatchable(node.ep.state)
    case Eligible => StateDispatchable(node.ep.state) && EligibleForSome(node.ep, look, expanded)
    case Seeds => node.observation == "seed"
    case Forms => node.ep.hasForm
    case Parameterized => node.ep.hasParameters
    case ObservedWithAuth => node.observedWithAuth
    case _ => false
  }

  ghost function NodeGain(look: Endpoint -> Look, expanded: bool, k: Kind): Node -> nat {
    (n: Node) => if CountsAs(n, look, expanded, k) then 1 else 0
  }

  ghost function HostGain(k: Kind): Host -> nat {
    (h: Host) => if k == Candidates && h.state == "candidate" then 1 else 0
  }

  /** What a surface adds to a counter. */
  ghost function SurfaceGain(look: Endpoint -> Look, k: Kind): Surface -> nat {
    (surface: Surface) =>
      (if k == Discovered then |surface.nodes| else 0) + Sum(surface.hosts, HostGain(k))
        + Sum(surface.nodes, NodeGain(look, surface.expanded, k))
  }

  ghost function HostIds(): Host -> set<string> {
    (h: Host) => if h.state == "candidate" then {} else {h.id}
  }

  ghost function ServiceIds(): Service -> set<string> {
    (x: Service) => {x.id}
  }

  /** Eight steps in a row, the first of which raised nothing. */
  lemma {:induction false} NodeGained(c0: map<Kind, nat>, c1: map<Kind, nat>, c2: map<Kind, nat>, c3: map<Kind, nat>,
          c4: map<Kind, nat>,
                                      c5: map<Kind, nat>, c6: map<Kind, nat>, c7: map<Kind, nat>, c8: map<Kind, nat>,
                                      node: Node, look: Endpoint -> Look, expanded: bool)
    requires Raised(c0, c1, false, Discovered)
    requires Raised(c1, c2, node.observation == "observed", Observed)
        && Raised(c2, c3, StateDispatchable(node.ep.state), Approved)
    requires Raised(c3, c4, StateDispatchable(node.ep.state) && EligibleForSome(node.ep, look, expanded), Eligible)
    requires Raised(c4, c5, node.observation == "seed", Seeds) && Raised(c5, c6, node.ep.hasForm, Forms)
    requires Raised(c6, c7, node.ep.hasParameters, Parameterized)
        && Raised(c7, c8, node.observedWithAuth, ObservedWithAuth)
    ensures forall k :: Get(c8, k) == Get(c0, k) + NodeGain(look, expanded, k)(node)
  {
    hide EligibleForSome, StateDispatchable, Get, CountsAs, NodeGain, Raised;
    forall k
      ensures Get(c8, k) == Get(c0, k) + NodeGain(look, expanded, k)(node)
    {
      RaisedTwice(c0, c1, c2, false, Discovered, node.observation == "observed", Observed, k);
      RaisedTwice(c2, c3, c4, StateDispatchable(node.ep.state), Approved,
        StateDispatchable(node.ep.state) && EligibleForSome(node.ep, look, expanded), Eligible, k);
      RaisedTwice(c4, c5, c6, node.observation == "seed", Seeds, node.ep.hasForm, Forms, k);
      RaisedTwice(c6, c7, c8, node.ep.hasParameters, Parameterized, node.observedWithAuth, ObservedWithAuth, k);
      NodeGainIs(node, look, expanded, k);
    }
  }

  lemma {:induction false} RaisedTwice(c: map<Kind, nat>, c': map<Kind, nat>, c'': map<Kind, nat>, when: bool, k: Kind,
          when': bool, k': Kind, j: Kind)
    requires Raised(c, c', when, k) && Raised(c', c'', when', k')
    ensures Get(c'', j) == Get(c, j) + (if when && j == k then 1 else 0) + if when' && j == k' then 1 else 0
  {
    hide Get;
  }

  lemma {:induction false} NodeGainIs(node: Node, look: Endpoint -> Look, expanded: bool, k: Kind)
    ensures NodeGain(look, expanded, k)(node) == if CountsAs(node, look, expanded, k) then 1 else 0
    ensures CountsAs(node, look, expanded, k) <==>
      || (k == Observed && node.observation == "observed") || (k == Approved && StateDispatchable(node.ep.state))
      || (k == Eligible && StateDispatchable(node.ep.state) && EligibleForSome(node.ep, look, expanded))
      || (k == Seeds && node.observation == "seed") || (k == Forms && node.ep.hasForm)
      || (k == Parameterized && node.ep.hasParameters) || (k == ObservedWithAuth && node.observedWithAuth)
  {
    hide EligibleForSome, StateDispatchable;
  }

  /** What the endpoints count as: by their own fields, as approved in the two states
      that may be dispatched, and as eligible if one of the four scanners may be given
      them when the scope is left aside. */
  lemma {:induction false} CountsExactly(node: Node, look: Endpoint -> Look, expanded: bool)
    ensures CountsAs(node, look, expanded, Observed) <==> node.observation == "observed"
    ensures CountsAs(node, look, expanded, Seeds) <==> node.observation == "seed"
    ensures CountsAs(node, look, expanded, Approved) <==> node.ep.state in {"", "in_scope"}
    ensures CountsAs(node, look, expanded, Eligible) <==>
      && node.ep.state in {"", "in_scope"} && !look(node.ep).placeholder && node.ep.kind != "static"
      && exists scanner :: scanner in {"zap", "nuclei", "wapiti", "dalfox"} && Given(scanner, node.ep, look, expanded)
  {
    hide Refusal, Suits;
    EligibleExactly(ProofPass("zap", look, expanded), node.ep);
    EligibleExactly(ProofPass("nuclei", look, expanded), node.ep);
    EligibleExactly(ProofPass("wapiti", look, expanded), node.ep);
    EligibleExactly(ProofPass("dalfox", look, expanded), node.ep);
    if EligibleForSome(node.ep, look, expanded) {
      assert Given("zap", node.ep, look, expanded) || Given("nuclei", node.ep, look, expanded)
        || Given("wapiti", node.ep, look, expanded) || Given("dalfox", node.ep, look, expanded);
    }
  }

  /** The scanner suits the endpoint, and its method reads or is a write to be replayed. */
  predicate Given(scanner: string, ep: Endpoint, look: Endpoint -> Look, expanded: bool) {
    && Suits(scanner, expanded, ep, look(ep).root) && (scanner != "zap" ==> ep.verb == "GET")
    && (ep.verb in {"GET", "HEAD", "OPTIONS"}
      || (ep.verb == "POST" && expanded && ep.readOnly && ep.replayRef != ""))
  }

  /** One endpoint: its item joins the list of everything it counts as. */
  method AddNode(b: Books, scope: string, node: Node, look: Endpoint -> Look, expanded: bool, ghost ahead: nat,
          ghost hosts: nat, ghost services: nat)
    returns (b': Books, item: Item)
    requires Even(b, ahead, hosts, services) && OnlyInventory(b) && ahead > 0
    ensures Even(b', ahead - 1, hosts, services) && OnlyInventory(b')
    ensures forall k :: Get(b'.counts, k) == Get(b.counts, k) + NodeGain(look, expanded, k)(node)
    ensures item == Item(EndpointKey(scope, node.ep.id), node.ep.id, node.ep.state, node.ep.stateReason, "")
  {
    hide Even, EligibleForSome, StateDispatchable, EndpointKey, Note, OnlyInventory, Get, NodeGain, Raised;
    item := Item(EndpointKey(scope, node.ep.id), node.ep.id, node.ep.state, node.ep.stateReason, "");
    ghost var rest := ahead - 1;
    var dispatchable := StateDispatchable(node.ep.state);
    NoteKeepsEven(b, Discovered, item, ahead, hosts, services);
    b' := Note(b, Discovered, item);
    ghost var c1 := b'.counts;
    b' := NoteIf(b', node.observation == "observed", Observed, item, rest, hosts, services);
    ghost var c2 := b'.counts;
    b' := NoteIf(b', dispatchable, Approved, item, rest, hosts, services);
    ghost var c3 := b'.counts;
    b' := NoteIf(b', dispatchable && EligibleForSome(node.ep, look, expanded), Eligible, item, rest, hosts, services);
    ghost var c4 := b'.counts;
    b' := NoteIf(b', node.observation == "seed", Seeds, item, rest, hosts, services);
    ghost var c5 := b'.counts;
    b' := NoteIf(b', node.ep.hasForm, Forms, item, rest, hosts, services);
    ghost var c6 := b'.counts;
    b' := NoteIf(b', node.ep.hasParameters, Parameterized, item, rest, hosts, services);
    ghost var c7 := b'.counts;
    b' := NoteIf(b', node.observedWithAuth, ObservedWithAuth, item, rest, hosts, services);
    NodeGained(b.counts, c1, c2, c3, c4, c5, c6, c7, b'.counts, node, look, expanded);
  }

  /** Candidates are counted each time, other hosts once for an ID. */
  method AddHost(b: Books, h: Host, seen: set<string>, ghost ahead: nat, ghost services: nat)
    returns (b': Books, seen': set<string>)
    requires Even(b, ahead, |seen|, services) && OnlyInventory(b)
    ensures Even(b', ahead, |seen'|, services) && OnlyInventory(b')
    ensures seen' == seen + HostIds()(h) && forall k :: Get(b'.counts, k) == Get(b.counts, k) + HostGain(k)(h)
  {
    hide Even, OnlyInventory, Note, Get;
    var item := Item(h.id, "", h.state, "", "");
    b', seen' := b, seen;
    if h.state == "candidate" {
      NoteKeepsEven(b, Candidates, item, ahead, |seen|, services);
      b' := Note(b, Candidates, item);
      return;
    }
    if h.id !in seen {
      NoteKeepsEven(b, Hosts, item, ahead, |seen|, services);
      b' := Note(b, Hosts, item);
    } else {
      assert seen + {h.id} == seen;
    }
    seen' := seen + {h.id};
  }

  method AddHosts(b: Books, hosts: seq<Host>, seen: set<string>, ghost ahead: nat, ghost services: nat)
    returns (b': Books, seen': set<string>)
    requires Even(b, ahead, |seen|, services) && OnlyInventory(b)
    ensures Even(b', ahead, |seen'|, services) && OnlyInventory(b')
    ensures seen' == seen + Union(hosts, HostIds())
        && forall k :: Get(b'.counts, k) == Get(b.counts, k) + Sum(hosts, HostGain(k))
  {
    assert Union(hosts[..0], HostIds()) == {} && forall k :: Sum(hosts[..0], HostGain(k)) == 0;
    hide Even, OnlyInventory, Get, Union, Sum, HostIds, HostGain;
    b', seen' := b, seen;
    for i := 0 to |hosts|
      invariant Even(b', ahead, |seen'|, services) && OnlyInventory(b')
      invariant seen' == seen + Union(hosts[..i], HostIds())
      invariant forall k :: Get(b'.counts, k) == Get(b.counts, k) + Sum(hosts[..i], HostGain(k))
    {
      assert hosts[..i + 1] == hosts[..i] + [hosts[i]];
      UnionMore(seen, hosts[..i], HostIds(), hosts[i]);
      forall k: Kind {
        SumMore(hosts[..i], HostGain(k), hosts[i]);
      }
      b', seen' := AddHost(b', hosts[i], seen', ahead, services);
    }
    assert hosts[..|hosts|] == hosts;
  }

  /** The IDs whose first service speaks TLS. */
  ghost function TlsFirst(services: seq<Service>): set<string> {
    set i | 0 <= i < |services| && services[i].tls && (forall j :: 0 <= j < i ==> services[j].id != services[i].id)
      :: services[i].id
  }

  ghost function TlsGain(x: Service, seen: set<string>, k: Kind): nat {
    if k == TlsServices && x.tls && x.id !in seen then 1 else 0
  }

  lemma {:induction false} KnownService(services: seq<Service>, id: string)
    ensures id in Union(services, ServiceIds()) <==> exists i :: 0 <= i < |services| && services[i].id == id
  {
    UnionMembers(services, ServiceIds(), id);
    hide Union;
    if i :| 0 <= i < |services| && services[i].id == id {
      assert id in ServiceIds()(services[i]);
    }
  }

  lemma {:induction false} TlsMore(services: seq<Service>, x: Service)
    ensures |TlsFirst(services + [x])| == |TlsFirst(services)| + TlsGain(x, Union(services, ServiceIds()), TlsServices)
  {
    hide Union, ServiceIds, TlsFirst;
    KnownService(services, x.id);
    TlsMembers(services, x);
    KnownFirst(services, x.id);
    var known := exists i :: 0 <= i < |services| && services[i].id == x.id;
    assert TlsFirst(services + [x]) == TlsFirst(services) + if x.tls && !known then {x.id} else {};
  }

  lemma {:induction false} KnownFirst(services: seq<Service>, id: string)
    ensures id in TlsFirst(services) ==> exists i :: 0 <= i < |services| && services[i].id == id
  {
  }

  /** `x` speaks TLS and is the first service with this ID. */
  ghost predicate FirstWith(services: seq<Service>, x: Service, id: string) {
    id == x.id && x.tls && forall j :: 0 <= j < |services| ==> services[j].id != x.id
  }

  lemma {:induction false} TlsMembers(services: seq<Service>, x: Service)
    ensures forall id :: id in TlsFirst(services + [x]) <==> id in TlsFirst(services) || FirstWith(services, x, id)
  {
    var more := services + [x];
    forall id
      ensures id in TlsFirst(more) <==> id in TlsFirst(services) || FirstWith(services, x, id)
    {
      if id in TlsFirst(services) {
        var i :| 0 <= i < |services| && services[i].id == id && services[i].tls
            && forall j :: 0 <= j < i ==> services[j].id != services[i].id;
        assert more[i] == services[i] && forall j :: 0 <= j < i ==> more[j] == services[j];
      }
      if FirstWith(services, x, id) {
        assert more[|services|] == x && forall j :: 0 <= j < |services| ==> more[j].id != x.id;
      }
      if id in TlsFirst(more) {
        var i :| 0 <= i < |more| && more[i].id == id && more[i].tls
            && forall j :: 0 <= j < i ==> more[j].id != more[i].id;
        assert i < |services| ==> services[i] == more[i] && forall j :: 0 <= j < i ==> services[j] == more[j];
        assert i == |services| ==> forall j :: 0 <= j < i ==> services[j] == more[j];
      }
    }
  }

  /** A service counts once for an ID. */
  method AddService(b: Books, x: Service, seen: set<string>, ghost ahead: nat, ghost hosts: nat)
    returns (b': Books, seen': set<string>)
    requires Even(b, ahead, hosts, |seen|) && OnlyInventory(b)
    ensures Even(b', ahead, hosts, |seen'|) && OnlyInventory(b')
    ensures seen' == seen + ServiceIds()(x)
    ensures forall k :: Get(b'.counts, k) == Get(b.counts, k) + TlsGain(x, seen, k)
  {
    hide Even, OnlyInventory, Note, Get;
    b', seen' := b, seen + {x.id};
    if x.id in seen {
      assert seen' == seen;
      return;
    }
    var item := Item(x.id, "", x.state, "", "");
    NoteKeepsEven(b, Services, item, ahead, hosts, |seen|);
    b' := Note(b, Services, item);
    b' := NoteIf(b', x.tls, TlsServices, item, ahead, hosts, |seen'|);
  }

  /** The services of a surface; `before` are those of the surfaces before it. */
  method AddServices(b: Books, services: seq<Service>, seen: set<string>, ghost before: seq<Service>, ghost ahead: nat,
          ghost hosts: nat)
    returns (b': Books, seen': set<string>)
    requires Even(b, ahead, hosts, |seen|) && OnlyInventory(b) && seen == Union(before, ServiceIds())
    ensures Even(b', ahead, hosts, |seen'|) && OnlyInventory(b')
    ensures seen' == seen + Union(services, ServiceIds()) == Union(before + services, ServiceIds())
    ensures forall k :: Get(b'.counts, k) == Get(b.counts, k) + TlsAdded(before, services, k)
  {
    assert Union(services[..0], ServiceIds()) == {} && before + services[..0] == before;
    hide Even, OnlyInventory, Get, Union, ServiceIds, TlsAdded, TlsGain;
    assert forall k :: TlsAdded(before, services[..0], k) == 0 by {
      NothingAdded(before);
    }
    b', seen' := b, seen;
    for i := 0 to |services|
      invariant Even(b', ahead, hosts, |seen'|) && OnlyInventory(b')
      invariant seen' == seen + Union(services[..i], ServiceIds()) == Union(before + services[..i], ServiceIds())
      invariant forall k :: Get(b'.counts, k) == Get(b.counts, k) + TlsAdded(before, services[..i], k)
    {
      assert services[..i + 1] == services[..i] + [services[i]];
      assert before + services[..i + 1] == (before + services[..i]) + [services[i]];
      UnionMore(seen, services[..i], ServiceIds(), services[i]);
      UnionMore({}, before + services[..i], ServiceIds(), services[i]);
      TlsAddedMore(before, services[..i], services[i]);
      b', seen' := AddService(b', services[i], seen', ahead, hosts);
    }
    assert services[..|services|] == services;
  }

  ghost function TlsAdded(before: seq<Service>, services: seq<Service>, k: Kind): int {
    if k == TlsServices then |TlsFirst(before + services)| - |TlsFirst(before)| else 0
  }

  lemma {:induction false} NothingAdded(before: seq<Service>)
    ensures forall k :: TlsAdded(before, [], k) == 0
  {
    assert before + [] == before;
  }

  lemma {:induction false} TlsAddedMore(before: seq<Service>, services: seq<Service>, x: Service)
    ensures forall k ::
      TlsAdded(before, services + [x], k) ==
      TlsAdded(before, services, k) + TlsGain(x, Union(before + services, ServiceIds()), k)
  {
    hide TlsFirst;
    TlsMore(before + services, x);
    assert before + (services + [x]) == (before + services) + [x];
  }

  // ----- the sets of the scanners ------------------------------------------

  /** What is known of the scanners: their sets, who recorded events, how many
      templates were enabled, and the items to show for a key. */
  datatype States = States(marks: set<Mark>, names: set<string>, recorded: set<string>, enabled: map<string, nat>,
                           lookup: map<string, Item>, shown: map<(string, string), Item>)

  /** The items carry their key as ID, or none yet. */
  ghost predicate Keyed(s: States) {
    && (forall k :: k in s.lookup ==> s.lookup[k].id == k)
    && (forall n, k :: (n, k) in s.shown ==> s.shown[(n, k)].id == k || s.shown[(n, k)].id == "")
    && (forall m :: m in s.marks ==> m.scanner in s.names && (m.kind == Exercised ==> m.scanner in s.recorded))
  }

  /** A scanner whose state exists, and the sets a key joins. */
  function MarkIn(s: States, scanner: string, kinds: set<SetKind>, key: string): States {
    s.(names := s.names + {scanner}, marks := s.marks + Marks(scanner, kinds, key))
  }

  /** The same, with the item to show for the key. */
  function Show(s: States, scanner: string, kinds: set<SetKind>, key: string, item: Item): States {
    MarkIn(s.(shown := s.shown[(scanner, key) := item]), scanner, kinds, key)
  }

  function Look(s: States, key: string): Item {
    if key in s.lookup then s.lookup[key] else Item("", "", "", "", "")
  }

  function Shown(s: States, scanner: string, key: string): Item {
    if (scanner, key) in s.shown then s.shown[(scanner, key)] else Item("", "", "", "", "")
  }

  lemma {:induction false} MarkKeepsKeyed(s: States, scanner: string, kinds: set<SetKind>, key: string)
    requires Keyed(s) && (Exercised in kinds ==> scanner in s.recorded)
    ensures Keyed(MarkIn(s, scanner, kinds, key))
  {
  }

  lemma {:induction false} ShowKeepsKeyed(s: States, scanner: string, kinds: set<SetKind>, key: string, item: Item)
    requires Keyed(s) && (item.id == key || item.id == "") && (Exercised in kinds ==> scanner in s.recorded)
    ensures Keyed(Show(s, scanner, kinds, key, item))
  {
  }

  lemma {:induction false} LookIsKeyed(s: States, scanner: string, key: string)
    requires Keyed(s)
    ensures Look(s, key).id == key || Look(s, key).id == ""
    ensures Shown(s, scanner, key).id == key || Shown(s, scanner, key).id == ""
  {
  }

  lemma {:induction false} KeyedStays(s: States, s': States)
    requires Keyed(s) && s'.marks == s.marks && s'.lookup == s.lookup && s'.shown == s.shown
    requires s.names <= s'.names && s.recorded <= s'.recorded
    ensures Keyed(s')
  {
  }

  lemma {:induction false} LookupKeepsKeyed(s: States, key: string, item: Item)
    requires Keyed(s) && item.id == key
    ensures Keyed(s.(lookup := s.lookup[key := item]))
  {
  }

  lemma {:induction false} RowNeverExercises(status: string)
    ensures Exercised !in RowKinds(status) && Exercised !in SubmissionKinds(status)
  {
  }

  /** What the steps keep of the states. */
  predicate Onward(s: States, s': States) {
    s'.lookup == s.lookup && s'.enabled == s.enabled && s.names <= s'.names
  }

  /** The coverage rows of one endpoint. */
  method AddCoverage(s: States, rows: seq<Coverage>, key: string) returns (s': States)
    requires Keyed(s) && key in s.lookup
    ensures Keyed(s') && Onward(s, s') && s'.marks == s.marks + Union(rows, RowMarks(key))
  {
    hide Keyed, Marks, RowKinds;
    s' := s;
    for i := 0 to |rows|
      invariant Keyed(s') && Onward(s, s') && s'.marks == s.marks + Union(rows[..i], RowMarks(key))
    {
      var c := rows[i];
      assert rows[..i + 1] == rows[..i] + [c];
      UnionMore(s.marks, rows[..i], RowMarks(key), c);
      hide Union;
      LookIsKeyed(s', c.scanner, key);
      RowNeverExercises(c.status);
      var item := Look(s', key).(state := c.status, reason := c.reason, attemptID := c.attemptID);
      ShowKeepsKeyed(s', c.scanner, RowKinds(c.status), key, item);
      s' := Show(s', c.scanner, RowKinds(c.status), key, item);
    }
    assert rows[..|rows|] == rows;
  }

  // ----- the surfaces ------------------------------------------------------

  /** The endpoints of one surface. */
  method AddNodes(b: Books, s: States, surface: Surface, look: Endpoint -> Look, ghost hosts: nat, ghost services: nat)
    returns (b': Books, s': States)
    requires Even(b, |surface.nodes|, hosts, services) && OnlyInventory(b) && Keyed(s)
    ensures Even(b', 0, hosts, services) && OnlyInventory(b') && Keyed(s')
    ensures s'.marks == s.marks + SurfaceMarks()(surface) && s'.enabled == s.enabled
    ensures forall k :: Get(b'.counts, k) == Get(b.counts, k) + Sum(surface.nodes, NodeGain(look, surface.expanded, k))
  {
    hide Even, OnlyInventory, Keyed, EndpointKey, CountsAs, Get, RowMarks;
    b', s' := b, s;
    var nodes, scope := surface.nodes, surface.scope;
    for i := 0 to |nodes|
      invariant Even(b', |nodes| - i, hosts, services) && OnlyInventory(b') && Keyed(s')
      invariant s'.marks == s.marks + Union(nodes[..i], NodeMarks(scope)) && s'.enabled == s.enabled
      invariant forall k :: Get(b'.counts, k) == Get(b.counts, k) + Sum(nodes[..i], NodeGain(look, surface.expanded, k))
    {
      assert nodes[..i + 1] == nodes[..i] + [nodes[i]];
      UnionMore(s.marks, nodes[..i], NodeMarks(scope), nodes[i]);
      forall k: Kind {
        SumMore(nodes[..i], NodeGain(look, surface.expanded, k), nodes[i]);
      }
      hide Union, Sum, NodeGain;
      var item;
      b', item := AddNode(b', scope, nodes[i], look, surface.expanded, |nodes| - i, hosts, services);
      var key := EndpointKey(scope, nodes[i].ep.id);
      LookupKeepsKeyed(s', key, item);
      s' := s'.(lookup := s'.lookup[key := item]);
      s' := AddCoverage(s', nodes[i].ep.coverage, key);
    }
    assert nodes[..|nodes|] == nodes;
  }

  /** The IDs of the hosts and of the services of a surface. */
  ghost function SurfaceHosts(): Surface -> set<string> {
    (surface: Surface) => Union(surface.hosts, HostIds())
  }

  ghost function SurfaceServices(): Surface -> set<string> {
    (surface: Surface) => Union(surface.services, ServiceIds())
  }

  /** The services of some surfaces, in order. */
  ghost function ServicesOf(surfaces: seq<Surface>): seq<Service> {
    if surfaces == [] then [] else ServicesOf(surfaces[..|surfaces| - 1]) + surfaces[|surfaces| - 1].services
  }

  /** The counters are those of everything in the surfaces. Hosts and services are
      counted once for an ID, and so are TLS services, by the first with the ID. */
  ghost predicate Exact(counts: map<Kind, nat>, surfaces: seq<Surface>, look: Endpoint -> Look) {
    && (forall k :: k != Hosts && k != Services && k != TlsServices ==>
       Get(counts, k) == Sum(surfaces, SurfaceGain(look, k)))
    && Get(counts, TlsServices) == |TlsFirst(ServicesOf(surfaces))|
  }

  /** One surface: its endpoints are counted as discovered before they are listed. */
  method AddSurface(b: Books, s: States, surface: Surface, look: Endpoint -> Look, hosts: set<string>,
          services: set<string>, ghost before: seq<Service>)
    returns (b': Books, s': States, hosts': set<string>, services': set<string>)
    requires Even(b, 0, |hosts|, |services|) && OnlyInventory(b) && Keyed(s)
    requires services == Union(before, ServiceIds())
    ensures Even(b', 0, |hosts'|, |services'|) && OnlyInventory(b') && Keyed(s')
    ensures hosts' == hosts + SurfaceHosts()(surface) && services' == services + SurfaceServices()(surface)
    ensures s'.marks == s.marks + SurfaceMarks()(surface) && s'.enabled == s.enabled
    ensures services' == Union(before + surface.services, ServiceIds())
    ensures forall k ::
      Get(b'.counts, k) == Get(b.counts, k) + SurfaceGain(look, k)(surface) + TlsAdded(before, surface.services, k)
  {
    hide Even, OnlyInventory, Keyed, Get, Union, Sum, NodeGain, HostGain, HostIds, ServiceIds, NodeMarks, TlsAdded;
    b' := b.(counts := b.counts[Discovered := Get(b.counts, Discovered) + |surface.nodes|]);
    AheadEven(b, b', |surface.nodes|, |hosts|, |services|);
    b', hosts' := AddHosts(b', surface.hosts, hosts, |surface.nodes|, |services|);
    b', services' := AddServices(b', surface.services, services, before, |surface.nodes|, |hosts'|);
    b', s' := AddNodes(b', s, surface, look, |hosts'|, |services'|);
  }

  lemma {:induction false} AheadEven(b: Books, b': Books, n: nat, hosts: nat, services: nat)
    requires Even(b, 0, hosts, services) && OnlyInventory(b)
    requires b' == b.(counts := b.counts[Discovered := Get(b.counts, Discovered) + n])
    ensures Even(b', n, hosts, services) && OnlyInventory(b')
    ensures forall k :: Get(b'.counts, k) == Get(b.counts, k) + if k == Discovered then n else 0
  {
    forall k: Kind
      ensures |List(b', Of(k))| == Due(b', k, n, hosts, services)
    {
      assert List(b', Of(k)) == List(b, Of(k));
      assert |List(b, Of(k))| == Due(b, k, 0, hosts, services);
    }
  }

  method AddSurfaces(surfaces: seq<Surface>, look: Endpoint -> Look)
    returns (b: Books, s: States, hosts: set<string>, services: set<string>)
    ensures Even(b, 0, |hosts|, |services|) && OnlyInventory(b) && Keyed(s)
    ensures hosts == Union(surfaces, SurfaceHosts()) && services == Union(surfaces, SurfaceServices())
    ensures s.marks == Union(surfaces, SurfaceMarks()) && Exact(b.counts, surfaces, look) && s.enabled == map[]
  {
    hide Even, OnlyInventory, Keyed, Exact, SurfaceMarks, SurfaceHosts, SurfaceServices, SurfaceGain, Union, Get,
      ServicesOf, ServiceIds, TlsAdded;
    b, s, hosts, services := Books(map[], map[]), States({}, {}, {}, map[], map[], map[]), {}, {};
    NoSurfaces(b, s, surfaces, look);
    for i := 0 to |surfaces|
      invariant Even(b, 0, |hosts|, |services|) && OnlyInventory(b) && Keyed(s)
      invariant hosts == Union(surfaces[..i], SurfaceHosts()) && services == Union(surfaces[..i], SurfaceServices())
      invariant services == Union(ServicesOf(surfaces[..i]), ServiceIds())
      invariant s.marks == Union(surfaces[..i], SurfaceMarks()) && Exact(b.counts, surfaces[..i], look)
          && s.enabled == map[]
    {
      ghost var before := b.counts;
      b, s, hosts, services := AddSurface(b, s, surfaces[i], look, hosts, services, ServicesOf(surfaces[..i]));
      assert surfaces[..i + 1] == surfaces[..i] + [surfaces[i]];
      ServicesMore(surfaces[..i], surfaces[i]);
      UnionMore({}, surfaces[..i], SurfaceHosts(), surfaces[i]);
      UnionMore({}, surfaces[..i], SurfaceServices(), surfaces[i]);
      UnionMore({}, surfaces[..i], SurfaceMarks(), surfaces[i]);
      ExactMore(before, b.counts, surfaces[..i], surfaces[i], look);
    }
    assert surfaces[..|surfaces|] == surfaces;
  }

  lemma {:induction false} NoSurfaces(b: Books, s: States, surfaces: seq<Surface>, look: Endpoint -> Look)
    requires b == Books(map[], map[]) && s == States({}, {}, {}, map[], map[], map[])
    ensures Even(b, 0, 0, 0) && OnlyInventory(b) && Keyed(s) && Exact(b.counts, surfaces[..0], look)
    ensures Union(surfaces[..0], SurfaceHosts()) == {} && Union(surfaces[..0], SurfaceServices()) == {}
    ensures Union(surfaces[..0], SurfaceMarks()) == {} && Union(ServicesOf(surfaces[..0]), ServiceIds()) == {}
  {
    assert TlsFirst([]) == {};
  }

  lemma {:induction false} ServicesMore(surfaces: seq<Surface>, surface: Surface)
    ensures ServicesOf(surfaces + [surface]) == ServicesOf(surfaces) + surface.services
  {
    assert (surfaces + [surface])[..|surfaces|] == surfaces;
  }

  lemma {:induction false} ExactMore(c: map<Kind, nat>, c': map<Kind, nat>, surfaces: seq<Surface>, surface: Surface,
          look: Endpoint -> Look)
    requires Exact(c, surfaces, look)
    requires forall k ::
      Get(c', k) == Get(c, k) + SurfaceGain(look, k)(surface) + TlsAdded(ServicesOf(surfaces), surface.services, k)
    ensures Exact(c', surfaces + [surface], look)
  {
    hide Get, SurfaceGain, Sum, TlsFirst, ServicesOf;
    ServicesMore(surfaces, surface);
    NoTlsGain(surface, look);
    forall k: Kind {
      SumMore(surfaces, SurfaceGain(look, k), surface);
    }
  }

  /** Hosts and endpoints add nothing to the TLS services. */
  lemma {:induction false} NoTlsGain(surface: Surface, look: Endpoint -> Look)
    ensures SurfaceGain(look, TlsServices)(surface) == 0
  {
    NoGain(surface.hosts, HostGain(TlsServices));
    NoGain(surface.nodes, NodeGain(look, surface.expanded, TlsServices));
  }

  lemma {:induction false} NoGain<T(!new)>(xs: seq<T>, f: T -> nat)
    requires forall x :: f(x) == 0
    ensures Sum(xs, f) == 0
  {
    if xs != [] {
      NoGain(xs[..|xs| - 1], f);
    }
  }

  // ----- one run -----------------------------------------------------------

  /** The manifest: what was selected for the scanner and what was left out. */
  method AddManifest(s: States, run: Run) returns (s': States, scopes: map<string, string>)
    requires Keyed(s)
    ensures Keyed(s') && s'.marks == s.marks + Union(ManifestOf(run), InputMarks(run))
        && scopes == Scopes(ManifestOf(run), run)
    ensures Onward(s, s') && s'.recorded == s.recorded
  {
    hide Keyed, Marks, EndpointKey;
    var rows := ManifestOf(run);
    s', scopes := s, map[];
    for i := 0 to |rows|
      invariant Keyed(s') && s'.marks == s.marks + Union(rows[..i], InputMarks(run)) && scopes == Scopes(rows[..i], run)
      invariant Onward(s, s') && s'.recorded == s.recorded
    {
      var r := rows[i];
      assert rows[..i + 1] == rows[..i] + [r] && rows[..i + 1][..i] == rows[..i];
      UnionMore(s.marks, rows[..i], InputMarks(run), r);
      hide Union;
      var scope := if r.scope == "" then run.scope else r.scope;
      scopes := scopes[r.endpointID := scope];
      var key := EndpointKey(scope, r.endpointID);
      LookIsKeyed(s', run.scanner, key);
      var item := Look(s', key);
      if item.id == "" {
        item := Item(key, r.endpointID, "", "", "");
      }
      item := item.(attemptID := run.attemptID, reason := r.reason);
      var kinds := if r.selected then {Selected} else {Skipped};
      ShowKeepsKeyed(s', run.scanner, kinds, key, item);
      s' := Show(s', run.scanner, kinds, key, item);
    }
    assert rows[..|rows|] == rows;
  }

  /** What the scanner reports for single endpoints. */
  method AddSubmissions(s: States, run: Run, scopes: map<string, string>) returns (s': States)
    requires Keyed(s)
    ensures Keyed(s') && s'.marks == s.marks + Union(run.submissions, SubmissionMarks(run, scopes))
    ensures Onward(s, s') && s'.recorded == s.recorded
  {
    hide Keyed, Marks, SubmissionKinds, RunKey;
    var list := run.submissions;
    s' := s;
    for i := 0 to |list|
      invariant Keyed(s') && s'.marks == s.marks + Union(list[..i], SubmissionMarks(run, scopes))
      invariant Onward(s, s') && s'.recorded == s.recorded
    {
      assert list[..i + 1] == list[..i] + [list[i]];
      UnionMore(s.marks, list[..i], SubmissionMarks(run, scopes), list[i]);
      hide Union;
      if list[i].endpointID == "" {
        continue;
      }
      var key, kinds := RunKey(scopes, run, list[i].endpointID), SubmissionKinds(list[i].status);
      LookIsKeyed(s', run.scanner, key);
      var item := Shown(s', run.scanner, key);
      if item.id == "" {
        item := Look(s', key);
      }
      item := item.(attemptID := run.attemptID, state := list[i].status, reason := list[i].reason);
      RowNeverExercises(list[i].status);
      ShowKeepsKeyed(s', run.scanner, kinds, key, item);
      s' := Show(s', run.scanner, kinds, key, item);
    }
    assert list[..|list|] == list;
  }

  /** The endpoints of one recorded event. */
  method AddEvent(s: States, run: Run, scopes: map<string, string>, event: Event) returns (s': States)
    requires Keyed(s) && run.scanner in s.recorded
    ensures Keyed(s') && s'.marks == s.marks + EventMarks(run, scopes)(event)
    ensures Onward(s, s') && s'.recorded == s.recorded
  {
    hide Keyed, Marks, EventKinds, RunKey;
    var ids, kinds := event.endpointIDs, EventKinds(event.kind, event.phase);
    s' := s;
    for i := 0 to |ids|
      invariant Keyed(s') && s'.marks == s.marks + Union(ids[..i], IdMarks(kinds, run, scopes))
      invariant Onward(s, s') && s'.recorded == s.recorded
    {
      assert ids[..i + 1] == ids[..i] + [ids[i]];
      UnionMore(s.marks, ids[..i], IdMarks(kinds, run, scopes), ids[i]);
      hide Union;
      MarkKeepsKeyed(s', run.scanner, kinds, RunKey(scopes, run, ids[i]));
      s' := MarkIn(s', run.scanner, kinds, RunKey(scopes, run, ids[i]));
    }
    assert ids[..|ids|] == ids;
  }

  /** The recorded events, if the file can be read; then exercise is known. */
  method AddEvents(s: States, run: Run, scopes: map<string, string>) returns (s': States)
    requires Keyed(s)
    ensures Keyed(s') && s'.marks == s.marks + Union(EventsOf(run), EventMarks(run, scopes))
    ensures Onward(s, s') && s'.recorded == s.recorded + if run.events.Some? then {run.scanner} else {}
  {
    hide Keyed, EventMarks;
    s' := s;
    if run.events.None? {
      return;
    }
    var events := run.events.value;
    s' := s.(recorded := s.recorded + {run.scanner});
    KeyedStays(s, s');
    for i := 0 to |events|
      invariant Keyed(s') && s'.marks == s.marks + Union(events[..i], EventMarks(run, scopes))
      invariant Onward(s, s') && s'.recorded == s.recorded + {run.scanner}
    {
      assert events[..i + 1] == events[..i] + [events[i]];
      UnionMore(s.marks, events[..i], EventMarks(run, scopes), events[i]);
      hide Union;
      s' := AddEvent(s', run, scopes, events[i]);
    }
    assert events[..|events|] == events;
  }

  /** The number of templates a run lists for the scanner. */
  ghost function TemplateGain(scanner: string): Run -> nat {
    (run: Run) => if run.scanner == scanner && run.templates.Some? then |run.templates.value| else 0
  }

  /** The enabled templates: the counter is replaced, the list extended. */
  method AddTemplates(b: Books, s: States, run: Run, ghost hosts: nat, ghost services: nat)
    returns (b': Books, s': States)
    requires Even(b, 0, hosts, services) && NoSetLists(b)
    ensures Even(b', 0, hosts, services) && NoSetLists(b') && b'.counts == b.counts
    ensures s' == s.(enabled := if run.templates.Some? then s.enabled[run.scanner := |run.templates.value|]
        else s.enabled)
    ensures forall n :: |List(b', Templates(n))| == |List(b, Templates(n))| + TemplateGain(n)(run)
  {
    hide Even, NoSetLists, List, AddItem;
    b', s' := b, s;
    if run.templates.None? {
      return;
    }
    var templates := run.templates.value;
    s' := s.(enabled := s.enabled[run.scanner := |templates|]);
    for i := 0 to |templates|
      invariant Even(b', 0, hosts, services) && NoSetLists(b') && b'.counts == b.counts
      invariant forall n :: |List(b', Templates(n))| == |List(b, Templates(n))| + if n == run.scanner then i else 0
    {
      var item := Item(templates[i], "", "enabled", "", run.attemptID);
      TemplateKeeps(b', run.scanner, item, hosts, services);
      b' := AddItem(b', Templates(run.scanner), item);
    }
  }

  lemma {:induction false} TemplateKeeps(b: Books, scanner: string, item: Item, hosts: nat, services: nat)
    requires Even(b, 0, hosts, services) && NoSetLists(b)
    ensures var after := AddItem(b, Templates(scanner), item);
            && Even(after, 0, hosts, services) && NoSetLists(after) && after.counts == b.counts
            && forall n :: |List(after, Templates(n))| == |List(b, Templates(n))| + if n == scanner then 1 else 0
  {
    var after := AddItem(b, Templates(scanner), item);
    forall j
      ensures List(after, j) == if j == Templates(scanner) then List(b, j) + [item] else List(b, j)
    {
    }
    EvenStays(b, after, hosts, services);
  }

  /** What does not touch the counters and lists of the inventory. */
  lemma {:induction false} EvenStays(b: Books, b': Books, hosts: nat, services: nat)
    requires Even(b, 0, hosts, services) && b'.counts == b.counts && forall k :: List(b', Of(k)) == List(b, Of(k))
    ensures Even(b', 0, hosts, services)
  {
    hide List;
    forall k: Kind
      ensures |List(b', Of(k))| == Due(b', k, 0, hosts, services)
    {
      assert |List(b, Of(k))| == Due(b, k, 0, hosts, services);
    }
  }

  method AddRun(b: Books, s: States, run: Run, ghost hosts: nat, ghost services: nat) returns (b': Books, s': States)
    requires Even(b, 0, hosts, services) && NoSetLists(b) && Keyed(s)
    ensures Even(b', 0, hosts, services) && NoSetLists(b') && Keyed(s') && b'.counts == b.counts
    ensures s'.marks == s.marks + RunMarks()(run) && run.scanner in s'.names
    ensures s'.recorded == s.recorded + if run.events.Some? then {run.scanner} else {}
    ensures s'.enabled == if run.templates.Some? then s.enabled[run.scanner := |run.templates.value|] else s.enabled
    ensures forall n :: |List(b', Templates(n))| == |List(b, Templates(n))| + TemplateGain(n)(run)
  {
    hide Even, NoSetLists, Keyed, List, Union, InputMarks, SubmissionMarks, EventMarks, Scopes, TemplateGain;
    b', s' := AddTemplates(b, s, run, hosts, services);
    s' := s'.(names := s'.names + {run.scanner});
    KeyedStays(s, s');
    var scopes;
    s', scopes := AddManifest(s', run);
    s' := AddSubmissions(s', run, scopes);
    s' := AddEvents(s', run, scopes);
  }

  // ----- all runs ----------------------------------------------------------

  /** The counter of enabled templates: that of the last run with a list. */
  function LastTemplates(runs: seq<Run>, scanner: string): Option<nat> {
    if runs == [] then None
    else
      var r := runs[|runs| - 1];
      if ListsTemplates(r, scanner) then Some(|r.templates.value|) else LastTemplates(runs[..|runs| - 1], scanner)
  }

  predicate ListsTemplates(run: Run, scanner: string) {
    run.scanner == scanner && run.templates.Some?
  }

  /** The lists and counters of templates are those of these runs. */
  ghost predicate TemplatesAre(b: Books, s: States, runs: seq<Run>) {
    && (forall x :: |List(b, Templates(x))| == Sum(runs, TemplateGain(x)))
    && (forall x :: (if x in s.enabled then Some(s.enabled[x]) else None) == LastTemplates(runs, x))
  }

  /** Only the latest run of a scanner and scope is used. */
  method AddRuns(b: Books, s: States, runs: seq<Run>, ghost hosts: nat, ghost services: nat)
    returns (b': Books, s': States)
    requires Even(b, 0, hosts, services) && NoSetLists(b) && Keyed(s) && TemplatesAre(b, s, [])
    ensures Even(b', 0, hosts, services) && NoSetLists(b') && Keyed(s') && b'.counts == b.counts
    ensures s'.marks == s.marks + Union(LatestOf(runs, |runs|), RunMarks())
        && TemplatesAre(b', s', LatestOf(runs, |runs|))
  {
    var latest := LatestRuns(runs);
    hide Even, NoSetLists, Keyed, List, RunMarks, TemplatesAre, IsLatest, TemplateGain;
    b', s' := b, s;
    for i := 0 to |runs|
      invariant Even(b', 0, hosts, services) && NoSetLists(b') && Keyed(s') && b'.counts == b.counts
      invariant s'.marks == s.marks + Union(LatestOf(runs, i), RunMarks()) && TemplatesAre(b', s', LatestOf(runs, i))
    {
      UnionMore(s.marks, LatestOf(runs, i), RunMarks(), runs[i]);
      hide Union;
      if latest[(runs[i].scanner, runs[i].scope)] != i {
        assert LatestOf(runs, i + 1) == LatestOf(runs, i);
        continue;
      }
      ghost var was, before := b', s';
      b', s' := AddRun(b', s', runs[i], hosts, services);
      TemplatesMore(was, before, b', s', LatestOf(runs, i), runs[i]);
    }
  }

  lemma {:induction false} TemplatesMore(b: Books, s: States, b': Books, s': States, runs: seq<Run>, run: Run)
    requires TemplatesAre(b, s, runs)
    requires s'.enabled == if run.templates.Some? then s.enabled[run.scanner := |run.templates.value|] else s.enabled
    requires forall n :: |List(b', Templates(n))| == |List(b, Templates(n))| + TemplateGain(n)(run)
    ensures TemplatesAre(b', s', runs + [run])
  {
    hide List, TemplateGain;
    assert (runs + [run])[..|runs|] == runs;
    forall x {
      SumMore(runs, TemplateGain(x), run);
    }
    hide Sum;
  }

  // ----- the rows ----------------------------------------------------------

  function KeysOf(marks: set<Mark>, scanner: string, kind: SetKind): set<string> {
    set m | m in marks && m.scanner == scanner && m.kind == kind :: m.key
  }

  /** Go's sorted key list of a map. */
  method SortedKeys(keys: set<string>) returns (out: seq<string>)
    ensures |out| == |keys| && (forall k :: k in out <==> k in keys)
    ensures forall i, j :: 0 <= i < j < |out| ==> StrLe(out[i], out[j]) && out[i] != out[j]
  {
    var some: seq<string> := [];
    var left := keys;
    while left != {}
      invariant left <= keys && forall k :: k in some <==> k in keys - left
      decreases |left|
    {
      var k :| k in left;
      left := left - {k};
      some := some + [k];
    }
    StrOrder();
    hide StrLe, NormalForm, TotalOrder, Classes;
    out := SortDedupe(some, StrLe, StrSame);
    forall k
      ensures k in out <==> k in keys
    {
      if k in keys {
        assert Represented(k, out, StrSame);
      }
    }
    DistinctSize(out, keys);
  }

  lemma {:induction false} DistinctSize(xs: seq<string>, keys: set<string>)
    requires forall k :: k in xs <==> k in keys
    requires forall i, j :: 0 <= i < j < |xs| ==> xs[i] != xs[j]
    ensures |xs| == |keys|
  {
    if xs == [] {
      assert keys == {};
    } else {
      var n := |xs| - 1;
      assert xs == xs[..n] + [xs[n]];
      DistinctSize(xs[..n], keys - {xs[n]});
    }
  }

  predicate IdsAre(items: seq<Item>, keys: seq<string>) {
    |items| == |keys| && forall i :: 0 <= i < |items| ==> items[i].id == keys[i]
  }

  /** The list to drill down to: one item for each key, showing that key. */
  method ItemsFor(s: States, scanner: string, keys: seq<string>) returns (items: seq<Item>)
    requires Keyed(s)
    ensures IdsAre(items, keys)
  {
    hide Keyed;
    items := [];
    for i := 0 to |keys|
      invariant IdsAre(items, keys[..i])
    {
      LookIsKeyed(s, scanner, keys[i]);
      var item := Shown(s, scanner, keys[i]);
      if item.id == "" {
        item := Look(s, keys[i]);
      }
      if item.id == "" {
        item := item.(id := keys[i]);
      }
      items := items + [item];
    }
    assert keys[..|keys|] == keys;
  }

  datatype Row = Row(
      scanner: string, sizes: map<SetKind, nat>, exercised: Option<nat>, unknown: nat, enabled: Option<nat>)

  function SizeOf(r: Row, k: SetKind): nat {
    if k in r.sizes then r.sizes[k] else 0
  }

  /** A list that shows exactly these keys, each once. */
  ghost predicate Shows(items: seq<Item>, keys: set<string>) {
    && |items| == |keys|
    && (forall i :: 0 <= i < |items| ==> items[i].id in keys)
    && (forall k :: k in keys ==> exists i :: 0 <= i < |items| && items[i].id == k)
  }

  /** A row agrees with its lists: every size is the length of the list, the list
      shows exactly the keys of the set, and the unknown list shows what was
      selected and not exercised. */
  ghost predicate Agrees(b: Books, s: States, r: Row) {
    && (forall k ::
          && SizeOf(r, k) == |KeysOf(s.marks, r.scanner, k)|
          && Shows(List(b, ByScanner(r.scanner, k)), KeysOf(s.marks, r.scanner, k)))
    && Shows(List(b, Unknown(r.scanner)), KeysOf(s.marks, r.scanner, Selected) - KeysOf(s.marks, r.scanner, Exercised))
    && r.exercised == (if r.scanner in s.recorded then Some(|KeysOf(s.marks, r.scanner, Exercised)|) else None)
    && r.unknown == UnknownCount(|KeysOf(s.marks, r.scanner, Selected)|, r.exercised)
    && r.enabled == if r.scanner in s.enabled then Some(s.enabled[r.scanner]) else None
  }

  function UnknownCount(selected: nat, exercised: Option<nat>): nat {
    if exercised.None? then selected
    else if selected - exercised.value < 0 then 0 else selected - exercised.value
  }

  lemma {:induction false} ShowsKeys(items: seq<Item>, keys: seq<string>, all: set<string>)
    requires IdsAre(items, keys) && |keys| == |all| && forall k :: k in keys <==> k in all
    ensures Shows(items, all)
  {
    forall k | k in all
      ensures exists i :: 0 <= i < |items| && items[i].id == k
    {
      var i :| 0 <= i < |keys| && keys[i] == k;
      assert items[i].id == k;
    }
  }

  /** The list of one set of one scanner. */
  method AddList(b: Books, s: States, m: Metric, scanner: string, keys: set<string>) returns (b': Books)
    requires Keyed(s) && m !in b.items
    ensures Shows(List(b', m), keys) && b'.counts == b.counts
    ensures b'.items.Keys == b.items.Keys + {m}
    ensures forall j :: j != m ==> List(b', j) == List(b, j)
  {
    hide Keyed;
    var sorted := SortedKeys(keys);
    var items := ItemsFor(s, scanner, sorted);
    ShowsKeys(items, sorted, keys);
    hide Shows;
    b' := b.(items := b.items[m := items]);
  }

  const SET_KINDS: seq<SetKind> := [Selected, Submitted, Acknowledged, Exercised, BatchCompleted, Failed, Skipped]

  predicate OfRow(m: Metric, scanner: string) {
    (m.ByScanner? || m.Unknown?) && m.scanner == scanner
  }

  /** The lists of the first `n` kinds agree with the sets. */
  ghost predicate ListedUpTo(b: Books, s: States, r: Row, n: nat)
    requires n <= |SET_KINDS|
  {
    forall i :: 0 <= i < n ==>
      var keys := KeysOf(s.marks, r.scanner, SET_KINDS[i]);
      SizeOf(r, SET_KINDS[i]) == |keys| && Shows(List(b, ByScanner(r.scanner, SET_KINDS[i])), keys)
  }

  lemma {:induction false} AllListed(b: Books, s: States, r: Row, k: SetKind)
    requires ListedUpTo(b, s, r, |SET_KINDS|)
    ensures SizeOf(r, k) == |KeysOf(s.marks, r.scanner, k)|
        && Shows(List(b, ByScanner(r.scanner, k)), KeysOf(s.marks, r.scanner, k))
  {
    hide KeysOf, Shows, List, SizeOf;
    assert exists i :: 0 <= i < 7 && SET_KINDS[i] == k by {
      match k
      case Selected => assert SET_KINDS[0] == k;
      case Submitted => assert SET_KINDS[1] == k;
      case Acknowledged => assert SET_KINDS[2] == k;
      case Exercised => assert SET_KINDS[3] == k;
      case BatchCompleted => assert SET_KINDS[4] == k;
      case Failed => assert SET_KINDS[5] == k;
      case Skipped => assert SET_KINDS[6] == k;
    }
  }

  lemma {:induction false} ListedMore(b: Books, b': Books, s: States, r: Row, r': Row, n: nat)
    requires n < |SET_KINDS| && ListedUpTo(b, s, r, n) && r'.scanner == r.scanner
    requires var keys := KeysOf(s.marks, r.scanner, SET_KINDS[n]);
             r'.sizes == r.sizes[SET_KINDS[n] := |keys|] && Shows(List(b', ByScanner(r.scanner, SET_KINDS[n])), keys)
    requires forall j :: j != ByScanner(r.scanner, SET_KINDS[n]) ==> List(b', j) == List(b, j)
    ensures ListedUpTo(b', s, r', n + 1)
  {
    hide KeysOf, Shows, List;
    forall i | 0 <= i < n
      ensures SET_KINDS[i] != SET_KINDS[n]
    {
    }
  }

  /** The row of one scanner and all its lists. */
  method AddRow(b: Books, s: States, name: string) returns (b': Books, row: Row)
    requires Keyed(s) && forall m :: m in b.items ==> !OfRow(m, name)
    ensures Agrees(b', s, row) && row.scanner == name && b'.counts == b.counts
    ensures forall m :: m in b'.items ==> m in b.items || OfRow(m, name)
    ensures forall j :: !OfRow(j, name) ==> List(b', j) == List(b, j)
  {
    hide Keyed, KeysOf, Shows, List, ListedUpTo, Agrees;
    b' := b;
    var selected, exercised := KeysOf(s.marks, name, Selected), KeysOf(s.marks, name, Exercised);
    var count := if name in s.recorded then Some(|exercised|) else None;
    row := Row(name, map[], count, UnknownCount(|selected|, count), if name in s.enabled then Some(s.enabled[name])
      else None);
    NothingListed(b', s, row);
    for i := 0 to |SET_KINDS|
      invariant ListedUpTo(b', s, row, i)
          && row == Row(name, row.sizes, count, UnknownCount(|selected|, count),
             if name in s.enabled then Some(s.enabled[name]) else None)
      invariant b'.counts == b.counts
          && (forall m :: m in b'.items ==> m in b.items || (OfRow(m, name) && m.ByScanner?))
      invariant forall k :: i <= k < |SET_KINDS| ==> ByScanner(name, SET_KINDS[k]) !in b'.items
      invariant forall j :: !OfRow(j, name) ==> List(b', j) == List(b, j)
    {
      var kind := SET_KINDS[i];
      var keys := KeysOf(s.marks, name, kind);
      ghost var before, was := b', row;
      KindsDiffer(i);
      b' := AddList(b', s, ByScanner(name, kind), name, keys);
      row := row.(sizes := row.sizes[kind := |keys|]);
      ListedMore(before, b', s, was, row, i);
    }
    ghost var listed := b';
    b' := AddList(b', s, Unknown(name), name, selected - exercised);
    RowAgrees(listed, b', s, row, count);
  }

  lemma {:induction false} NothingListed(b: Books, s: States, r: Row)
    ensures ListedUpTo(b, s, r, 0)
  {
  }

  lemma {:induction false} KindsDiffer(i: nat)
    requires i < |SET_KINDS|
    ensures forall k :: 0 <= k < |SET_KINDS| && k != i ==> SET_KINDS[k] != SET_KINDS[i]
  {
  }

  lemma {:induction false} RowAgrees(b: Books, b': Books, s: States, r: Row, count: Option<nat>)
    requires ListedUpTo(b, s, r, |SET_KINDS|) && (forall j :: j != Unknown(r.scanner) ==> List(b', j) == List(b, j))
    requires var selected, exercised := KeysOf(s.marks, r.scanner, Selected), KeysOf(s.marks, r.scanner, Exercised);
             && Shows(List(b', Unknown(r.scanner)), selected - exercised)
             && count == (if r.scanner in s.recorded then Some(|exercised|) else None)
             && r == Row(r.scanner, r.sizes, count, UnknownCount(|selected|, count),
                if r.scanner in s.enabled then Some(s.enabled[r.scanner]) else None)
    ensures Agrees(b', s, r)
  {
    hide KeysOf, Shows, List, ListedUpTo, SizeOf;
    forall k
      ensures SizeOf(r, k) == |KeysOf(s.marks, r.scanner, k)|
          && Shows(List(b', ByScanner(r.scanner, k)), KeysOf(s.marks, r.scanner, k))
    {
      AllListed(b, s, r, k);
    }
  }

  lemma {:induction false} AgreesStays(b: Books, b': Books, s: States, r: Row, name: string)
    requires Agrees(b, s, r) && r.scanner != name && forall j :: !OfRow(j, name) ==> List(b', j) == List(b, j)
    ensures Agrees(b', s, r)
  {
    hide KeysOf, Shows, List, SizeOf;
  }

  ghost predicate RowsAgree(b: Books, s: States, rows: seq<Row>, names: seq<string>) {
    |rows| == |names| && forall i :: 0 <= i < |rows| ==> rows[i].scanner == names[i] && Agrees(b, s, rows[i])
  }

  /** One row for each scanner, in the order of the names. */
  method AddRows(b: Books, s: States, ghost hosts: nat, ghost services: nat)
    returns (b': Books, rows: seq<Row>, names: seq<string>)
    requires Even(b, 0, hosts, services) && NoSetLists(b) && Keyed(s)
    ensures Even(b', 0, hosts, services) && b'.counts == b.counts && RowsAgree(b', s, rows, names)
    ensures (forall n :: n in names <==> n in s.names) && forall i, j :: 0 <= i < j < |names| ==>
        StrLe(names[i], names[j]) && names[i] != names[j]
    ensures forall n :: List(b', Templates(n)) == List(b, Templates(n))
  {
    hide Even, Keyed, List, Agrees, StrLe, NoSetLists, RowsAgree, ListsBelong;
    b', rows := b, [];
    names := SortedKeys(s.names);
    NoListsYet(b, s, names);
    for i := 0 to |names|
      invariant Even(b', 0, hosts, services) && b'.counts == b.counts && RowsAgree(b', s, rows, names[..i])
      invariant ListsBelong(b', names[..i])
      invariant forall n :: List(b', Templates(n)) == List(b, Templates(n))
    {
      ghost var before := b';
      NotListedYet(b', names, i);
      var row;
      b', row := AddRow(b', s, names[i]);
      EvenStays(before, b', hosts, services);
      RowsMore(before, b', s, rows, names, i, row);
      ListsMore(before, b', names, i);
      rows := rows + [row];
    }
    assert names[..|names|] == names;
  }

  /** The lists of sets belong to these scanners. */
  ghost predicate ListsBelong(b: Books, names: seq<string>) {
    forall m :: m in b.items ==> m.Of? || m.Templates? || m.scanner in names
  }

  lemma {:induction false} NoListsYet(b: Books, s: States, names: seq<string>)
    requires NoSetLists(b)
    ensures ListsBelong(b, names[..0]) && RowsAgree(b, s, [], names[..0])
  {
  }

  lemma {:induction false} NotListedYet(b: Books, names: seq<string>, i: nat)
    requires i < |names| && ListsBelong(b, names[..i]) && forall j, k :: 0 <= j < k < |names| ==> names[j] != names[k]
    ensures forall m :: m in b.items ==> !OfRow(m, names[i])
  {
  }

  lemma {:induction false} ListsMore(b: Books, b': Books, names: seq<string>, i: nat)
    requires i < |names| && ListsBelong(b, names[..i])
    requires forall m :: m in b'.items ==> m in b.items || OfRow(m, names[i])
    ensures ListsBelong(b', names[..i + 1])
  {
    assert names[..i + 1] == names[..i] + [names[i]];
  }

  lemma {:induction false} RowsMore(b: Books, b': Books, s: States, rows: seq<Row>, names: seq<string>, i: nat,
          row: Row)
    requires i < |names| && RowsAgree(b, s, rows, names[..i])
        && (forall j, k :: 0 <= j < k < |names| ==> names[j] != names[k])
    requires row.scanner == names[i] && Agrees(b', s, row) && forall j :: !OfRow(j, names[i]) ==>
        List(b', j) == List(b, j)
    ensures RowsAgree(b', s, rows + [row], names[..i + 1])
  {
    hide Agrees, List;
    forall k | 0 <= k < |rows|
      ensures rows[k].scanner == names[k] && Agrees(b', s, rows[k])
    {
      assert names[..i][k] == names[k];
      AgreesStays(b, b', s, rows[k], names[i]);
    }
  }

  // ----- the proof ---------------------------------------------------------

  /** BuildCoverageProof: every counter is the length of its list; the sets behind
      the rows are what the surfaces and the latest runs mark. */
  method BuildCoverageProof(surfaces: seq<Surface>, runs: seq<Run>, look: Endpoint -> Look)
    returns (b: Books, s: States, rows: seq<Row>, names: seq<string>)
    ensures Even(b, 0, |Union(surfaces, SurfaceHosts())|, |Union(surfaces, SurfaceServices())|)
        && Exact(b.counts, surfaces, look)
    ensures s.marks == Union(surfaces, SurfaceMarks()) + Union(LatestOf(runs, |runs|), RunMarks()) && Keyed(s)
    ensures RowsAgree(b, s, rows, names) && TemplatesAre(b, s, LatestOf(runs, |runs|))
    ensures (forall n :: n in names <==> n in s.names) && forall i, j :: 0 <= i < j < |names| ==>
        StrLe(names[i], names[j]) && names[i] != names[j]
  {
    hide Even, Exact, Keyed, RowsAgree, OnlyInventory, NoSetLists, Union, SurfaceMarks, RunMarks, SurfaceHosts,
      SurfaceServices, TemplatesAre, StrLe, List;
    var hosts, services;
    b, s, hosts, services := AddSurfaces(surfaces, look);
    NoTemplates(b, s);
    b, s := AddRuns(b, s, runs, |hosts|, |services|);
    ghost var before := b;
    b, rows, names := AddRows(b, s, |hosts|, |services|);
    TemplatesStay(before, b, s, LatestOf(runs, |runs|));
  }

  lemma {:induction false} NoTemplates(b: Books, s: States)
    requires OnlyInventory(b) && s.enabled == map[]
    ensures TemplatesAre(b, s, []) && NoSetLists(b)
  {
  }

  lemma {:induction false} TemplatesStay(b: Books, b': Books, s: States, runs: seq<Run>)
    requires TemplatesAre(b, s, runs) && forall n :: List(b', Templates(n)) == List(b, Templates(n))
    ensures TemplatesAre(b', s, runs)
  {
    hide List, LastTemplates, Sum, TemplateGain;
  }

  lemma {:induction false} SizeOfDifference(a: set<string>, b: set<string>)
    ensures |a - b| + |a * b| == |a| && (|a - b| == 0 <==> a <= b)
  {
    assert a == (a - b) + (a * b);
    if |a - b| == 0 {
      forall x | x in a
        ensures x in b
      {
        assert x !in a - b;
      }
    }
  }

  lemma {:induction false} ExercisedIsRecorded(s: States, scanner: string)
    requires Keyed(s)
    ensures KeysOf(s.marks, scanner, Exercised) != {} ==> scanner in s.recorded
  {
    var exercised := KeysOf(s.marks, scanner, Exercised);
    if exercised != {} {
      var key :| key in exercised;
      var m :| m in s.marks && m.scanner == scanner && m.kind == Exercised && m.key == key;
    }
  }

  /** The unknown counter never exceeds its list, and equals it exactly when the
      exercised keys are among the selected ones, or the other way round. */
  lemma {:induction false} UnknownExactly(b: Books, s: States, r: Row)
    requires Keyed(s) && Agrees(b, s, r)
    ensures var selected, exercised := KeysOf(s.marks, r.scanner, Selected), KeysOf(s.marks, r.scanner, Exercised);
            && r.unknown <= |List(b, Unknown(r.scanner))|
            && (r.unknown == |List(b, Unknown(r.scanner))| <==> exercised <= selected || selected <= exercised)
  {
    hide Keyed, KeysOf, List, SizeOf;
    var selected, exercised := KeysOf(s.marks, r.scanner, Selected), KeysOf(s.marks, r.scanner, Exercised);
    ExercisedIsRecorded(s, r.scanner);
    assert |List(b, Unknown(r.scanner))| == |selected - exercised|;
    SizeOfDifference(selected, exercised);
    SizeOfDifference(exercised, selected);
    assert exercised * selected == selected * exercised;
  }

  lemma {:induction false} NoneCounted(runs: seq<Run>, scanner: string)
    ensures Sum(runs, TemplateGain(scanner)) == 0 <==> forall r :: r in runs && ListsTemplates(r, scanner) ==>
        r.templates.value == []
  {
    if runs != [] {
      var n := |runs| - 1;
      NoneCounted(runs[..n], scanner);
      assert runs == runs[..n] + [runs[n]];
    }
  }

  /** The counter of enabled templates is not always the length of its list: each
      scope of the scanner extends the list, the last one alone is counted. They
      are equal exactly when all but the last list are empty. */
  lemma {:induction false} TemplatesExactly(runs: seq<Run>, scanner: string)
    requires LastTemplates(runs, scanner).Some?
    ensures LastTemplates(runs, scanner).value <= Sum(runs, TemplateGain(scanner))
    ensures LastTemplates(runs, scanner).value == Sum(runs, TemplateGain(scanner)) <==>
            forall i, j ::
              0 <= i < j < |runs| && ListsTemplates(runs[i], scanner) && ListsTemplates(runs[j], scanner) ==>
                runs[i].templates.value == []
  {
    var n := |runs| - 1;
    if ListsTemplates(runs[n], scanner) {
      NoneCounted(runs[..n], scanner);
      assert forall i :: 0 <= i < n ==> runs[i] in runs[..n];
    } else {
      TemplatesExactly(runs[..n], scanner);
      assert forall i :: 0 <= i < n ==> runs[..n][i] == runs[i];
    }
  }
}
