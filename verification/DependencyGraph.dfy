/**
  The worklist that checks a resolved dependency graph while extras grow
  (validate_dependency_graph in scripts/generate_migration_lock.py).

  Requirements stand for their canonical text; whether a marker holds for an extra
  and whether a specifier admits a version are parameters (PEP 508 and PEP 440).
 */
module DependencyGraph {

  import opened Wrappers

  type Name = string
  type Extra = string
  type Version = string
  type Marker = string
  type Specifier = string

  /** A requirement; names are canonical throughout, only a package also has the name it is displayed by. */
  datatype Requirement = Requirement(name: Name, extras: set<Extra>, marker: Option<Marker>, specifier: Option<Specifier>)

  datatype Package = Package(name: Name, displayName: string, version: Version, requires_: seq<Requirement>)

  /** Who asks: the requirements file, or a selected package. */
  datatype Parent = Direct | Of(name: Name)

  datatype Edge = Edge(package: string, version: Version, requiredBy: Parent, constraint: Option<Specifier>)

  datatype GraphError =
    | UnresolvedEdge(parent: Parent, requirement: Requirement)
    | VersionOutsideSpecifier(parent: Parent, requirement: Requirement, version: Version)

  type Extras = map<Name, set<Extra>>
  type Key = (Parent, Requirement, set<Extra>)
  type Work = (Parent, Requirement)

  /** How markers and specifiers evaluate in the target environment. */
  datatype Target = Target(holds: (Marker, Extra) -> bool, admits: (Specifier, Version) -> bool)

  // ------------------------------------------------------------- one item

  function ExtrasOf(extras: Extras, n: Name): set<Extra> {
    if n in extras then extras[n] else {}
  }

  /** The extras a requirement of `parent` is evaluated under: {""} when there are none. */
  function Contexts(extras: Extras, parent: Parent): set<Extra> {
    if parent.Direct? || ExtrasOf(extras, parent.name) == {} then {""} else ExtrasOf(extras, parent.name)
  }

  predicate Active(target: Target, extras: Extras, w: Work) {
    w.1.marker.Some? ==> exists e :: e in Contexts(extras, w.0) && target.holds(w.1.marker.value, e)
  }

  predicate Admitted(target: Target, r: Requirement, v: Version) {
    r.specifier.Some? ==> target.admits(r.specifier.value, v)
  }

  /** Later packages of the same name replace earlier ones. */
  function Select(packages: seq<Package>): map<Name, Package> {
    if packages == [] then map[]
    else Select(packages[..|packages| - 1])[packages[|packages| - 1].name := packages[|packages| - 1]]
  }

  function Grow(extras: Extras, r: Requirement): Extras {
    extras[r.name := ExtrasOf(extras, r.name) + r.extras]
  }

  function SeedExtras(direct: seq<Requirement>): Extras {
    if direct == [] then map[] else Grow(SeedExtras(direct[..|direct| - 1]), direct[|direct| - 1])
  }

  function WorkFor(parent: Parent, rs: seq<Requirement>): seq<Work> {
    seq(|rs|, i requires 0 <= i < |rs| => (parent, rs[i]))
  }

  // --------------------------------------------------- what the result means

  /** The edge that is recorded for a requirement it found satisfied. */
  function EdgeFor(selected: map<Name, Package>, w: Work): Edge
    requires w.1.name in selected
  {
    Edge(selected[w.1.name].displayName, selected[w.1.name].version, w.0, w.1.specifier)
  }

  predicate Satisfied(selected: map<Name, Package>, target: Target, w: Work) {
    w.1.name in selected && Admitted(target, w.1, selected[w.1.name].version)
  }

  /** Selected, version admitted, edge recorded, extras passed on. */
  predicate Checked(selected: map<Name, Package>, target: Target, extras: Extras, edges: seq<Edge>, w: Work) {
    && Satisfied(selected, target, w)
    && EdgeFor(selected, w) in edges
    && w.1.extras <= ExtrasOf(extras, w.1.name)
  }

  /** A chain of requirements from the requirements file, each active under `extras`. */
  predicate Chain(selected: map<Name, Package>, target: Target, extras: Extras, direct: seq<Requirement>, chain: seq<Work>) {
    && |chain| > 0
    && chain[0].0.Direct? && chain[0].1 in direct
    && (forall i :: 0 <= i < |chain| ==> Active(target, extras, chain[i]))
    && forall i :: 0 < i < |chain| ==> Hop(selected, chain[i - 1], chain[i])
  }

  /** `next` is a requirement of the package selected for `w`. */
  predicate Hop(selected: map<Name, Package>, w: Work, next: Work) {
    next.0 == Of(w.1.name) && w.1.name in selected && next.1 in selected[w.1.name].requires_
  }

  // ------------------------------------------------------------- invariants

  /** Packages some processed key has led to. */
  predicate Reached(processed: set<Key>, n: Name) {
    exists k :: k in processed && k.1.name == n
  }

  predicate Settled(selected: map<Name, Package>, target: Target, extras: Extras, edges: seq<Edge>, processed: set<Key>, w: Work) {
    Active(target, extras, w) ==> Checked(selected, target, extras, edges, w) && Reached(processed, w.1.name)
  }

  /** Everything the worklist owes is pending or settled under the extras of this moment. */
  ghost predicate NothingForgotten(selected: map<Name, Package>, target: Target, direct: seq<Requirement>,
                                   extras: Extras, edges: seq<Edge>, processed: set<Key>, pending: seq<Work>) {
    && (forall r :: r in direct ==>
          (Direct, r) in pending || Settled(selected, target, extras, edges, processed, (Direct, r)))
    && (forall n, r :: n in selected && Reached(processed, n) && r in selected[n].requires_ ==>
          (Of(n), r) in pending || Settled(selected, target, extras, edges, processed, (Of(n), r)))
  }

  ghost predicate KeysOk(selected: map<Name, Package>, target: Target, extras: Extras, edges: seq<Edge>, processed: set<Key>) {
    forall k :: k in processed ==>
      && k.2 <= ExtrasOf(extras, k.1.name)
      && Checked(selected, target, extras, edges, (k.0, k.1))
  }

  /** A chain of requirements from the requirements file, whether active or not. */
  predicate Path(selected: map<Name, Package>, direct: seq<Requirement>, chain: seq<Work>) {
    && |chain| > 0 && chain[0].0.Direct? && chain[0].1 in direct
    && forall i :: 0 < i < |chain| ==> Hop(selected, chain[i - 1], chain[i])
  }

  ghost predicate Reachable(selected: map<Name, Package>, direct: seq<Requirement>, w: Work) {
    exists chain :: Path(selected, direct, chain) && chain[|chain| - 1] == w
  }

  /** This edge is the one recorded for a requirement found satisfied. */
  ghost predicate EdgeSound(selected: map<Name, Package>, target: Target, direct: seq<Requirement>, e: Edge, w: Work) {
    Reachable(selected, direct, w) && Satisfied(selected, target, w) && e == EdgeFor(selected, w)
  }

  ghost predicate SomeCheck(selected: map<Name, Package>, target: Target, direct: seq<Requirement>, e: Edge) {
    exists w: Work :: EdgeSound(selected, target, direct, e, w)
  }

  /** Every recorded edge passed its check. */
  ghost predicate EdgesSound(selected: map<Name, Package>, target: Target, direct: seq<Requirement>, edges: seq<Edge>) {
    forall i :: 0 <= i < |edges| ==> SomeCheck(selected, target, direct, edges[i])
  }

  /** Somebody asked for extra e of package n: the requirements file, or a requirement whose edge is recorded. */
  predicate Requested(selected: map<Name, Package>, direct: seq<Requirement>, edges: seq<Edge>, n: Name, e: Extra) {
    || (exists r :: r in direct && r.name == n && e in r.extras)
    || (exists w :: w in AllWork(selected, direct) && w.1.name == n && e in w.1.extras
                    && n in selected && EdgeFor(selected, w) in edges)
  }

  /** The extras contain what the requirements file asks for and nothing that nobody asked for. */
  ghost predicate Justified(selected: map<Name, Package>, direct: seq<Requirement>, extras: Extras, edges: seq<Edge>) {
    && (forall r :: r in direct ==> r.extras <= ExtrasOf(extras, r.name))
    && forall n, e :: e in ExtrasOf(extras, n) ==> Requested(selected, direct, edges, n, e)
  }

  /** Requirements that are ever put on the worklist. */
  predicate Owed(selected: map<Name, Package>, direct: seq<Requirement>, w: Work) {
    match w.0
    case Direct => w.1 in direct
    case Of(n) => n in selected && w.1 in selected[n].requires_
  }

  // ------------------------------------------------------------ termination

  function AllWork(selected: map<Name, Package>, direct: seq<Requirement>): set<Work> {
    (set r | r in direct :: (Direct, r)) + (set n, r | n in selected && r in selected[n].requires_ :: (Of(n), r))
  }

  function AllExtras(works: set<Work>): set<Extra> {
    set w, e | w in works && e in w.1.extras :: e
  }

  function Universe(selected: map<Name, Package>, direct: seq<Requirement>): set<Key> {
    var works := AllWork(selected, direct);
    set w, es | w in works && es <= AllExtras(works) :: (w.0, w.1, es)
  }

  lemma OwedIsWork(selected: map<Name, Package>, direct: seq<Requirement>, w: Work)
    requires Owed(selected, direct, w)
    ensures w in AllWork(selected, direct)
    ensures w.1.extras <= AllExtras(AllWork(selected, direct))
  {
    assert w in AllWork(selected, direct) by {
      match w.0
      case Direct => assert w == (Direct, w.1);
      case Of(n) => assert w == (Of(n), w.1);
    }
  }

  lemma KeyInUniverse(selected: map<Name, Package>, direct: seq<Requirement>, w: Work, es: set<Extra>)
    requires w in AllWork(selected, direct) && es <= AllExtras(AllWork(selected, direct))
    ensures (w.0, w.1, es) in Universe(selected, direct)
  {
  }

  // ------------------------------------------------------------ proof steps

  lemma SelectNames(packages: seq<Package>)
    ensures forall n :: n in Select(packages) ==> Select(packages)[n] in packages && Select(packages)[n].name == n
  {
  }

  /** Extras of other packages are not touched by a growth, so neither is their activity. */
  lemma GrowthIsLocal(target: Target, extras: Extras, r: Requirement, w: Work)
    requires w.0.Direct? || w.0.name != r.name || r.extras <= ExtrasOf(extras, r.name)
    ensures Active(target, Grow(extras, r), w) <==> Active(target, extras, w)
  {
    assert Contexts(Grow(extras, r), w.0) == Contexts(extras, w.0) by {
      if !w.0.Direct? && w.0.name == r.name {
        assert ExtrasOf(extras, r.name) + r.extras == ExtrasOf(extras, r.name);
      }
    }
  }

  lemma CheckedGrows(selected: map<Name, Package>, target: Target, extras: Extras, edges: seq<Edge>, w: Work, r: Requirement, more: seq<Edge>)
    requires Checked(selected, target, extras, edges, w)
    ensures Checked(selected, target, Grow(extras, r), edges + more, w)
  {
  }

  /** Processing a key that was not processed before: its edge is recorded, its child's work is enqueued. */
  lemma NewKeyForgetsNothing(selected: map<Name, Package>, target: Target, direct: seq<Requirement>,
                             extras: Extras, edges: seq<Edge>, processed: set<Key>, w: Work, rest: seq<Work>, key: Key)
    requires NothingForgotten(selected, target, direct, extras, edges, processed, [w] + rest)
    requires Satisfied(selected, target, w)
    requires key.0 == w.0 && key.1 == w.1
    ensures NothingForgotten(selected, target, direct, Grow(extras, w.1), edges + [EdgeFor(selected, w)], processed + {key},
                             rest + WorkFor(Of(w.1.name), selected[w.1.name].requires_))
  {
    var child := w.1.name;
    var extras' := Grow(extras, w.1);
    var edges' := edges + [EdgeFor(selected, w)];
    var processed' := processed + {key};
    var queued := WorkFor(Of(child), selected[child].requires_);
    assert key in processed';
    assert EdgeFor(selected, w) == edges'[|edges|];
    assert Checked(selected, target, extras', edges', w) && Reached(processed', child);
    forall v: Work | Settled(selected, target, extras, edges, processed, v) && v.0 != Of(child)
      ensures Settled(selected, target, extras', edges', processed', v)
    {
      GrowthIsLocal(target, extras, w.1, v);
      if Active(target, extras, v) {
        CheckedGrows(selected, target, extras, edges, v, w.1, [EdgeFor(selected, w)]);
        var k :| k in processed && k.1.name == v.1.name;
        assert k in processed';
      }
    }
    forall n, r | n in selected && Reached(processed', n) && r in selected[n].requires_
      ensures (Of(n), r) in rest + queued || Settled(selected, target, extras', edges', processed', (Of(n), r))
    {
      if n == child {
        var i :| 0 <= i < |selected[child].requires_| && selected[child].requires_[i] == r;
        assert queued[i] == (Of(n), r);
      } else {
        var k :| k in processed' && k.1.name == n;
        assert k in processed;
        assert Reached(processed, n);
      }
    }
  }

  /** Dropping an item that is settled as things stand. */
  lemma DropForgetsNothing(selected: map<Name, Package>, target: Target, direct: seq<Requirement>,
                           extras: Extras, edges: seq<Edge>, processed: set<Key>, w: Work, rest: seq<Work>)
    requires NothingForgotten(selected, target, direct, extras, edges, processed, [w] + rest)
    requires Settled(selected, target, extras, edges, processed, w)
    ensures NothingForgotten(selected, target, direct, extras, edges, processed, rest)
  {
  }

  lemma KeysGrow(selected: map<Name, Package>, target: Target, extras: Extras, edges: seq<Edge>, processed: set<Key>, w: Work, more: seq<Edge>)
    requires KeysOk(selected, target, extras, edges, processed)
    ensures KeysOk(selected, target, Grow(extras, w.1), edges + more, processed)
  {
    forall k | k in processed
      ensures k.2 <= ExtrasOf(Grow(extras, w.1), k.1.name)
      ensures Checked(selected, target, Grow(extras, w.1), edges + more, (k.0, k.1))
    {
      CheckedGrows(selected, target, extras, edges, (k.0, k.1), w.1, more);
    }
  }

  ghost predicate ExtrasWithin(extras: Extras, all: set<Extra>) {
    forall n :: ExtrasOf(extras, n) <= all
  }

  lemma SeedWithin(direct: seq<Requirement>, all: set<Extra>)
    requires forall r :: r in direct ==> r.extras <= all
    ensures forall n :: ExtrasOf(SeedExtras(direct), n) <= all
  {
    if direct != [] {
      var init := direct[..|direct| - 1];
      assert forall r :: r in init ==> r in direct;
      SeedWithin(init, all);
      var last := direct[|direct| - 1];
      assert last in direct;
      forall n ensures ExtrasOf(SeedExtras(direct), n) <= all {
        assert ExtrasOf(SeedExtras(init), n) <= all && ExtrasOf(SeedExtras(init), last.name) <= all;
      }
    }
  }

  /** The key was processed with the very extras that are active now, so nothing has to be done again. */
  lemma KeptExtras(selected: map<Name, Package>, target: Target, direct: seq<Requirement>,
                   extras: Extras, edges: seq<Edge>, processed: set<Key>, w: Work, rest: seq<Work>, key: Key)
    requires NothingForgotten(selected, target, direct, extras, edges, processed, [w] + rest)
    requires KeysOk(selected, target, extras, edges, processed)
    requires key in processed && key.0 == w.0 && key.1 == w.1
    requires w.1.extras <= ExtrasOf(extras, w.1.name)
    ensures NothingForgotten(selected, target, direct, Grow(extras, w.1), edges, processed, rest)
    ensures KeysOk(selected, target, Grow(extras, w.1), edges, processed)
  {
    assert Settled(selected, target, extras, edges, processed, w);
    DropForgetsNothing(selected, target, direct, extras, edges, processed, w, rest);
    forall v: Work | Settled(selected, target, extras, edges, processed, v)
      ensures Settled(selected, target, Grow(extras, w.1), edges, processed, v)
    {
      GrowthIsLocal(target, extras, w.1, v);
      if Active(target, extras, v) {
        CheckedGrows(selected, target, extras, edges, v, w.1, []);
        assert edges + [] == edges;
      }
    }
    KeysGrow(selected, target, extras, edges, processed, w, []);
    assert edges + [] == edges;
  }

  /** With nothing pending, every active chain ends in a checked requirement. */
  lemma {:induction false} ChainChecked(selected: map<Name, Package>, target: Target, direct: seq<Requirement>,
                     extras: Extras, edges: seq<Edge>, processed: set<Key>, chain: seq<Work>)
    requires NothingForgotten(selected, target, direct, extras, edges, processed, [])
    requires Chain(selected, target, extras, direct, chain)
    ensures Checked(selected, target, extras, edges, chain[|chain| - 1])
    ensures Reached(processed, chain[|chain| - 1].1.name)
  {
    var last := chain[|chain| - 1];
    if |chain| > 1 {
      var shorter := chain[..|chain| - 1];
      ChainChecked(selected, target, direct, extras, edges, processed, shorter);
      assert last == (Of(shorter[|shorter| - 1].1.name), last.1);
    } else {
      assert last == (Direct, last.1);
    }
    assert Settled(selected, target, extras, edges, processed, last);
  }

  // --------------------------------------------------------------- the loop

  predicate AllOwed(selected: map<Name, Package>, direct: seq<Requirement>, pending: seq<Work>) {
    forall i :: 0 <= i < |pending| ==> Owed(selected, direct, pending[i])
  }

  lemma FirstAndRestOwed(selected: map<Name, Package>, direct: seq<Requirement>, w: Work, rest: seq<Work>)
    requires AllOwed(selected, direct, [w] + rest)
    ensures Owed(selected, direct, w) && AllOwed(selected, direct, rest)
  {
    assert Owed(selected, direct, ([w] + rest)[0]);
    forall i | 0 <= i < |rest| ensures Owed(selected, direct, rest[i]) {
      assert rest[i] == ([w] + rest)[i + 1];
    }
  }

  lemma QueuedOwed(selected: map<Name, Package>, direct: seq<Requirement>, rest: seq<Work>, n: Name)
    requires AllOwed(selected, direct, rest) && n in selected
    ensures AllOwed(selected, direct, rest + WorkFor(Of(n), selected[n].requires_))
  {
    var all := rest + WorkFor(Of(n), selected[n].requires_);
    forall i | 0 <= i < |all| ensures Owed(selected, direct, all[i]) {
      if i < |rest| {
        assert all[i] == rest[i];
      }
    }
  }

  ghost predicate AllReachable(selected: map<Name, Package>, direct: seq<Requirement>, pending: seq<Work>) {
    forall i :: 0 <= i < |pending| ==> Reachable(selected, direct, pending[i])
  }

  /** Everything on the worklist, and every edge, comes from the requirements file. */
  ghost predicate Traced(selected: map<Name, Package>, target: Target, direct: seq<Requirement>, edges: seq<Edge>, pending: seq<Work>) {
    AllReachable(selected, direct, pending) && EdgesSound(selected, target, direct, edges)
  }

  lemma FirstAndRestReachable(selected: map<Name, Package>, direct: seq<Requirement>, w: Work, rest: seq<Work>)
    requires AllReachable(selected, direct, [w] + rest)
    ensures Reachable(selected, direct, w) && AllReachable(selected, direct, rest)
  {
    assert Reachable(selected, direct, ([w] + rest)[0]);
    forall i | 0 <= i < |rest| ensures Reachable(selected, direct, rest[i]) {
      assert rest[i] == ([w] + rest)[i + 1];
    }
  }

  lemma DirectReachable(selected: map<Name, Package>, direct: seq<Requirement>)
    ensures AllReachable(selected, direct, WorkFor(Direct, direct))
  {
    var pending := WorkFor(Direct, direct);
    forall i | 0 <= i < |pending| ensures Reachable(selected, direct, pending[i]) {
      assert Path(selected, direct, [pending[i]]);
    }
  }

  lemma HopReachable(selected: map<Name, Package>, direct: seq<Requirement>, w: Work, next: Work)
    requires Reachable(selected, direct, w) && Hop(selected, w, next)
    ensures Reachable(selected, direct, next)
  {
    var chain :| Path(selected, direct, chain) && chain[|chain| - 1] == w;
    assert Path(selected, direct, chain + [next]);
  }

  lemma QueuedReachable(selected: map<Name, Package>, direct: seq<Requirement>, w: Work, rest: seq<Work>)
    requires Reachable(selected, direct, w) && AllReachable(selected, direct, rest) && w.1.name in selected
    ensures AllReachable(selected, direct, rest + WorkFor(Of(w.1.name), selected[w.1.name].requires_))
  {
    var queued := WorkFor(Of(w.1.name), selected[w.1.name].requires_);
    forall i | 0 <= i < |rest + queued| ensures Reachable(selected, direct, (rest + queued)[i]) {
      if i >= |rest| {
        HopReachable(selected, direct, w, queued[i - |rest|]);
      }
    }
  }

  /** What holds whenever the loop is about to look at its worklist. */
  ghost predicate LoopOk(selected: map<Name, Package>, target: Target, direct: seq<Requirement>,
                         extras: Extras, edges: seq<Edge>, processed: set<Key>, pending: seq<Work>) {
    && AllOwed(selected, direct, pending)
    && ExtrasWithin(extras, AllExtras(AllWork(selected, direct)))
    && processed <= Universe(selected, direct)
    && KeysOk(selected, target, extras, edges, processed)
    && NothingForgotten(selected, target, direct, extras, edges, processed, pending)
    && Justified(selected, direct, extras, edges)
  }

  lemma SeedIsJustified(selected: map<Name, Package>, direct: seq<Requirement>)
    ensures forall r :: r in direct ==> r.extras <= ExtrasOf(SeedExtras(direct), r.name)
    ensures forall n, e :: e in ExtrasOf(SeedExtras(direct), n) ==> exists r :: r in direct && r.name == n && e in r.extras
  {
    if direct != [] {
      var init, last := direct[..|direct| - 1], direct[|direct| - 1];
      SeedIsJustified(selected, init);
      assert direct == init + [last];
      forall r | r in direct ensures r.extras <= ExtrasOf(SeedExtras(direct), r.name) {
        if r in init {
          assert r.extras <= ExtrasOf(SeedExtras(init), r.name);
        }
      }
      forall n, e | e in ExtrasOf(SeedExtras(direct), n) ensures exists r :: r in direct && r.name == n && e in r.extras {
        if e in ExtrasOf(SeedExtras(init), n) {
          var r :| r in init && r.name == n && e in r.extras;
          assert r in direct;
        } else {
          assert last in direct && last.name == n;
        }
      }
    }
  }

  /** Growing by a requirement whose edge is recorded keeps every extra accounted for. */
  lemma GrowthIsJustified(selected: map<Name, Package>, direct: seq<Requirement>, extras: Extras, edges: seq<Edge>, w: Work, more: seq<Edge>)
    requires Justified(selected, direct, extras, edges) && Owed(selected, direct, w) && w.1.name in selected
    requires EdgeFor(selected, w) in edges + more
    ensures Justified(selected, direct, Grow(extras, w.1), edges + more)
  {
    OwedIsWork(selected, direct, w);
    var grown := Grow(extras, w.1);
    forall r | r in direct ensures r.extras <= ExtrasOf(grown, r.name) {
      assert r.extras <= ExtrasOf(extras, r.name);
    }
    forall n, e | e in ExtrasOf(grown, n) ensures Requested(selected, direct, edges + more, n, e) {
      if e in ExtrasOf(extras, n) {
        assert Requested(selected, direct, edges, n, e);
        if v :| v in AllWork(selected, direct) && v.1.name == n && e in v.1.extras && n in selected && EdgeFor(selected, v) in edges {
          assert EdgeFor(selected, v) in edges + more;
        }
      }
    }
  }

  lemma LoopStarts(packages: seq<Package>, target: Target, direct: seq<Requirement>)
    ensures LoopOk(Select(packages), target, direct, SeedExtras(direct), [], {}, WorkFor(Direct, direct))
  {
    var selected := Select(packages);
    var pending := WorkFor(Direct, direct);
    assert forall i :: 0 <= i < |direct| ==> pending[i] == (Direct, direct[i]);
    forall q | q in direct ensures q.extras <= AllExtras(AllWork(selected, direct)) {
      OwedIsWork(selected, direct, (Direct, q));
    }
    SeedWithin(direct, AllExtras(AllWork(selected, direct)));
    SeedIsJustified(selected, direct);
  }

  lemma GrowthStaysWithin(selected: map<Name, Package>, direct: seq<Requirement>, extras: Extras, w: Work)
    requires Owed(selected, direct, w)
    requires ExtrasWithin(extras, AllExtras(AllWork(selected, direct)))
    ensures ExtrasWithin(Grow(extras, w.1), AllExtras(AllWork(selected, direct)))
    ensures (w.0, w.1, Grow(extras, w.1)[w.1.name]) in Universe(selected, direct)
  {
    OwedIsWork(selected, direct, w);
    var all := AllExtras(AllWork(selected, direct));
    assert ExtrasOf(extras, w.1.name) <= all;
    forall n ensures ExtrasOf(Grow(extras, w.1), n) <= all {
      assert ExtrasOf(extras, n) <= all;
    }
    KeyInUniverse(selected, direct, w, Grow(extras, w.1)[w.1.name]);
  }

  lemma LoopDrops(selected: map<Name, Package>, target: Target, direct: seq<Requirement>,
                  extras: Extras, edges: seq<Edge>, processed: set<Key>, w: Work, rest: seq<Work>)
    requires LoopOk(selected, target, direct, extras, edges, processed, [w] + rest)
    requires !Active(target, extras, w)
    ensures LoopOk(selected, target, direct, extras, edges, processed, rest)
  {
    DropForgetsNothing(selected, target, direct, extras, edges, processed, w, rest);
    FirstAndRestOwed(selected, direct, w, rest);
  }

  lemma LoopSkips(selected: map<Name, Package>, target: Target, direct: seq<Requirement>,
                  extras: Extras, edges: seq<Edge>, processed: set<Key>, w: Work, rest: seq<Work>)
    requires LoopOk(selected, target, direct, extras, edges, processed, [w] + rest)
    requires (w.0, w.1, Grow(extras, w.1)[w.1.name]) in processed
    ensures LoopOk(selected, target, direct, Grow(extras, w.1), edges, processed, rest)
  {
    var key := (w.0, w.1, Grow(extras, w.1)[w.1.name]);
    FirstAndRestOwed(selected, direct, w, rest);
    GrowthStaysWithin(selected, direct, extras, w);
    assert key.2 <= ExtrasOf(extras, w.1.name) && Checked(selected, target, extras, edges, (key.0, key.1));
    KeptExtras(selected, target, direct, extras, edges, processed, w, rest, key);
    GrowthIsJustified(selected, direct, extras, edges, w, []);
    assert edges + [] == edges;
  }

  lemma LoopProcesses(packages: seq<Package>, target: Target, direct: seq<Requirement>,
                      extras: Extras, edges: seq<Edge>, processed: set<Key>, w: Work, rest: seq<Work>, key: Key)
    requires LoopOk(Select(packages), target, direct, extras, edges, processed, [w] + rest)
    requires Satisfied(Select(packages), target, w)
    requires key == (w.0, w.1, Grow(extras, w.1)[w.1.name])
    ensures LoopOk(Select(packages), target, direct, Grow(extras, w.1), edges + [EdgeFor(Select(packages), w)], processed + {key},
                   rest + WorkFor(Of(w.1.name), Select(packages)[w.1.name].requires_))
    ensures key in Universe(Select(packages), direct)
  {
    var selected := Select(packages);
    FirstAndRestOwed(selected, direct, w, rest);
    QueuedOwed(selected, direct, rest, w.1.name);
    GrowthStaysWithin(selected, direct, extras, w);
    KeysGrow(selected, target, extras, edges, processed, w, [EdgeFor(selected, w)]);
    NewKeyForgetsNothing(selected, target, direct, extras, edges, processed, w, rest, key);
    assert EdgeFor(selected, w) == (edges + [EdgeFor(selected, w)])[|edges|];
    GrowthIsJustified(selected, direct, extras, edges, w, [EdgeFor(selected, w)]);
  }

  lemma CheckedIsTraced(selected: map<Name, Package>, target: Target, direct: seq<Requirement>, edges: seq<Edge>, w: Work, rest: seq<Work>)
    requires Traced(selected, target, direct, edges, rest) && Reachable(selected, direct, w) && Satisfied(selected, target, w)
    ensures Traced(selected, target, direct, edges + [EdgeFor(selected, w)],
                   rest + WorkFor(Of(w.1.name), selected[w.1.name].requires_))
  {
    QueuedReachable(selected, direct, w, rest);
    EdgeIsSound(selected, target, direct, edges, w);
  }

  lemma EdgeIsSound(selected: map<Name, Package>, target: Target, direct: seq<Requirement>, edges: seq<Edge>, w: Work)
    requires EdgesSound(selected, target, direct, edges) && Satisfied(selected, target, w) && Reachable(selected, direct, w)
    ensures EdgesSound(selected, target, direct, edges + [EdgeFor(selected, w)])
  {
    var more := edges + [EdgeFor(selected, w)];
    forall i | 0 <= i < |more| ensures SomeCheck(selected, target, direct, more[i]) {
      if i < |edges| {
        assert more[i] == edges[i];
      } else {
        assert EdgeSound(selected, target, direct, more[i], w);
      }
    }
  }

  // ------------------------------------------------- the result, told from the packages

  /** The package of a name that counts is the last one. */
  ghost predicate Chosen(packages: seq<Package>, p: Package) {
    exists i :: 0 <= i < |packages| && packages[i] == p && forall j :: i < j < |packages| ==> packages[j].name != p.name
  }

  /** Every package's name is selected, and the last package of a name wins. */
  lemma {:induction false} SelectExactly(packages: seq<Package>, n: Name)
    ensures n in Select(packages) <==> exists i :: 0 <= i < |packages| && packages[i].name == n
    ensures n in Select(packages) ==> Select(packages)[n].name == n && Chosen(packages, Select(packages)[n])
    ensures forall p :: Chosen(packages, p) && p.name == n ==> n in Select(packages) && Select(packages)[n] == p
  {
    if packages != [] {
      var init, last := packages[..|packages| - 1], packages[|packages| - 1];
      SelectExactly(init, n);
      assert packages == init + [last];
      if last.name == n {
        assert packages[|packages| - 1].name == n && Chosen(packages, last);
      } else if n in Select(init) {
        var i :| 0 <= i < |init| && init[i] == Select(init)[n] && forall j :: i < j < |init| ==> init[j].name != n;
        assert packages[i] == Select(init)[n];
      }
      forall p | Chosen(packages, p) && p.name == n ensures n in Select(packages) && Select(packages)[n] == p {
        var i :| 0 <= i < |packages| && packages[i] == p && forall j :: i < j < |packages| ==> packages[j].name != p.name;
        if i < |init| {
          assert init[i] == p;
          assert last.name != n;
          assert Chosen(init, p);
        }
      }
    }
  }

  /**
    When a requirement counts: without a marker always; with one, for the empty extra
    when it stands in the requirements file or under a package of which no extra is
    active, and else for some active extra of that package.
   */
  predicate MarkerHolds(target: Target, extras: Extras, w: Work) {
    match w.1.marker
    case None => true
    case Some(m) =>
      match w.0
      case Direct => target.holds(m, "")
      case Of(n) =>
        if n in extras && extras[n] != {} then exists e :: e in extras[n] && target.holds(m, e) else target.holds(m, "")
  }

  lemma ActiveExactly(target: Target, extras: Extras, w: Work)
    ensures Active(target, extras, w) <==> MarkerHolds(target, extras, w)
  {
    assert "" in {""};
  }

  /** `next` is a requirement of the package chosen for w. */
  ghost predicate Leads(packages: seq<Package>, w: Work, next: Work) {
    exists p :: Chosen(packages, p) && p.name == w.1.name && next.0 == Of(p.name) && next.1 in p.requires_
  }

  ghost predicate FromTheFile(packages: seq<Package>, direct: seq<Requirement>, chain: seq<Work>) {
    && |chain| > 0 && chain[0].0.Direct? && chain[0].1 in direct
    && forall i :: 0 < i < |chain| ==> Leads(packages, chain[i - 1], chain[i])
  }

  predicate Allowed(target: Target, r: Requirement, v: Version) {
    match r.specifier case None => true case Some(spec) => target.admits(spec, v)
  }

  /** A package is chosen, its version allowed, the edge recorded column by column, the extras active. */
  ghost predicate Fulfilled(packages: seq<Package>, target: Target, extras: Extras, edges: seq<Edge>, w: Work) {
    exists p :: && Chosen(packages, p) && p.name == w.1.name && Allowed(target, w.1, p.version)
                && Edge(p.displayName, p.version, w.0, w.1.specifier) in edges
                && (w.1.extras == {} || (p.name in extras && w.1.extras <= extras[p.name]))
  }

  /** Every requirement reached from the file along requirements that count is fulfilled. */
  ghost predicate EverythingFulfilled(packages: seq<Package>, target: Target, extras: Extras, direct: seq<Requirement>, edges: seq<Edge>) {
    forall chain :: FromTheFile(packages, direct, chain) && (forall i :: 0 <= i < |chain| ==> MarkerHolds(target, extras, chain[i])) ==>
                      Fulfilled(packages, target, extras, edges, chain[|chain| - 1])
  }

  /** An edge stands for a requirement reached from the file whose chosen package it names and allows. */
  ghost predicate Documents(packages: seq<Package>, target: Target, direct: seq<Requirement>, e: Edge) {
    exists chain: seq<Work>, p: Package :: && FromTheFile(packages, direct, chain) && Chosen(packages, p) && p.name == chain[|chain| - 1].1.name
                       && Allowed(target, chain[|chain| - 1].1, p.version)
                       && e == Edge(p.displayName, p.version, chain[|chain| - 1].0, chain[|chain| - 1].1.specifier)
  }

  /** The error's requirement is reached from the file, counts, and has no package or one of a version not allowed. */
  ghost predicate ReallyFails(packages: seq<Package>, target: Target, extras: Extras, direct: seq<Requirement>, error: GraphError) {
    var w := (error.parent, error.requirement);
    && MarkerHolds(target, extras, w)
    && (exists chain :: FromTheFile(packages, direct, chain) && chain[|chain| - 1] == w)
    && match error
       case UnresolvedEdge(_, r) => forall i :: 0 <= i < |packages| ==> packages[i].name != r.name
       case VersionOutsideSpecifier(_, r, v) =>
         exists p :: Chosen(packages, p) && p.name == r.name && v == p.version && !Allowed(target, r, v)
  }

  lemma HopLeads(packages: seq<Package>, w: Work, next: Work)
    ensures Hop(Select(packages), w, next) <==> Leads(packages, w, next)
  {
    SelectExactly(packages, w.1.name);
    if Hop(Select(packages), w, next) {
      var p := Select(packages)[w.1.name];
      assert Chosen(packages, p) && p.name == w.1.name;
    }
  }

  lemma PathIsFromTheFile(packages: seq<Package>, direct: seq<Requirement>, chain: seq<Work>)
    ensures Path(Select(packages), direct, chain) <==> FromTheFile(packages, direct, chain)
  {
    forall i | 0 < i < |chain| ensures Hop(Select(packages), chain[i - 1], chain[i]) <==> Leads(packages, chain[i - 1], chain[i]) {
      HopLeads(packages, chain[i - 1], chain[i]);
    }
  }

  lemma CheckedIsFulfilled(packages: seq<Package>, target: Target, extras: Extras, edges: seq<Edge>, w: Work)
    requires Checked(Select(packages), target, extras, edges, w)
    ensures Fulfilled(packages, target, extras, edges, w)
  {
    SelectExactly(packages, w.1.name);
    var p := Select(packages)[w.1.name];
    assert Chosen(packages, p) && Allowed(target, w.1, p.version);
  }

  lemma EveryChainChecked(packages: seq<Package>, target: Target, direct: seq<Requirement>,
                          extras: Extras, edges: seq<Edge>, processed: set<Key>)
    requires LoopOk(Select(packages), target, direct, extras, edges, processed, [])
    ensures EverythingFulfilled(packages, target, extras, direct, edges)
  {
    var selected := Select(packages);
    forall chain | FromTheFile(packages, direct, chain) && forall i :: 0 <= i < |chain| ==> MarkerHolds(target, extras, chain[i])
      ensures Fulfilled(packages, target, extras, edges, chain[|chain| - 1])
    {
      PathIsFromTheFile(packages, direct, chain);
      forall i | 0 <= i < |chain| ensures Active(target, extras, chain[i]) {
        ActiveExactly(target, extras, chain[i]);
      }
      ChainChecked(selected, target, direct, extras, edges, processed, chain);
      CheckedIsFulfilled(packages, target, extras, edges, chain[|chain| - 1]);
    }
  }

  lemma EdgesDocumented(packages: seq<Package>, target: Target, direct: seq<Requirement>, edges: seq<Edge>)
    requires EdgesSound(Select(packages), target, direct, edges)
    ensures forall i :: 0 <= i < |edges| ==> Documents(packages, target, direct, edges[i])
  {
    forall i | 0 <= i < |edges| ensures Documents(packages, target, direct, edges[i]) {
      assert SomeCheck(Select(packages), target, direct, edges[i]);
      var w: Work :| EdgeSound(Select(packages), target, direct, edges[i], w);
      var chain :| Path(Select(packages), direct, chain) && chain[|chain| - 1] == w;
      PathIsFromTheFile(packages, direct, chain);
      SelectExactly(packages, w.1.name);
      var p := Select(packages)[w.1.name];
      assert Chosen(packages, p) && Allowed(target, w.1, p.version);
    }
  }

  lemma ReachedFails(packages: seq<Package>, target: Target, extras: Extras, direct: seq<Requirement>, w: Work, error: GraphError)
    requires Reachable(Select(packages), direct, w) && Active(target, extras, w) && !Satisfied(Select(packages), target, w)
    requires error == if w.1.name !in Select(packages) then UnresolvedEdge(w.0, w.1)
                      else VersionOutsideSpecifier(w.0, w.1, Select(packages)[w.1.name].version)
    ensures ReallyFails(packages, target, extras, direct, error)
  {
    ActiveExactly(target, extras, w);
    SelectExactly(packages, w.1.name);
    var chain :| Path(Select(packages), direct, chain) && chain[|chain| - 1] == w;
    PathIsFromTheFile(packages, direct, chain);
    if w.1.name in Select(packages) {
      var p := Select(packages)[w.1.name];
      assert Chosen(packages, p) && p.name == w.1.name && !Allowed(target, w.1, p.version);
    }
  }

  lemma FewerKeysLeft(universe: set<Key>, processed: set<Key>, key: Key)
    requires key in universe && key !in processed
    ensures |universe - (processed + {key})| < |universe - processed|
  {
    assert universe - processed == (universe - (processed + {key})) + {key};
  }

  /**
    The worklist. When it returns edges, every requirement that can be reached
    under the final extras was checked under them, though it may have been skipped
    when it was first seen, and every edge stands for such a check; an error names a
    requirement that really fails.
   */
  method ValidateDependencyGraph(packages: seq<Package>, direct: seq<Requirement>, target: Target)
    returns (r: Result<seq<Edge>, GraphError>, ghost extras: Extras)
    ensures r.Ok? ==> EverythingFulfilled(packages, target, extras, direct, r.value)
    ensures r.Ok? ==> Justified(Select(packages), direct, extras, r.value)
    ensures r.Ok? ==> forall i :: 0 <= i < |r.value| ==> Documents(packages, target, direct, r.value[i])
    ensures r.Err? ==> ReallyFails(packages, target, extras, direct, r.error)
  {
    var selected := Select(packages);
    var activeExtras := SeedExtras(direct);
    var pending := WorkFor(Direct, direct);
    var edges: seq<Edge> := [];
    var processed: set<Key> := {};
    ghost var universe := Universe(selected, direct);
    LoopStarts(packages, target, direct);
    DirectReachable(selected, direct);
    while pending != []
      invariant LoopOk(selected, target, direct, activeExtras, edges, processed, pending)
      invariant Traced(selected, target, direct, edges, pending)
      decreases |universe - processed|, |pending|
    {
      var w, rest := pending[0], pending[1..];
      assert pending == [w] + rest;
      FirstAndRestReachable(selected, direct, w, rest);
      if !Active(target, activeExtras, w) {
        LoopDrops(selected, target, direct, activeExtras, edges, processed, w, rest);
        pending := rest;
        continue;
      }
      var (parent, requirement) := w;
      if requirement.name !in selected {
        ReachedFails(packages, target, activeExtras, direct, w, UnresolvedEdge(parent, requirement));
        return Err(UnresolvedEdge(parent, requirement)), activeExtras;
      }
      var package := selected[requirement.name];
      if !Admitted(target, requirement, package.version) {
        ReachedFails(packages, target, activeExtras, direct, w, VersionOutsideSpecifier(parent, requirement, package.version));
        return Err(VersionOutsideSpecifier(parent, requirement, package.version)), activeExtras;
      }
      ghost var before := activeExtras;
      activeExtras := Grow(activeExtras, requirement);
      var key := (parent, requirement, activeExtras[requirement.name]);
      if key in processed {
        LoopSkips(selected, target, direct, before, edges, processed, w, rest);
        pending := rest;
        continue;
      }
      LoopProcesses(packages, target, direct, before, edges, processed, w, rest, key);
      CheckedIsTraced(selected, target, direct, edges, w, rest);
      FewerKeysLeft(universe, processed, key);
      processed := processed + {key};
      edges := edges + [Edge(package.displayName, package.version, parent, requirement.specifier)];
      pending := rest + WorkFor(Of(requirement.name), package.requires_);
    }
    EveryChainChecked(packages, target, direct, activeExtras, edges, processed);
    EdgesDocumented(packages, target, direct, edges);
    return Ok(edges), activeExtras;
  }
}
