/** The chain of toxics that a proxy keeps for each direction, and its fan-out to the links:
    toxic_collection.go. */
module Collection {
  import opened LinkState
  import opened LinkAlign
  import opened LinkTheorems
  import opened LinkSchedule
  import opened Link

  class ToxicWrapper {
    var name: string
    const kindName: string
    const stream: string
    const direction: Direction
    const bufferSize: nat
    var attributes: Kind
    var toxicity: real
    var index: int

    /** The name that AddToxic gives. */
    function GivenName(): string reads `name { if name != "" then name else kindName + "_" + stream }

    function View(): Toxic reads `name, `attributes { Toxic(name, attributes, bufferSize) }

    constructor (name: string, kindName: string, stream: string, direction: Direction, attributes: Kind, bufferSize: nat)
      ensures this.name == name && this.kindName == kindName && this.stream == stream && this.direction == direction
      ensures this.attributes == attributes && this.bufferSize == bufferSize
    {
      this.name, this.kindName, this.stream, this.direction := name, kindName, stream, direction;
      this.attributes, this.bufferSize, this.toxicity, this.index := attributes, bufferSize, 0.0, 0;
    }
  }

  // ---- the chain of one direction -----------------------------------------------------------------------------

  type Row = seq<ToxicWrapper>

  function Toxics(row: Row): (r: seq<Toxic>)
    reads row
    ensures |r| == |row| && forall i :: 0 <= i < |row| ==> r[i] == row[i].View()
  {
    seq(|row|, i requires 0 <= i < |row| reads row => row[i].View())
  }

  function Without<T>(s: seq<T>, i: nat): seq<T>
    requires i < |s|
  {
    s[..i] + s[i + 1..]
  }

  /** A visible toxic of the row has the name. */
  ghost predicate HasName(row: Row, name: string)
    reads row
  {
    exists i :: 1 <= i < |row| && row[i].name == name
  }

  ghost predicate InItsPlace(row: Row, d: Direction, noop: ToxicWrapper, i: int)
    requires 1 <= i < |row|
    reads row[i]
  {
    row[i] != noop && row[i].name != "" && row[i].direction == d && row[i].index == i
  }

  /** Slot 0 is the noop, every later toxic is at its index in the row of its direction, and no two
      have the same name. */
  ghost predicate RowOk(row: Row, d: Direction, noop: ToxicWrapper)
    reads row, noop
  {
    && row != [] && row[0] == noop && noop.attributes == Noop && noop.bufferSize == 0
    && (forall i :: 1 <= i < |row| ==> InItsPlace(row, d, noop, i))
    && (forall i, j :: 1 <= i < j < |row| ==> row[i].name != row[j].name)
  }

  /** No visible toxic of one row has the name of one of the other. */
  ghost predicate NamesApart(a: Row, b: Row)
    reads a, b
  {
    forall i, j :: 1 <= i < |a| && 1 <= j < |b| ==> a[i].name != b[j].name
  }

  /** The toxic is at its index in the row. */
  ghost predicate Holds(row: Row, toxic: ToxicWrapper)
    reads toxic
  {
    1 <= toxic.index < |row| && row[toxic.index] == toxic
  }

  /** The link has a stub for toxic i of the row, with that toxic, and a channel of its buffer size
      before it. */
  ghost predicate CarriesAt(l: ToxicLink, row: Row, i: nat)
    requires i < |row|
    reads l, l.nodes, row[i]
  {
    i + 1 < |l.nodes| &&
    var stub := l.nodes[i + 1];
    && stub.toxic.name == row[i].name && stub.toxic.kind == row[i].attributes && stub.toxic.bufferSize == row[i].bufferSize
    && stub.input < |l.chans| && (i > 0 ==> l.chans[stub.input].capacity == row[i].bufferSize)
  }

  /** Its stubs are those of the row. */
  ghost predicate Carries(l: ToxicLink, row: Row)
    reads l, l.nodes, row
  {
    |l.nodes| == |row| + 1 && forall i :: 0 <= i < |row| ==> CarriesAt(l, row, i)
  }

  /** A link that has the stubs and channels of one built from the toxics of the row carries the row. */
  lemma SameCarries(l: ToxicLink, row: Row, names: seq<nat>)
    requires row != [] && SameLink(l.View(), Build(Toxics(row)), names)
    ensures Carries(l, row)
  {
    var s, t := l.View(), Build(Toxics(row));
    assert |s.nodes| == |l.nodes| == |row| + 1;
    forall i | 0 <= i < |row| ensures CarriesAt(l, row, i) {
      assert SameStub(s, t, names, i) && SameStub(s, t, names, i + 1);
      assert s.nodes[i + 1] == l.nodes[i + 1].View() && t.nodes[i + 1].toxic == row[i].View();
    }
  }

  /** chainAddToxic, on the row. */
  method PutLast(row: Row, toxic: ToxicWrapper, ghost noop: ToxicWrapper) returns (r: Row)
    requires RowOk(row, toxic.direction, noop) && toxic != noop && toxic.name != "" && !HasName(row, toxic.name)
    modifies toxic`index
    ensures r == row + [toxic] && RowOk(r, toxic.direction, noop) && Toxics(r) == old(Toxics(row)) + [toxic.View()]
  {
    toxic.index := |row|;
    r := row + [toxic];
    forall i | 1 <= i < |r| ensures InItsPlace(r, toxic.direction, noop, i) {
      if i < |row| { assert old(InItsPlace(row, toxic.direction, noop, i)); }
    }
  }

  /** chainRemoveToxic, on the row: later toxics are told their new indices. */
  method TakeFrom(row: Row, index: nat, ghost d: Direction, ghost noop: ToxicWrapper) returns (r: Row)
    requires RowOk(row, d, noop) && 1 <= index < |row|
    modifies (set j | 1 <= j < |row| :: row[j])`index
    ensures r == Without(row, index) && row[index] !in r && RowOk(r, d, noop)
    ensures Toxics(r) == Without(old(Toxics(row)), index)
    ensures row[index].index == index
  {
    r := row[..index] + row[index + 1..];
    assert InItsPlace(row, d, noop, index);
    forall j | 0 <= j < |r| ensures r[j] != row[index] { assert r[j] == row[if j < index then j else j + 1]; }
    for i := index to |r|
      invariant forall j :: 1 <= j < |r| && (j < index || j >= i) ==> r[j].index == old(r[j].index)
      invariant forall j :: index <= j < i ==> r[j].index == j
      invariant row[index].index == index
    {
      assert r[i] == row[i + 1];
      r[i].index := i;
    }
    forall i | 1 <= i < |r| ensures InItsPlace(r, d, noop, i) {
      assert old(InItsPlace(row, d, noop, if i < index then i else i + 1));
    }
  }

  lemma NamesWithout(a: Row, index: nat, b: Row)
    requires NamesApart(a, b) && 1 <= index < |a|
    ensures NamesApart(Without(a, index), b) && NamesApart(b, Without(a, index))
  {
    var c := Without(a, index);
    forall i, j | 1 <= i < |c| && 1 <= j < |b| ensures c[i].name != b[j].name {
      assert c[i] == a[if i < index then i else i + 1];
    }
  }

  function Other(d: Direction): Direction { if d == Upstream then Downstream else Upstream }

  /** No visible toxic of one row is in the other. */
  ghost predicate Separate(row: Row, other: Row) {
    forall i, j :: 1 <= i < |other| && 1 <= j < |row| ==> other[i] != row[j]
  }

  lemma SeparateNames(row: Row, other: Row)
    requires NamesApart(row, other)
    ensures Separate(row, other)
  {
  }

  method TakeAlone(row: Row, index: nat, ghost other: Row, ghost d: Direction, ghost noop: ToxicWrapper) returns (r: Row)
    requires RowOk(row, d, noop) && 1 <= index < |row|
    requires RowOk(other, Other(d), noop) && Separate(row, other)
    modifies (set j | 1 <= j < |row| :: row[j])`index
    ensures r == Without(row, index) && row[index] !in r && row[index] !in other && row[index].index == index
    ensures RowOk(r, d, noop)
    ensures RowOk(other, Other(d), noop)
    ensures Toxics(r) == Without(old(Toxics(row)), index) && Toxics(other) == old(Toxics(other))
  {
    assert InItsPlace(row, d, noop, index);
    r := TakeFrom(row, index, d, noop);
    forall i | 1 <= i < |other| ensures InItsPlace(other, Other(d), noop, i) {
      assert old(InItsPlace(other, Other(d), noop, i));
    }
  }

  /** What TakeFrom does to the row does nothing to the row of the other direction. */
  method TakeBeside(row: Row, index: nat, ghost other: Row, ghost d: Direction, ghost noop: ToxicWrapper) returns (r: Row)
    requires RowOk(row, d, noop) && 1 <= index < |row|
    requires RowOk(other, Other(d), noop) && NamesApart(row, other)
    modifies (set j | 1 <= j < |row| :: row[j])`index
    ensures r == Without(row, index) && row[index] !in r && row[index] !in other && row[index].index == index
    ensures RowOk(r, d, noop)
    ensures RowOk(other, Other(d), noop)
    ensures NamesApart(r, other)
    ensures NamesApart(other, r)
    ensures Toxics(r) == Without(old(Toxics(row)), index) && Toxics(other) == old(Toxics(other))
  {
    SeparateNames(row, other);
    r := TakeAlone(row, index, other, d, noop);
    NamesWithout(row, index, other);
  }

  // ---- the fan-out to the links -------------------------------------------------------------------------------

  datatype Edit = Add(toxic: Toxic) | Update(index: nat, toxic: Toxic) | Remove(index: nat)

  /** What the edit does to the chain. */
  function Edited(chain: seq<Toxic>, e: Edit): seq<Toxic> {
    match e
    case Add(toxic) => chain + [toxic]
    case Update(index, toxic) => if index < |chain| then chain[index := toxic] else chain
    case Remove(index) => if index < |chain| then Without(chain, index) else chain
  }

  predicate Editable(chain: seq<Toxic>, e: Edit) {
    match e
    case Add(_) => true
    case Update(index, toxic) =>
      1 <= index < |chain| && toxic.name == chain[index].name && toxic.bufferSize == chain[index].bufferSize
    case Remove(index) => 1 <= index < |chain|
  }

  /** How the operation begins on a link. */
  function Request(e: Edit): Action {
    match e
    case Add(toxic) => BeginAdd(toxic)
    case Update(index, toxic) => BeginUpdate(index, toxic)
    case Remove(index) => BeginRemove(index)
  }

  type Links = map<string, ToxicLink>

  predicate Named(links: Links, n: string) { n in links }

  function Number(d: Direction): nat { if d == Upstream then 0 else 1 }

  /** No link is registered twice. */
  ghost predicate Apart(links: Links) { forall m, n :: m in links && n in links && m != n ==> links[m] != links[n] }

  /** Every link is in a state of one of its runs. */
  ghost predicate AllValid(links: Links)
    reads links.Values
    reads set n, i | n in links && 0 <= i < |links[n].nodes| :: links[n].nodes[i]
  {
    forall n {:trigger Named(links, n)} :: Named(links, n) ==> links[n].Valid()
  }

  /** Every link has the chain of its direction. */
  ghost predicate Agree(links: Links, up: seq<Toxic>, down: seq<Toxic>)
    reads links.Values
  {
    forall n :: n in links ==> links[n].chain == if links[n].direction == Upstream then up else down
  }

  /** The links, each in a run of its own, with the chain of its direction. */
  ghost predicate Linked(links: Links, up: seq<Toxic>, down: seq<Toxic>)
    reads links.Values
    reads set n, i | n in links && 0 <= i < |links[n].nodes| :: links[n].nodes[i]
  {
    Apart(links) && AllValid(links) && Agree(links, up, down)
  }

  /** No operation is under way on any link. */
  ghost predicate Quiet(links: Links)
    reads links.Values
  {
    forall n :: n in links ==> links[n].ctl.Idle?
  }

  /** The link has kept as many stubs as AddToxic crashes on. */
  ghost predicate Overhanging(l: ToxicLink) reads l { |l.nodes| - 1 >= |l.chain| + 2 }

  lemma ValidWith(links: Links, name: string, l: ToxicLink)
    requires AllValid(links) && l.Valid()
    ensures AllValid(links[name := l])
  {
    var more := links[name := l];
    forall n | Named(more, n) ensures more[n].Valid() {
      if n != name { assert Named(links, n); }
    }
  }

  lemma ValidWithout(links: Links, name: string)
    requires AllValid(links)
    ensures AllValid(links - {name})
  {
    forall n | Named(links - {name}, n) ensures (links - {name})[n].Valid() { assert Named(links, n); }
  }

  /** A link that an edit of another one leaves alone. */
  twostate predicate Untouched(l: ToxicLink)
    reads l, l.nodes
  {
    l.nodes == old(l.nodes) && l.View() == old(l.View())
  }

  /** The link, which was in state s, has the edit in its chain, and has done with it exactly if the
      operation returns with the schedule. */
  ghost predicate Edits(l: ToxicLink, s: State, e: Edit, schedule: seq<Action>)
    reads l
  {
    l.chain == Edited(s.chain, e) && (l.ctl.Idle? <==> Told(s, Request(e), schedule).outcome.Done?)
  }

  datatype Snapshot = Snapshot(state: State, nodes: seq<ToxicStub>)

  /** What the links are, as a value. */
  ghost function Snapshots(links: Links): map<string, Snapshot>
    reads links.Values
    reads set n, i | n in links && 0 <= i < |links[n].nodes| :: links[n].nodes[i]
  {
    map n | n in links :: Snapshot(links[n].View(), links[n].nodes)
  }

  /** On links that were like that the operation returns on every one of the direction, with its schedule. */
  ghost predicate AllHear(links: Links, was: map<string, Snapshot>, direction: Direction, e: Edit,
                          schedules: string -> seq<Action>)
  {
    forall n :: n in links && n in was && links[n].direction == direction ==>
      Told(was[n].state, Request(e), schedules(n)).outcome.Done?
  }

  ghost predicate LikeOne(l: ToxicLink, was: Snapshot)
    reads l, l.nodes
  {
    l.nodes == was.nodes && l.View() == was.state
  }

  /** Every link is in a state of one of its runs, and is what it was. */
  ghost predicate Like(links: Links, was: map<string, Snapshot>)
    reads links.Values
    reads set n, i | n in links && 0 <= i < |links[n].nodes| :: links[n].nodes[i]
  {
    was.Keys == links.Keys
    && forall n {:trigger Named(links, n)} :: Named(links, n) ==> links[n].Valid() && LikeOne(links[n], was[n])
  }

  /** The links were idle and had the chains of their directions. */
  ghost predicate Planned(links: Links, up: seq<Toxic>, down: seq<Toxic>, was: map<string, Snapshot>) {
    was.Keys == links.Keys && forall n :: n in links ==>
      was[n].state.ctl.Idle? && was[n].state.chain == if links[n].direction == Upstream then up else down
  }

  /** Links that an operation is about to be fanned out to. */
  ghost predicate AtRest(links: Links, up: seq<Toxic>, down: seq<Toxic>, was: map<string, Snapshot>)
    reads links.Values
    reads set n, i | n in links && 0 <= i < |links[n].nodes| :: links[n].nodes[i]
  {
    Apart(links) && Like(links, was) && Planned(links, up, down, was)
  }

  lemma AtRestMeans(links: Links, up: seq<Toxic>, down: seq<Toxic>, was: map<string, Snapshot>)
    ensures AtRest(links, up, down, was) <==> Linked(links, up, down) && Quiet(links) && was == Snapshots(links)
  {
    if AtRest(links, up, down, was) {
      forall n | n in links ensures was[n] == Snapshots(links)[n] && links[n].Valid() { assert Named(links, n); }
      assert was == Snapshots(links);
    } else if Linked(links, up, down) && Quiet(links) && was == Snapshots(links) {
      forall n | Named(links, n) ensures links[n].Valid() && LikeOne(links[n], was[n]) {}
    }
  }

  /** On some of these links AddToxic crashes. */
  ghost predicate SomeCrash(links: Links, was: map<string, Snapshot>, names: set<string>, direction: Direction, e: Edit,
                            schedules: string -> seq<Action>)
  {
    exists n :: n in names && CrashesOn(links, was, n, direction, e, schedules(n))
  }

  ghost predicate CrashesOn(links: Links, was: map<string, Snapshot>, n: string, direction: Direction, e: Edit,
                            schedule: seq<Action>)
  {
    n in links && n in was && links[n].direction == direction && Told(was[n].state, Request(e), schedule).outcome.Crashed?
  }

  lemma CrashNext(links: Links, was: map<string, Snapshot>, names: set<string>, n: string, direction: Direction, e: Edit,
                  schedules: string -> seq<Action>)
    ensures SomeCrash(links, was, names + {n}, direction, e, schedules)
      <==> SomeCrash(links, was, names, direction, e, schedules) || CrashesOn(links, was, n, direction, e, schedules(n))
  {
    if CrashesOn(links, was, n, direction, e, schedules(n)) { assert n in names + {n}; }
    if m :| m in names && CrashesOn(links, was, m, direction, e, schedules(m)) { assert m in names + {n}; }
  }

  /** What the loop over the links has made of one of them, which may still be waiting for its turn. */
  ghost predicate ReachedOne(l: ToxicLink, was: Snapshot, waits: bool, direction: Direction, e: Edit, schedule: seq<Action>)
    reads l, l.nodes
  {
    if l.direction == direction && !waits then Edits(l, was.state, e, schedule) else LikeOne(l, was)
  }

  ghost predicate Reached(links: Links, was: map<string, Snapshot>, todo: set<string>, direction: Direction, e: Edit,
                          schedules: string -> seq<Action>)
    reads links.Values
    reads set n, i | n in links && 0 <= i < |links[n].nodes| :: links[n].nodes[i]
  {
    forall n :: n in links ==> n in was && ReachedOne(links[n], was[n], n in todo, direction, e, schedules(n))
  }

  /** Some link of the direction had kept as many stubs as AddToxic crashes on. */
  ghost predicate Overhung(links: Links, was: map<string, Snapshot>, direction: Direction) {
    exists n :: n in links && n in was && links[n].direction == direction
      && |was[n].state.nodes| - 1 >= |was[n].state.chain| + 2
  }

  method EditOne(l: ToxicLink, e: Edit, schedule: seq<Action>) returns (o: Outcome)
    requires l.Valid() && l.ctl.Idle? && Editable(l.chain, e)
    modifies l, set stub: ToxicStub | stub.owner == l
    ensures l.Valid() && Edits(l, old(l.View()), e, schedule) && o == Told(old(l.View()), Request(e), schedule).outcome
    ensures o.Crashed? ==> e.Add? && old(Overhanging(l))
  {
    match e {
      case Add(toxic) => o := l.AddToxic(toxic, schedule);
      case Update(index, toxic) => o := l.UpdateToxic(index, toxic, schedule);
      case Remove(index) => o := l.RemoveToxic(index, schedule);
    }
  }

  method EditLink(links: Links, name: string, e: Edit, schedule: seq<Action>) returns (o: Outcome)
    requires Apart(links) && AllValid(links) && name in links
    requires links[name].ctl.Idle? && Editable(links[name].chain, e)
    modifies links[name], set stub: ToxicStub | stub.owner == links[name]
    ensures AllValid(links) && forall n :: n in links && n != name ==> Untouched(links[n])
    ensures Edits(links[name], old(links[name].View()), e, schedule)
    ensures o == Told(old(links[name].View()), Request(e), schedule).outcome
    ensures o.Crashed? ==> e.Add? && old(Overhanging(links[name]))
  {
    assert Named(links, name);
    assert forall n :: Named(links, n) ==> links[n].Owned();
    o := EditOne(links[name], e, schedule);
    forall n | Named(links, n) && n != name ensures links[n].Valid() && Untouched(links[n]) {
      assert forall i :: 0 <= i < |links[n].nodes| ==> links[n].nodes[i].owner == links[n];
    }
  }

  method FlowLink(links: Links, name: string, ghost up: seq<Toxic>, ghost down: seq<Toxic>, schedule: seq<Action>)
    requires Linked(links, up, down) && Quiet(links) && name in links
    modifies links[name], set stub: ToxicStub | stub.owner == links[name]
    ensures Linked(links, up, down) && Quiet(links)
  {
    assert Named(links, name);
    links[name].Flow(schedule);
  }

  function Worse(a: Outcome, b: Outcome): Outcome {
    if a.Crashed? || b.Crashed? then Crashed else if a.Waiting? || b.Waiting? then Waiting else Done
  }

  /** The loop over the links: each of the direction is edited, on a goroutine of its own, and the
      collection waits for all of them. */
  method FanOut(links: Links, direction: Direction, e: Edit, schedules: string -> seq<Action>) returns (o: Outcome)
    requires Apart(links) && AllValid(links) && Quiet(links)
    requires forall n :: n in links && links[n].direction == direction ==> Editable(links[n].chain, e)
    modifies links.Values, set stub: ToxicStub | stub.owner in links.Values
    ensures AllValid(links)
    ensures forall n :: n in links ==>
      if links[n].direction == direction then links[n].chain == Edited(old(links[n].chain), e) else Untouched(links[n])
    ensures o.Done? <==> Quiet(links)
    ensures o.Done? <==> AllHear(links, old(Snapshots(links)), direction, e, schedules)
    ensures o.Crashed? <==> SomeCrash(links, old(Snapshots(links)), links.Keys, direction, e, schedules)
    ensures o.Crashed? ==> e.Add? && Overhung(links, old(Snapshots(links)), direction)
  {
    ghost var was := Snapshots(links);
    o := VisitAll(links, was, direction, e, schedules);
    QuietIfHeard(links, was, direction, e, schedules);
    forall n | n in links && links[n].direction != direction ensures Untouched(links[n]) {
      assert ReachedOne(links[n], was[n], false, direction, e, schedules(n));
    }
  }

  method VisitAll(links: Links, ghost was: map<string, Snapshot>, direction: Direction, e: Edit, schedules: string -> seq<Action>)
    returns (o: Outcome)
    requires Apart(links) && AllValid(links) && Quiet(links) && Reached(links, was, links.Keys, direction, e, schedules)
    requires forall n :: n in links ==>
      was[n].state.ctl.Idle? && (links[n].direction == direction ==> Editable(was[n].state.chain, e))
    modifies links.Values, set stub: ToxicStub | stub.owner in links.Values
    ensures AllValid(links) && Reached(links, was, {}, direction, e, schedules)
    ensures o.Done? <==> Quiet(links)
    ensures o.Crashed? <==> SomeCrash(links, was, links.Keys, direction, e, schedules)
    ensures o.Crashed? ==> e.Add? && Overhung(links, was, direction)
  {
    o := Done;
    var todo := links.Keys;
    while todo != {}
      invariant todo <= links.Keys && Visited(links, was, todo, direction, e, schedules, o)
      decreases todo
    {
      var n :| n in todo;
      o := VisitNext(links, was, todo, direction, n, e, schedules, o);
      todo := todo - {n};
    }
    assert links.Keys - {} == links.Keys;
  }

  /** The loop has told the links that are not in todo, and o is what they have answered. */
  ghost predicate Visited(links: Links, was: map<string, Snapshot>, todo: set<string>, direction: Direction, e: Edit,
                          schedules: string -> seq<Action>, o: Outcome)
    reads links.Values
    reads set n, i | n in links && 0 <= i < |links[n].nodes| :: links[n].nodes[i]
  {
    && AllValid(links) && Reached(links, was, todo, direction, e, schedules) && (o.Done? <==> Quiet(links))
    && (o.Crashed? <==> SomeCrash(links, was, links.Keys - todo, direction, e, schedules))
    && (o.Crashed? ==> e.Add? && Overhung(links, was, direction))
  }

  method VisitNext(links: Links, ghost was: map<string, Snapshot>, ghost todo: set<string>, direction: Direction, n: string,
                   e: Edit, schedules: string -> seq<Action>, o: Outcome)
    returns (worse: Outcome)
    requires Apart(links) && n in todo && todo <= links.Keys && Visited(links, was, todo, direction, e, schedules, o)
    requires n in was && was[n].state.ctl.Idle? && (links[n].direction == direction ==> Editable(was[n].state.chain, e))
    modifies links[n], set stub: ToxicStub | stub.owner == links[n]
    ensures Visited(links, was, todo - {n}, direction, e, schedules, worse)
  {
    CrashNext(links, was, links.Keys - todo, n, direction, e, schedules);
    assert links.Keys - todo + {n} == links.Keys - (todo - {n});
    var result := Visit(links, was, todo, direction, n, e, schedules);
    worse := Worse(o, result);
  }

  lemma QuietIfHeard(links: Links, was: map<string, Snapshot>, direction: Direction, e: Edit, schedules: string -> seq<Action>)
    requires Reached(links, was, {}, direction, e, schedules) && forall n :: n in links && n in was ==> was[n].state.ctl.Idle?
    ensures Quiet(links) <==> AllHear(links, was, direction, e, schedules)
  {
    forall n | n in links
      ensures links[n].ctl.Idle? <==> links[n].direction != direction || Told(was[n].state, Request(e), schedules(n)).outcome.Done?
    {
      assert ReachedOne(links[n], was[n], false, direction, e, schedules(n));
    }
  }

  /** The loop's turn for link n. */
  method Visit(links: Links, ghost was: map<string, Snapshot>, ghost todo: set<string>, direction: Direction, n: string,
               e: Edit, schedules: string -> seq<Action>)
    returns (o: Outcome)
    requires Apart(links) && AllValid(links) && n in todo && todo <= links.Keys
    requires Reached(links, was, todo, direction, e, schedules)
    requires n in was && was[n].state.ctl.Idle? && (links[n].direction == direction ==> Editable(was[n].state.chain, e))
    modifies links[n], set stub: ToxicStub | stub.owner == links[n]
    ensures AllValid(links) && Reached(links, was, todo - {n}, direction, e, schedules)
    ensures Quiet(links) <==> o.Done? && old(Quiet(links))
    ensures o == if links[n].direction == direction then Told(was[n].state, Request(e), schedules(n)).outcome else Done
    ensures o.Crashed? ==> e.Add? && Overhung(links, was, direction)
  {
    assert ReachedOne(links[n], was[n], true, direction, e, schedules(n));
    o := Done;
    if links[n].direction == direction {
      o := EditLink(links, n, e, schedules(n));
    }
    forall m | m in links ensures ReachedOne(links[m], was[m], m in todo - {n}, direction, e, schedules(m)) {
      if m != n {
        assert old(ReachedOne(links[m], was[m], m in todo, direction, e, schedules(m)));
        assert Untouched(links[m]);
      }
    }
  }

  /** The fan-out when every link of the direction had the chain before the edit. */
  method Tell(links: Links, direction: Direction, ghost up: seq<Toxic>, ghost down: seq<Toxic>, ghost was: map<string, Snapshot>, e: Edit,
              schedules: string -> seq<Action>)
    returns (o: Outcome)
    requires AtRest(links, up, down, was)
    requires Editable(if direction == Upstream then up else down, e)
    modifies links.Values, set stub: ToxicStub | stub.owner in links.Values
    ensures if direction == Upstream then Linked(links, Edited(up, e), down) else Linked(links, up, Edited(down, e))
    ensures o.Done? <==> Quiet(links)
    ensures o.Done? <==> AllHear(links, was, direction, e, schedules)
    ensures o.Crashed? <==> SomeCrash(links, was, links.Keys, direction, e, schedules)
    ensures o.Crashed? ==> e.Add? && Overhung(links, was, direction)
  {
    AtRestMeans(links, up, down, was);
    o := FanOut(links, direction, e, schedules);
  }

  // ---- the collection -------------------------------------------------------------------------------------------

  /** What an operation on the collection answers. */
  datatype Result = AlreadyExists | NotFound | Applied(outcome: Outcome)

  class ToxicCollection {
    const noop: ToxicWrapper
    var chain: seq<Row>
    var links: Links

    ghost function Wrappers(): set<object>
      reads `chain
    {
      set d, i | 0 <= d < |chain| && 0 <= i < |chain[d]| :: chain[d][i]
    }

    /** The chains of both directions. */
    ghost predicate ChainsOk()
      reads `chain, noop, Wrappers()
    {
      && |chain| == 2 && RowOk(chain[0], Upstream, noop) && RowOk(chain[1], Downstream, noop)
      && NamesApart(chain[0], chain[1])
    }

    /** The links, told of the chains as far as the outcome says. */
    ghost predicate Settled(o: Outcome)
      reads `chain, `links, noop, Wrappers()
      reads links.Values
      reads set n, i | n in links && 0 <= i < |links[n].nodes| :: links[n].nodes[i]
    {
      ChainsOk() && Linked(links, Toxics(chain[0]), Toxics(chain[1])) && (o.Done? <==> Quiet(links))
    }

    ghost predicate Valid()
      reads `chain, `links, noop, Wrappers()
      reads links.Values
      reads set n, i | n in links && 0 <= i < |links[n].nodes| :: links[n].nodes[i]
    {
      Settled(Done)
    }

    constructor ()
      ensures Valid() && chain == [[noop], [noop]] && links == map[]
    {
      var wrapper := new ToxicWrapper("", "noop", "", Upstream, Noop, 0);
      noop, chain, links := wrapper, [[wrapper], [wrapper]], map[];
    }

    /** A visible toxic of either direction has the name. */
    ghost predicate Taken(name: string)
      reads `chain, Wrappers()
    {
      exists d :: 0 <= d < |chain| && HasName(chain[d], name)
    }

    /** findToxicByName. */
    method FindToxicByName(name: string) returns (r: ToxicWrapper?)
      requires ChainsOk()
      ensures r == null <==> !Taken(name)
      ensures r != null ==> r.name == name && Holds(chain[Number(r.direction)], r)
    {
      for d := 0 to |chain|
        invariant forall e :: 0 <= e < d ==> !HasName(chain[e], name)
      {
        for i := 1 to |chain[d]|
          invariant forall j :: 1 <= j < i ==> chain[d][j].name != name
        {
          if chain[d][i].name == name {
            assert InItsPlace(chain[d], if d == 0 then Upstream else Downstream, noop, i);
            assert HasName(chain[d], name);
            return chain[d][i];
          }
        }
      }
      r := null;
    }

    /** GetToxicArray: the noop is not visible. */
    method GetToxicArray() returns (result: seq<ToxicWrapper>)
      requires ChainsOk()
      ensures result == chain[0][1..] + chain[1][1..]
    {
      result := [];
      for d := 0 to |chain|
        invariant result == if d == 0 then [] else if d == 1 then chain[0][1..] else chain[0][1..] + chain[1][1..]
      {
        ghost var before := result;
        for i := 0 to |chain[d]|
          invariant result == before + if i == 0 then [] else chain[d][1..i]
        {
          if i == 0 { continue; }
          result := result + [chain[d][i]];
        }
      }
    }

    /** chainAddToxic, before the links are told. */
    method PutInChain(toxic: ToxicWrapper)
      requires ChainsOk() && toxic != noop && toxic.name != "" && !Taken(toxic.name)
      modifies `chain, toxic`index
      ensures ChainsOk() && chain == old(chain)[Number(toxic.direction) := old(chain)[Number(toxic.direction)] + [toxic]]
      ensures Toxics(chain[0]) == old(Toxics(chain[0])) + if toxic.direction == Upstream then [toxic.View()] else []
      ensures Toxics(chain[1]) == old(Toxics(chain[1])) + if toxic.direction == Downstream then [toxic.View()] else []
    {
      var d := Number(toxic.direction);
      assert !HasName(chain[0], toxic.name) && !HasName(chain[1], toxic.name);
      var row := PutLast(chain[d], toxic, noop);
      chain := chain[d := row];
    }

    /** chainRemoveToxic, before the links are told. */
    method TakeFromChain(toxic: ToxicWrapper)
      requires ChainsOk() && Holds(chain[Number(toxic.direction)], toxic)
      modifies `chain, (set j | 1 <= j < |chain[Number(toxic.direction)]| :: chain[Number(toxic.direction)][j])`index
      ensures ChainsOk()
      ensures toxic.index == old(toxic.index) && toxic !in chain[0] && toxic !in chain[1]
      ensures var d := Number(toxic.direction); chain == old(chain)[d := Without(old(chain)[d], toxic.index)]
      ensures var d := Number(toxic.direction);
        Toxics(chain[d]) == Without(old(Toxics(chain[d])), toxic.index) && Toxics(chain[1 - d]) == old(Toxics(chain[1 - d]))
    {
      var d, index := Number(toxic.direction), toxic.index;
      var row := TakeBeside(chain[d], index, chain[1 - d], toxic.direction, noop);
      chain := chain[d := row];
    }

    /** UpdateToxicJson sets the attributes of the toxic it has found. */
    method SetAttributes(toxic: ToxicWrapper, attributes: Kind, toxicity: real)
      requires ChainsOk() && Holds(chain[Number(toxic.direction)], toxic)
      modifies toxic`attributes, toxic`toxicity
      ensures ChainsOk() && toxic.attributes == attributes && toxic.toxicity == toxicity
      ensures var d := Number(toxic.direction);
        && Toxics(chain[d]) == old(Toxics(chain[d]))[toxic.index := toxic.View()]
        && Toxics(chain[1 - d]) == old(Toxics(chain[1 - d]))
    {
      assert InItsPlace(chain[Number(toxic.direction)], toxic.direction, noop, toxic.index);
      toxic.attributes, toxic.toxicity := attributes, toxicity;
    }

    /** The fields that AddToxic sets before it looks the name up. */
    method Prepare(wrapper: ToxicWrapper)
      requires ChainsOk() && wrapper != noop
      modifies wrapper`toxicity, wrapper`name
      ensures ChainsOk() && Toxics(chain[0]) == old(Toxics(chain[0])) && Toxics(chain[1]) == old(Toxics(chain[1]))
      ensures wrapper.toxicity == 1.0 && wrapper.name == old(wrapper.GivenName())
      ensures Taken(wrapper.name) <==> old(Taken(wrapper.GivenName()))
    {
      wrapper.toxicity := 1.0;
      wrapper.name := wrapper.GivenName();
      forall d, i | 0 <= d < 2 && 1 <= i < |chain[d]| ensures chain[d][i].name == old(chain[d][i].name) {
        assert old(InItsPlace(chain[d], if d == 0 then Upstream else Downstream, noop, i));
      }
      forall i | 1 <= i < |chain[0]| ensures InItsPlace(chain[0], Upstream, noop, i) {
        assert old(InItsPlace(chain[0], Upstream, noop, i));
      }
      forall i | 1 <= i < |chain[1]| ensures InItsPlace(chain[1], Downstream, noop, i) {
        assert old(InItsPlace(chain[1], Downstream, noop, i));
      }
    }

    /** The links are told of an edit that the chain has already seen. */
    method Announce(direction: Direction, ghost up: seq<Toxic>, ghost down: seq<Toxic>, ghost was: map<string, Snapshot>, e: Edit, schedules: string -> seq<Action>)
      returns (o: Outcome)
      requires ChainsOk() && AtRest(links, up, down, was)
      requires Editable(if direction == Upstream then up else down, e)
      requires Toxics(chain[0]) == (if direction == Upstream then Edited(up, e) else up)
      requires Toxics(chain[1]) == (if direction == Upstream then down else Edited(down, e))
      modifies links.Values, set stub: ToxicStub | stub.owner in links.Values
      ensures Settled(o) && Toxics(chain[0]) == old(Toxics(chain[0])) && Toxics(chain[1]) == old(Toxics(chain[1]))
      ensures o.Done? <==> AllHear(links, was, direction, e, schedules)
      ensures o.Crashed? <==> SomeCrash(links, was, links.Keys, direction, e, schedules)
      ensures o.Crashed? ==> e.Add? && Overhung(links, was, direction)
    {
      o := Tell(links, direction, up, down, was, e, schedules);
      Unmoved();
    }

    twostate lemma Unmoved()
      requires old(ChainsOk()) && chain == old(chain) && unchanged(Wrappers())
      ensures ChainsOk() && Toxics(chain[0]) == old(Toxics(chain[0])) && Toxics(chain[1]) == old(Toxics(chain[1]))
    {
    }

    /** AddToxic's part in the chain. */
    method AddToChain(wrapper: ToxicWrapper) returns (added: bool)
      requires ChainsOk() && wrapper != noop
      modifies `chain, wrapper`name, wrapper`toxicity, wrapper`index
      ensures ChainsOk() && wrapper.toxicity == 1.0 && wrapper.name == old(wrapper.GivenName())
      ensures added <==> !old(Taken(wrapper.GivenName()))
      ensures var d := Number(wrapper.direction);
        chain == if added then old(chain)[d := old(chain)[d] + [wrapper]] else old(chain)
      ensures Toxics(chain[0]) == old(Toxics(chain[0])) + if added
        && wrapper.direction == Upstream then [wrapper.View()] else []
      ensures Toxics(chain[1]) == old(Toxics(chain[1])) + if added
        && wrapper.direction == Downstream then [wrapper.View()] else []
    {
      Prepare(wrapper);
      var found := FindToxicByName(wrapper.name);
      added := found == null;
      if added {
        PutInChain(wrapper);
      }
    }

    /** UpdateToxicJson's part in the chain. */
    method UpdateInChain(name: string, attributes: Kind, toxicity: real) returns (toxic: ToxicWrapper?)
      requires ChainsOk()
      modifies `chain, Wrappers()
      ensures ChainsOk() && chain == old(chain) && (toxic == null <==> !old(Taken(name)))
      ensures toxic == null ==> Toxics(chain[0]) == old(Toxics(chain[0])) && Toxics(chain[1]) == old(Toxics(chain[1]))
      ensures toxic != null ==> var d := Number(toxic.direction);
        && Holds(chain[d], toxic) && toxic.name == old(toxic.name) == name
        && Toxics(chain[d]) == old(Toxics(chain[d]))[toxic.index := toxic.View()]
        && Toxics(chain[1 - d]) == old(Toxics(chain[1 - d]))
      ensures toxic != null ==> toxic.attributes == attributes && toxic.toxicity == toxicity
    {
      toxic := FindToxicByName(name);
      if toxic != null {
        SetAttributes(toxic, attributes, toxicity);
        var d := Number(toxic.direction);
        assert chain[d][toxic.index := toxic] == chain[d] && chain[d := chain[d]] == chain;
        chain := chain[d := chain[d][toxic.index := toxic]];
      }
    }

    // ---- the exported operations ------------------------------------------------------------------------------------

    method AddAtRest(wrapper: ToxicWrapper, ghost up: seq<Toxic>, ghost down: seq<Toxic>, ghost was: map<string, Snapshot>)
      returns (added: bool)
      requires ChainsOk() && wrapper != noop && AtRest(links, up, down, was)
      modifies `chain, wrapper`name, wrapper`toxicity, wrapper`index
      ensures ChainsOk() && AtRest(links, up, down, was)
      ensures wrapper.toxicity == 1.0 && wrapper.name == old(wrapper.GivenName())
      ensures added <==> !old(Taken(wrapper.GivenName()))
      ensures var d := Number(wrapper.direction);
        chain == if added then old(chain)[d := old(chain)[d] + [wrapper]] else old(chain)
      ensures Toxics(chain[0]) == old(Toxics(chain[0])) + if added
        && wrapper.direction == Upstream then [wrapper.View()] else []
      ensures Toxics(chain[1]) == old(Toxics(chain[1])) + if added
        && wrapper.direction == Downstream then [wrapper.View()] else []
    {
      added := AddToChain(wrapper);
    }

    /** AddToxic: the default name is given, and the toxicity set, even to a toxic that is then refused. */
    method AddToxic(wrapper: ToxicWrapper, schedules: string -> seq<Action>) returns (r: Result)
      requires Valid() && wrapper != noop
      modifies `chain, wrapper`name, wrapper`toxicity, wrapper`index
      modifies links.Values, set stub: ToxicStub | stub.owner in links.Values
      ensures wrapper.toxicity == 1.0 && wrapper.attributes == old(wrapper.attributes)
      ensures wrapper.name == if old(wrapper.name) != "" then old(wrapper.name) else wrapper.kindName + "_" + wrapper.stream
      ensures r.AlreadyExists? <==> old(Taken(wrapper.GivenName()))
      ensures r.AlreadyExists? ==> Valid() && chain == old(chain)
      ensures !r.AlreadyExists? ==> r.Applied? && Settled(r.outcome)
      ensures !r.AlreadyExists? ==> var d := Number(wrapper.direction); chain == old(chain)[d := old(chain)[d] + [wrapper]]
      ensures r.Applied? ==> (r.outcome.Done? <==> AllHear(links, old(Snapshots(links)), wrapper.direction,
        Add(Toxic(wrapper.name, wrapper.attributes, wrapper.bufferSize)), schedules))
      ensures r.Applied? ==> (r.outcome.Crashed? <==> SomeCrash(links, old(Snapshots(links)), links.Keys, wrapper.direction,
        Add(Toxic(wrapper.name, wrapper.attributes, wrapper.bufferSize)), schedules))
      ensures r == Applied(Crashed) ==> Overhung(links, old(Snapshots(links)), wrapper.direction)
    {
      ghost var up, down, was := Toxics(chain[0]), Toxics(chain[1]), Snapshots(links);
      AtRestMeans(links, up, down, was);
      var added := AddAtRest(wrapper, up, down, was);
      if !added {
        AtRestMeans(links, up, down, was);
        return AlreadyExists;
      }
      var o := AnnounceAdd(wrapper, up, down, was, schedules);
      r := Applied(o);
    }

    /** chainAddToxic's part for the links. */
    method AnnounceAdd(toxic: ToxicWrapper, ghost up: seq<Toxic>, ghost down: seq<Toxic>, ghost was: map<string, Snapshot>, schedules: string -> seq<Action>)
      returns (o: Outcome)
      requires ChainsOk() && AtRest(links, up, down, was)
      requires Toxics(chain[0]) == up + if toxic.direction == Upstream then [toxic.View()] else []
      requires Toxics(chain[1]) == down + if toxic.direction == Downstream then [toxic.View()] else []
      modifies links.Values, set stub: ToxicStub | stub.owner in links.Values
      ensures Settled(o)
      ensures o.Done? <==> AllHear(links, was, toxic.direction, Add(toxic.View()), schedules)
      ensures o.Crashed? <==> SomeCrash(links, was, links.Keys, toxic.direction, Add(toxic.View()), schedules)
      ensures o.Crashed? ==> Overhung(links, was, toxic.direction)
    {
      assert up + [] == up && down + [] == down;
      o := Announce(toxic.direction, up, down, was, Add(toxic.View()), schedules);
    }

    /** A toxic that is in no chain any more loses its index. */
    method Dismiss(toxic: ToxicWrapper, ghost o: Outcome)
      requires Settled(o) && toxic !in chain[0] && toxic !in chain[1]
      modifies toxic`index
      ensures Settled(o) && toxic.index == -1
    {
      toxic.index := -1;
    }

    /** The chain has lost a toxic, and the links have not been told yet. */
    method Withdraw(toxic: ToxicWrapper, ghost up: seq<Toxic>, ghost down: seq<Toxic>, ghost was: map<string, Snapshot>)
      requires ChainsOk() && AtRest(links, up, down, was) && Holds(chain[Number(toxic.direction)], toxic)
      modifies `chain, (set j | 1 <= j < |chain[Number(toxic.direction)]| :: chain[Number(toxic.direction)][j])`index
      ensures ChainsOk() && toxic.index == old(toxic.index) && toxic !in chain[0] && toxic !in chain[1]
      ensures var d := Number(toxic.direction);
        && chain == old(chain)[d := Without(old(chain)[d], toxic.index)]
        && Toxics(chain[d]) == Without(old(Toxics(chain[d])), toxic.index) && Toxics(chain[1 - d]) == old(Toxics(chain[1 - d]))
      ensures AtRest(links, up, down, was)
    {
      TakeFromChain(toxic);
      forall n | Named(links, n) ensures links[n].Valid() && LikeOne(links[n], was[n]) {
        assert old(links[n].Valid() && LikeOne(links[n], was[n]));
      }
    }

    /** chainRemoveToxic. */
    method ChainRemoveToxic(toxic: ToxicWrapper, schedules: string -> seq<Action>) returns (o: Outcome)
      requires Valid() && Holds(chain[Number(toxic.direction)], toxic)
      modifies `chain, (set j | 1 <= j < |chain[Number(toxic.direction)]| :: chain[Number(toxic.direction)][j])`index
      modifies links.Values, set stub: ToxicStub | stub.owner in links.Values
      ensures Settled(o) && !o.Crashed? && toxic.index == -1
      ensures o.Done? <==> AllHear(links, old(Snapshots(links)), toxic.direction, Remove(old(toxic.index)), schedules)
      ensures var d := Number(toxic.direction); chain == old(chain)[d := Without(old(chain)[d], old(toxic.index))]
    {
      ghost var up, down, was := Toxics(chain[0]), Toxics(chain[1]), Snapshots(links);
      AtRestMeans(links, up, down, was);
      o := RemoveAtRest(toxic, up, down, was, schedules);
    }

    method RemoveAtRest(toxic: ToxicWrapper, ghost up: seq<Toxic>, ghost down: seq<Toxic>, ghost was: map<string, Snapshot>,
                        schedules: string -> seq<Action>)
      returns (o: Outcome)
      requires ChainsOk() && AtRest(links, up, down, was) && Toxics(chain[0]) == up && Toxics(chain[1]) == down
      requires Holds(chain[Number(toxic.direction)], toxic)
      modifies `chain, (set j | 1 <= j < |chain[Number(toxic.direction)]| :: chain[Number(toxic.direction)][j])`index
      modifies links.Values, set stub: ToxicStub | stub.owner in links.Values
      ensures Settled(o) && !o.Crashed? && toxic.index == -1
      ensures o.Done? <==> AllHear(links, was, toxic.direction, Remove(old(toxic.index)), schedules)
      ensures var d := Number(toxic.direction); chain == old(chain)[d := Without(old(chain)[d], old(toxic.index))]
    {
      var index := toxic.index;
      Withdraw(toxic, up, down, was);
      o := AnnounceRemove(toxic.direction, index, up, down, was, schedules);
      Dismiss(toxic, o);
    }

    /** chainRemoveToxic's part for the links. */
    method AnnounceRemove(d: Direction, index: nat, ghost up: seq<Toxic>, ghost down: seq<Toxic>, ghost was: map<string, Snapshot>, schedules: string -> seq<Action>)
      returns (o: Outcome)
      requires ChainsOk() && AtRest(links, up, down, was) && 1 <= index < |if d == Upstream then up else down|
      requires Toxics(chain[0]) == if d == Upstream then Without(up, index) else up
      requires Toxics(chain[1]) == if d == Upstream then down else Without(down, index)
      modifies links.Values, set stub: ToxicStub | stub.owner in links.Values
      ensures Settled(o) && !o.Crashed? && (o.Done? <==> AllHear(links, was, d, Remove(index), schedules))
    {
      o := Announce(d, up, down, was, Remove(index), schedules);
    }

    /** Toxic i of a direction has left the chains, which were like that. */
    ghost predicate TakenOut(rows: seq<Row>, d: nat, i: nat)
      requires |rows| == 2 && d < 2 && i < |rows[d]|
      reads `chain, rows[d][i]
    {
      chain == rows[d := Without(rows[d], i)] && rows[d][i].index == -1
    }

    /** The removal of toxic i of a direction is done exactly if every link of the direction hears of it. */
    ghost predicate Answers(r: Result, was: map<string, Snapshot>, d: nat, i: nat, schedules: string -> seq<Action>)
      reads `links
    {
      r.Applied? && (r.outcome.Done? <==> AllHear(links, was, if d == 0 then Upstream else Downstream, Remove(i), schedules))
    }

    method RemoveFound(toxic: ToxicWrapper, ghost up: seq<Toxic>, ghost down: seq<Toxic>, ghost was: map<string, Snapshot>,
                       schedules: string -> seq<Action>)
      returns (r: Result)
      requires ChainsOk() && AtRest(links, up, down, was) && Toxics(chain[0]) == up && Toxics(chain[1]) == down
      requires Holds(chain[Number(toxic.direction)], toxic)
      modifies `chain, (set j | 1 <= j < |chain[Number(toxic.direction)]| :: chain[Number(toxic.direction)][j])`index
      modifies links.Values, set stub: ToxicStub | stub.owner in links.Values
      ensures r.Applied? && !r.outcome.Crashed? && Settled(r.outcome) && 1 <= old(toxic.index) < |old(chain)[Number(toxic.direction)]|
      ensures TakenOut(old(chain), Number(toxic.direction), old(toxic.index))
      ensures Answers(r, was, Number(toxic.direction), old(toxic.index), schedules)
    {
      var o := RemoveAtRest(toxic, up, down, was, schedules);
      r := Applied(o);
    }

    /** A place of the chains has a toxic with the name. */
    ghost predicate NameAt(name: string, d: nat, i: nat)
      reads `chain, Wrappers()
    {
      d < 2 && |chain| == 2 && 1 <= i < |chain[d]| && chain[d][i].name == name
    }

    lemma OnePlace(name: string)
      requires ChainsOk()
      ensures forall d, e, i, j :: NameAt(name, d, i) && NameAt(name, e, j) ==> d == e && i == j
    {
    }

    /** The search and the removal, and where the toxic was. */
    method RemoveNamed(name: string, schedules: string -> seq<Action>) returns (r: Result, ghost d: nat, ghost i: nat)
      requires Valid()
      modifies `chain, Wrappers(), links.Values, set stub: ToxicStub | stub.owner in links.Values
      ensures r.NotFound? ==> Valid() && chain == old(chain) && !old(Taken(name))
      ensures !r.NotFound? ==> r.Applied? && !r.outcome.Crashed? && Settled(r.outcome)
      ensures !r.NotFound? ==> old(NameAt(name, d, i)) && TakenOut(old(chain), d, i) && Answers(r, old(Snapshots(links)), d, i, schedules)
    {
      d, i := 0, 0;
      ghost var up, down, was := Toxics(chain[0]), Toxics(chain[1]), Snapshots(links);
      AtRestMeans(links, up, down, was);
      var toxic := FindToxicByName(name);
      forall n | Named(links, n) ensures links[n].Valid() && LikeOne(links[n], was[n]) {
        assert old(links[n].Valid() && LikeOne(links[n], was[n]));
      }
      if toxic == null {
        AtRestMeans(links, up, down, was);
        r := NotFound;
      } else {
        d, i := Number(toxic.direction), toxic.index;
        r := RemoveFound(toxic, up, down, was, schedules);
      }
    }

    /** RemoveToxic. */
    method RemoveToxic(name: string, schedules: string -> seq<Action>) returns (r: Result)
      requires Valid()
      modifies `chain, Wrappers(), links.Values, set stub: ToxicStub | stub.owner in links.Values
      ensures r.NotFound? <==> !old(Taken(name))
      ensures r.NotFound? ==> Valid() && chain == old(chain)
      ensures !r.NotFound? ==> r.Applied? && !r.outcome.Crashed? && Settled(r.outcome)
      ensures forall d, i :: 0 <= d < 2 && 1 <= i < |old(chain)[d]| && old(chain[d][i].name) == name ==>
        TakenOut(old(chain), d, i) && Answers(r, old(Snapshots(links)), d, i, schedules)
    {
      OnePlace(name);
      TakenAt(name);
      ghost var e, k;
      r, e, k := RemoveNamed(name, schedules);
    }

    lemma TakenAt(name: string)
      requires ChainsOk()
      ensures Taken(name) <==> exists d: nat, i: nat :: NameAt(name, d, i)
    {
      if d: nat, i: nat :| NameAt(name, d, i) { assert HasName(chain[d], name); }
      if Taken(name) {
        var d: nat :| d < |chain| && HasName(chain[d], name);
        var i: nat :| 1 <= i < |chain[d]| && chain[d][i].name == name;
        assert NameAt(name, d, i);
      }
    }

    /** chainUpdateToxic's part for the links. */
    method AnnounceUpdate(toxic: ToxicWrapper, ghost up: seq<Toxic>, ghost down: seq<Toxic>, ghost was: map<string, Snapshot>, schedules: string -> seq<Action>)
      returns (o: Outcome)
      requires ChainsOk() && AtRest(links, up, down, was)
      requires Holds(chain[Number(toxic.direction)], toxic)
        && toxic.index < |if toxic.direction == Upstream then up else down|
      requires (if toxic.direction == Upstream then up else down)[toxic.index].name == toxic.name
      requires (if toxic.direction == Upstream then up else down)[toxic.index].bufferSize == toxic.bufferSize
      requires Toxics(chain[0]) == if toxic.direction == Upstream then up[toxic.index := toxic.View()] else up
      requires Toxics(chain[1]) == if toxic.direction == Upstream then down else down[toxic.index := toxic.View()]
      modifies links.Values, set stub: ToxicStub | stub.owner in links.Values
      ensures Settled(o) && !o.Crashed?
      ensures o.Done? <==> AllHear(links, was, toxic.direction, Update(toxic.index, toxic.View()), schedules)
      ensures Toxics(chain[0]) == old(Toxics(chain[0])) && Toxics(chain[1]) == old(Toxics(chain[1]))
    {
      o := Announce(toxic.direction, up, down, was, Update(toxic.index, toxic.View()), schedules);
    }

    method UpdateAtRest(name: string, attributes: Kind, toxicity: real, ghost up: seq<Toxic>, ghost down: seq<Toxic>,
                        ghost was: map<string, Snapshot>)
      returns (toxic: ToxicWrapper?)
      requires ChainsOk() && AtRest(links, up, down, was)
      modifies `chain, Wrappers()
      ensures ChainsOk() && AtRest(links, up, down, was) && chain == old(chain) && (toxic == null <==> !old(Taken(name)))
      ensures toxic == null ==> Toxics(chain[0]) == old(Toxics(chain[0])) && Toxics(chain[1]) == old(Toxics(chain[1]))
      ensures toxic != null ==> var d := Number(toxic.direction);
        && Holds(chain[d], toxic) && toxic.name == old(toxic.name) == name
        && Toxics(chain[d]) == old(Toxics(chain[d]))[toxic.index := toxic.View()]
        && Toxics(chain[1 - d]) == old(Toxics(chain[1 - d]))
      ensures toxic != null ==> toxic.attributes == attributes && toxic.toxicity == toxicity
    {
      toxic := UpdateInChain(name, attributes, toxicity);
    }

    /** UpdateToxicJson, once the new attributes have been decoded. */
    method UpdateToxic(name: string, attributes: Kind, toxicity: real, schedules: string -> seq<Action>)
      returns (toxic: ToxicWrapper?, r: Result)
      requires Valid()
      modifies `chain, Wrappers(), links.Values, set stub: ToxicStub | stub.owner in links.Values
      ensures chain == old(chain) && (toxic == null <==> !old(Taken(name)))
      ensures toxic == null ==> r.NotFound? && Valid()
      ensures toxic != null ==> r.Applied? && !r.outcome.Crashed? && Settled(r.outcome)
      ensures toxic != null ==> toxic.name == name && toxic.attributes == attributes && toxic.toxicity == toxicity
      ensures toxic != null ==> var d := Number(toxic.direction);
        && Holds(chain[d], toxic)
        && Toxics(chain[d]) == old(Toxics(chain[d]))[toxic.index := toxic.View()]
        && Toxics(chain[1 - d]) == old(Toxics(chain[1 - d]))
      ensures toxic != null ==> var e := Update(toxic.index, Toxic(name, attributes, toxic.bufferSize));
        r.outcome.Done? <==> AllHear(links, old(Snapshots(links)), toxic.direction, e, schedules)
    {
      ghost var up, down, was := Toxics(chain[0]), Toxics(chain[1]), Snapshots(links);
      AtRestMeans(links, up, down, was);
      toxic := UpdateAtRest(name, attributes, toxicity, up, down, was);
      if toxic == null {
        AtRestMeans(links, up, down, was);
        r := NotFound;
      } else {
        var o := AnnounceUpdate(toxic, up, down, was, schedules);
        r := Applied(o);
      }
    }

    /** StartLink: NewToxicLink with the chain of the direction. */
    method StartLink(name: string, direction: Direction)
      requires Valid()
      modifies `links
      ensures Valid() && name in links && links == old(links)[name := links[name]]
      ensures links[name].View() == Build(Toxics(chain[Number(direction)])) && links[name].direction == direction
      ensures Carries(links[name], chain[Number(direction)])
    {
      var link := NewLink(direction);
      Register(name, link);
      BuiltCarries(link);
    }

    method NewLink(direction: Direction) returns (link: ToxicLink)
      requires Valid()
      ensures Valid() && link.Valid() && link.direction == direction && forall n :: n in links ==> links[n] != link
      ensures link.View() == Build(Toxics(chain[Number(direction)]))
    {
      var toxics := Toxics(chain[Number(direction)]);
      link := new ToxicLink(direction, toxics);
      assert Toxics(chain[Number(direction)]) == toxics;
    }

    lemma BuiltCarries(l: ToxicLink)
      requires ChainsOk() && l.View() == Build(Toxics(chain[Number(l.direction)]))
      ensures Carries(l, chain[Number(l.direction)])
    {
      var row := chain[Number(l.direction)];
      forall i | 0 <= i < |row| ensures CarriesAt(l, row, i) { assert l.View().nodes[i + 1] == l.nodes[i + 1].View(); }
    }

    method Register(name: string, link: ToxicLink)
      requires Valid() && link.Valid() && link.ctl.Idle? && link.chain == Toxics(chain[Number(link.direction)])
      requires forall n :: n in links ==> links[n] != link
      modifies `links
      ensures Valid() && links == old(links)[name := link]
    {
      ValidWith(links, name, link);
      links := links[name := link];
    }

    /** RemoveLink. */
    method RemoveLink(name: string)
      requires Valid()
      modifies `links
      ensures Valid() && links == old(links) - {name}
    {
      ValidWithout(links, name);
      links := links - {name};
    }

    /** Traffic on a link between operations. */
    method Flow(name: string, schedule: seq<Action>)
      requires Valid() && name in links
      modifies links[name], set stub: ToxicStub | stub.owner == links[name]
      ensures Valid()
    {
      FlowLink(links, name, Toxics(chain[0]), Toxics(chain[1]), schedule);
    }

    method RemoveFirst(d: nat, schedules: string -> seq<Action>) returns (o: Outcome)
      requires Valid() && d < 2 && |chain[d]| > 1
      modifies `chain, Wrappers(), links.Values, set stub: ToxicStub | stub.owner in links.Values
      ensures Settled(o) && !o.Crashed? && Wrappers() <= old(Wrappers())
      ensures |chain| == 2 && chain[1 - d] == old(chain[1 - d]) && chain[d] == Without(old(chain[d]), 1)
    {
      assert InItsPlace(chain[d], if d == 0 then Upstream else Downstream, noop, 1);
      o := ChainRemoveToxic(chain[d][1], schedules);
    }

    /** ResetToxics in one direction; schedules gives the steps of the links for each removal in turn. */
    method ResetDirection(d: nat, schedules: nat -> string -> seq<Action>, turn: nat) returns (o: Outcome, next: nat)
      requires Valid() && d < 2
      modifies `chain, Wrappers(), links.Values, set stub: ToxicStub | stub.owner in links.Values
      ensures Settled(o) && !o.Crashed? && Wrappers() <= old(Wrappers())
      ensures |chain| == 2 && chain[1 - d] == old(chain[1 - d]) && (o.Done? ==> chain[d] == [noop])
    {
      o, next := Done, turn;
      while |chain[d]| > 1
        invariant Valid() && o.Done? && |chain| == 2 && chain[1 - d] == old(chain[1 - d]) && Wrappers() <= old(Wrappers())
        decreases |chain[d]|
      {
        o := RemoveFirst(d, schedules(next));
        next := next + 1;
        if !o.Done? {
          return;
        }
      }
    }

    /** ResetToxics removes the first visible toxic of a direction until there is none. */
    method ResetToxics(schedules: nat -> string -> seq<Action>) returns (o: Outcome)
      requires Valid()
      modifies `chain, Wrappers(), links.Values, set stub: ToxicStub | stub.owner in links.Values
      ensures Settled(o) && !o.Crashed?
      ensures o.Done? ==> chain == [[noop], [noop]]
    {
      o := Done;
      var turn := 0;
      for d := 0 to 2
        invariant Valid() && o.Done? && Wrappers() <= old(Wrappers()) && |chain| == 2
        invariant (d > 0 ==> chain[0] == [noop]) && (d > 1 ==> chain[1] == [noop])
      {
        o, turn := ResetDirection(d, schedules, turn);
        if !o.Done? {
          return;
        }
      }
    }

    // ---- what a link owes to its collection -------------------------------------------------------------------------

    /** Whenever no operation is under way, a link with no closed stub is the link that NewToxicLink
        would build from the chain of its direction. */
    lemma OpenLinkIsRebuild(name: string)
      requires Valid() && name in links && NoneClosed(links[name].View())
      ensures var l := links[name]; var toxics := Toxics(chain[Number(l.direction)]);
        toxics != [] && SameLink(l.View(), Build(toxics), Renaming(l.View()))
    {
      var l := links[name];
      assert Named(links, name);
      l.RebuiltWhenIdle();
    }

    /** Whenever no operation is under way, such a link runs every toxic of its direction, the noop
        included, as it is, behind a channel of its buffer size. */
    lemma OpenLinkCarries(name: string)
      requires Valid() && name in links && NoneClosed(links[name].View())
      ensures Carries(links[name], chain[Number(links[name].direction)])
    {
      var l := links[name];
      OpenLinkIsRebuild(name);
      SameCarries(l, chain[Number(l.direction)], Renaming(l.View()));
    }

    /** Whenever no operation is under way, every toxic of the chain has a stub at its index in every
        link of its direction, closed or not. */
    lemma EveryIndexHasStub(name: string, toxic: ToxicWrapper)
      requires Valid() && name in links && toxic.direction == links[name].direction
      requires Holds(chain[Number(toxic.direction)], toxic)
      ensures toxic.index + 1 < |links[name].nodes|
    {
      var l := links[name];
      assert Named(links, name);
      IndexInRange(l.states, l.actions, |l.actions|, toxic.index);
    }

    /** After ResetToxics a link with no closed stub is one noop stub between the channels that it was
        built with. */
    lemma ResetLeavesNoop(name: string)
      requires Valid() && chain == [[noop], [noop]] && name in links && NoneClosed(links[name].View())
      ensures var l := links[name];
        && l.states != [] && |l.nodes| == 2 && l.nodes[1].toxic == noop.View() && l.nodes[1].toxic.kind == Noop
        && l.nodes[1].input == 0 && l.nodes[1].output == l.outChan == l.states[0].outChan
    {
      var l := links[name];
      assert Named(links, name);
      ResetLink(l.states, l.actions, |l.actions|);
    }
  }
}
