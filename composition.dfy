/**
 * The composition state of the builder and its transitions, as the
 * `useBuilder` hook computes them (src/hooks/useBuilder.ts). Every
 * transition is a function from the previous state record to the next;
 * the hook's class wrapper (module UseBuilder) applies them in place.
 */
module Composition {
  import opened Wrappers
  import opened Json
  import JsString
  import Assoc

  /** A placed (or catalogued) component: `id`, `name`, `type` and `props` of src/types/builder.ts. */
  datatype Component = Component(id: string, name: string, componentType: string, props: Props)

  /** A drop zone: its id, its parent zone's id (`null` for the top level) and its ordered children. */
  datatype DropZone = DropZone(id: string, parentId: Option<string>, children: seq<Component>)

  /** The hook's whole state record. */
  datatype BuilderState = BuilderState(
    components: seq<Component>,
    selectedComponent: Option<Component>,
    dropZones: seq<DropZone>)

  datatype Direction = Up | Down

  const RootZoneId: string := "root"

  /** The state the hook starts from: nothing placed, nothing selected, one empty root zone. */
  function Initial(): (s: BuilderState)
    ensures s.components == [] && s.selectedComponent == None
    ensures |s.dropZones| == 1
    ensures s.dropZones[0].id == RootZoneId && s.dropZones[0].parentId == None
    ensures s.dropZones[0].children == []
  {
    BuilderState([], None, [DropZone(RootZoneId, None, [])])
  }

  // ---------------------------------------------------------------- ids

  /** The characters `Math.random().toString(36)` produces: base-36 digits and the point. */
  predicate IsBase36Fraction(r: string)
  {
    forall i :: 0 <= i < |r| ==> ('0' <= r[i] <= '9' || 'a' <= r[i] <= 'z' || r[i] == '.')
  }

  /** The random suffix: characters 2 to 8 of the base-36 rendering (`substring(2, 8)`). */
  function RandomSuffix(random36: string): (suffix: string)
    ensures |suffix| <= 6
    ensures IsBase36Fraction(random36) ==> '-' !in suffix
  {
    var r := JsString.Substring(random36, 2, 8);
    assert |random36| >= 8 ==> r == random36[2..8];
    r
  }

  /** The id of a freshly placed instance: `<descriptor id>-<timestamp>-<random suffix>`. */
  function UniqueId(descriptorId: string, timestamp: nat, random36: string): string
  {
    descriptorId + "-" + JsString.NatToString(timestamp) + "-" + RandomSuffix(random36)
  }

  /** The last position of `c` in `s`, if any (`lastIndexOf`). */
  function LastIndexOf(s: string, c: char): (r: Option<nat>)
    ensures r.Some? ==> r.value < |s| && s[r.value] == c && c !in s[r.value + 1..]
    ensures r.None? ==> c !in s
  {
    if s == [] then None
    else if s[|s| - 1] == c then Some(|s| - 1)
    else
      var r := LastIndexOf(s[..|s| - 1], c);
      assert s == s[..|s| - 1] + [s[|s| - 1]];
      r
  }

  /**
   * Reads an instance id back into its descriptor id, timestamp and suffix,
   * splitting at the last two dashes.
   */
  function ParseId(id: string): Option<(string, nat, string)>
  {
    match LastIndexOf(id, '-')
    case None => None
    case Some(j) =>
      var head, suffix := id[..j], id[j + 1..];
      match LastIndexOf(head, '-')
      case None => None
      case Some(i) =>
        var digits := head[i + 1..];
        if digits != [] && JsString.AllDigits(digits)
        then Some((head[..i], JsString.DigitsValue(digits), suffix))
        else None
  }

  /** The last dash of `a + "-" + b` is the one in the middle when `b` has none. */
  lemma {:induction false} LastDash(a: string, b: string)
    requires '-' !in b
    ensures LastIndexOf(a + "-" + b, '-') == Some(|a|)
    decreases |b|
  {
    var s := a + "-" + b;
    if b != [] {
      var b' := b[..|b| - 1];
      assert s[..|s| - 1] == a + "-" + b';
      assert s[|s| - 1] == b[|b| - 1];
      LastDash(a, b');
    }
  }

  /**
   * The id of a placed instance is decodable: the descriptor id, the
   * timestamp and the random suffix can all be read back from it.
   */
  lemma UniqueIdRoundTrip(descriptorId: string, timestamp: nat, random36: string)
    requires IsBase36Fraction(random36)
    ensures ParseId(UniqueId(descriptorId, timestamp, random36))
         == Some((descriptorId, timestamp, RandomSuffix(random36)))
  {
    var ts := JsString.NatToString(timestamp);
    var suffix := RandomSuffix(random36);
    var head := descriptorId + "-" + ts;
    var id := UniqueId(descriptorId, timestamp, random36);
    assert id == head + "-" + suffix;
    LastDash(head, suffix);
    assert id[..|head|] == head && id[|head| + 1..] == suffix;
    LastDash(descriptorId, ts);
    assert head[..|descriptorId|] == descriptorId && head[|descriptorId| + 1..] == ts;
    JsString.DigitsRoundTrip(timestamp);
  }

  /** Two placements with different timestamps never produce the same id. */
  lemma DistinctTimestampsDistinctIds(d1: string, t1: nat, r1: string, d2: string, t2: nat, r2: string)
    requires IsBase36Fraction(r1) && IsBase36Fraction(r2)
    requires UniqueId(d1, t1, r1) == UniqueId(d2, t2, r2)
    ensures t1 == t2 && d1 == d2 && RandomSuffix(r1) == RandomSuffix(r2)
  {
    UniqueIdRoundTrip(d1, t1, r1);
    UniqueIdRoundTrip(d2, t2, r2);
  }

  // ---------------------------------------------------------------- lookups

  /** The ids of a list of components, in order. */
  function Ids(cs: seq<Component>): (ids: seq<string>)
    ensures |ids| == |cs| && forall i :: 0 <= i < |cs| ==> ids[i] == cs[i].id
  {
    seq(|cs|, i requires 0 <= i < |cs| => cs[i].id)
  }

  /** `zones.find(zone => zone.id === zoneId)`. */
  function FindZone(zones: seq<DropZone>, zoneId: string): (r: Option<DropZone>)
    ensures r.Some? ==> r.value in zones && r.value.id == zoneId
    ensures r.None? <==> forall z :: z in zones ==> z.id != zoneId
  {
    if zones == [] then None
    else if zones[0].id == zoneId then Some(zones[0])
    else FindZone(zones[1..], zoneId)
  }

  /** `children.findIndex(comp => comp.id === id)`: the first position holding that id. */
  function IndexOfId(cs: seq<Component>, id: string): (r: Option<nat>)
    ensures r.Some? ==> (r.value < |cs| && cs[r.value].id == id
                         && forall k :: 0 <= k < r.value ==> cs[k].id != id)
    ensures r.None? <==> id !in Ids(cs)
  {
    if cs == [] then None
    else if cs[0].id == id then Some(0)
    else match IndexOfId(cs[1..], id)
      case None => None
      case Some(k) => Some(k + 1)
  }

  /** The children of the first root zone, or nothing when there is no root zone. */
  function RootChildren(s: BuilderState): seq<Component>
  {
    match FindZone(s.dropZones, RootZoneId)
    case None => []
    case Some(z) => z.children
  }

  /** All placed instances, zone after zone (`dropZones.flatMap(zone => zone.children)`). */
  function AllChildren(zones: seq<DropZone>): (r: seq<Component>)
    ensures forall c :: c in r <==> exists z :: z in zones && c in z.children
  {
    if zones == [] then []
    else
      var rest := AllChildren(zones[1..]);
      assert forall z :: z in zones <==> z == zones[0] || z in zones[1..];
      zones[0].children + rest
  }

  /** The id and parent of every zone, in order: what no transition of the hook changes. */
  function Skeleton(zones: seq<DropZone>): seq<(string, Option<string>)>
  {
    seq(|zones|, i requires 0 <= i < |zones| => (zones[i].id, zones[i].parentId))
  }

  /** The shape the hook creates and keeps: exactly one zone, the root, with no parent. */
  ghost predicate Valid(s: BuilderState)
  {
    Skeleton(s.dropZones) == [(RootZoneId, None)]
  }

  // ---------------------------------------------------------------- addComponent

  /** The instance that `addComponent` places for a descriptor. */
  function Placed(descriptor: Component, timestamp: nat, random36: string): (c: Component)
    ensures c.name == descriptor.name && c.componentType == descriptor.componentType
    ensures c.props == descriptor.props
    ensures c.id == descriptor.id + "-" + JsString.NatToString(timestamp) + "-" + RandomSuffix(random36)
  {
    descriptor.(id := UniqueId(descriptor.id, timestamp, random36))
  }

  /** Appends `c` to the children of every zone whose id is `zoneId`. */
  function AppendToZone(zones: seq<DropZone>, zoneId: string, c: Component): (r: seq<DropZone>)
    ensures |r| == |zones| && Skeleton(r) == Skeleton(zones)
    ensures forall i :: 0 <= i < |zones| && zones[i].id == zoneId ==> r[i].children == zones[i].children + [c]
    ensures forall i :: 0 <= i < |zones| && zones[i].id != zoneId ==> r[i] == zones[i]
  {
    seq(|zones|, i requires 0 <= i < |zones| =>
      if zones[i].id == zoneId then zones[i].(children := zones[i].children + [c]) else zones[i])
  }

  /**
   * `addComponent(descriptor, zoneId)`: the placed instance goes to the end of
   * the matching zone and, whether or not a zone matched, to the end of the
   * flat list.
   */
  function AddComponent(s: BuilderState, descriptor: Component, zoneId: string,
                        timestamp: nat, random36: string): (r: BuilderState)
    ensures r.components == s.components + [Placed(descriptor, timestamp, random36)]
    ensures r.selectedComponent == s.selectedComponent
    ensures r.dropZones == AppendToZone(s.dropZones, zoneId, Placed(descriptor, timestamp, random36))
  {
    var c := Placed(descriptor, timestamp, random36);
    s.(components := s.components + [c], dropZones := AppendToZone(s.dropZones, zoneId, c))
  }

  // ---------------------------------------------------------------- removeComponent

  /** `cs.filter(c => c.id !== id)`. */
  function Without(cs: seq<Component>, id: string): (r: seq<Component>)
    ensures forall c :: c in r <==> c in cs && c.id != id
    ensures |r| <= |cs|
    ensures id !in Ids(cs) ==> r == cs
  {
    if cs == [] then []
    else if cs[0].id == id then Without(cs[1..], id)
    else [cs[0]] + Without(cs[1..], id)
  }

  /** Filtering distributes over concatenation: the survivors keep their relative order. */
  lemma {:induction false} WithoutAppend(a: seq<Component>, b: seq<Component>, id: string)
    ensures Without(a + b, id) == Without(a, id) + Without(b, id)
  {
    if a != [] {
      assert (a + b)[1..] == a[1..] + b;
      WithoutAppend(a[1..], b, id);
    } else {
      assert a + b == b;
    }
  }

  /** Removes `id` from the children of every zone. */
  function RemoveFromZones(zones: seq<DropZone>, id: string): (r: seq<DropZone>)
    ensures |r| == |zones| && Skeleton(r) == Skeleton(zones)
    ensures forall i :: 0 <= i < |zones| ==> r[i].children == Without(zones[i].children, id)
  {
    seq(|zones|, i requires 0 <= i < |zones| => zones[i].(children := Without(zones[i].children, id)))
  }

  /** `selectedComponent?.id === id ? null : selectedComponent`. */
  function ClearIfSelected(sel: Option<Component>, id: string): (r: Option<Component>)
    ensures r == None <==> sel == None || sel.value.id == id
    ensures r != None ==> r == sel
  {
    if sel.Some? && sel.value.id == id then None else sel
  }

  /** `removeComponent(id)`: drops every instance with that id everywhere, and the selection if it is that id. */
  function RemoveComponent(s: BuilderState, id: string): (r: BuilderState)
    ensures r.components == Without(s.components, id)
    ensures r.dropZones == RemoveFromZones(s.dropZones, id)
    ensures r.selectedComponent == ClearIfSelected(s.selectedComponent, id)
  {
    BuilderState(Without(s.components, id), ClearIfSelected(s.selectedComponent, id),
                 RemoveFromZones(s.dropZones, id))
  }

  /** Nothing with the removed id is left anywhere: not in the flat list, a zone or the selection. */
  lemma RemoveLeavesNoTrace(s: BuilderState, id: string)
    ensures id !in Ids(RemoveComponent(s, id).components)
    ensures forall c :: c in AllChildren(RemoveComponent(s, id).dropZones) ==> c.id != id
    ensures RemoveComponent(s, id).selectedComponent.Some? ==>
              RemoveComponent(s, id).selectedComponent.value.id != id
  {
    var r := RemoveComponent(s, id);
    forall c | c in AllChildren(r.dropZones) ensures c.id != id {
      var z :| z in r.dropZones && c in z.children;
      var i :| 0 <= i < |r.dropZones| && r.dropZones[i] == z;
    }
  }

  /** Removing twice is removing once. */
  lemma RemoveIdempotent(s: BuilderState, id: string)
    ensures RemoveComponent(RemoveComponent(s, id), id) == RemoveComponent(s, id)
  {
    var r := RemoveComponent(s, id);
    RemoveLeavesNoTrace(s, id);
    var zs := RemoveFromZones(r.dropZones, id);
    forall i | 0 <= i < |zs| ensures zs[i] == r.dropZones[i] {
      assert id !in Ids(r.dropZones[i].children);
    }
  }

  /** Removing a freshly appended id takes the list back to what it was. */
  lemma WithoutFreshAppend(cs: seq<Component>, c: Component)
    requires c.id !in Ids(cs)
    ensures Without(cs + [c], c.id) == cs
  {
    WithoutAppend(cs, [c], c.id);
  }

  /** An id held by no zone is held by none of the zones' children lists. */
  lemma NotInAnyZone(zones: seq<DropZone>, id: string)
    requires id !in Ids(AllChildren(zones))
    ensures forall i :: 0 <= i < |zones| ==> id !in Ids(zones[i].children)
  {
  }

  /** Placing an instance and then removing it by its id restores the state, when that id was new. */
  lemma RemoveUndoesAdd(s: BuilderState, descriptor: Component, zoneId: string,
                        timestamp: nat, random36: string)
    requires UniqueId(descriptor.id, timestamp, random36) !in Ids(s.components)
    requires UniqueId(descriptor.id, timestamp, random36) !in Ids(AllChildren(s.dropZones))
    requires s.selectedComponent.Some? ==>
               s.selectedComponent.value.id != UniqueId(descriptor.id, timestamp, random36)
    ensures RemoveComponent(AddComponent(s, descriptor, zoneId, timestamp, random36),
                            UniqueId(descriptor.id, timestamp, random36)) == s
  {
    var c := Placed(descriptor, timestamp, random36);
    var a := AddComponent(s, descriptor, zoneId, timestamp, random36);
    WithoutFreshAppend(s.components, c);
    NotInAnyZone(s.dropZones, c.id);
    var zs := RemoveFromZones(a.dropZones, c.id);
    forall i | 0 <= i < |zs| ensures zs[i] == s.dropZones[i] {
      if s.dropZones[i].id == zoneId {
        WithoutFreshAppend(s.dropZones[i].children, c);
      }
    }
  }

  // ---------------------------------------------------------------- selectComponent

  /** `selectComponent(c)`: replaces the selection (no existence check) and nothing else. */
  function SelectComponent(s: BuilderState, c: Option<Component>): (r: BuilderState)
    ensures r.selectedComponent == c
    ensures r.components == s.components && r.dropZones == s.dropZones
  {
    s.(selectedComponent := c)
  }

  // ---------------------------------------------------------------- moving

  /**
   * The array-splice move `splice(from, 1)` followed by `splice(to, 0, moved)`,
   * for positions inside the list.
   */
  function SpliceMove(xs: seq<Component>, from: nat, to: nat): (r: seq<Component>)
    requires from < |xs| && to < |xs|
    ensures |r| == |xs| && r[to] == xs[from]
    ensures r[..to] + r[to + 1..] == xs[..from] + xs[from + 1..]
  {
    var rest := xs[..from] + xs[from + 1..];
    var r := rest[..to] + [xs[from]] + rest[to..];
    assert r[..to] == rest[..to] && r[to + 1..] == rest[to..];
    r
  }

  /** A splice move only rearranges: the result is a permutation of the list. */
  lemma SpliceMovePermutes(xs: seq<Component>, from: nat, to: nat)
    requires from < |xs| && to < |xs|
    ensures multiset(SpliceMove(xs, from, to)) == multiset(xs)
  {
    var rest := xs[..from] + xs[from + 1..];
    assert xs == xs[..from] + [xs[from]] + xs[from + 1..];
    assert rest == rest[..to] + rest[to..];
    assert multiset(xs) == multiset(rest) + multiset{xs[from]};
    assert multiset(rest[..to] + [xs[from]] + rest[to..])
        == multiset(rest[..to]) + multiset{xs[from]} + multiset(rest[to..]);
  }

  /** Moving an element one place towards the front swaps it with its predecessor. */
  lemma SpliceMoveUp(xs: seq<Component>, i: nat)
    requires 0 < i < |xs|
    ensures SpliceMove(xs, i, i - 1) == xs[..i - 1] + [xs[i], xs[i - 1]] + xs[i + 1..]
  {
  }

  /** Moving an element one place towards the back swaps it with its successor. */
  lemma SpliceMoveDown(xs: seq<Component>, i: nat)
    requires i + 1 < |xs|
    ensures SpliceMove(xs, i, i + 1) == xs[..i] + [xs[i + 1], xs[i]] + xs[i + 2..]
  {
    var rest := xs[..i] + xs[i + 1..];
    assert rest[..i + 1] == xs[..i] + [xs[i + 1]];
    assert rest[i + 1..] == xs[i + 2..];
  }

  /** Replaces the children of every root zone. */
  function ReplaceRootChildren(zones: seq<DropZone>, children: seq<Component>): (r: seq<DropZone>)
    ensures |r| == |zones| && Skeleton(r) == Skeleton(zones)
    ensures forall i :: 0 <= i < |zones| ==>
              r[i] == if zones[i].id == RootZoneId then zones[i].(children := children) else zones[i]
  {
    seq(|zones|, i requires 0 <= i < |zones| =>
      if zones[i].id == RootZoneId then zones[i].(children := children) else zones[i])
  }

  /** The position a move in `dir` aims for, when it stays inside a list of length `n`. */
  function Target(index: nat, dir: Direction, n: nat): (r: Option<nat>)
    requires index < n
    ensures r.Some? ==> r.value < n
    ensures r.None? <==> (dir == Up && index == 0) || (dir == Down && index + 1 >= n)
  {
    match dir
    case Up => if index == 0 then None else Some(index - 1)
    case Down => if index + 1 >= n then None else Some(index + 1)
  }

  /**
   * The root's children after moving the first instance with `id` one place
   * in `dir`, or `None` when there is no such instance or it is already at
   * that end of the list.
   */
  function MovedChildren(xs: seq<Component>, id: string, dir: Direction): (r: Option<seq<Component>>)
    ensures id !in Ids(xs) ==> r.None?
  {
    match IndexOfId(xs, id)
    case None => None
    case Some(index) =>
      match Target(index, dir, |xs|)
      case None => None
      case Some(newIndex) => Some(SpliceMove(xs, index, newIndex))
  }

  /**
   * `moveComponent(id, dir)`: only the root zone is searched. Without a root,
   * without that id among its children, or when the move would leave the
   * list, the state is returned as it is; otherwise the first instance with
   * that id trades places with its neighbour, and the flat list is replaced by
   * the root's new children.
   */
  function MoveComponent(s: BuilderState, id: string, dir: Direction): (r: BuilderState)
    ensures FindZone(s.dropZones, RootZoneId).None? ==> r == s
    ensures id !in Ids(RootChildren(s)) ==> r == s
    ensures r.selectedComponent == s.selectedComponent
    ensures Skeleton(r.dropZones) == Skeleton(s.dropZones)
  {
    match FindZone(s.dropZones, RootZoneId)
    case None => s
    case Some(root) =>
      match MovedChildren(root.children, id, dir)
      case None => s
      case Some(updated) =>
        s.(components := updated, dropZones := ReplaceRootChildren(s.dropZones, updated))
  }

  /** A valid state has a single zone and it is the root. */
  lemma ValidRoot(s: BuilderState)
    requires Valid(s)
    ensures |s.dropZones| == 1 && s.dropZones[0].id == RootZoneId && s.dropZones[0].parentId == None
    ensures FindZone(s.dropZones, RootZoneId) == Some(s.dropZones[0])
    ensures RootChildren(s) == s.dropZones[0].children
  {
    assert Skeleton(s.dropZones)[0] == (RootZoneId, None);
  }

  /** In a valid state a move is the list-level move applied to the root zone and the flat list. */
  lemma MoveInValid(s: BuilderState, id: string, dir: Direction)
    requires Valid(s)
    ensures MovedChildren(RootChildren(s), id, dir).None? ==> MoveComponent(s, id, dir) == s
    ensures MovedChildren(RootChildren(s), id, dir).Some? ==>
              var ys := MovedChildren(RootChildren(s), id, dir).value;
              MoveComponent(s, id, dir) == s.(components := ys, dropZones := [s.dropZones[0].(children := ys)])
  {
    ValidRoot(s);
  }

  /** A move never loses or duplicates a component: the root's children are permuted. */
  lemma MovePermutes(s: BuilderState, id: string, dir: Direction)
    requires Valid(s)
    ensures multiset(RootChildren(MoveComponent(s, id, dir))) == multiset(RootChildren(s))
    ensures MoveComponent(s, id, dir) != s ==> MoveComponent(s, id, dir).components == RootChildren(MoveComponent(s, id, dir))
  {
    var xs := RootChildren(s);
    MoveInValid(s, id, dir);
    ValidRoot(MoveComponent(s, id, dir));
    match IndexOfId(xs, id)
    case None =>
    case Some(index) =>
      match Target(index, dir, |xs|)
      case None =>
      case Some(t) => SpliceMovePermutes(xs, index, t);
  }

  /** The first child cannot move up, the last cannot move down: both calls change nothing. */
  lemma MoveAtEdgeIsNoOp(s: BuilderState, id: string)
    requires RootChildren(s) != []
    ensures RootChildren(s)[0].id == id ==> MoveComponent(s, id, Up) == s
    ensures (RootChildren(s)[|RootChildren(s)| - 1].id == id
             && forall k :: 0 <= k < |RootChildren(s)| - 1 ==> RootChildren(s)[k].id != id)
            ==> MoveComponent(s, id, Down) == s
  {
  }

  /** Moving the first instance at `i` up swaps it with its predecessor. */
  lemma MovedUp(xs: seq<Component>, i: nat)
    requires 0 < i < |xs|
    requires forall k :: 0 <= k < i ==> xs[k].id != xs[i].id
    ensures MovedChildren(xs, xs[i].id, Up) == Some(xs[..i - 1] + [xs[i], xs[i - 1]] + xs[i + 1..])
  {
    assert IndexOfId(xs, xs[i].id) == Some(i);
    SpliceMoveUp(xs, i);
  }

  /** Moving the first instance at `i` down swaps it with its successor. */
  lemma MovedDown(xs: seq<Component>, i: nat)
    requires i + 1 < |xs|
    requires forall k :: 0 <= k < i ==> xs[k].id != xs[i].id
    ensures MovedChildren(xs, xs[i].id, Down) == Some(xs[..i] + [xs[i + 1], xs[i]] + xs[i + 2..])
  {
    assert IndexOfId(xs, xs[i].id) == Some(i);
    SpliceMoveDown(xs, i);
  }

  /**
   * With a valid state, moving the item at index `i` up swaps it with its
   * predecessor in both the root zone and the flat list.
   */
  lemma MoveUpSwaps(s: BuilderState, i: nat)
    requires Valid(s)
    requires 0 < i < |RootChildren(s)|
    requires forall k :: 0 <= k < i ==> RootChildren(s)[k].id != RootChildren(s)[i].id
    ensures var xs := RootChildren(s);
      MoveComponent(s, xs[i].id, Up).components == xs[..i - 1] + [xs[i], xs[i - 1]] + xs[i + 1..]
    ensures var xs := RootChildren(s);
      RootChildren(MoveComponent(s, xs[i].id, Up)) == xs[..i - 1] + [xs[i], xs[i - 1]] + xs[i + 1..]
  {
    var xs := RootChildren(s);
    MovedUp(xs, i);
    MoveInValid(s, xs[i].id, Up);
    ValidRoot(MoveComponent(s, xs[i].id, Up));
  }

  /**
   * Moving the `i`-th item down and moving the `i+1`-th item up give the
   * same state: neighbours trade places either way.
   */
  lemma MoveDownMatchesUp(s: BuilderState, i: nat)
    requires Valid(s)
    requires i + 1 < |RootChildren(s)|
    requires forall k :: 0 <= k < i + 1 ==> RootChildren(s)[k].id != RootChildren(s)[i + 1].id
    requires forall k :: 0 <= k < i ==> RootChildren(s)[k].id != RootChildren(s)[i].id
    ensures var xs := RootChildren(s);
      MoveComponent(s, xs[i].id, Down) == MoveComponent(s, xs[i + 1].id, Up)
  {
    var xs := RootChildren(s);
    MovedDown(xs, i);
    MovedUp(xs, i + 1);
    assert xs[..i] + [xs[i + 1], xs[i]] + xs[i + 2..] == xs[..i + 1 - 1] + [xs[i + 1], xs[i + 1 - 1]] + xs[i + 1 + 1..];
    MoveInValid(s, xs[i].id, Down);
    MoveInValid(s, xs[i + 1].id, Up);
  }

  /** At list level: an item moved up is put back by moving it down. */
  lemma MovedUpThenDown(xs: seq<Component>, i: nat)
    requires 0 < i < |xs|
    requires forall k :: 0 <= k < |xs| && k != i ==> xs[k].id != xs[i].id
    ensures var ys := xs[..i - 1] + [xs[i], xs[i - 1]] + xs[i + 1..];
      MovedChildren(ys, xs[i].id, Down) == Some(xs)
  {
    var ys := xs[..i - 1] + [xs[i], xs[i - 1]] + xs[i + 1..];
    SwapTwice(xs, i);
    assert forall k :: 0 <= k < i - 1 ==> ys[k].id != ys[i - 1].id;
    MovedDown(ys, i - 1);
  }

  /** Trading the neighbours at `i - 1` and `i` twice gives the list back. */
  lemma SwapTwice(xs: seq<Component>, i: nat)
    requires 0 < i < |xs|
    ensures var ys := xs[..i - 1] + [xs[i], xs[i - 1]] + xs[i + 1..];
      |ys| == |xs| && ys[i - 1] == xs[i] && (forall k :: 0 <= k < i - 1 ==> ys[k] == xs[k])
      && ys[..i - 1] + [ys[i], ys[i - 1]] + ys[i + 1..] == xs
  {
    var ys := xs[..i - 1] + [xs[i], xs[i - 1]] + xs[i + 1..];
    var zs := ys[..i - 1] + [ys[i], ys[i - 1]] + ys[i + 1..];
    assert |ys| == |xs|;
    assert forall k :: 0 <= k < |xs| ==> ys[k] == if k == i - 1 then xs[i] else if k == i then xs[i - 1] else xs[k];
    assert forall k :: 0 <= k < |xs| ==> zs[k] == if k == i - 1 then ys[i] else if k == i then ys[i - 1] else ys[k];
  }

  /** Moving an item up and then down again restores the root's order and makes the flat list match it. */
  lemma MoveUpThenDown(s: BuilderState, i: nat)
    requires Valid(s)
    requires 0 < i < |RootChildren(s)|
    requires forall k :: 0 <= k < |RootChildren(s)| && k != i ==> RootChildren(s)[k].id != RootChildren(s)[i].id
    ensures var xs := RootChildren(s);
      var back := MoveComponent(MoveComponent(s, xs[i].id, Up), xs[i].id, Down);
      RootChildren(back) == xs && back.components == xs
  {
    var xs := RootChildren(s);
    var id := xs[i].id;
    MovedUp(xs, i);
    MoveInValid(s, id, Up);
    var m := MoveComponent(s, id, Up);
    ValidRoot(m);
    MovedUpThenDown(xs, i);
    MoveInValid(m, id, Down);
    ValidRoot(MoveComponent(m, id, Down));
  }

  /**
   * JavaScript's normalisation of a splice start index: a negative index
   * counts from the end, and both ends are clamped into `[0, len]`.
   */
  function SpliceStart(index: int, len: nat): (r: nat)
    ensures r <= len
    ensures 0 <= index <= len ==> r == index
    ensures -(len as int) <= index < 0 ==> r == len + index
  {
    if index < 0 then (if len + index < 0 then 0 else len + index)
    else if index > len then len else index
  }

  /**
   * `reorderComponents(from, to)`: takes the root child at `from` (negative
   * indices count from the end) and inserts it at `to` of the shortened list;
   * the root's new children also replace the flat list.
   */
  function ReorderComponents(s: BuilderState, fromIndex: int, toIndex: int): (r: BuilderState)
    requires FindZone(s.dropZones, RootZoneId).Some? ==> -|RootChildren(s)| <= fromIndex < |RootChildren(s)|
    ensures FindZone(s.dropZones, RootZoneId).None? ==> r == s
    ensures FindZone(s.dropZones, RootZoneId).Some? ==>
              multiset(r.components) == multiset(RootChildren(s)) && r.components == RootChildren(r)
    ensures FindZone(s.dropZones, RootZoneId).Some? ==>
              r.components == SpliceMove(RootChildren(s), SpliceStart(fromIndex, |RootChildren(s)|),
                                         SpliceStart(toIndex, |RootChildren(s)| - 1))
    ensures r.selectedComponent == s.selectedComponent
  {
    match FindZone(s.dropZones, RootZoneId)
    case None => s
    case Some(root) =>
      var xs := root.children;
      assert xs == RootChildren(s);
      var from := SpliceStart(fromIndex, |xs|);
      var to := SpliceStart(toIndex, |xs| - 1);
      var updated := SpliceMove(xs, from, to);
      SpliceMovePermutes(xs, from, to);
      var r := s.(components := updated, dropZones := ReplaceRootChildren(s.dropZones, updated));
      assert FindZone(r.dropZones, RootZoneId).Some? by {
        var k :| 0 <= k < |s.dropZones| && s.dropZones[k] == root;
        assert r.dropZones[k].id == RootZoneId;
      }
      FirstRootReplaced(s.dropZones, updated);
      r
  }

  /** After replacing the root children, the first root zone holds the new children. */
  lemma {:induction false} FirstRootReplaced(zones: seq<DropZone>, children: seq<Component>)
    requires FindZone(zones, RootZoneId).Some?
    ensures FindZone(ReplaceRootChildren(zones, children), RootZoneId).Some?
    ensures FindZone(ReplaceRootChildren(zones, children), RootZoneId).value.children == children
  {
    var r := ReplaceRootChildren(zones, children);
    if zones[0].id != RootZoneId {
      assert ReplaceRootChildren(zones[1..], children) == r[1..];
      FirstRootReplaced(zones[1..], children);
    }
  }

  // ---------------------------------------------------------------- updateComponent

  /** Shallow-merges `patch` into the props of every instance with that id. */
  function UpdateChildren(cs: seq<Component>, id: string, patch: Props): (r: seq<Component>)
    ensures |r| == |cs| && Ids(r) == Ids(cs)
    ensures forall i :: 0 <= i < |cs| ==>
              r[i] == if cs[i].id == id then cs[i].(props := Assoc.Merge(cs[i].props, patch)) else cs[i]
  {
    seq(|cs|, i requires 0 <= i < |cs| =>
      if cs[i].id == id then cs[i].(props := Assoc.Merge(cs[i].props, patch)) else cs[i])
  }

  /**
   * `updateComponent(id, patch)`: every matching instance in every zone gets
   * `{...props, ...patch}`; the flat list and the selection are left as they are.
   */
  function UpdateComponent(s: BuilderState, id: string, patch: Props): (r: BuilderState)
    ensures r.components == s.components && r.selectedComponent == s.selectedComponent
    ensures |r.dropZones| == |s.dropZones| && Skeleton(r.dropZones) == Skeleton(s.dropZones)
    ensures forall i :: 0 <= i < |s.dropZones| ==>
              r.dropZones[i].children == UpdateChildren(s.dropZones[i].children, id, patch)
  {
    s.(dropZones := seq(|s.dropZones|, i requires 0 <= i < |s.dropZones| =>
         s.dropZones[i].(children := UpdateChildren(s.dropZones[i].children, id, patch))))
  }

  /** Patch keys win, other keys persist, and instances with other ids keep their props. */
  lemma UpdateMergesProps(s: BuilderState, id: string, patch: Props, zone: nat, k: nat, key: string)
    requires Assoc.UniqueKeys(patch)
    requires zone < |s.dropZones| && k < |s.dropZones[zone].children|
    ensures var before := s.dropZones[zone].children[k];
      var after := UpdateComponent(s, id, patch).dropZones[zone].children[k];
      after.id == before.id && after.name == before.name && after.componentType == before.componentType
      && Assoc.Get(after.props, key) ==
           if before.id == id && key in Assoc.Keys(patch) then Assoc.Get(patch, key)
           else Assoc.Get(before.props, key)
  {
    var before := s.dropZones[zone].children[k];
    if before.id == id {
      Assoc.MergeGet(before.props, patch, key);
    }
  }

  /** Updating an id that no zone holds changes nothing. */
  lemma UpdateUnknownIsNoOp(s: BuilderState, id: string, patch: Props)
    requires id !in Ids(AllChildren(s.dropZones))
    ensures UpdateComponent(s, id, patch) == s
  {
    var r := UpdateComponent(s, id, patch);
    NotInAnyZone(s.dropZones, id);
    forall i | 0 <= i < |s.dropZones| ensures r.dropZones[i] == s.dropZones[i] {
      assert r.dropZones[i].children == s.dropZones[i].children;
    }
  }

  // ---------------------------------------------------------------- invariants

  /** Every transition keeps the single root zone. */
  lemma TransitionsKeepValid(s: BuilderState, d: Component, zoneId: string, ts: nat, r36: string,
                             id: string, dir: Direction, patch: Props, c: Option<Component>)
    requires Valid(s)
    ensures Valid(AddComponent(s, d, zoneId, ts, r36))
    ensures Valid(RemoveComponent(s, id))
    ensures Valid(SelectComponent(s, c))
    ensures Valid(MoveComponent(s, id, dir))
    ensures Valid(UpdateComponent(s, id, patch))
  {
  }

  /** Reordering keeps the single root zone. */
  lemma ReorderKeepsValid(s: BuilderState, fromIndex: int, toIndex: int)
    requires Valid(s)
    requires FindZone(s.dropZones, RootZoneId).Some? ==> -|RootChildren(s)| <= fromIndex < |RootChildren(s)|
    ensures Valid(ReorderComponents(s, fromIndex, toIndex))
  {
    ValidRoot(s);
  }

  /** The flat list and the root zone hold the same ids in the same order. */
  ghost predicate Synced(s: BuilderState)
  {
    Valid(s) && Ids(s.components) == Ids(RootChildren(s))
  }

  /** Filtering by id acts on the ids alone. */
  lemma {:induction false} IdsWithout(a: seq<Component>, b: seq<Component>, id: string)
    requires Ids(a) == Ids(b)
    ensures Ids(Without(a, id)) == Ids(Without(b, id))
  {
    if a != [] {
      var ta, tb := a[1..], b[1..];
      assert Ids(ta) == Ids(tb) by {
        assert forall i :: 0 <= i < |ta| ==> Ids(ta)[i] == Ids(a)[i + 1] && Ids(tb)[i] == Ids(b)[i + 1];
      }
      IdsWithout(ta, tb, id);
      assert a[0].id == Ids(a)[0] == Ids(b)[0] == b[0].id;
      if a[0].id != id {
        IdsCons(a[0], Without(ta, id));
        IdsCons(b[0], Without(tb, id));
      }
    }
  }

  lemma IdsCons(c: Component, cs: seq<Component>)
    ensures Ids([c] + cs) == [c.id] + Ids(cs)
  {
  }

  /**
   * The flat list stays in step with the root zone under every transition
   * except placement into a zone other than the root.
   */
  lemma SyncedPreserved(s: BuilderState, d: Component, ts: nat, r36: string,
                        id: string, dir: Direction, patch: Props, c: Option<Component>)
    requires Synced(s)
    ensures Synced(AddComponent(s, d, RootZoneId, ts, r36))
    ensures Synced(RemoveComponent(s, id))
    ensures Synced(SelectComponent(s, c))
    ensures Synced(MoveComponent(s, id, dir))
    ensures Synced(UpdateComponent(s, id, patch))
  {
    ValidRoot(s);
    var a := AddComponent(s, d, RootZoneId, ts, r36);
    ValidRoot(a);
    assert Ids(a.components) == Ids(s.components) + [Placed(d, ts, r36).id];
    assert Ids(RootChildren(a)) == Ids(RootChildren(s)) + [Placed(d, ts, r36).id];
    var rm := RemoveComponent(s, id);
    ValidRoot(rm);
    IdsWithout(s.components, RootChildren(s), id);
    var m := MoveComponent(s, id, dir);
    ValidRoot(m);
    var u := UpdateComponent(s, id, patch);
    ValidRoot(u);
  }

  /** Placing into a zone that does not exist puts the flat list out of step with the root. */
  lemma AddToMissingZoneDesyncs(d: Component)
    ensures var s := AddComponent(Initial(), d, "main", 1, "0.abcdef");
      |s.components| == 1 && RootChildren(s) == []
  {
  }

  // ---------------------------------------------------------------- scenarios

  /** One button placed, moved down (nothing happens), then removed: everything is empty again. */
  lemma ScenarioSingleButton()
    ensures var button := Component("button-1", "Button", "Button", [("text", Str("Hi"))]);
      var s1 := AddComponent(Initial(), button, RootZoneId, 42, "0.k3j9x2qz");
      var id := s1.components[0].id;
      |s1.components| == 1
      && id == "button-1-42-k3j9x2"
      && MoveComponent(s1, id, Down) == s1
      && RemoveComponent(s1, id).components == []
      && RootChildren(RemoveComponent(s1, id)) == []
  {
    var button := Component("button-1", "Button", "Button", [("text", Str("Hi"))]);
    var id := UniqueId("button-1", 42, "0.k3j9x2qz");
    assert id == "button-1-42-k3j9x2" by {
      assert JsString.NatToString(42) == "42";
      assert RandomSuffix("0.k3j9x2qz") == "k3j9x2";
    }
    var c := button.(id := id);
    var s1 := AddComponent(Initial(), button, RootZoneId, 42, "0.k3j9x2qz");
    assert s1 == BuilderState([c], None, [DropZone(RootZoneId, None, [c])]);
    ValidRoot(s1);
    MoveAtEdgeIsNoOp(s1, id);
    var s2 := RemoveComponent(s1, id);
    assert s2.components == [] && s2.dropZones[0].children == [];
    ValidRoot(s2);
  }

  /** Three components A, B, C: C moves up to give A, C, B; A cannot move up. */
  lemma ScenarioThree(a: Component, b: Component, c: Component)
    requires a.id != b.id && b.id != c.id && a.id != c.id
    ensures var s := BuilderState([a, b, c], None, [DropZone(RootZoneId, None, [a, b, c])]);
      var s1 := MoveComponent(s, c.id, Up);
      RootChildren(s1) == [a, c, b] && MoveComponent(s1, a.id, Up) == s1
  {
    var s := BuilderState([a, b, c], None, [DropZone(RootZoneId, None, [a, b, c])]);
    SpliceMoveUp([a, b, c], 2);
    var s1 := MoveComponent(s, c.id, Up);
    assert Valid(s1);
    ValidRoot(s1);
  }
}
