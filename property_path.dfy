/**
 * Dotted-path property editing, the core of the builder's
 * `handlePropertyChange` (src/components/Builder.tsx): a key such as
 * `socialLinks.instagram` is split on `.`, every intermediate segment whose
 * value is missing or falsy is replaced by a fresh `{}`, the walk descends
 * into it, and only the leaf is assigned.
 *
 * The source walks a `current` reference down a copied top-level object and
 * assigns through it. Objects are values here, so the walk records the
 * objects it passes through and the assignments are then carried back up to
 * the top level.
 */
module PropertyPath {
  import opened Wrappers
  import opened Json
  import opened Assoc

  /**
   * The object `current = current[k]` continues in, after a missing or falsy
   * member has been replaced by `{}`. `None` when the member is a truthy
   * value that is not an object: assigning into it raises a TypeError.
   */
  function Enter(p: Props, k: string): (r: Option<Props>)
    ensures (Get(p, k).None? || !Truthy(Get(p, k).value)) ==> r == Some([])
    ensures Get(p, k).Some? && Get(p, k).value.Obj? ==> r == Some(Get(p, k).value.entries)
    ensures r.None? <==> Get(p, k).Some? && Truthy(Get(p, k).value) && !Get(p, k).value.Obj?
  {
    match Get(p, k)
    case None => Some([])
    case Some(v) => if !Truthy(v) then Some([]) else if v.Obj? then Some(v.entries) else None
  }

  /**
   * The top-level props after setting the value at a path; `None` when the
   * walk meets a truthy non-object, where the source throws.
   */
  function SetPath(p: Props, keys: seq<string>, v: Json): (r: Option<Props>)
    requires |keys| >= 1
    ensures r.Some? ==> Keys(r.value) == if keys[0] in Keys(p) then Keys(p) else Keys(p) + [keys[0]]
    ensures r.Some? ==> forall k :: k != keys[0] ==> Get(r.value, k) == Get(p, k)
    decreases |keys|
  {
    if |keys| == 1 then Some(Put(p, keys[0], v))
    else
      match Enter(p, keys[0])
      case None => None
      case Some(child) =>
        match SetPath(child, keys[1..], v)
        case None => None
        case Some(c) => Some(Put(p, keys[0], Obj(c)))
  }

  /** Reading `p.k1.k2...kn`; every step before the last must land on an object. */
  function ReadPath(p: Props, keys: seq<string>): Option<Json>
    requires |keys| >= 1
    decreases |keys|
  {
    match Get(p, keys[0])
    case None => None
    case Some(x) =>
      if |keys| == 1 then Some(x)
      else if x.Obj? then ReadPath(x.entries, keys[1..])
      else None
  }

  /** After a successful edit the path reads back the value that was set. */
  lemma {:induction false} SetPathThenRead(p: Props, keys: seq<string>, v: Json)
    requires |keys| >= 1 && SetPath(p, keys, v).Some?
    ensures ReadPath(SetPath(p, keys, v).value, keys) == Some(v)
    decreases |keys|
  {
    if |keys| > 1 {
      var child := Enter(p, keys[0]).value;
      SetPathThenRead(child, keys[1..], v);
    }
  }

  /** Two paths part ways at some segment both have. */
  predicate Diverge(q: seq<string>, keys: seq<string>)
  {
    exists j :: 0 <= j < |q| && j < |keys| && q[j] != keys[j]
  }

  /**
   * Sibling keys at every level are preserved: any path that parts ways with
   * the edited one reads the same before and after the edit.
   */
  lemma {:induction false} SetPathKeepsSiblings(p: Props, keys: seq<string>, v: Json, q: seq<string>)
    requires |keys| >= 1 && |q| >= 1 && SetPath(p, keys, v).Some?
    requires Diverge(q, keys)
    ensures ReadPath(SetPath(p, keys, v).value, q) == ReadPath(p, q)
    decreases |keys|
  {
    var r := SetPath(p, keys, v).value;
    if q[0] != keys[0] {
      assert Get(r, q[0]) == Get(p, q[0]);
    } else {
      var j :| 0 <= j < |q| && j < |keys| && q[j] != keys[j];
      assert j >= 1;
      var child := Enter(p, keys[0]).value;
      var c := SetPath(child, keys[1..], v).value;
      assert Diverge(q[1..], keys[1..]) by {
        assert q[1..][j - 1] != keys[1..][j - 1];
      }
      SetPathKeepsSiblings(child, keys[1..], v, q[1..]);
      assert Get(r, keys[0]) == Some(Obj(c));
      if child == [] {
        assert ReadPath([], q[1..]) == None;
      }
    }
  }

  /**
   * A missing or falsy intermediate segment becomes an object that holds
   * only the new leaf.
   */
  lemma SetPathCreatesIntermediate(p: Props, k: string, leaf: string, v: Json)
    requires Get(p, k).None? || !Truthy(Get(p, k).value)
    ensures SetPath(p, [k, leaf], v) == Some(Put(p, k, Obj([(leaf, v)])))
  {
    assert [k, leaf][1..] == [leaf];
  }

  /** Walking into a truthy value that is not an object fails (the source throws). */
  lemma SetPathBlocked(p: Props, keys: seq<string>, v: Json)
    requires |keys| >= 2
    requires Get(p, keys[0]).Some? && Truthy(Get(p, keys[0]).value) && !Get(p, keys[0]).value.Obj?
    ensures SetPath(p, keys, v).None?
  {
  }

  /** The edited props are still an object: their keys stay distinct. */
  lemma SetPathUnique(p: Props, keys: seq<string>, v: Json)
    requires |keys| >= 1 && UniqueKeys(p) && SetPath(p, keys, v).Some?
    ensures UniqueKeys(SetPath(p, keys, v).value)
  {
    var r := SetPath(p, keys, v).value;
    PutUnique(p, keys[0], if |keys| == 1 then v else Get(r, keys[0]).value);
    assert r == Put(p, keys[0], if |keys| == 1 then v else Get(r, keys[0]).value);
  }

  // ---------------------------------------------------------------- the loop

  /**
   * Carries an edited innermost object back up through the objects the walk
   * passed: `frames[i]` is the object in which `keys[i]` was entered.
   */
  function Rebuild(frames: seq<Props>, keys: seq<string>, inner: Option<Props>): Option<Props>
    requires |frames| == |keys|
    decreases |keys|
  {
    if keys == [] then inner
    else
      var n := |keys| - 1;
      Rebuild(frames[..n], keys[..n], match inner case None => None case Some(c) => Some(Put(frames[n], keys[n], Obj(c))))
  }

  lemma {:induction false} RebuildNone(frames: seq<Props>, keys: seq<string>)
    requires |frames| == |keys|
    ensures Rebuild(frames, keys, None) == None
    decreases |keys|
  {
    if keys != [] {
      RebuildNone(frames[..|keys| - 1], keys[..|keys| - 1]);
    }
  }

  /** Rebuilding through one more frame is one more assignment on the way up. */
  lemma RebuildSnoc(frames: seq<Props>, keys: seq<string>, f: Props, k: string, inner: Option<Props>)
    requires |frames| == |keys|
    ensures Rebuild(frames + [f], keys + [k], inner)
         == Rebuild(frames, keys, match inner case None => None case Some(c) => Some(Put(f, k, Obj(c))))
  {
    assert (frames + [f])[..|keys|] == frames && (keys + [k])[..|keys|] == keys;
  }

  /** One step of the walk: entering `keys[i]` moves the edit one level down. */
  lemma DescendStep(frames: seq<Props>, keys: seq<string>, i: nat, value: Json, child: Props)
    requires i + 1 < |keys| && |frames| == i + 1
    requires Enter(frames[i], keys[i]) == Some(child)
    ensures Rebuild(frames[..i], keys[..i], SetPath(frames[i], keys[i..], value))
         == Rebuild((frames + [child])[..i + 1], keys[..i + 1], SetPath(child, keys[i + 1..], value))
  {
    assert keys[i..][0] == keys[i] && keys[i..][1..] == keys[i + 1..];
    assert (frames + [child])[..i + 1] == frames[..i] + [frames[i]];
    assert keys[..i + 1] == keys[..i] + [keys[i]];
    RebuildSnoc(frames[..i], keys[..i], frames[i], keys[i], SetPath(child, keys[i + 1..], value));
  }

  /** One step back up: the innermost edited object is assigned into its parent. */
  lemma AscendStep(frames: seq<Props>, keys: seq<string>, j: nat, acc: Props)
    requires 0 < j <= |frames| && j <= |keys|
    ensures Rebuild(frames[..j], keys[..j], Some(acc))
         == Rebuild(frames[..j - 1], keys[..j - 1], Some(Put(frames[j - 1], keys[j - 1], Obj(acc))))
  {
    assert frames[..j] == frames[..j - 1] + [frames[j - 1]];
    assert keys[..j] == keys[..j - 1] + [keys[j - 1]];
    RebuildSnoc(frames[..j - 1], keys[..j - 1], frames[j - 1], keys[j - 1], Some(acc));
  }

  /**
   * The edit the way the source performs it: a walk over the segments
   * before the last (creating `{}` for missing or falsy ones), the leaf
   * assignment, and the assignments carried back to the top level.
   */
  method SetPropertyPath(props: Props, keys: seq<string>, value: Json) returns (r: Option<Props>)
    requires |keys| >= 1
    ensures r == SetPath(props, keys, value)
  {
    var frames, entered := WalkDown(props, keys, value);
    if !entered {
      return None;
    }
    var i := |keys| - 1;
    var acc := CarryUp(frames[..i], keys[..i], Put(frames[i], keys[i], value));
    r := Some(acc);
  }

  /** The last segment is a plain assignment. */
  lemma SetLeaf(p: Props, keys: seq<string>, v: Json)
    requires |keys| == 1
    ensures SetPath(p, keys, v) == Some(Put(p, keys[0], v))
  {
  }

  /**
   * The first loop: enters each segment before the last, recording the
   * objects passed; fails where the source would throw.
   */
  method WalkDown(props: Props, keys: seq<string>, value: Json) returns (frames: seq<Props>, entered: bool)
    requires |keys| >= 1
    ensures !entered ==> SetPath(props, keys, value).None?
    ensures entered ==> |frames| == |keys|
    ensures entered ==>
      SetPath(props, keys, value) == Rebuild(frames[..|keys| - 1], keys[..|keys| - 1], Some(Put(frames[|keys| - 1], keys[|keys| - 1], value)))
  {
    frames := [props];
    var i := 0;
    while i < |keys| - 1
      invariant 0 <= i < |keys| && |frames| == i + 1
      invariant SetPath(props, keys, value) == Rebuild(frames[..i], keys[..i], SetPath(frames[i], keys[i..], value))
    {
      var next := Enter(frames[i], keys[i]);
      if next.None? {
        assert keys[i..][0] == keys[i];
        RebuildNone(frames[..i], keys[..i]);
        return frames, false;
      }
      DescendStep(frames, keys, i, value, next.value);
      frames := frames + [next.value];
      i := i + 1;
    }
    SetLeaf(frames[i], keys[i..], value);
    entered := true;
  }

  /** The second loop: assigns each edited object into its parent, innermost first. */
  method CarryUp(frames: seq<Props>, keys: seq<string>, inner: Props) returns (acc: Props)
    requires |frames| == |keys|
    ensures Some(acc) == Rebuild(frames, keys, Some(inner))
  {
    acc := inner;
    var j := |keys|;
    assert frames[..j] == frames && keys[..j] == keys;
    while j > 0
      invariant 0 <= j <= |keys|
      invariant Rebuild(frames, keys, Some(inner)) == Rebuild(frames[..j], keys[..j], Some(acc))
    {
      AscendStep(frames, keys, j, acc);
      j := j - 1;
      acc := Put(frames[j], keys[j], Obj(acc));
    }
    assert frames[..0] == [] && keys[..0] == [];
  }
}
