/** Which forbidden key raw_media_field reports, in terms of places in the tree alone: a place says which child to take
    at every level, and pre-order is an order on places. */
module PayloadOrder {
  import opened Wrappers
  import Text
  import opened PayloadGate

  type Place = seq<nat>

  /** Following the place from v arrives at an object entry whose name is forbidden. */
  predicate LeadsAt(v: Json, q: Place)
    decreases |q|
  {
    && q != []
    && match v
       case Object(entries) =>
         q[0] < |entries| && if |q| == 1 then Forbidden(entries[q[0]].0) else LeadsAt(entries[q[0]].1, q[1..])
       case Array(items) => q[0] < |items| && LeadsAt(items[q[0]], q[1..])
       case _ => false
  }

  /** The same place by names. */
  function PathAt(v: Json, q: Place): Path
    requires LeadsAt(v, q)
    decreases |q|
  {
    match v
    case Object(entries) =>
      [Key(entries[q[0]].0)] + if |q| == 1 then [] else PathAt(entries[q[0]].1, q[1..])
    case Array(items) => [Index(q[0])] + PathAt(items[q[0]], q[1..])
  }

  /** Pre-order: a place before everything under it, and what is under an earlier child before a later one. */
  predicate Precedes(p: Place, q: Place)
    decreases |p|
  {
    q != [] && (p == [] || p[0] < q[0] || (p[0] == q[0] && Precedes(p[1..], q[1..])))
  }

  /** The search found the place: it leads to a forbidden key, the search spells its path, and it precedes every
      other. */
  ghost predicate IsFirst(v: Json, prefix: string, q: Place, found: Option<string>) {
    && LeadsAt(v, q) && found == Some(Render(prefix, PathAt(v, q)))
    && forall r :: LeadsAt(v, r) && r != q ==> Precedes(q, r)
  }

  /** ... among the places through children from i on. */
  ghost predicate IsFirstFrom(v: Json, i: nat, prefix: string, q: Place, found: Option<string>) {
    && LeadsAt(v, q) && q[0] >= i && found == Some(Render(prefix, PathAt(v, q)))
    && forall r :: LeadsAt(v, r) && r[0] >= i && r != q ==> Precedes(q, r)
  }

  lemma {:induction false} FindIsFirstPlace(v: Json, prefix: string) returns (q: Place)
    ensures if Find(v, prefix).None? then forall r :: !LeadsAt(v, r) else IsFirst(v, prefix, q, Find(v, prefix))
    decreases v, 1, 0
  {
    match v
    case Object(entries) => q := FindEntryIsFirstPlace(v, 0, prefix);
    case Array(items) => q := FindItemIsFirstPlace(v, 0, prefix);
    case _ => q := [];
  }

  lemma {:induction false} FindEntryIsFirstPlace(v: Json, i: nat, prefix: string) returns (q: Place)
    requires v.Object? && i <= |v.entries|
    ensures if FindEntry(v, i, prefix).None? then forall r :: LeadsAt(v, r) ==> r[0] < i
            else IsFirstFrom(v, i, prefix, q, FindEntry(v, i, prefix))
    decreases v, 0, |v.entries| - i
  {
    q := [];
    if i < |v.entries| {
      var (key, child) := v.entries[i];
      if Forbidden(key) {
        q := [i];
        assert PathAt(v, q) == [Key(key)] && [Key(key)][1..] == [];
        forall r | LeadsAt(v, r) && r[0] >= i && r != q ensures Precedes(q, r) {
          assert r[0] == i ==> r[1..] != [];
        }
      } else {
        var below := FindIsFirstPlace(child, ChildName(prefix, key));
        if Find(child, ChildName(prefix, key)).Some? {
          q := [i] + below;
          EntryIsFirst(v, i, prefix, below);
        } else {
          q := FindEntryIsFirstPlace(v, i + 1, prefix);
          assert forall r :: LeadsAt(v, r) && r[0] == i ==> LeadsAt(child, r[1..]);
        }
      }
    }
  }

  /** The first place below an entry whose own name is allowed is the first from that entry on. */
  lemma EntryIsFirst(v: Json, i: nat, prefix: string, below: Place)
    requires v.Object? && i < |v.entries| && !Forbidden(v.entries[i].0)
    requires var (key, child) := v.entries[i];
             IsFirst(child, ChildName(prefix, key), below, Find(child, ChildName(prefix, key)))
    ensures IsFirstFrom(v, i, prefix, [i] + below, Find(v.entries[i].1, ChildName(prefix, v.entries[i].0)))
  {
    var (key, child) := v.entries[i];
    var q := [i] + below;
    assert q[1..] == below && below != [];
    assert PathAt(v, q) == [Key(key)] + PathAt(child, below);
    assert ([Key(key)] + PathAt(child, below))[1..] == PathAt(child, below);
    forall r | LeadsAt(v, r) && r[0] >= i && r != q ensures Precedes(q, r) {
      if r[0] == i {
        assert |r| > 1 && r == [i] + r[1..];
        assert LeadsAt(child, r[1..]) && r[1..] != below;
      }
    }
  }

  lemma {:induction false} FindItemIsFirstPlace(v: Json, i: nat, prefix: string) returns (q: Place)
    requires v.Array? && i <= |v.items|
    ensures if FindItem(v, i, prefix).None? then forall r :: LeadsAt(v, r) ==> r[0] < i
            else IsFirstFrom(v, i, prefix, q, FindItem(v, i, prefix))
    decreases v, 0, |v.items| - i
  {
    q := [];
    if i < |v.items| {
      var child, spelled := v.items[i], prefix + "[" + Text.ToString(i) + "]";
      var below := FindIsFirstPlace(child, spelled);
      if Find(child, spelled).Some? {
        q := [i] + below;
        assert q[1..] == below;
        assert PathAt(v, q) == [Index(i)] + PathAt(child, below) &&
          ([Index(i)] + PathAt(child, below))[1..] == PathAt(child, below);
        forall r | LeadsAt(v, r) && r[0] >= i && r != q ensures Precedes(q, r) {
          if r[0] == i {
            assert r == [i] + r[1..];
            assert LeadsAt(child, r[1..]) && r[1..] != below;
          }
        }
      } else {
        q := FindItemIsFirstPlace(v, i + 1, prefix);
        assert forall r :: LeadsAt(v, r) && r[0] == i ==> LeadsAt(child, r[1..]);
      }
    }
  }

  /** Places and paths say the same: a place's path leads to a forbidden key, and every path that does is that of some
      place. */
  lemma {:induction false} PlaceIsPath(v: Json, q: Place)
    requires LeadsAt(v, q)
    ensures Leads(v, PathAt(v, q))
    decreases |q|
  {
    match v
    case Object(entries) =>
      var p := PathAt(v, q);
      if |q| > 1 {
        PlaceIsPath(entries[q[0]].1, q[1..]);
        assert p[1..] == PathAt(entries[q[0]].1, q[1..]);
        assert PathAt(entries[q[0]].1, q[1..]) != [];
      }
      assert LeadsThrough(v, q[0], p);
      LeadsByEntry(v, p);
    case Array(items) =>
      PlaceIsPath(items[q[0]], q[1..]);
      assert PathAt(v, q)[1..] == PathAt(items[q[0]], q[1..]);
  }

  lemma {:induction false} PathHasPlace(v: Json, p: Path) returns (q: Place)
    requires Leads(v, p)
    ensures LeadsAt(v, q) && PathAt(v, q) == p
    decreases |p|
  {
    match v
    case Object(entries) =>
      LeadsByEntry(v, p);
      var i :| 0 <= i < |entries| && LeadsThrough(v, i, p);
      if |p| == 1 {
        q := [i];
      } else {
        var below := PathHasPlace(entries[i].1, p[1..]);
        q := [i] + below;
        PlaceOneUp(v, entries[i].1, i, Key(entries[i].0), below, p);
      }
    case Array(items) =>
      var i := p[0].position;
      var below := PathHasPlace(items[i], p[1..]);
      q := [i] + below;
      PlaceOneUp(v, items[i], i, Index(i), below, p);
  }

  /** A place in a child is one in the tree, its path one step longer. */
  lemma PlaceOneUp(v: Json, child: Json, i: nat, step: Segment, below: Place, p: Path)
    requires (v.Object? && i < |v.entries| && step.Key? && v.entries[i] == (step.name, child)) ||
             (v.Array? && i < |v.items| && v.items[i] == child && step == Index(i))
    requires LeadsAt(child, below) && p != [] && p[0] == step && PathAt(child, below) == p[1..]
    ensures LeadsAt(v, [i] + below) && PathAt(v, [i] + below) == p
  {
    assert ([i] + below)[1..] == below && below != [];
    assert p == [p[0]] + p[1..];
  }

  /** raw_media_field reports the first forbidden key in pre-order: nothing when no place leads to one, and otherwise
      the spelling of a place that does and that precedes every other such place. */
  lemma ReportsFirstPlace(v: Json) returns (q: Place)
    ensures RawMediaField(v).None? <==> forall p :: !Leads(v, p)
    ensures RawMediaField(v).Some? ==> IsFirst(v, "", q, RawMediaField(v)) && Leads(v, PathAt(v, q))
  {
    GateAgreement(v);
    q := FindIsFirstPlace(v, "");
    if RawMediaField(v).Some? {
      PlaceIsPath(v, q);
    }
  }
}
