/** JSON values and the gate that keeps raw media bytes off the broker
    (src/eventbus.rs: event_has_raw_media_bytes, raw_media_field). */
module PayloadGate {
  import opened Wrappers
  import Text

  /** serde_json::Value. An object lists its entries in the map's iteration order. */
  datatype Json =
    | Null
    | Bool(flag: bool)
    | Number(text: string)
    | Str(text: string)
    | Array(items: seq<Json>)
    | Object(entries: seq<(string, Json)>)

  /** One step from a value to a child of it. */
  datatype Segment = Key(name: string) | Index(position: nat)

  type Path = seq<Segment>

  predicate Forbidden(key: string) {
    key == "bytes" || key == "file_bytes" || key == "raw_media" || key == "body"
  }

  /** contains_bytes: an object entry with a forbidden name, at any depth. */
  predicate ContainsBytes(v: Json) {
    match v
    case Object(entries) => exists i :: 0 <= i < |entries| && (Forbidden(entries[i].0) || ContainsBytes(entries[i].1))
    case Array(items) => exists i :: 0 <= i < |items| && ContainsBytes(items[i])
    case _ => false
  }

  /** Some object in the tree, at any depth, has an entry with this name. */
  predicate HasName(v: Json, name: string) {
    match v
    case Object(entries) => exists i :: 0 <= i < |entries| && (entries[i].0 == name || HasName(entries[i].1, name))
    case Array(items) => exists i :: 0 <= i < |items| && HasName(items[i], name)
    case _ => false
  }

  /** The gate is about these four names and no other. */
  lemma {:induction false} GateMeans(v: Json)
    ensures ContainsBytes(v) <==>
            exists name :: name in {"bytes", "file_bytes", "raw_media", "body"} && HasName(v, name)
  {
    match v
    case Object(entries) =>
      forall i | 0 <= i < |entries| {
        GateMeans(entries[i].1);
      }
      if ContainsBytes(v) {
        var i :| 0 <= i < |entries| && (Forbidden(entries[i].0) || ContainsBytes(entries[i].1));
        var name :| name in {"bytes", "file_bytes", "raw_media", "body"} &&
                    (entries[i].0 == name || HasName(entries[i].1, name));
        assert HasName(v, name);
      }
    case Array(items) =>
      forall i | 0 <= i < |items| {
        GateMeans(items[i]);
      }
      if ContainsBytes(v) {
        var i :| 0 <= i < |items| && ContainsBytes(items[i]);
        var name :| name in {"bytes", "file_bytes", "raw_media", "body"} && HasName(items[i], name);
        assert HasName(v, name);
      }
    case _ =>
  }

  // ---------------------------------------------------------------------
  // raw_media_field, as the source computes it: a depth-first search that
  // carries the rendered path of the value it is looking at.

  function ChildName(path: string, key: string): string {
    if path == "" then key else path + "." + key
  }

  function Find(v: Json, path: string): Option<string>
    decreases v, 1, 0
  {
    match v
    case Object(entries) => FindEntry(v, 0, path)
    case Array(items) => FindItem(v, 0, path)
    case _ => None
  }

  function FindEntry(v: Json, i: nat, path: string): Option<string>
    requires v.Object? && i <= |v.entries|
    decreases v, 0, |v.entries| - i
  {
    if i == |v.entries| then None
    else
      var (key, child) := v.entries[i];
      var childPath := ChildName(path, key);
      if Forbidden(key) then Some(childPath)
      else
        var found := Find(child, childPath);
        if found.Some? then found else FindEntry(v, i + 1, path)
  }

  function FindItem(v: Json, i: nat, path: string): Option<string>
    requires v.Array? && i <= |v.items|
    decreases v, 0, |v.items| - i
  {
    if i == |v.items| then None
    else
      var found := Find(v.items[i], path + "[" + Text.ToString(i) + "]");
      if found.Some? then found else FindItem(v, i + 1, path)
  }

  function RawMediaField(v: Json): Option<string> {
    Find(v, "")
  }

  // ---------------------------------------------------------------------
  // What the search is for. Leads(v, p): following p from v arrives at an
  // object entry whose name is forbidden. ForbiddenPaths lists all of them in
  // pre-order: a key before anything under it, earlier entries before later.

  ghost predicate Leads(v: Json, p: Path)
    decreases |p|
  {
    && p != []
    && match p[0]
       case Key(name) =>
         && v.Object?
         && exists i :: 0 <= i < |v.entries| && v.entries[i].0 == name &&
                        ((|p| == 1 && Forbidden(name)) || (|p| > 1 && Leads(v.entries[i].1, p[1..])))
       case Index(i) => v.Array? && i < |v.items| && Leads(v.items[i], p[1..])
  }

  /** The case of Leads in which the first step takes the i-th entry. */
  ghost predicate LeadsThrough(v: Json, i: nat, p: Path)
    requires v.Object? && i < |v.entries|
  {
    && p != [] && p[0] == Key(v.entries[i].0)
    && ((|p| == 1 && Forbidden(v.entries[i].0)) || (|p| > 1 && Leads(v.entries[i].1, p[1..])))
  }

  lemma LeadsByEntry(v: Json, p: Path)
    requires v.Object?
    ensures Leads(v, p) <==> exists i :: 0 <= i < |v.entries| && LeadsThrough(v, i, p)
  {
    if Leads(v, p) {
      var i :| 0 <= i < |v.entries| && v.entries[i].0 == p[0].name &&
               ((|p| == 1 && Forbidden(p[0].name)) || (|p| > 1 && Leads(v.entries[i].1, p[1..])));
      assert LeadsThrough(v, i, p);
    }
  }

  function Under(step: Segment, paths: seq<Path>): seq<Path> {
    seq(|paths|, i requires 0 <= i < |paths| => [step] + paths[i])
  }

  function ForbiddenPaths(v: Json): seq<Path>
    decreases v, 1, 0
  {
    match v
    case Object(entries) => EntryPaths(v, 0)
    case Array(items) => ItemPaths(v, 0)
    case _ => []
  }

  function EntryPaths(v: Json, i: nat): seq<Path>
    requires v.Object? && i <= |v.entries|
    decreases v, 0, |v.entries| - i
  {
    if i == |v.entries| then []
    else
      var (key, child) := v.entries[i];
      (if Forbidden(key) then [[Key(key)]] else []) + Under(Key(key), ForbiddenPaths(child)) + EntryPaths(v, i + 1)
  }

  function ItemPaths(v: Json, i: nat): seq<Path>
    requires v.Array? && i <= |v.items|
    decreases v, 0, |v.items| - i
  {
    if i == |v.items| then []
    else Under(Index(i), ForbiddenPaths(v.items[i])) + ItemPaths(v, i + 1)
  }

  /** A path as the source spells it, continuing from an already spelled prefix. */
  function Render(prefix: string, p: Path): string
    decreases |p|
  {
    if p == [] then prefix
    else match p[0]
      case Key(name) => Render(ChildName(prefix, name), p[1..])
      case Index(i) => Render(prefix + "[" + Text.ToString(i) + "]", p[1..])
  }

  /** A key is spelled after a dot, the first one bare, and an index in brackets, in decimal. */
  lemma {:induction false} PathIsSpelled(p: Path, name: string, i: nat)
    ensures Render("", []) == ""
    ensures Render("", p + [Key(name)]) == (if Render("", p) == "" then name else Render("", p) + "." + name)
    ensures Render("", p + [Index(i)]) == Render("", p) + "[" + Text.ToString(i) + "]"
    ensures Text.AllDigits(Text.ToString(i)) && Text.Spelled(Text.ToString(i)) == i
  {
    LastIsSpelled("", p, Key(name));
    LastIsSpelled("", p, Index(i));
  }

  lemma {:induction false} LastIsSpelled(prefix: string, p: Path, last: Segment)
    ensures Render(prefix, p + [last]) == Render(Render(prefix, p), [last])
    ensures forall path: string :: Render(path, [last]) ==
              if last.Key? then ChildName(path, last.name) else path + "[" + Text.ToString(last.position) + "]"
    decreases |p|
  {
    if p == [] {
      assert p + [last] == [last];
    } else {
      assert (p + [last])[1..] == p[1..] + [last];
      match p[0]
      case Key(name) => LastIsSpelled(ChildName(prefix, name), p[1..], last);
      case Index(i) => LastIsSpelled(prefix + "[" + Text.ToString(i) + "]", p[1..], last);
    }
  }

  function Spelled(prefix: string, paths: seq<Path>): Option<string> {
    if paths == [] then None else Some(Render(prefix, paths[0]))
  }

  // ---------------------------------------------------------------------
  // The search finds exactly the first forbidden key.

  /** Find spells the first path of the pre-order list, or finds nothing when the list is empty. */
  lemma {:induction false} FindIsFirst(v: Json, prefix: string)
    ensures Find(v, prefix) == Spelled(prefix, ForbiddenPaths(v))
    decreases v, 1, 0
  {
    match v
    case Object(entries) => FindEntryIsFirst(v, 0, prefix);
    case Array(items) => FindItemIsFirst(v, 0, prefix);
    case _ =>
  }

  lemma {:induction false} FindEntryIsFirst(v: Json, i: nat, prefix: string)
    requires v.Object? && i <= |v.entries|
    ensures FindEntry(v, i, prefix) == Spelled(prefix, EntryPaths(v, i))
    decreases v, 0, |v.entries| - i
  {
    if i < |v.entries| {
      var (key, child) := v.entries[i];
      FindIsFirst(child, ChildName(prefix, key));
      FindEntryIsFirst(v, i + 1, prefix);
      var below := ForbiddenPaths(child);
      assert Render(prefix, [Key(key)]) == ChildName(prefix, key);
      if Forbidden(key) {
        assert EntryPaths(v, i)[0] == [Key(key)];
      }
      if below != [] {
        assert ([Key(key)] + below[0])[1..] == below[0];
      }
    }
  }

  lemma {:induction false} FindItemIsFirst(v: Json, i: nat, prefix: string)
    requires v.Array? && i <= |v.items|
    ensures FindItem(v, i, prefix) == Spelled(prefix, ItemPaths(v, i))
    decreases v, 0, |v.items| - i
  {
    if i < |v.items| {
      FindIsFirst(v.items[i], prefix + "[" + Text.ToString(i) + "]");
      FindItemIsFirst(v, i + 1, prefix);
      var below := ForbiddenPaths(v.items[i]);
      if below != [] {
        assert ([Index(i)] + below[0])[1..] == below[0];
      }
    }
  }

  /** The list holds exactly the paths that lead to a forbidden key. */
  lemma {:induction false} PathsAreExact(v: Json, p: Path)
    ensures p in ForbiddenPaths(v) <==> Leads(v, p)
    decreases v, 1, 0
  {
    match v
    case Object(entries) =>
      EntryPathsAreExact(v, 0, p);
      LeadsByEntry(v, p);
    case Array(items) => ItemPathsAreExact(v, 0, p);
    case _ =>
  }

  lemma UnderMember(step: Segment, paths: seq<Path>, p: Path)
    ensures p in Under(step, paths) <==> p != [] && p[0] == step && p[1..] in paths
  {
    if p in Under(step, paths) {
      var i :| 0 <= i < |paths| && Under(step, paths)[i] == p;
      assert p[1..] == paths[i];
    }
    if p != [] && p[0] == step && p[1..] in paths {
      var i :| 0 <= i < |paths| && paths[i] == p[1..];
      assert Under(step, paths)[i] == p;
    }
  }

  lemma {:induction false} EntryPathsAreExact(v: Json, i: nat, p: Path)
    requires v.Object? && i <= |v.entries|
    ensures p in EntryPaths(v, i) <==> exists j :: i <= j < |v.entries| && LeadsThrough(v, j, p)
    decreases v, 0, |v.entries| - i
  {
    if i < |v.entries| {
      var (key, child) := v.entries[i];
      EntryPathsAreExact(v, i + 1, p);
      UnderMember(Key(key), ForbiddenPaths(child), p);
      if p != [] {
        PathsAreExact(child, p[1..]);
        assert |p| == 1 ==> p == [p[0]] && p[1..] == [];
      }
      assert p in EntryPaths(v, i) <==> LeadsThrough(v, i, p) || p in EntryPaths(v, i + 1);
    }
  }

  lemma {:induction false} ItemPathsAreExact(v: Json, i: nat, p: Path)
    requires v.Array? && i <= |v.items|
    ensures p in ItemPaths(v, i) <==>
            p != [] && p[0].Index? && i <= p[0].position < |v.items| && Leads(v.items[p[0].position], p[1..])
    decreases v, 0, |v.items| - i
  {
    if i < |v.items| {
      ItemPathsAreExact(v, i + 1, p);
      UnderMember(Index(i), ForbiddenPaths(v.items[i]), p);
      if p != [] {
        PathsAreExact(v.items[i], p[1..]);
      }
    }
  }

  /** event_has_raw_media_bytes holds exactly when some path leads to a forbidden key. */
  lemma {:induction false} ContainsBytesIsExact(v: Json)
    ensures ContainsBytes(v) <==> exists p :: Leads(v, p)
    decreases v
  {
    match v
    case Object(entries) =>
      forall i | 0 <= i < |entries|
        ensures ContainsBytes(entries[i].1) <==> exists p :: Leads(entries[i].1, p)
      {
        ContainsBytesIsExact(entries[i].1);
      }
      if ContainsBytes(v) {
        var i :| 0 <= i < |entries| && (Forbidden(entries[i].0) || ContainsBytes(entries[i].1));
        if Forbidden(entries[i].0) {
          assert Leads(v, [Key(entries[i].0)]);
        } else {
          var p :| Leads(entries[i].1, p);
          assert ([Key(entries[i].0)] + p)[1..] == p;
          assert Leads(v, [Key(entries[i].0)] + p);
        }
      }
      forall p | Leads(v, p) ensures ContainsBytes(v) {
        LeadsByEntry(v, p);
      }
    case Array(items) =>
      forall i | 0 <= i < |items|
        ensures ContainsBytes(items[i]) <==> exists p :: Leads(items[i], p)
      {
        ContainsBytesIsExact(items[i]);
      }
      if ContainsBytes(v) {
        var i :| 0 <= i < |items| && ContainsBytes(items[i]);
        var p :| Leads(items[i], p);
        assert ([Index(i)] + p)[1..] == p;
        assert Leads(v, [Index(i)] + p);
      }
    case _ =>
  }

  /** The two gates agree, and the reported field is the first forbidden key in pre-order. */
  lemma GateAgreement(v: Json)
    ensures RawMediaField(v).Some? <==> ContainsBytes(v)
    ensures ContainsBytes(v) <==> ForbiddenPaths(v) != []
    ensures RawMediaField(v).None? <==> forall p :: !Leads(v, p)
    ensures RawMediaField(v).Some? ==>
              && ForbiddenPaths(v) != []
              && Leads(v, ForbiddenPaths(v)[0])
              && RawMediaField(v).value == Render("", ForbiddenPaths(v)[0])
  {
    FindIsFirst(v, "");
    ContainsBytesIsExact(v);
    forall p ensures p in ForbiddenPaths(v) <==> Leads(v, p) {
      PathsAreExact(v, p);
    }
    if ForbiddenPaths(v) != [] {
      assert Leads(v, ForbiddenPaths(v)[0]);
    }
    if ContainsBytes(v) {
      var p :| Leads(v, p);
      assert p in ForbiddenPaths(v);
    }
  }
}
