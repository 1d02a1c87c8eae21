/**
 The recursive merge of JSON configuration, and the configuration a Codex agent is spawned with.
 */
module ConfigMerge {
  import opened Events

  datatype Json =
    | Null
    | Bool(b: bool)
    | Number(text: string)
    | Str(text: string)
    | Arr(items: seq<Json>)
    | Obj(fields: map<string, Json>)

  /** Overlay wins, except that two objects are merged key by key. */
  function Merge(base: Json, overlay: Json): Json
    decreases overlay
  {
    if base.Obj? && overlay.Obj? then
      Obj(map k | k in base.fields.Keys + overlay.fields.Keys ::
            if k in base.fields && k in overlay.fields then Merge(base.fields[k], overlay.fields[k])
            else if k in overlay.fields then overlay.fields[k]
            else base.fields[k])
    else overlay
  }

  /** Merges `overlay` into `base` key by key, recursing where both sides hold an object. */
  method DeepMerge(base: map<string, Json>, overlay: map<string, Json>) returns (m: map<string, Json>)
    ensures Obj(m) == Merge(Obj(base), Obj(overlay))
    decreases Obj(overlay)
  {
    m := base;
    var todo := overlay.Keys;
    ghost var goal := Merge(Obj(base), Obj(overlay)).fields;
    while todo != {}
      invariant todo <= overlay.Keys
      invariant m.Keys == base.Keys + (overlay.Keys - todo)
      invariant forall k :: k in m ==> m[k] == if k in overlay && k !in todo then goal[k] else base[k]
      decreases todo
    {
      var k :| k in todo;
      assert goal[k] == if k in base then Merge(base[k], overlay[k]) else overlay[k];
      assert k in m ==> m[k] == base[k];
      if k in m && m[k].Obj? && overlay[k].Obj? {
        var inner := DeepMerge(m[k].fields, overlay[k].fields);
        m := m[k := Obj(inner)];
      } else {
        m := m[k := overlay[k]];
      }
      todo := todo - {k};
    }
    assert m == goal;
  }

  // ---- what a merge holds at each path ----

  function Get(j: Json, path: seq<string>): Option<Json>
    decreases |path|
  {
    if path == [] then Some(j)
    else if j.Obj? && path[0] in j.fields then Get(j.fields[path[0]], path[1..])
    else None
  }

  /** Along `path` the overlay holds something other than an object. */
  predicate Shadows(overlay: Json, path: seq<string>)
    decreases |path|
  {
    !overlay.Obj?
    || (path != [] && path[0] in overlay.fields && Shadows(overlay.fields[path[0]], path[1..]))
  }

  /**
   Every path of a merge is accounted for: it holds a value exactly when the overlay does, or when the base
   does and the overlay neither has anything there nor shadows it. Values other than objects are unchanged;
   objects stay objects.
   */
  lemma {:induction false} MergeAtPath(base: Json, overlay: Json, path: seq<string>, v: Json)
    requires !v.Obj?
    ensures Get(Merge(base, overlay), path) == Some(v) <==>
            Get(overlay, path) == Some(v)
            || (Get(base, path) == Some(v) && Get(overlay, path).None? && !Shadows(overlay, path))
    ensures HasObject(Merge(base, overlay), path) <==>
            HasObject(overlay, path)
            || (HasObject(base, path) && Get(overlay, path).None? && !Shadows(overlay, path))
    decreases |path|
  {
    if path != [] && base.Obj? && overlay.Obj? {
      var k := path[0];
      if k in base.fields && k in overlay.fields {
        MergeAtPath(base.fields[k], overlay.fields[k], path[1..], v);
      }
    }
  }

  predicate HasObject(j: Json, path: seq<string>) {
    Get(j, path).Some? && Get(j, path).value.Obj?
  }

  /** Merging the same overlay again changes nothing. */
  lemma {:induction false} MergeTwice(base: Json, overlay: Json)
    ensures Merge(Merge(base, overlay), overlay) == Merge(base, overlay)
    decreases overlay
  {
    if overlay.Obj? {
      MergeSelf(overlay);
      if base.Obj? {
        var m := Merge(base, overlay);
        forall k | k in base.fields && k in overlay.fields
          ensures Merge(m.fields[k], overlay.fields[k]) == m.fields[k]
        {
          assert overlay.fields[k] < overlay;
          MergeTwice(base.fields[k], overlay.fields[k]);
        }
        forall k | k in overlay.fields && k !in base.fields
          ensures Merge(m.fields[k], overlay.fields[k]) == m.fields[k]
        {
          assert overlay.fields[k] < overlay;
          MergeSelf(overlay.fields[k]);
        }
        assert Merge(m, overlay).fields == m.fields;
      }
    }
  }

  lemma {:induction false} MergeSelf(j: Json)
    ensures Merge(j, j) == j
    decreases j
  {
    if j.Obj? {
      forall k | k in j.fields ensures Merge(j.fields[k], j.fields[k]) == j.fields[k] {
        assert j.fields[k] < j;
        MergeSelf(j.fields[k]);
      }
      assert Merge(j, j).fields == j.fields;
    }
  }

  /** What shadows a path: some value on the way to it that is not an object. */
  lemma {:induction false} ShadowsExactly(j: Json, path: seq<string>)
    ensures Shadows(j, path) <==>
            exists n :: 0 <= n <= |path| && Get(j, path[..n]).Some? && !Get(j, path[..n]).value.Obj?
    decreases |path|
  {
    if !j.Obj? {
      assert path[..0] == [];
    } else if path != [] && path[0] in j.fields {
      var inner, rest := j.fields[path[0]], path[1..];
      ShadowsExactly(inner, rest);
      assert forall n :: 0 <= n <= |rest| ==> path[..n + 1][0] == path[0] && path[..n + 1][1..] == rest[..n];
      assert forall n :: 0 <= n <= |rest| ==> Get(j, path[..n + 1]) == Get(inner, rest[..n]);
      if exists n :: 0 <= n <= |path| && Get(j, path[..n]).Some? && !Get(j, path[..n]).value.Obj? {
        var n :| 0 <= n <= |path| && Get(j, path[..n]).Some? && !Get(j, path[..n]).value.Obj?;
        assert path[..0] == [] && Get(j, []) == Some(j);
        assert Get(inner, rest[..n - 1]) == Get(j, path[..n]);
      }
      if exists n :: 0 <= n <= |rest| && Get(inner, rest[..n]).Some? && !Get(inner, rest[..n]).value.Obj? {
        var n :| 0 <= n <= |rest| && Get(inner, rest[..n]).Some? && !Get(inner, rest[..n]).value.Obj?;
        assert Get(j, path[..n + 1]) == Get(inner, rest[..n]);
      }
    } else {
      forall n | 0 <= n <= |path| ensures Get(j, path[..n]).None? || Get(j, path[..n]).value.Obj? {
        if n > 0 { assert path[..n][0] == path[0]; }
      }
    }
  }

  // ---- the order of merging ----

  /** `c` has every key of `a`, at every depth where both hold an object. */
  predicate Covers(c: Json, a: Json)
    decreases c
  {
    a.Obj? && c.Obj? ==> forall k :: k in a.fields ==> k in c.fields && Covers(c.fields[k], a.fields[k])
  }

  lemma {:induction false} CoveredExactly(a: Json, c: Json)
    ensures Merge(a, c) == c <==> Covers(c, a)
    decreases c
  {
    if a.Obj? && c.Obj? {
      var m := Merge(a, c);
      forall k | k in a.fields && k in c.fields
        ensures m.fields[k] == c.fields[k] <==> Covers(c.fields[k], a.fields[k])
      {
        assert c.fields[k] < c;
        CoveredExactly(a.fields[k], c.fields[k]);
      }
      if Covers(c, a) {
        assert m.fields == c.fields;
      } else {
        var k :| k in a.fields && !(k in c.fields && Covers(c.fields[k], a.fields[k]));
        assert k in m.fields && (k !in c.fields || m.fields[k] != c.fields[k]);
      }
    }
  }

  /** Somewhere `b` replaces an object of `a`, and `c` holds an object there that lacks some of its keys. */
  predicate Regains(a: Json, b: Json, c: Json)
    decreases c
  {
    && a.Obj? && c.Obj?
    && if b.Obj? then exists k :: k in a.fields && k in b.fields && k in c.fields
                                  && Regains(a.fields[k], b.fields[k], c.fields[k])
       else !Covers(c, a)
  }

  /** The order of merging matters exactly there: elsewhere the merge is associative. */
  lemma {:induction false} AssociativeExactly(a: Json, b: Json, c: Json)
    ensures Merge(Merge(a, b), c) == Merge(a, Merge(b, c)) <==> !Regains(a, b, c)
    decreases c
  {
    if a.Obj? && c.Obj? {
      if !b.Obj? {
        CoveredExactly(a, c);
      } else {
        var left, right := Merge(Merge(a, b), c), Merge(a, Merge(b, c));
        assert left.fields.Keys == right.fields.Keys;
        forall k | k in left.fields
          ensures left.fields[k] == right.fields[k] <==>
                  !(k in a.fields && k in b.fields && k in c.fields && Regains(a.fields[k], b.fields[k], c.fields[k]))
        {
          MergeAtKey(a, b, c, k);
          if k in c.fields {
            assert c.fields[k] < c;
            if k in a.fields && k in b.fields { AssociativeExactly(a.fields[k], b.fields[k], c.fields[k]); }
          }
        }
        if !Regains(a, b, c) { assert left.fields == right.fields; }
      }
    }
  }

  /** A concrete case: merging the later two first brings back what the first of them replaced. */
  lemma OrderMatters() returns (a: Json, b: Json, c: Json)
    ensures Merge(Merge(a, b), c) != Merge(a, Merge(b, c))
  {
    a, b, c := Obj(map["x" := Null]), Null, Obj(map[]);
    assert "x" in a.fields && "x" !in c.fields;
    AssociativeExactly(a, b, c);
  }

  /** Both orders of merging three objects, one key at a time. */
  lemma MergeAtKey(a: Json, b: Json, c: Json, k: string)
    requires a.Obj? && b.Obj? && c.Obj? && (k in a.fields || k in b.fields || k in c.fields)
    ensures var left, right := Merge(Merge(a, b), c).fields, Merge(a, Merge(b, c)).fields;
            && k in left && k in right
            && (if k in a.fields && k in b.fields && k in c.fields
                then left[k] == Merge(Merge(a.fields[k], b.fields[k]), c.fields[k])
                     && right[k] == Merge(a.fields[k], Merge(b.fields[k], c.fields[k]))
                else left[k] == right[k])
  {
  }

  // ---- the Codex configuration ----

  const CODEX_CONFIG := "CODEX_CONFIG"
  const SANDBOX := "sandbox_workspace_write"
  const NETWORK := "network_access"

  datatype Source = Persona | Generated | Parent

  datatype Built =
    | Unmerged
    | Config(json: Json)
    | NotJson(source: Source)
    | NotObject(source: Source)
    | SandboxNotObject

  /** JSON text parsing is a parameter: `None` for text that is not valid JSON. */
  type Parser = string -> Option<Json>

  function Entries(env: seq<(string, string)>): seq<string> {
    if env == [] then []
    else if env[0].0 == CODEX_CONFIG then [env[0].1] + Entries(env[1..])
    else Entries(env[1..])
  }

  predicate ParsesToObject(parse: Parser, raw: string) {
    parse(raw).Some? && parse(raw).value.Obj?
  }

  /** First entry merged with each later one in turn. */
  function Folded(parse: Parser, entries: seq<string>): Json
    requires entries != [] && forall i :: 0 <= i < |entries| ==> ParsesToObject(parse, entries[i])
    ensures Folded(parse, entries).Obj?
  {
    assert ParsesToObject(parse, entries[|entries| - 1]);
    var last := parse(entries[|entries| - 1]).value;
    if |entries| == 1 then last else Merge(Folded(parse, entries[..|entries| - 1]), last)
  }

  function WithParent(parse: Parser, entries: seq<string>, parent: Option<string>): Json
    requires entries != [] && forall i :: 0 <= i < |entries| ==> ParsesToObject(parse, entries[i])
    requires parent.Some? ==> ParsesToObject(parse, parent.value)
    ensures WithParent(parse, entries, parent).Obj?
  {
    if parent.None? then Folded(parse, entries) else Merge(Folded(parse, entries), parse(parent.value).value)
  }

  function Sandbox(j: Json): Json
    requires j.Obj?
  {
    if SANDBOX in j.fields then j.fields[SANDBOX] else Obj(map[])
  }

  function ForceNetwork(j: Json): Json
    requires j.Obj? && Sandbox(j).Obj?
  {
    Obj(j.fields[SANDBOX := Obj(Sandbox(j).fields[NETWORK := Bool(true)])])
  }

  /** Position of the first entry that is not a JSON object, or `|entries|`. */
  function FirstBad(parse: Parser, entries: seq<string>): (i: nat)
    ensures i <= |entries|
    ensures i < |entries| ==> !ParsesToObject(parse, entries[i])
    ensures forall n :: 0 <= n < i ==> ParsesToObject(parse, entries[n])
  {
    if entries == [] || !ParsesToObject(parse, entries[0]) then 0 else 1 + FirstBad(parse, entries[1..])
  }

  method ParseEntries(parse: Parser, entries: seq<string>)
      returns (parsed: seq<map<string, Json>>, error: Option<Built>)
    ensures var bad := FirstBad(parse, entries);
            error == if bad == |entries| then None
                     else if parse(entries[bad]).None? then Some(NotJson(if bad == 0 then Persona else Generated))
                     else Some(NotObject(if bad == 0 then Persona else Generated))
    ensures error.None? ==> |parsed| == |entries|
    ensures error.None? ==> forall n :: 0 <= n < |entries| ==> parse(entries[n]) == Some(Obj(parsed[n]))
  {
    parsed := [];
    for i := 0 to |entries|
      invariant |parsed| == i
      invariant forall n :: 0 <= n < i ==>
          ParsesToObject(parse, entries[n]) && parse(entries[n]) == Some(Obj(parsed[n]))
    {
      var source := if i == 0 then Persona else Generated;
      var value := parse(entries[i]);
      if value.None? {
        return parsed, Some(NotJson(source));
      }
      if !value.value.Obj? {
        return parsed, Some(NotObject(source));
      }
      parsed := parsed + [value.value.fields];
    }
    return parsed, None;
  }

  method FoldEntries(parse: Parser, entries: seq<string>, parsed: seq<map<string, Json>>)
      returns (base: map<string, Json>)
    requires entries != [] && |parsed| == |entries|
    requires forall n :: 0 <= n < |entries| ==>
        ParsesToObject(parse, entries[n]) && parse(entries[n]) == Some(Obj(parsed[n]))
    ensures Obj(base) == Folded(parse, entries)
    ensures AllParse(parse, entries)
    ensures forall path: seq<string>, v: Json :: !v.Obj? ==>
              (Get(Obj(base), path) == Some(v) <==> exists i :: Prevails(parse, entries, i, path, v))
  {
    forall path: seq<string>, v: Json | !v.Obj?
      ensures Get(Folded(parse, entries), path) == Some(v) <==> exists i :: Prevails(parse, entries, i, path, v)
    {
      FoldedAtPath(parse, entries, path, v);
    }
    base := parsed[0];
    assert entries[..1] == [entries[0]];
    for i := 1 to |entries|
      invariant Obj(base) == Folded(parse, entries[..i])
    {
      base := DeepMerge(base, parsed[i]);
      assert entries[..i + 1][..i] == entries[..i];
    }
    assert entries[..|entries|] == entries;
  }

  /** Merges the entries, the parent environment and the forced network access, in that order. */
  method BuildCodexConfigEnv(parse: Parser, env: seq<(string, string)>, parent: Option<string>, generated: bool)
    returns (r: Built)
    ensures var entries := Entries(env);
            var bad := FirstBad(parse, entries);
            if !generated || entries == [] then r == Unmerged
            else if bad < |entries| then
              r == (if parse(entries[bad]).None? then NotJson(if bad == 0 then Persona else Generated)
                    else NotObject(if bad == 0 then Persona else Generated))
            else if parent.Some? && parse(parent.value).None? then r == NotJson(Parent)
            else if parent.Some? && !parse(parent.value).value.Obj? then r == NotObject(Parent)
            else if !Sandbox(WithParent(parse, entries, parent)).Obj? then r == SandboxNotObject
            else r == Config(ForceNetwork(WithParent(parse, entries, parent)))
  {
    if !generated {
      return Unmerged;
    }
    var entries := Entries(env);
    if entries == [] {
      return Unmerged;
    }
    var parsed, error := ParseEntries(parse, entries);
    if error.Some? {
      return error.value;
    }
    var base := FoldEntries(parse, entries, parsed);
    if parent.Some? {
      var value := parse(parent.value);
      if value.None? {
        return NotJson(Parent);
      }
      if !value.value.Obj? {
        return NotObject(Parent);
      }
      base := DeepMerge(base, value.value.fields);
    }
    assert Obj(base) == WithParent(parse, entries, parent);
    r := Force(base);
  }

  /** Inserts the forced setting, refusing a sandbox entry that is not an object. */
  method Force(config: map<string, Json>) returns (r: Built)
    ensures r == if Sandbox(Obj(config)).Obj? then Config(ForceNetwork(Obj(config))) else SandboxNotObject
  {
    var base := config;
    if SANDBOX !in base {
      base := base[SANDBOX := Obj(map[])];
    }
    if !base[SANDBOX].Obj? {
      return SandboxNotObject;
    }
    base := base[SANDBOX := Obj(base[SANDBOX].fields[NETWORK := Bool(true)])];
    assert base == ForceNetwork(Obj(config)).fields;
    return Config(Obj(base));
  }

  /** Forcing network access sets that one path and leaves every path not through it alone. */
  lemma ForcedPaths(j: Json, path: seq<string>)
    requires j.Obj? && Sandbox(j).Obj?
    ensures Get(ForceNetwork(j), [SANDBOX, NETWORK]) == Some(Bool(true))
    ensures !([SANDBOX, NETWORK] <= path) && Get(j, path).Some? && !Get(j, path).value.Obj? ==>
              Get(ForceNetwork(j), path) == Get(j, path)
  {
    var f := ForceNetwork(j);
    TwoSteps(f, [SANDBOX, NETWORK]);
    assert [SANDBOX, NETWORK][2..] == [];
    if |path| == 1 {
      assert path[1..] == [];
    } else if |path| >= 2 && path[0] == SANDBOX {
      TwoSteps(f, path);
      if SANDBOX in j.fields { TwoSteps(j, path); }
      if path[1] == NETWORK { assert [SANDBOX, NETWORK] <= path; }
    }
  }

  lemma TwoSteps(j: Json, path: seq<string>)
    requires |path| >= 2 && j.Obj? && path[0] in j.fields
    ensures var inner := j.fields[path[0]];
            Get(j, path) == if inner.Obj? && path[1] in inner.fields then Get(inner.fields[path[1]], path[2..])
                            else None
  {
    assert path[1..][0] == path[1] && path[1..][1..] == path[2..];
  }

  /**
   Whenever a configuration is built it allows network access, and every value of the parent
   environment survives in it at its own path, but for that setting itself.
   */
  lemma BuiltConfigKeepsParent(parse: Parser, entries: seq<string>, parent: string, path: seq<string>, v: Json)
    requires entries != [] && forall i :: 0 <= i < |entries| ==> ParsesToObject(parse, entries[i])
    requires ParsesToObject(parse, parent) && Sandbox(WithParent(parse, entries, Some(parent))).Obj?
    ensures var j := ForceNetwork(WithParent(parse, entries, Some(parent)));
            && Get(j, [SANDBOX, NETWORK]) == Some(Bool(true))
            && (Get(parse(parent).value, path) == Some(v) && !v.Obj? && !([SANDBOX, NETWORK] <= path) ==>
                  Get(j, path) == Some(v))
  {
    var m := WithParent(parse, entries, Some(parent));
    ForcedPaths(m, path);
    if !v.Obj? { MergeAtPath(Folded(parse, entries), parse(parent).value, path, v); }
  }

  // ---- which entry wins ----

  /** The value of one of the raw entries. */
  function ValueOf(parse: Parser, raw: string): Json
    requires ParsesToObject(parse, raw)
  {
    parse(raw).value
  }

  ghost predicate AllParse(parse: Parser, raws: seq<string>) {
    forall i :: 0 <= i < |raws| ==> ParsesToObject(parse, raws[i])
  }

  /** Entry `i` has `v` at the path, and no later entry has or shadows that path. */
  ghost predicate Prevails(parse: Parser, raws: seq<string>, i: int, path: seq<string>, v: Json)
    requires AllParse(parse, raws)
  {
    && 0 <= i < |raws| && Get(ValueOf(parse, raws[i]), path) == Some(v)
    && forall k :: i < k < |raws| ==>
         Get(ValueOf(parse, raws[k]), path).None? && !Shadows(ValueOf(parse, raws[k]), path)
  }

  /** Of any number of entries, the last with a value at a path supplies it, unless a later one shadows the path. */
  lemma {:induction false} FoldedAtPath(parse: Parser, raws: seq<string>, path: seq<string>, v: Json)
    requires raws != [] && AllParse(parse, raws) && !v.Obj?
    ensures Get(Folded(parse, raws), path) == Some(v) <==> exists i :: Prevails(parse, raws, i, path, v)
    decreases |raws|
  {
    var n := |raws| - 1;
    var last := ValueOf(parse, raws[n]);
    if n == 0 {
      assert Prevails(parse, raws, 0, path, v) <==> Get(last, path) == Some(v);
      assert (exists i :: Prevails(parse, raws, i, path, v)) ==> Prevails(parse, raws, 0, path, v);
    } else {
      var front := raws[..n];
      FoldedAtPath(parse, front, path, v);
      MergeAtPath(Folded(parse, front), last, path, v);
      assert Prevails(parse, raws, n, path, v) <==> Get(last, path) == Some(v);
      forall i | 0 <= i < n
        ensures Prevails(parse, raws, i, path, v) <==>
                Prevails(parse, front, i, path, v) && Get(last, path).None? && !Shadows(last, path)
      {
        PrevailsBefore(parse, raws, i, path, v);
      }
      if i :| Prevails(parse, raws, i, path, v) {
        assert i == n || Prevails(parse, front, i, path, v);
      }
      if i :| Prevails(parse, front, i, path, v) {
        assert Get(last, path).None? && !Shadows(last, path) ==> Prevails(parse, raws, i, path, v);
      }
    }
  }

  lemma PrevailsBefore(parse: Parser, raws: seq<string>, i: nat, path: seq<string>, v: Json)
    requires AllParse(parse, raws) && i + 1 < |raws|
    ensures var n := |raws| - 1;
            var last := ValueOf(parse, raws[n]);
            Prevails(parse, raws, i, path, v) <==>
            Prevails(parse, raws[..n], i, path, v) && Get(last, path).None? && !Shadows(last, path)
  {
    var n := |raws| - 1;
    var front := raws[..n];
    assert forall k :: 0 <= k < n ==> front[k] == raws[k];
    if Prevails(parse, front, i, path, v) && Get(ValueOf(parse, raws[n]), path).None?
       && !Shadows(ValueOf(parse, raws[n]), path) {
      forall k | i < k < |raws|
        ensures Get(ValueOf(parse, raws[k]), path).None? && !Shadows(ValueOf(parse, raws[k]), path)
      {
        if k < n { assert front[k] == raws[k]; }
      }
    }
  }

  /** The entries, and after them the parent environment. */
  function Raws(entries: seq<string>, parent: Option<string>): seq<string> {
    entries + if parent.Some? then [parent.value] else []
  }

  lemma ParentComesLast(parse: Parser, entries: seq<string>, parent: Option<string>)
    requires entries != [] && AllParse(parse, entries) && (parent.Some? ==> ParsesToObject(parse, parent.value))
    ensures AllParse(parse, Raws(entries, parent))
    ensures WithParent(parse, entries, parent) == Folded(parse, Raws(entries, parent))
  {
    var raws := Raws(entries, parent);
    if parent.Some? {
      assert raws[..|raws| - 1] == entries && raws[|raws| - 1] == parent.value;
    } else {
      assert raws == entries;
    }
  }

  lemma PrefixOfTwo(path: seq<string>, a: string, b: string)
    requires |path| >= 2
    ensures path[0] == a && path[1] == b ==> [a, b] <= path
  {
  }

  /** Forcing adds no value but its own, and takes none away but what was in its place. */
  lemma ForcedElsewhere(j: Json, path: seq<string>, v: Json)
    requires j.Obj? && Sandbox(j).Obj? && !v.Obj? && !(["sandbox_workspace_write", "network_access"] <= path)
    ensures Get(ForceNetwork(j), path) == Some(v) <==> Get(j, path) == Some(v)
  {
    var f := ForceNetwork(j);
    if |path| == 1 {
      assert path[1..] == [];
    } else if |path| >= 2 && path[0] == SANDBOX {
      TwoSteps(f, path);
      if SANDBOX in j.fields { TwoSteps(j, path); }
      PrefixOfTwo(path, SANDBOX, NETWORK);
    }
  }

  /**
   What a built configuration holds at any path but the forced one: exactly the value of the last source that has one
   there, entries in order and then the parent environment, unless a later source shadows the path.
   */
  lemma BuiltAtPath(parse: Parser, entries: seq<string>, parent: Option<string>, path: seq<string>, v: Json)
    requires entries != [] && AllParse(parse, entries) && (parent.Some? ==> ParsesToObject(parse, parent.value))
    requires Sandbox(WithParent(parse, entries, parent)).Obj? && !v.Obj?
    requires !(["sandbox_workspace_write", "network_access"] <= path)
    ensures AllParse(parse, Raws(entries, parent))
    ensures Get(ForceNetwork(WithParent(parse, entries, parent)), path) == Some(v) <==>
            exists i :: Prevails(parse, Raws(entries, parent), i, path, v)
    ensures Get(ForceNetwork(WithParent(parse, entries, parent)), ["sandbox_workspace_write", "network_access"])
         == Some(Bool(true))
  {
    var w := WithParent(parse, entries, parent);
    ParentComesLast(parse, entries, parent);
    FoldedAtPath(parse, Raws(entries, parent), path, v);
    ForcedElsewhere(w, path, v);
    ForcedPaths(w, path);
  }

  /** The sandbox entry keeps the configuration from being built exactly when it is there and not an object. */
  lemma SandboxExactly(j: Json)
    requires j.Obj?
    ensures Sandbox(j).Obj? <==>
            ("sandbox_workspace_write" in j.fields ==> j.fields["sandbox_workspace_write"].Obj?)
  {
  }

  /** The entries are the values of the variables called CODEX_CONFIG, in the order of the environment. */
  lemma {:induction false} EntriesOfJoined(a: seq<(string, string)>, b: seq<(string, string)>, name: string,
      value: string)
    ensures Entries(a + b) == Entries(a) + Entries(b)
    ensures Entries([(name, value)]) == if name == "CODEX_CONFIG" then [value] else []
  {
    assert [(name, value)][1..] == [];
    if a == [] {
      assert a + b == b;
    } else {
      EntriesOfJoined(a[1..], b, name, value);
      assert (a + b)[0] == a[0] && (a + b)[1..] == a[1..] + b;
    }
  }
}
