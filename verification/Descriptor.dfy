/**
 Building a task descriptor from a form: reading, setting and deleting a value deep
 inside a tree of objects that is changed in place.
 */
module Descriptor {
  import opened Common

  datatype Value = Null | Bool(b: bool) | Number(n: real) | Text(s: string) | Ref(o: Obj)

  /** A JavaScript object or array; an array's elements are the properties 0, 1, and so on. */
  class Obj {
    const isArray: bool
    var props: map<string, Value>

    constructor (isArray: bool)
      ensures this.isArray == isArray && props == map[]
    {
      this.isArray, props := isArray, map[];
    }
  }

  // ----- what a set of objects holds -----

  type Heap = map<Obj, map<string, Value>>

  ghost function Contents(objs: set<Obj>): (h: Heap)
    reads objs
    ensures h.Keys == objs
  {
    map o | o in objs :: o.props
  }

  /** The value a path leads to; None is undefined. */
  function Get(h: Heap, root: Obj, path: seq<string>): Option<Value> {
    if path == [] then Some(Ref(root))
    else
      var v := Get(h, root, path[..|path| - 1]);
      var k := path[|path| - 1];
      if v.Some? && v.value.Ref? && v.value.o in h && k in h[v.value.o] then Some(h[v.value.o][k]) else None
  }

  /** One step beyond an object is what its property holds. */
  lemma GetProperty(h: Heap, root: Obj, p: seq<string>, o: Obj, k: string)
    requires Get(h, root, p) == Some(Ref(o)) && o in h
    ensures Get(h, root, p + [k]) == if k in h[o] then Some(h[o][k]) else None
  {
    var path := p + [k];
    assert path[..|path| - 1] == p && path[|path| - 1] == k;
  }

  /** References stay inside, no object is referred to from two places, and none refers to the root. */
  ghost predicate Tree(h: Heap, root: Obj) {
    && root in h
    && (forall o, k :: o in h && k in h[o] && h[o][k].Ref? ==> h[o][k].o in h && h[o][k].o != root)
    && (forall o, k, p, l :: o in h && k in h[o] && p in h && l in h[p] && h[o][k].Ref? && h[p][l] == h[o][k] ==>
          o == p && k == l)
  }

  /** In a tree an object is reached by one path only. */
  lemma {:induction false} OnePath(h: Heap, root: Obj, p: seq<string>, q: seq<string>)
    requires Tree(h, root) && Get(h, root, p).Some? && Get(h, root, p) == Get(h, root, q) && Get(h, root, p).value.Ref?
    ensures p == q
    decreases |p|
  {
    if p != [] && q != [] {
      var m, n := |p| - 1, |q| - 1;
      OnePath(h, root, p[..m], q[..n]);
      assert p == p[..m] + [p[m]] && q == q[..n] + [q[n]];
    }
  }

  /** One path leads through the other. */
  predicate Comparable(p: seq<string>, q: seq<string>) {
    p <= q || q <= p
  }

  predicate Flat(m: map<string, Value>) {
    forall k :: k in m ==> !m[k].Ref?
  }

  /** Of the objects of h, only o changes, and only in its property k. */
  ghost predicate ChangesOnly(h: Heap, h1: Heap, o: Obj, k: string) {
    && o in h && h.Keys <= h1.Keys
    && (forall x :: x in h && x != o ==> h1[x] == h[x])
    && h1[o] - {k} == h[o] - {k}
  }

  /** Property k of o is deleted, or given a value that refers to no object or to a new one without references. */
  ghost predicate Grafts(h: Heap, h1: Heap, o: Obj, k: string) {
    && ChangesOnly(h, h1, o, k)
    && (forall x :: x in h1 && x !in h ==> Flat(h1[x]))
    && (k in h1[o] && h1[o][k].Ref? ==> h1[o][k].o in h1 && h1[o][k].o !in h)
  }

  lemma GraftKeepsTree(h: Heap, h1: Heap, root: Obj, o: Obj, k: string)
    requires Tree(h, root) && Grafts(h, h1, o, k)
    ensures Tree(h1, root)
  {
    forall x, l | x in h1 && l in h1[x] && h1[x][l].Ref?
      ensures x in h && ((x == o && l == k) || (l in h[x] && h[x][l] == h1[x][l]))
    {
      assert x == o && l != k ==> l in (h1[o] - {k});
    }
  }

  lemma {:induction false} GetStaysInside(h: Heap, root: Obj, q: seq<string>)
    requires Tree(h, root)
    ensures Get(h, root, q).Some? && Get(h, root, q).value.Ref? ==> Get(h, root, q).value.o in h
  {
  }

  lemma SameProperty(h: Heap, h1: Heap, o: Obj, k: string, x: Obj, l: string)
    requires ChangesOnly(h, h1, o, k) && x in h && (x != o || l != k)
    ensures l in h1[x] <==> l in h[x]
    ensures l in h[x] ==> h1[x][l] == h[x][l]
  {
    if x == o {
      assert l in h1[o] <==> l in h1[o] - {k};
      assert l in h[o] <==> l in h[o] - {k};
      assert l in h[o] ==> (h1[o] - {k})[l] == (h[o] - {k})[l];
    }
  }

  /** Only what lies behind the property changes. */
  lemma {:induction false} ElsewhereTheSame(h: Heap, h1: Heap, root: Obj, p: seq<string>, o: Obj, k: string,
                                            q: seq<string>)
    requires Tree(h, root) && Get(h, root, p) == Some(Ref(o)) && ChangesOnly(h, h1, o, k)
    requires !(p + [k] <= q)
    ensures Get(h1, root, q) == Get(h, root, q)
    decreases |q|
  {
    hide Tree, ChangesOnly;
    if q != [] {
      var n := |q| - 1;
      var w := Get(h, root, q[..n]);
      ElsewhereTheSame(h, h1, root, p, o, k, q[..n]);
      GetStaysInside(h, root, q[..n]);
      if w.Some? && w.value.Ref? {
        if w.value.o == o {
          OnePath(h, root, p, q[..n]);
          assert q == p + [q[n]];
        }
        SameProperty(h, h1, o, k, w.value.o, q[n]);
        KeysStay(h, h1, o, k);
      }
    }
  }

  lemma KeysStay(h: Heap, h1: Heap, o: Obj, k: string)
    requires ChangesOnly(h, h1, o, k)
    ensures o in h && h.Keys <= h1.Keys
  {
  }

  lemma ThereTheNew(h: Heap, h1: Heap, root: Obj, p: seq<string>, o: Obj, k: string)
    requires Tree(h, root) && Get(h, root, p) == Some(Ref(o)) && ChangesOnly(h, h1, o, k)
    ensures Get(h1, root, p + [k]) == if k in h1[o] then Some(h1[o][k]) else None
  {
    ElsewhereTheSame(h, h1, root, p, o, k, p);
    GetProperty(h1, root, p, o, k);
  }

  /** Behind a property that holds no object, or an empty one, there is nothing. */
  predicate Hollow(h: Heap, v: Option<Value>) {
    v.Some? && v.value.Ref? ==> v.value.o in h && h[v.value.o] == map[]
  }

  lemma {:induction false} NothingBehind(h: Heap, root: Obj, p: seq<string>, q: seq<string>)
    requires p < q && Hollow(h, Get(h, root, p))
    ensures Get(h, root, q).None?
    decreases |q|
  {
    var n := |q| - 1;
    if |p| < n {
      NothingBehind(h, root, p, q[..n]);
    } else {
      assert q[..n] == p;
    }
  }

  // ----- the path of a field -----

  /** The segments of a target: what lies between the dots, without the empty ones. */
  function Parts(path: string): (r: seq<string>)
    ensures "" !in r
  {
    NonEmpty(Split(path, '.'))
  }

  function Split(s: string, sep: char): (r: seq<string>)
    ensures r != []
  {
    if s == [] then [[]]
    else
      var r := Split(s[1..], sep);
      if s[0] == sep then [[]] + r else [[s[0]] + r[0]] + r[1..]
  }

  function NonEmpty(r: seq<string>): (n: seq<string>)
    ensures "" !in n
  {
    if r == [] then [] else (if r[0] == "" then [] else [r[0]]) + NonEmpty(r[1..])
  }

  // ----- reading, setting and deleting in place -----

  method GetDeep(root: Obj, path: string, ghost objs: set<Obj>) returns (v: Option<Value>)
    requires Tree(Contents(objs), root)
    ensures v == if |Parts(path)| < 2 then None else Get(Contents(objs), root, Parts(path))
  {
    var parts := Parts(path);
    if |parts| < 2 {
      return None;
    }
    ghost var h := Contents(objs);
    v := Some(Ref(root));
    hide Tree, Parts;
    for i := 0 to |parts|
      invariant v == Get(h, root, parts[..i])
    {
      if v.None? || !v.value.Ref? {
        MissingStays(h, root, parts, i);
        return None;
      }
      GetStep(h, root, parts, i);
      hide Get;
      var cur := v.value.o;
      v := if parts[i] in cur.props then Some(cur.props[parts[i]]) else None;
    }
    assert parts[..|parts|] == parts;
  }

  lemma GetStep(h: Heap, root: Obj, parts: seq<string>, i: nat)
    requires Tree(h, root) && i < |parts|
    requires Get(h, root, parts[..i]).Some? && Get(h, root, parts[..i]).value.Ref?
    ensures var o := Get(h, root, parts[..i]).value.o;
            o in h && Get(h, root, parts[..i + 1]) == if parts[i] in h[o] then Some(h[o][parts[i]]) else None
  {
    assert parts[..i + 1][..i] == parts[..i];
    GetStaysInside(h, root, parts[..i]);
  }

  lemma MissingStays(h: Heap, root: Obj, parts: seq<string>, i: nat)
    requires i < |parts| && (Get(h, root, parts[..i]).None? || !Get(h, root, parts[..i]).value.Ref?)
    ensures Get(h, root, parts).None?
  {
    assert parts[..i] < parts;
    NothingBehind(h, root, parts[..i], parts);
  }

  /** Nothing changes that is not on the path or behind it. */
  ghost predicate Beside(h: Heap, h1: Heap, root: Obj, path: seq<string>) {
    forall q :: !Comparable(q, path) ==> Get(h1, root, q) == Get(h, root, q)
  }

  method SetDeep(root: Obj, path: string, value: Value, ghost objs: set<Obj>) returns (ghost all: set<Obj>)
    requires Tree(Contents(objs), root)
    requires value.Ref? ==> value.o !in objs && Flat(value.o.props)
    modifies objs
    ensures objs <= all && fresh(all - objs - (if value.Ref? then {value.o} else {}))
    ensures Tree(Contents(all), root)
    ensures |Parts(path)| < 2 ==> all == objs && Contents(all) == old(Contents(objs))
    ensures |Parts(path)| >= 2 ==>
              && Get(Contents(all), root, Parts(path)) == Some(value)
              && (value.Ref? ==> value.o in all && value.o.props == old(value.o.props))
              && Beside(old(Contents(objs)), Contents(all), root, Parts(path))
  {
    all := objs;
    var parts := Parts(path);
    if |parts| < 2 {
      return;
    }
    ghost var h0 := Contents(objs);
    var cur: Obj := root;
    hide Tree, Get, Beside, Parts;
    GetRoot(h0, root);
    assert parts[..0] == [];
    for i := 0 to |parts| - 1
      invariant objs <= all && fresh(all - objs) && (value.Ref? ==> value.o !in all)
      invariant value.Ref? ==> value.o.props == old(value.o.props)
      invariant Tree(Contents(all), root)
      invariant Get(Contents(all), root, parts[..i]) == Some(Ref(cur)) && cur in all
      invariant Beside(h0, Contents(all), root, parts)
    {
      cur, all := Enter(root, parts, i, cur, h0, all);
    }
    all := Finish(root, parts, cur, value, h0, all);
  }

  /** One turn of the loop: go to the object under the next key, which is created if there is none. */
  method Enter(root: Obj, parts: seq<string>, i: nat, cur: Obj, ghost h0: Heap, ghost objs: set<Obj>)
    returns (next: Obj, ghost all: set<Obj>)
    requires i < |parts| && Tree(Contents(objs), root) && Beside(h0, Contents(objs), root, parts)
    requires Get(Contents(objs), root, parts[..i]) == Some(Ref(cur)) && cur in objs
    modifies objs
    ensures objs <= all && fresh(all - objs)
    ensures Tree(Contents(all), root) && Beside(h0, Contents(all), root, parts)
    ensures Get(Contents(all), root, parts[..i + 1]) == Some(Ref(next)) && next in all
  {
    hide Tree, Get, Beside;
    ghost var h := Contents(objs);
    var k := parts[i];
    all := objs;
    assert parts[..i + 1] == parts[..i] + [k];
    if k !in cur.props || !cur.props[k].Ref? {
      next := new Obj(false);
      Assign(cur, k, Ref(next), objs);
      all := objs + {next};
      CreateStep(h, Contents(all), root, parts, i, cur, next);
      BesideOn(h0, h, Contents(all), root, parts);
    } else {
      next := cur.props[k].o;
      StepInto(h, root, parts[..i], cur, k);
    }
  }

  /** After the loop: the value is assigned. */
  method Finish(root: Obj, parts: seq<string>, cur: Obj, value: Value, ghost h0: Heap, ghost objs: set<Obj>)
    returns (ghost all: set<Obj>)
    requires parts != [] && Tree(Contents(objs), root) && Beside(h0, Contents(objs), root, parts)
    requires Get(Contents(objs), root, parts[..|parts| - 1]) == Some(Ref(cur)) && cur in objs
    requires value.Ref? ==> value.o !in objs && Flat(value.o.props)
    modifies objs
    ensures all == objs + if value.Ref? then {value.o} else {}
    ensures value.Ref? ==> value.o.props == old(value.o.props)
    ensures Tree(Contents(all), root) && Beside(h0, Contents(all), root, parts)
    ensures Get(Contents(all), root, parts) == Some(value)
  {
    hide Tree, Get, Beside;
    ghost var h := Contents(objs);
    Assign(cur, parts[|parts| - 1], value, objs);
    all := objs + if value.Ref? then {value.o} else {};
    WriteStep(h, Contents(all), root, parts, cur, value);
    BesideOn(h0, h, Contents(all), root, parts);
  }

  /** Property k of the object gets a value that is no object, or a new one. */
  method Assign(cur: Obj, k: string, value: Value, ghost objs: set<Obj>)
    requires cur in objs && (value.Ref? ==> value.o !in objs)
    modifies cur
    ensures Contents(objs) == old(Contents(objs))[cur := old(Contents(objs))[cur][k := value]]
    ensures value.Ref? ==> Contents(objs + {value.o}) == Contents(objs)[value.o := old(value.o.props)]
    ensures k in cur.props && cur.props[k] == value
  {
    cur.props := cur.props[k := value];
  }

  lemma GetRoot(h: Heap, root: Obj)
    requires Tree(h, root)
    ensures Get(h, root, []) == Some(Ref(root)) && root in h
    ensures forall path :: Beside(h, h, root, path)
  {
  }

  lemma StepInto(h: Heap, root: Obj, p: seq<string>, o: Obj, k: string)
    requires Tree(h, root) && Get(h, root, p) == Some(Ref(o)) && o in h && k in h[o] && h[o][k].Ref?
    ensures Get(h, root, p + [k]) == Some(h[o][k]) && h[o][k].o in h
  {
    GetProperty(h, root, p, o, k);
  }

  lemma BesideOn(h: Heap, h1: Heap, h2: Heap, root: Obj, path: seq<string>)
    requires Beside(h, h1, root, path) && Beside(h1, h2, root, path)
    ensures Beside(h, h2, root, path)
  {
  }

  lemma CreateGrafts(h: Heap, h1: Heap, o: Obj, k: string, next: Obj)
    requires o in h && next !in h && h1 == h[o := h[o][k := Ref(next)]][next := map[]]
    ensures Grafts(h, h1, o, k) && ChangesOnly(h, h1, o, k)
    ensures o in h1 && k in h1[o] && h1[o][k] == Ref(next) && next in h1 && h1[next] == map[]
  {
  }

  /** A missing step of the path is filled with an empty object. */
  lemma CreateStep(h: Heap, h1: Heap, root: Obj, parts: seq<string>, i: nat, o: Obj, next: Obj)
    requires Tree(h, root) && i < |parts| && Get(h, root, parts[..i]) == Some(Ref(o)) && o in h && next !in h
    requires parts[i] in h[o] ==> !h[o][parts[i]].Ref?
    requires h1 == h[o := h[o][parts[i] := Ref(next)]][next := map[]]
    ensures Tree(h1, root) && Get(h1, root, parts[..i + 1]) == Some(Ref(next))
    ensures Beside(h, h1, root, parts)
  {
    hide Tree, Grafts, ChangesOnly, Get;
    var p, k := parts[..i], parts[i];
    assert parts[..i + 1] == p + [k] && p + [k] <= parts;
    GetProperty(h, root, p, o, k);
    assert Hollow(h, Get(h, root, p + [k]));
    CreateGrafts(h, h1, o, k, next);
    GraftEverywhere(h, h1, root, p, o, k);
    forall q | !Comparable(q, parts)
      ensures Get(h1, root, q) == Get(h, root, q)
    {
      if p + [k] <= q {
        NothingBehind(h, root, p + [k], q);
        NothingBehind(h1, root, p + [k], q);
      }
    }
  }

  /** The last step of the path is given the value. */
  lemma WriteStep(h: Heap, h1: Heap, root: Obj, parts: seq<string>, o: Obj, v: Value)
    requires Tree(h, root) && parts != [] && Get(h, root, parts[..|parts| - 1]) == Some(Ref(o)) && o in h
    requires v.Ref? ==> v.o !in h && v.o in h1 && Flat(h1[v.o])
    requires var h2 := h[o := h[o][parts[|parts| - 1] := v]];
             h1 == if v.Ref? then h2[v.o := h1[v.o]] else h2
    ensures Tree(h1, root) && Get(h1, root, parts) == Some(v)
    ensures Beside(h, h1, root, parts)
  {
    var n := |parts| - 1;
    var p, k := parts[..n], parts[n];
    assert parts == p + [k];
    WriteGrafts(h, h1, o, k, v);
    hide Tree, Grafts, ChangesOnly, Flat, Get;
    GraftEverywhere(h, h1, root, p, o, k);
  }

  lemma WriteGrafts(h: Heap, h1: Heap, o: Obj, k: string, v: Value)
    requires o in h && (v.Ref? ==> v.o !in h && v.o in h1 && Flat(h1[v.o]))
    requires h1 == if v.Ref? then h[o := h[o][k := v]][v.o := h1[v.o]] else h[o := h[o][k := v]]
    ensures Grafts(h, h1, o, k) && ChangesOnly(h, h1, o, k)
    ensures o in h1 && k in h1[o] && h1[o][k] == v
  {
  }

  method DeleteDeep(root: Obj, path: string, ghost objs: set<Obj>)
    requires Tree(Contents(objs), root)
    modifies objs
    ensures Tree(Contents(objs), root)
    ensures |Parts(path)| < 2 ==> Contents(objs) == old(Contents(objs))
    ensures |Parts(path)| >= 2 ==>
              && Get(Contents(objs), root, Parts(path)) == None
              && forall q :: !(Parts(path) <= q) ==> Get(Contents(objs), root, q) == Get(old(Contents(objs)), root, q)
  {
    var parts := Parts(path);
    if |parts| < 2 {
      return;
    }
    ghost var h := Contents(objs);
    var cur: Obj := root;
    hide Tree, Get, Parts;
    GetRoot(h, root);
    assert parts[..0] == [];
    for i := 0 to |parts| - 1
      invariant Contents(objs) == h && Tree(h, root)
      invariant Get(h, root, parts[..i]) == Some(Ref(cur)) && cur in objs
    {
      var k := parts[i];
      assert parts[..i + 1] == parts[..i] + [k];
      if k !in cur.props || !cur.props[k].Ref? {
        StepOff(h, root, parts, i, cur);
        return;
      }
      StepInto(h, root, parts[..i], cur, k);
      cur := cur.props[k].o;
    }
    var k := parts[|parts| - 1];
    Remove(cur, k, objs);
    DeleteGrafts(h, Contents(objs), cur, k);
    assert parts == parts[..|parts| - 1] + [k];
    hide Grafts, ChangesOnly;
    GraftEverywhere(h, Contents(objs), root, parts[..|parts| - 1], cur, k);
  }

  /** Property k of the object is removed. */
  method Remove(cur: Obj, k: string, ghost objs: set<Obj>)
    requires cur in objs
    modifies cur
    ensures Contents(objs) == old(Contents(objs))[cur := old(Contents(objs))[cur] - {k}]
  {
    cur.props := cur.props - {k};
  }

  /** Where a step of the path leads to no object, the path leads nowhere. */
  lemma StepOff(h: Heap, root: Obj, parts: seq<string>, i: nat, o: Obj)
    requires i + 1 < |parts| && Get(h, root, parts[..i]) == Some(Ref(o)) && o in h
    requires parts[i] in h[o] ==> !h[o][parts[i]].Ref?
    ensures Get(h, root, parts) == None
  {
    GetProperty(h, root, parts[..i], o, parts[i]);
    assert parts[..i + 1] == parts[..i] + [parts[i]];
    MissingStays(h, root, parts, i + 1);
  }

  /** All that a graft does. */
  lemma GraftEverywhere(h: Heap, h1: Heap, root: Obj, p: seq<string>, o: Obj, k: string)
    requires Tree(h, root) && Get(h, root, p) == Some(Ref(o)) && Grafts(h, h1, o, k) && ChangesOnly(h, h1, o, k)
    ensures o in h1 && Tree(h1, root)
    ensures Get(h1, root, p + [k]) == if k in h1[o] then Some(h1[o][k]) else None
    ensures forall q :: !(p + [k] <= q) ==> Get(h1, root, q) == Get(h, root, q)
  {
    KeysStay(h, h1, o, k);
    hide Tree, Grafts, ChangesOnly, Get;
    GraftKeepsTree(h, h1, root, o, k);
    ThereTheNew(h, h1, root, p, o, k);
    forall q | !(p + [k] <= q)
      ensures Get(h1, root, q) == Get(h, root, q)
    {
      ElsewhereTheSame(h, h1, root, p, o, k, q);
    }
  }

  lemma DeleteGrafts(h: Heap, h1: Heap, o: Obj, k: string)
    requires o in h && h1 == h[o := h[o] - {k}]
    ensures Grafts(h, h1, o, k) && ChangesOnly(h, h1, o, k)
    ensures o in h1 && k !in h1[o]
  {
  }

  // ----- the form -----

  predicate IsSpace(c: char) {
    c in "\t\n\r \U{0B}\U{0C}\U{A0}\U{1680}\U{2028}\U{2029}\U{202F}\U{205F}\U{3000}\U{FEFF}"
    || '\U{2000}' <= c <= '\U{200A}'
  }

  function TrimLeft(s: string): string {
    if s != [] && IsSpace(s[0]) then TrimLeft(s[1..]) else s
  }

  function TrimRight(s: string): string {
    if s != [] && IsSpace(s[|s| - 1]) then TrimRight(s[..|s| - 1]) else s
  }

  function Trim(s: string): string {
    TrimRight(TrimLeft(s))
  }

  function TrimAll(lines: seq<string>): seq<string> {
    if lines == [] then [] else [Trim(lines[0])] + TrimAll(lines[1..])
  }

  /** The lines of a text, trimmed, without the empty ones. */
  function Lines(raw: string): (r: seq<string>)
    ensures "" !in r
  {
    NonEmpty(TrimAll(Split(raw, '\n')))
  }

  /** A field's control; number is what the raw text reads as, None when that is not a finite number. */
  datatype Control =
    | Checkbox(checked: bool)
    | NumberBox(raw: string, number: Option<real>)
    | TextBox(raw: string)
    | LinesBox(raw: string)

  datatype Field = Field(target: string, control: Control)

  // ----- what splitting, filtering and trimming give -----

  function Joined(parts: seq<string>, sep: char): string
    requires parts != []
  {
    if |parts| == 1 then parts[0] else parts[0] + [sep] + Joined(parts[1..], sep)
  }

  /** The parts hold no separator, and joined by it they are the text. */
  lemma {:induction false} SplitJoins(s: string, sep: char)
    ensures Joined(Split(s, sep), sep) == s
    ensures forall part :: part in Split(s, sep) ==> sep !in part
  {
    if s != [] {
      SplitJoins(s[1..], sep);
      var r := Split(s[1..], sep);
      if s[0] == sep {
        assert ([[]] + r)[1..] == r;
      } else {
        var r1 := [[s[0]] + r[0]] + r[1..];
        assert r1[1..] == r[1..];
      }
    }
  }

  /** Leaving out empty parts keeps the others, in order. */
  lemma {:induction false} NonEmptyIsFilter(a: seq<string>, b: seq<string>)
    ensures NonEmpty(a + b) == NonEmpty(a) + NonEmpty(b)
  {
    if a == [] {
      assert a + b == b;
    } else {
      hide NonEmpty;
      var x, rest := a[0], a[1..];
      assert a == [x] + rest;
      Regroup([x], rest, b);
      NonEmptyIsFilter(rest, b);
      NonEmptyStep(x, rest);
      NonEmptyStep(x, rest + b);
      Regroup([x], NonEmpty(rest), NonEmpty(b));
    }
  }

  lemma Regroup(a: seq<string>, b: seq<string>, c: seq<string>)
    ensures (a + b) + c == a + (b + c)
  {
  }

  lemma NonEmptyStep(x: string, rest: seq<string>)
    ensures NonEmpty([x] + rest) == if x == "" then NonEmpty(rest) else [x] + NonEmpty(rest)
  {
    assert ([x] + rest)[1..] == rest;
  }

  predicate Blank(s: string) {
    forall i :: 0 <= i < |s| ==> IsSpace(s[i])
  }

  /** t is s without the white space around it. */
  ghost predicate IsTrimmed(s: string, t: string) {
    && (exists a, b :: Blank(a) && Blank(b) && s == a + t + b)
    && (t != "" ==> !IsSpace(t[0]) && !IsSpace(t[|t| - 1]))
  }

  lemma {:induction false} LeftTrimmed(s: string) returns (a: string)
    ensures Blank(a) && s == a + TrimLeft(s) && (TrimLeft(s) != "" ==> !IsSpace(TrimLeft(s)[0]))
  {
    if s != [] && IsSpace(s[0]) {
      var rest := LeftTrimmed(s[1..]);
      a := [s[0]] + rest;
    } else {
      a := "";
    }
  }

  lemma {:induction false} RightTrimmed(s: string) returns (b: string)
    ensures Blank(b) && s == TrimRight(s) + b && (TrimRight(s) != "" ==> !IsSpace(TrimRight(s)[|TrimRight(s)| - 1]))
  {
    hide TrimRight, IsSpace;
    TrimRightStep(s);
    b := "";
    if s != [] && IsSpace(s[|s| - 1]) {
      var n := |s| - 1;
      var rest := RightTrimmed(s[..n]);
      b := rest + [s[n]];
      assert s == s[..n] + [s[n]];
    }
  }

  lemma TrimRightStep(s: string)
    ensures TrimRight(s) == if s != [] && IsSpace(s[|s| - 1]) then TrimRight(s[..|s| - 1]) else s
  {
  }

  lemma TrimIsTrimmed(s: string)
    ensures IsTrimmed(s, Trim(s)) && (Trim(s) == "" <==> Blank(s))
  {
    var a := LeftTrimmed(s);
    var b := RightTrimmed(TrimLeft(s));
    assert s == a + Trim(s) + b;
    if Trim(s) != "" {
      assert s[|a|] == Trim(s)[0] == TrimLeft(s)[0];
    }
    hide TrimLeft, TrimRight;
  }

  datatype FormValue = Undefined | Plain(value: Value) | List(lines: seq<string>)

  /** What the form says the field's target should hold. */
  function Wanted(c: Control): FormValue {
    match c
    case Checkbox(checked) => Plain(Bool(checked))
    case NumberBox(raw, n) => if Trim(raw) != "" && n.Some? then Plain(Number(n.value)) else Undefined
    case TextBox(raw) => if Trim(raw) != "" then Plain(Text(Trim(raw))) else Undefined
    case LinesBox(raw) => List(Lines(raw))
  }

  /** Text and number fields are unset exactly when they are blank, or no number; text is stored trimmed. */
  lemma FieldMeans(c: Control)
    ensures match c
            case Checkbox(checked) => Wanted(c) == Plain(Bool(checked))
            case NumberBox(raw, n) => Wanted(c) == if Blank(raw) || n.None? then Undefined else Plain(Number(n.value))
            case TextBox(raw) =>
              if Blank(raw) then Wanted(c) == Undefined
              else Wanted(c).Plain? && Wanted(c).value.Text? && IsTrimmed(raw, Wanted(c).value.s)
            case LinesBox(raw) => Wanted(c).List? && IsLines(raw, Wanted(c).lines)
  {
    if !c.Checkbox? {
      TrimIsTrimmed(c.raw);
    }
    if c.LinesBox? {
      var parts := Split(c.raw, '\n');
      SplitJoins(c.raw, '\n');
      AllTrimmed(parts);
      assert ArePieces(c.raw, parts, TrimAll(parts));
    }
    hide Trim, IsTrimmed, Blank, Split;
  }

  /** parts are the lines of the text, and trimmed is each of them trimmed. */
  ghost predicate ArePieces(raw: string, parts: seq<string>, trimmed: seq<string>) {
    && parts != [] && Joined(parts, '\n') == raw && (forall part :: part in parts ==> '\n' !in part)
    && |trimmed| == |parts| && forall i :: 0 <= i < |parts| ==> IsTrimmed(parts[i], trimmed[i])
  }

  /** The lines are those of the text, trimmed, in order, without the empty ones. */
  ghost predicate IsLines(raw: string, lines: seq<string>) {
    exists parts, trimmed :: ArePieces(raw, parts, trimmed) && lines == NonEmpty(trimmed)
  }

  lemma {:induction false} AllTrimmed(lines: seq<string>)
    ensures |TrimAll(lines)| == |lines| && forall i :: 0 <= i < |lines| ==> IsTrimmed(lines[i], TrimAll(lines)[i])
  {
    if lines != [] {
      AllTrimmed(lines[1..]);
      TrimIsTrimmed(lines[0]);
      assert TrimAll(lines)[1..] == TrimAll(lines[1..]);
    }
    hide Trim, IsTrimmed;
  }

  function Index(i: nat): (s: string)
    ensures s != ""
  {
    (if i < 10 then "" else Index(i / 10)) + ["0123456789"[i % 10]]
  }

  function Elements(lines: seq<string>): map<string, Value> {
    if lines == [] then map[]
    else
      var n := |lines| - 1;
      Elements(lines[..n])[Index(n) := Text(lines[n])]
  }

  lemma {:induction false} IndexIsInjective(i: nat, j: nat)
    requires Index(i) == Index(j)
    ensures i == j
  {
    var a, b := Index(i), Index(j);
    assert a[|a| - 1] == "0123456789"[i % 10] && b[|b| - 1] == "0123456789"[j % 10];
    assert i % 10 == j % 10;
    if i >= 10 && j >= 10 {
      assert Index(i / 10) == a[..|a| - 1] == Index(j / 10);
      IndexIsInjective(i / 10, j / 10);
    }
  }

  /** The array has line i at i. */
  lemma {:induction false} ElementAt(lines: seq<string>, i: nat)
    requires i < |lines|
    ensures Index(i) in Elements(lines) && Elements(lines)[Index(i)] == Text(lines[i])
  {
    var n := |lines| - 1;
    hide Index;
    if i < n {
      ElementAt(lines[..n], i);
      if Index(i) == Index(n) {
        IndexIsInjective(i, n);
      }
    }
  }

  /** It has nothing else. */
  lemma {:induction false} ElementIsLine(lines: seq<string>, k: string) returns (i: nat)
    requires k in Elements(lines)
    ensures i < |lines| && k == Index(i)
  {
    var n := |lines| - 1;
    hide Index;
    i := n;
    if k != Index(n) {
      i := ElementIsLine(lines[..n], k);
    }
  }

  lemma {:induction false} ElementsAreFlat(lines: seq<string>)
    ensures Flat(Elements(lines))
  {
    if lines != [] {
      ElementsAreFlat(lines[..|lines| - 1]);
    }
  }

  /** The target holds exactly what the form says, or nothing when the form says so. */
  ghost predicate Shows(h: Heap, root: Obj, f: Field) {
    var v := Get(h, root, Parts(f.target));
    match Wanted(f.control)
    case Undefined => v.None?
    case Plain(w) => v == Some(w)
    case List(lines) =>
      v.Some? && v.value.Ref? && v.value.o in h && v.value.o.isArray && h[v.value.o] == Elements(lines)
  }

  /** setDeep and deleteDeep do nothing for a target of fewer than two segments. */
  predicate Deep(f: Field) {
    |Parts(f.target)| >= 2
  }

  /** The path neither leads through nor is led through by the target of a field. */
  ghost predicate Clear(fields: seq<Field>, path: seq<string>) {
    forall j :: 0 <= j < |fields| && Deep(fields[j]) ==> !Comparable(path, Parts(fields[j].target))
  }

  method MakeArray(lines: seq<string>) returns (o: Obj)
    ensures fresh(o) && o.isArray && o.props == Elements(lines)
  {
    o := new Obj(true);
    for i := 0 to |lines|
      invariant o.props == Elements(lines[..i])
    {
      assert lines[..i + 1][..i] == lines[..i];
      o.props := o.props[Index(i) := Text(lines[i])];
    }
    assert lines[..|lines|] == lines;
  }

  /** The body of the loop over the fields. */
  method FillIn(root: Obj, f: Field, ghost objs: set<Obj>) returns (ghost all: set<Obj>)
    requires Tree(Contents(objs), root)
    modifies objs
    ensures objs <= all && fresh(all - objs) && Tree(Contents(all), root)
    ensures !Deep(f) ==> all == objs && Contents(all) == old(Contents(objs))
    ensures Deep(f) ==>
              Shows(Contents(all), root, f) && Beside(old(Contents(objs)), Contents(all), root, Parts(f.target))
  {
    all := objs;
    if f.target == "" {
      return;
    }
    ghost var h := Contents(objs);
    hide Tree;
    match Wanted(f.control)
    case Undefined =>
      DeleteDeep(root, f.target, objs);
    case Plain(v) =>
      PlainIsNoObject(f.control);
      all := SetDeep(root, f.target, v, objs);
    case List(lines) =>
      var o := MakeArray(lines);
      ElementsAreFlat(lines);
      assert Contents(objs) == h;
      all := SetDeep(root, f.target, Ref(o), objs);
  }

  lemma PlainIsNoObject(c: Control)
    ensures Wanted(c).Plain? ==> !Wanted(c).value.Ref?
  {
  }

  /** What one field wrote stays when the next is written on a path beside it. */
  lemma ShowsStays(h: Heap, h1: Heap, root: Obj, f: Field, path: seq<string>)
    requires Shows(h, root, f) && Deep(f) && Tree(h1, root)
    requires Beside(h, h1, root, path) && !Comparable(Parts(f.target), path)
    ensures Shows(h1, root, f)
  {
    var p := Parts(f.target);
    var v := Get(h, root, p);
    assert Get(h1, root, p) == v;
    if Wanted(f.control).List? {
      GetStaysInside(h1, root, p);
      forall k: string
        ensures Get(h1, root, p + [k]) == Get(h, root, p + [k])
      {
        assert (p + [k])[..|p|] == p;
        assert !Comparable(p + [k], path);
      }
      ObjectStays(h, h1, root, p, v.value.o);
    }
  }

  /** An object none of whose properties changes stays what it is. */
  lemma ObjectStays(h: Heap, h1: Heap, root: Obj, p: seq<string>, o: Obj)
    requires Get(h, root, p) == Some(Ref(o)) && Get(h1, root, p) == Some(Ref(o)) && o in h && o in h1
    requires forall k: string :: Get(h1, root, p + [k]) == Get(h, root, p + [k])
    ensures h1[o] == h[o]
  {
    hide Get;
    var was, now := h[o], h1[o];
    forall k: string
      ensures k in now <==> k in was
      ensures k in was ==> now[k] == was[k]
    {
      GetProperty(h, root, p, o, k);
      GetProperty(h1, root, p, o, k);
    }
    assert now == was;
  }

  /** Every field written so far that none since has interfered with shows; and all else is as it was. */
  ghost predicate Filled(h0: Heap, h: Heap, root: Obj, fields: seq<Field>) {
    && (forall i :: 0 <= i < |fields| && Deep(fields[i]) && Clear(fields[i + 1..], Parts(fields[i].target)) ==>
          Shows(h, root, fields[i]))
    && (forall q :: Clear(fields, q) ==> Get(h, root, q) == Get(h0, root, q))
  }

  lemma FilledOn(h0: Heap, h: Heap, h1: Heap, root: Obj, fields: seq<Field>, f: Field)
    requires Filled(h0, h, root, fields) && Tree(h1, root)
    requires Deep(f) ==> Shows(h1, root, f) && Beside(h, h1, root, Parts(f.target))
    requires !Deep(f) ==> h1 == h
    ensures Filled(h0, h1, root, fields + [f])
  {
    hide Shows, Get, Tree, Parts;
    var more := fields + [f];
    forall i | 0 <= i < |more| && Deep(more[i]) && Clear(more[i + 1..], Parts(more[i].target))
      ensures Shows(h1, root, more[i])
    {
      if i < |fields| {
        ClearOn(fields[i + 1..], f, Parts(more[i].target));
        assert more[i + 1..] == fields[i + 1..] + [f];
        if Deep(f) {
          ShowsStays(h, h1, root, fields[i], Parts(f.target));
        }
      }
    }
    forall q | Clear(more, q)
      ensures Get(h1, root, q) == Get(h0, root, q)
    {
      ClearOn(fields, f, q);
    }
  }

  lemma ClearOn(fields: seq<Field>, f: Field, q: seq<string>)
    ensures Clear(fields + [f], q) <==> Clear(fields, q) && (Deep(f) ==> !Comparable(q, Parts(f.target)))
  {
    var more := fields + [f];
    assert forall j :: 0 <= j < |fields| ==> more[j] == fields[j];
    assert more[|fields|] == f;
  }

  /**
   The loop of buildDescriptorFromForm. A target no later field interferes with ends
   up holding exactly its form value, whatever the order of the fields.
   */
  method FillAll(root: Obj, fields: seq<Field>, ghost objs: set<Obj>) returns (ghost all: set<Obj>)
    requires Tree(Contents(objs), root)
    modifies objs
    ensures objs <= all && fresh(all - objs) && Tree(Contents(all), root)
    ensures Filled(old(Contents(objs)), Contents(all), root, fields)
  {
    all := objs;
    ghost var h0 := Contents(objs);
    for n := 0 to |fields|
      invariant objs <= all && fresh(all - objs) && Tree(Contents(all), root)
      invariant Filled(h0, Contents(all), root, fields[..n])
    {
      hide Tree, Filled;
      all := FillNext(root, fields, n, h0, all);
    }
    assert fields[..|fields|] == fields;
  }

  method FillNext(root: Obj, fields: seq<Field>, n: nat, ghost h0: Heap, ghost objs: set<Obj>)
    returns (ghost all: set<Obj>)
    requires Tree(Contents(objs), root) && n < |fields| && Filled(h0, Contents(objs), root, fields[..n])
    modifies objs
    ensures objs <= all && fresh(all - objs) && Tree(Contents(all), root)
    ensures Filled(h0, Contents(all), root, fields[..n + 1])
  {
    hide Tree, Filled, Deep, Shows, Beside, Get, Parts, Wanted, Clear;
    ghost var h := Contents(objs);
    all := FillIn(root, fields[n], objs);
    FilledOn(h0, h, Contents(all), root, fields[..n], fields[n]);
    assert fields[..n + 1] == fields[..n] + [fields[n]];
  }

  // ----- the whole descriptor -----

  /** Property k of the descriptor gets a value. */
  method Put(root: Obj, k: string, value: Value, ghost objs: set<Obj>) returns (ghost all: set<Obj>)
    requires Tree(Contents(objs), root)
    requires value.Ref? ==> value.o !in objs && Flat(value.o.props)
    modifies root
    ensures all == objs + if value.Ref? then {value.o} else {}
    ensures value.Ref? ==> value.o.props == old(value.o.props)
    ensures Tree(Contents(all), root) && Beside(old(Contents(objs)), Contents(all), root, [k])
    ensures Get(Contents(all), root, [k]) == Some(value)
  {
    ghost var h := Contents(objs);
    hide Tree, Get, Beside;
    GetRoot(h, root);
    Assign(root, k, value, objs);
    all := objs + if value.Ref? then {value.o} else {};
    assert [k][..0] == [];
    WriteStep(h, Contents(all), root, [k], root, value);
  }

  ghost predicate HoldsObject(h: Heap, root: Obj, k: string) {
    Get(h, root, [k]).Some? && Get(h, root, [k]).value.Ref?
  }

  lemma RootProperty(h: Heap, root: Obj, k: string)
    requires Tree(h, root)
    ensures Get(h, root, [k]) == if k in h[root] then Some(h[root][k]) else None
  {
    assert [k][..0] == [];
  }

  /** Property k of the descriptor becomes a new empty object, unless it holds an object already. */
  method PutObject(root: Obj, k: string, ghost objs: set<Obj>) returns (ghost all: set<Obj>)
    requires Tree(Contents(objs), root)
    modifies root
    ensures objs <= all && fresh(all - objs)
    ensures Tree(Contents(all), root) && Stepped(old(Contents(objs)), Contents(all), root, k)
    ensures HoldsObject(Contents(all), root, k)
    ensures HoldsObject(old(Contents(objs)), root, k) ==> Contents(all) == old(Contents(objs))
  {
    all := objs;
    RootProperty(Contents(objs), root, k);
    if k !in root.props || !root.props[k].Ref? {
      var o := new Obj(false);
      assert Contents(objs) == old(Contents(objs));
      hide Tree, Get, Beside;
      all := Put(root, k, Ref(o), objs);
    }
  }

  lemma Apart(a: string, b: string)
    requires a != b
    ensures !Comparable([a], [b])
  {
    assert [a][0] == a && [b][0] == b;
  }

  /** What every descriptor starts out with. */
  ghost predicate Defaulted(h: Heap, root: Obj) {
    && Get(h, root, ["schema_version"]) == Some(Text("v1"))
    && HoldsObject(h, root, "capability_tags") && Get(h, root, ["capability_tags"]).value.o.isArray
    && HoldsObject(h, root, "input_spec")
    && HoldsObject(h, root, "output_spec")
  }

  /** The properties that get a default: always the version, and what the base has not in the right form. */
  ghost function Replaced(h: Heap, root: Obj, taskType: string): set<string> {
    {"schema_version"}
    + (if taskType != "" then {"type"} else {})
    + (if HoldsArray(h, root, "capability_tags") then {} else {"capability_tags"})
    + (if HoldsObject(h, root, "input_spec") then {} else {"input_spec"})
    + (if HoldsObject(h, root, "output_spec") then {} else {"output_spec"})
  }

  /** Only what lies at or behind one of the properties differs. */
  ghost predicate SameBut(h: Heap, h1: Heap, root: Obj, ks: set<string>) {
    forall q: seq<string> :: q != [] && q[0] !in ks ==> Get(h1, root, q) == Get(h, root, q)
  }

  /** At most what concerns base[k] changed. */
  ghost predicate Stepped(h: Heap, h1: Heap, root: Obj, k: string) {
    h1 == h || Beside(h, h1, root, [k])
  }

  lemma SteppedKeeps(h0: Heap, h: Heap, h1: Heap, root: Obj, k: string, ks: set<string>, others: set<string>)
    requires SameBut(h0, h, root, ks) && Stepped(h, h1, root, k) && (k in ks || h1 == h) && k !in others
    ensures SameBut(h0, h1, root, ks)
    ensures forall j :: j in others ==> Get(h1, root, [j]) == Get(h, root, [j])
  {
    forall q: seq<string> | q != [] && q[0] !in ks
      ensures Get(h1, root, q) == Get(h0, root, q)
    {
      assert k in ks ==> [k][0] == k && q[0] != k;
      assert k in ks ==> !Comparable(q, [k]);
    }
    forall j | j in others
      ensures Get(h1, root, [j]) == Get(h, root, [j])
    {
      Apart(j, k);
    }
  }

  method PutType(root: Obj, taskType: string, ghost objs: set<Obj>)
    requires Tree(Contents(objs), root)
    modifies root
    ensures Tree(Contents(objs), root) && Stepped(old(Contents(objs)), Contents(objs), root, "type")
    ensures if taskType != "" then Get(Contents(objs), root, ["type"]) == Some(Text(taskType))
            else Contents(objs) == old(Contents(objs))
  {
    if taskType != "" {
      hide Tree, Get, Beside;
      ghost var all := Put(root, "type", Text(taskType), objs);
      assert all == objs;
    }
  }

  predicate HoldsArray(h: Heap, root: Obj, k: string) {
    var v := Get(h, root, [k]);
    v.Some? && v.value.Ref? && v.value.o.isArray
  }

  /** Without a list of capability tags, the descriptor gets the one passed in. */
  method PutCaps(root: Obj, caps: Obj, ghost objs: set<Obj>) returns (ghost all: set<Obj>)
    requires Tree(Contents(objs), root) && caps !in objs && caps.isArray && Flat(caps.props)
    modifies root
    ensures all == objs || all == objs + {caps}
    ensures caps.props == old(caps.props)
    ensures Tree(Contents(all), root) && Stepped(old(Contents(objs)), Contents(all), root, "capability_tags")
    ensures HoldsArray(Contents(all), root, "capability_tags")
    ensures if HoldsArray(old(Contents(objs)), root, "capability_tags")
            then all == objs && Contents(all) == old(Contents(objs))
            else Get(Contents(all), root, ["capability_tags"]) == Some(Ref(caps))
  {
    all := objs;
    RootProperty(Contents(objs), root, "capability_tags");
    if "capability_tags" !in root.props || !root.props["capability_tags"].Ref?
       || !root.props["capability_tags"].o.isArray {
      hide Tree, Get, Beside;
      all := Put(root, "capability_tags", Ref(caps), objs);
    }
  }

  /** The lines of buildDescriptorFromForm before its loop; caps is used as it is, not copied. */
  method Defaults(root: Obj, taskType: string, caps: Obj, ghost objs: set<Obj>) returns (ghost all: set<Obj>)
    requires Tree(Contents(objs), root)
    requires caps !in objs && caps.isArray && Flat(caps.props)
    modifies root
    ensures objs <= all && fresh(all - objs - {caps}) && caps.props == old(caps.props)
    ensures Tree(Contents(all), root) && Defaulted(Contents(all), root)
    ensures taskType != "" ==> Get(Contents(all), root, ["type"]) == Some(Text(taskType))
    ensures SameBut(old(Contents(objs)), Contents(all), root, Replaced(old(Contents(objs)), root, taskType))
    ensures caps in all || !HoldsArray(old(Contents(objs)), root, "capability_tags") ==>
              Get(Contents(all), root, ["capability_tags"]) == Some(Ref(caps))
  {
    ghost var h0 := Contents(objs);
    GetRoot(h0, root);
    hide Tree, Get, Beside, Stepped, SameBut, HoldsArray, HoldsObject, Defaulted, Replaced;
    ghost var h1 := PutVersion(root, taskType, objs);
    ghost var h2 := Contents(objs);
    all := PutCaps(root, caps, objs);
    ghost var h3, h4 := Contents(all), Contents(all);
    h4, all := PutSpecs(root, all);
    AllDefaulted(h0, h1, h2, h3, h4, Contents(all), root, taskType);
  }

  method PutVersion(root: Obj, taskType: string, ghost objs: set<Obj>) returns (ghost mid: Heap)
    requires Tree(Contents(objs), root)
    modifies root
    ensures Tree(Contents(objs), root)
    ensures Stepped(old(Contents(objs)), mid, root, "schema_version")
    ensures Get(mid, root, ["schema_version"]) == Some(Text("v1"))
    ensures Stepped(mid, Contents(objs), root, "type")
    ensures if taskType != "" then Get(Contents(objs), root, ["type"]) == Some(Text(taskType))
            else Contents(objs) == mid
  {
    hide Tree, Get, Beside;
    ghost var all := Put(root, "schema_version", Text("v1"), objs);
    assert all == objs;
    mid := Contents(objs);
    hide Stepped;
    PutType(root, taskType, objs);
  }

  method PutSpecs(root: Obj, ghost objs: set<Obj>) returns (ghost mid: Heap, ghost all: set<Obj>)
    requires Tree(Contents(objs), root)
    modifies root
    ensures objs <= all && fresh(all - objs) && Tree(Contents(all), root)
    ensures Stepped(old(Contents(objs)), mid, root, "input_spec") && HoldsObject(mid, root, "input_spec")
    ensures HoldsObject(old(Contents(objs)), root, "input_spec") ==> mid == old(Contents(objs))
    ensures Stepped(mid, Contents(all), root, "output_spec") && HoldsObject(Contents(all), root, "output_spec")
    ensures HoldsObject(mid, root, "output_spec") ==> Contents(all) == mid
  {
    hide Tree, Get, Beside, HoldsObject, Stepped;
    all := PutObject(root, "input_spec", objs);
    mid := Contents(all);
    all := PutObject(root, "output_spec", all);
  }

  lemma AllDefaulted(h0: Heap, h1: Heap, h2: Heap, h3: Heap, h4: Heap, h5: Heap, root: Obj, taskType: string)
    requires Stepped(h0, h1, root, "schema_version") && Get(h1, root, ["schema_version"]) == Some(Text("v1"))
    requires Stepped(h1, h2, root, "type") && (taskType == "" ==> h2 == h1)
    requires Stepped(h2, h3, root, "capability_tags") && HoldsArray(h3, root, "capability_tags")
    requires HoldsArray(h2, root, "capability_tags") ==> h3 == h2
    requires Stepped(h3, h4, root, "input_spec") && HoldsObject(h4, root, "input_spec")
    requires HoldsObject(h3, root, "input_spec") ==> h4 == h3
    requires Stepped(h4, h5, root, "output_spec") && HoldsObject(h5, root, "output_spec")
    requires HoldsObject(h4, root, "output_spec") ==> h5 == h4
    ensures Defaulted(h5, root) && SameBut(h0, h5, root, Replaced(h0, root, taskType))
    ensures Get(h5, root, ["type"]) == Get(h2, root, ["type"])
    ensures Get(h5, root, ["capability_tags"]) == Get(h3, root, ["capability_tags"])
    ensures HoldsArray(h2, root, "capability_tags") <==> HoldsArray(h0, root, "capability_tags")
  {
    var ks := Replaced(h0, root, taskType);
    assert SameBut(h0, h0, root, ks);
    hide Get, Stepped, SameBut;
    SteppedKeeps(h0, h0, h1, root, "schema_version", ks, {"capability_tags", "input_spec", "output_spec"});
    SteppedKeeps(h0, h1, h2, root, "type", ks, {"schema_version", "capability_tags", "input_spec", "output_spec"});
    SteppedKeeps(h0, h2, h3, root, "capability_tags", ks, {"schema_version", "type", "input_spec", "output_spec"});
    SteppedKeeps(h0, h3, h4, root, "input_spec", ks, {"schema_version", "type", "capability_tags", "output_spec"});
    SteppedKeeps(h0, h4, h5, root, "output_spec", ks, {"schema_version", "type", "capability_tags", "input_spec"});
  }

  /** No target of the form leads through the target of another field. */
  ghost predicate PrefixFree(fields: seq<Field>) {
    forall i, j :: 0 <= i < j < |fields| && Deep(fields[i]) && Deep(fields[j]) ==>
      !Comparable(Parts(fields[i].target), Parts(fields[j].target))
  }

  /**
   Every field whose target no later field interferes with shows in the descriptor;
   so all of them do when the targets are prefix-free. What no target has to do with
   is as the defaults left it, and the page's own list of tags is not written to.
   */
  method BuildDescriptorFromForm(root: Obj, taskType: string, caps: Obj, fields: seq<Field>, ghost objs: set<Obj>)
    returns (ghost all: set<Obj>)
    requires Tree(Contents(objs), root)
    requires caps !in objs && caps.isArray && Flat(caps.props)
    modifies objs, caps
    ensures objs <= all && fresh(all - objs - {caps}) && Tree(Contents(all), root)
    ensures forall i :: 0 <= i < |fields| && Deep(fields[i]) && Clear(fields[i + 1..], Parts(fields[i].target)) ==>
              Shows(Contents(all), root, fields[i])
    ensures PrefixFree(fields) ==> forall i :: 0 <= i < |fields| && Deep(fields[i]) ==>
              Shows(Contents(all), root, fields[i])
    ensures forall q: seq<string> ::
              q != [] && q[0] !in Replaced(old(Contents(objs)), root, taskType) && Clear(fields, q) ==>
                Get(Contents(all), root, q) == Get(old(Contents(objs)), root, q)
    ensures taskType != "" && Clear(fields, ["type"]) ==> Get(Contents(all), root, ["type"]) == Some(Text(taskType))
    ensures !HoldsArray(old(Contents(objs)), root, "capability_tags") && Clear(fields, ["capability_tags"]) ==>
              Get(Contents(all), root, ["capability_tags"]) == Some(Ref(caps))
    ensures Clear(fields, ["schema_version"]) ==> Get(Contents(all), root, ["schema_version"]) == Some(Text("v1"))
    ensures Clear(fields, ["capability_tags"]) ==> caps.props == old(caps.props)
  {
    all := Defaults(root, taskType, caps, objs);
    ghost var h0, h1, tags := old(Contents(objs)), Contents(all), caps.props;
    hide Tree, Get, Filled, Shows, Defaulted, SameBut, Replaced, HoldsArray, Clear, PrefixFree, Deep;
    all := FillAll(root, fields, all);
    assert caps in h1 ==> h1[caps] == tags;
    FilledShows(h0, h1, Contents(all), root, fields, Replaced(h0, root, taskType));
    FilledProperty(h1, Contents(all), root, fields, "type");
    FilledProperty(h1, Contents(all), root, fields, "capability_tags");
    if caps in h1 && Clear(fields, ["capability_tags"]) {
      TagsStay(h1, Contents(all), root, fields, caps);
    }
  }

  lemma FilledProperty(h1: Heap, h: Heap, root: Obj, fields: seq<Field>, k: string)
    requires Filled(h1, h, root, fields)
    ensures Clear(fields, [k]) ==> Get(h, root, [k]) == Get(h1, root, [k])
  {
    hide Get, Clear, Shows;
  }

  lemma FilledShows(h0: Heap, h1: Heap, h: Heap, root: Obj, fields: seq<Field>, ks: set<string>)
    requires SameBut(h0, h1, root, ks) && Defaulted(h1, root) && Filled(h1, h, root, fields)
    ensures forall i :: 0 <= i < |fields| && Deep(fields[i]) && Clear(fields[i + 1..], Parts(fields[i].target)) ==>
              Shows(h, root, fields[i])
    ensures PrefixFree(fields) ==> forall i :: 0 <= i < |fields| && Deep(fields[i]) ==> Shows(h, root, fields[i])
    ensures forall q: seq<string> :: q != [] && q[0] !in ks && Clear(fields, q) ==> Get(h, root, q) == Get(h0, root, q)
    ensures Clear(fields, ["schema_version"]) ==> Get(h, root, ["schema_version"]) == Some(Text("v1"))
  {
    hide Shows, Get, Deep, Parts, HoldsObject;
    if PrefixFree(fields) {
      forall i | 0 <= i < |fields| && Deep(fields[i])
        ensures Shows(h, root, fields[i])
      {
        PrefixFreeIsClear(fields, i);
      }
    }
    hide Clear, PrefixFree;
  }

  lemma PrefixFreeIsClear(fields: seq<Field>, i: nat)
    requires PrefixFree(fields) && i < |fields| && Deep(fields[i])
    ensures Clear(fields[i + 1..], Parts(fields[i].target))
  {
    hide Deep, Parts, Comparable;
    var later := fields[i + 1..];
    forall j | 0 <= j < |later| && Deep(later[j])
      ensures !Comparable(Parts(fields[i].target), Parts(later[j].target))
    {
      assert later[j] == fields[i + 1 + j];
    }
  }

  lemma TagsStay(h1: Heap, h: Heap, root: Obj, fields: seq<Field>, caps: Obj)
    requires Filled(h1, h, root, fields) && Clear(fields, ["capability_tags"]) && Tree(h, root)
    requires Get(h1, root, ["capability_tags"]) == Some(Ref(caps)) && caps in h1
    ensures caps in h && h[caps] == h1[caps]
  {
    var p := ["capability_tags"];
    hide Tree, Get, Shows, Deep;
    GetStaysInside(h, root, p);
    forall k: string
      ensures Get(h, root, p + [k]) == Get(h1, root, p + [k])
    {
      ClearBehind(fields, "capability_tags", k);
      FilledElsewhere(h1, h, root, fields, p + [k]);
    }
    FilledElsewhere(h1, h, root, fields, p);
    hide Filled, Clear;
    ObjectStays(h1, h, root, p, caps);
  }

  lemma FilledElsewhere(h1: Heap, h: Heap, root: Obj, fields: seq<Field>, q: seq<string>)
    requires Filled(h1, h, root, fields) && Clear(fields, q)
    ensures Get(h, root, q) == Get(h1, root, q)
  {
  }

  lemma ClearBehind(fields: seq<Field>, a: string, k: string)
    requires Clear(fields, [a])
    ensures Clear(fields, [a] + [k])
  {
    forall j | 0 <= j < |fields| && Deep(fields[j])
      ensures !Comparable([a] + [k], Parts(fields[j].target))
    {
      var t := Parts(fields[j].target);
      assert !Comparable([a], t);
      assert ([a] + [k])[0] == a;
    }
  }
}
