/** Snapshots of log fields (src/shared/logger/fields.ts): a deep copy of a possibly cyclic object graph. */
module Fields {
  import opened Wrappers

  type Ref = nat

  // A finite number is `Number`; undefined, functions, symbols, bigints, NaN and the infinities are
  // `Unsupported`.
  datatype Value =
    | Null
    | Text(text: string)
    | Flag(flag: bool)
    | Number(number: real)
    | Secret(payload: string)
    | Object(ref: Ref)
    | Unsupported

  // No content: an accessor. In an array also a hole.
  datatype Property = Property(key: string, enumerable: bool, content: Option<Value>)

  // `Foreign` is every object that is neither an array nor has Object.prototype or null for prototype.
  datatype Obj = Array(slots: seq<Option<Value>>) | Plain(properties: seq<Property>) | Foreign

  type Heap = map<Ref, Obj>

  datatype Tree =
    | NullLeaf
    | TextLeaf(string)
    | FlagLeaf(bool)
    | NumberLeaf(real)
    | List(items: seq<Tree>)
    | Record(keys: seq<string>, items: seq<Tree>)

  const REDACTED := "[REDACTED]"

  function Keys(ps: seq<Property>): seq<string> {
    if ps == [] then [] else (if ps[0].enumerable then [ps[0].key] else []) + Keys(ps[1..])
  }

  function Visible(ps: seq<Property>): seq<Option<Value>> {
    if ps == [] then [] else (if ps[0].enumerable then [ps[0].content] else []) + Visible(ps[1..])
  }

  function Shown(ps: seq<Property>): nat {
    if ps == [] then 0 else (if ps[0].enumerable then 1 else 0) + Shown(ps[1..])
  }

  // Exactly the enumerable properties are visible, in their order.
  lemma {:induction false} VisibleAt(ps: seq<Property>, i: nat)
    requires i < |ps|
    ensures |Visible(ps)| == |Keys(ps)| == Shown(ps) && Shown(ps[..i]) <= Shown(ps)
    ensures ps[i].enumerable ==>
              var n := Shown(ps[..i]); n < Shown(ps) && Keys(ps)[n] == ps[i].key && Visible(ps)[n] == ps[i].content
  {
    if i == 0 {
      ShownAll(ps);
    } else {
      assert ps[..i][1..] == ps[1..][..i - 1];
      VisibleAt(ps[1..], i - 1);
    }
  }

  lemma {:induction false} ShownAll(ps: seq<Property>)
    ensures |Visible(ps)| == |Keys(ps)| == Shown(ps)
  {
    if ps == [] {
    } else {
      ShownAll(ps[1..]);
    }
  }

  // What a snapshot visits below an object.
  function Contents(o: Obj): seq<Option<Value>> {
    match o
    case Array(slots) => slots
    case Plain(properties) => Visible(properties)
    case Foreign => []
  }

  // ----- the copy, on values -----

  /** The copy of a value met below the objects in `path`. */
  function Copy(h: Heap, v: Value, path: set<Ref>): Option<Tree>
    decreases h.Keys - path, 0
  {
    match v
    case Null => Some(NullLeaf)
    case Text(text) => Some(TextLeaf(text))
    case Flag(flag) => Some(FlagLeaf(flag))
    case Number(number) => Some(NumberLeaf(number))
    case Secret(_) => Some(TextLeaf(REDACTED))
    case Unsupported => None
    case Object(r) =>
      if r in path || r !in h || h[r].Foreign? then None
      else
        assert r in h.Keys - path && r !in h.Keys - (path + {r});
        var items :- CopyAll(h, Contents(h[r]), path + {r});
        Some(if h[r].Array? then List(items) else Record(Keys(h[r].properties), items))
  }

  function CopyAll(h: Heap, contents: seq<Option<Value>>, path: set<Ref>): (r: Option<seq<Tree>>)
    ensures r.Some? ==> |r.value| == |contents|
    decreases h.Keys - path, 1, |contents|
  {
    if contents == [] then Some([])
    else
      var v :- contents[0];
      var first :- Copy(h, v, path);
      var rest :- CopyAll(h, contents[1..], path);
      Some([first] + rest)
  }

  lemma {:induction false} CopyAllEach(h: Heap, contents: seq<Option<Value>>, path: set<Ref>)
    ensures CopyAll(h, contents, path).Some? <==>
            forall i | 0 <= i < |contents| :: contents[i].Some? && Copy(h, contents[i].value, path).Some?
    ensures CopyAll(h, contents, path).Some? ==>
              var items := CopyAll(h, contents, path).value;
              && |items| == |contents|
              && forall i | 0 <= i < |contents| ::
                   contents[i].Some? && Copy(h, contents[i].value, path) == Some(items[i])
  {
    if contents == [] {
    } else {
      CopyAllEach(h, contents[1..], path);
      forall i | 0 < i < |contents| ensures contents[i] == contents[1..][i - 1] {
      }
    }
  }

  // ----- what a copy is: the tree a finite unfolding gives, with every secret replaced -----

  ghost predicate Unfolds(h: Heap, v: Value, t: Tree)
    decreases t
  {
    match t
    case NullLeaf => v == Null
    case TextLeaf(text) => v == Text(text) || (v.Secret? && text == "[REDACTED]")
    case FlagLeaf(flag) => v == Flag(flag)
    case NumberLeaf(number) => v == Number(number)
    case List(items) =>
      v.Object? && v.ref in h && h[v.ref].Array? && UnfoldAll(h, Contents(h[v.ref]), items)
    case Record(keys, items) =>
      && v.Object? && v.ref in h && h[v.ref].Plain? && keys == Keys(h[v.ref].properties)
      && UnfoldAll(h, Contents(h[v.ref]), items)
  }

  ghost predicate UnfoldAll(h: Heap, contents: seq<Option<Value>>, items: seq<Tree>)
    decreases items
  {
    |contents| == |items| && forall i | 0 <= i < |items| :: contents[i].Some? && Unfolds(h, contents[i].value, items[i])
  }

  lemma {:induction false} CopyUnfolds(h: Heap, v: Value, path: set<Ref>)
    requires Copy(h, v, path).Some?
    ensures Unfolds(h, v, Copy(h, v, path).value)
    decreases h.Keys - path
  {
    if v.Object? {
      var contents := Contents(h[v.ref]);
      var below := path + {v.ref};
      assert v.ref in h.Keys - path && v.ref !in h.Keys - below;
      CopyAllEach(h, contents, below);
      forall i | 0 <= i < |contents|
        ensures Unfolds(h, contents[i].value, Copy(h, contents[i].value, below).value)
      {
        CopyUnfolds(h, contents[i].value, below);
      }
    }
  }

  // A value has at most one finite unfolding.
  lemma {:induction false} OneUnfolding(h: Heap, v: Value, t: Tree, u: Tree)
    requires Unfolds(h, v, t) && Unfolds(h, v, u)
    ensures t == u
    decreases t
  {
    if v.Object? {
      forall i | 0 <= i < |t.items| ensures t.items[i] == u.items[i] {
        OneUnfolding(h, Contents(h[v.ref])[i].value, t.items[i], u.items[i]);
      }
      assert t.items == u.items;
    }
  }

  // ----- when there is one -----

  // A walk goes from objects to what a snapshot visits in them.
  predicate Below(h: Heap, v: Value, c: Value) {
    v.Object? && v.ref in h && Some(c) in Contents(h[v.ref])
  }

  ghost predicate Walk(h: Heap, w: seq<Value>) {
    w != [] && forall i | 0 <= i < |w| - 1 :: Below(h, w[i], w[i + 1])
  }

  predicate Supported(h: Heap, v: Value) {
    match v
    case Unsupported => false
    case Object(r) => r in h && !h[r].Foreign? && None !in Contents(h[r])
    case _ => true
  }

  // The last value of a walk is unsupported, or an object met before on it.
  predicate Bad(h: Heap, w: seq<Value>)
    requires w != []
  {
    var last := w[|w| - 1];
    !Supported(h, last) || (last.Object? && last in w[..|w| - 1])
  }

  lemma Longer(h: Heap, v: Value, w: seq<Value>)
    requires Walk(h, w) && Below(h, v, w[0])
    ensures Walk(h, [v] + w)
    ensures Bad(h, w) || w[|w| - 1] == v ==> Bad(h, [v] + w)
  {
    hide Supported;
    var longer := [v] + w;
    forall k | 0 <= k < |longer| - 1 ensures Below(h, longer[k], longer[k + 1]) {
      if k > 0 { assert Below(h, w[k - 1], w[k - 1 + 1]); }
    }
    assert longer[..|longer| - 1] == [v] + w[..|w| - 1];
    if w[|w| - 1] == v { assert longer[0] == v; }
  }

  lemma {:induction false} FailureWalk(h: Heap, v: Value, path: set<Ref>) returns (w: seq<Value>)
    requires Copy(h, v, path).None?
    ensures Walk(h, w) && w[0] == v
    ensures Bad(h, w) || (w[|w| - 1].Object? && w[|w| - 1].ref in path)
    decreases h.Keys - path
  {
    w := [v];
    if v.Object? && v.ref !in path && Supported(h, v) {
      var contents := Contents(h[v.ref]);
      var below := path + {v.ref};
      assert v.ref in h.Keys - path && v.ref !in h.Keys - below;
      CopyAllEach(h, contents, below);
      var i :| 0 <= i < |contents| && (contents[i].None? || Copy(h, contents[i].value, below).None?);
      assert contents[i] in contents;
      var c := contents[i].value;
      var rest := FailureWalk(h, c, below);
      w := [v] + rest;
      assert w[|w| - 1] == rest[|rest| - 1];
      Longer(h, v, rest);
    }
  }

  // Along a walk finite unfoldings get smaller, so none meets an object again.
  lemma {:induction false} WalkShrinks(h: Heap, w: seq<Value>, t: Tree) returns (u: Tree)
    requires Walk(h, w) && Unfolds(h, w[0], t)
    ensures Unfolds(h, w[|w| - 1], u) && Size(u) + |w| - 1 <= Size(t)
  {
    u := t;
    if |w| > 1 {
      assert Below(h, w[0], w[1]);
      var contents := Contents(h[w[0].ref]);
      var i :| 0 <= i < |contents| && contents[i] == Some(w[1]);
      SizeBelow(t.items, i);
      var rest := w[1..];
      assert forall k | 0 <= k < |rest| - 1 :: Below(h, rest[k], rest[k + 1]);
      u := WalkShrinks(h, rest, t.items[i]);
    }
  }

  function Size(t: Tree): nat {
    match t
    case List(items) => 1 + SizeAll(items)
    case Record(_, items) => 1 + SizeAll(items)
    case _ => 0
  }

  function SizeAll(items: seq<Tree>): nat {
    if items == [] then 0 else Size(items[0]) + SizeAll(items[1..])
  }

  lemma {:induction false} SizeBelow(items: seq<Tree>, i: nat)
    requires i < |items|
    ensures Size(items[i]) <= SizeAll(items)
  {
    if i == 0 {
    } else {
      SizeBelow(items[1..], i - 1);
    }
  }

  lemma UnfoldsSupported(h: Heap, v: Value, t: Tree)
    requires Unfolds(h, v, t)
    ensures Supported(h, v)
  {
  }

  lemma NoBadWalk(h: Heap, w: seq<Value>, t: Tree)
    requires Walk(h, w) && Unfolds(h, w[0], t)
    ensures !Bad(h, w)
  {
    var last := w[|w| - 1];
    var u := WalkShrinks(h, w, t);
    assert Supported(h, last) by { UnfoldsSupported(h, last, u); }
    if last.Object? && last in w[..|w| - 1] {
      var i :| 0 <= i < |w| - 1 && w[i] == last;
      hide Unfolds, Supported, Size, Below;
      var a := WalkShrinks(h, w[..i + 1], t);
      var b := WalkShrinks(h, w[i..], a);
      OneUnfolding(h, last, a, b);
    }
  }

  /** A snapshot succeeds exactly when no walk from the value reaches something unsupported or comes back
      to an object on it; shared objects are allowed. It then returns the value's one finite unfolding
      with secrets replaced. */
  lemma CopyCorrect(h: Heap, v: Value)
    ensures Copy(h, v, {}).Some? <==> forall w | Walk(h, w) && w[0] == v :: !Bad(h, w)
    ensures forall t :: Copy(h, v, {}) == Some(t) <==> Unfolds(h, v, t)
  {
    var copy := Copy(h, v, {});
    if copy.Some? {
      CopyUnfolds(h, v, {});
      forall w | Walk(h, w) && w[0] == v ensures !Bad(h, w) {
        NoBadWalk(h, w, copy.value);
      }
      forall t | Unfolds(h, v, t) ensures t == copy.value {
        OneUnfolding(h, v, t, copy.value);
      }
    } else {
      var w := FailureWalk(h, v, {});
      forall t ensures !Unfolds(h, v, t) {
        if Unfolds(h, v, t) { NoBadWalk(h, w, t); }
      }
    }
  }

  // ----- secrets -----

  predicate AlikeContent(a: Option<Value>, b: Option<Value>) {
    a == b || (a.Some? && b.Some? && a.value.Secret? && b.value.Secret?)
  }

  // The same graph but for what its secrets hold.
  ghost predicate Alike(g: Heap, h: Heap) {
    && g.Keys == h.Keys
    && forall r | r in g ::
         match g[r]
         case Array(slots) => h[r].Array? && |h[r].slots| == |slots|
                              && forall i | 0 <= i < |slots| :: AlikeContent(slots[i], h[r].slots[i])
         case Plain(ps) => h[r].Plain? && |h[r].properties| == |ps|
                           && forall i | 0 <= i < |ps| :: AlikeProperty(ps[i], h[r].properties[i])
         case Foreign => h[r].Foreign?
  }

  predicate AlikeProperty(p: Property, q: Property) {
    p.key == q.key && p.enumerable == q.enumerable && AlikeContent(p.content, q.content)
  }

  lemma {:induction false} VisibleAlike(ps: seq<Property>, qs: seq<Property>)
    requires |ps| == |qs| && forall i | 0 <= i < |ps| :: AlikeProperty(ps[i], qs[i])
    ensures Keys(ps) == Keys(qs) && |Visible(ps)| == |Visible(qs)|
    ensures forall i | 0 <= i < |Visible(ps)| :: AlikeContent(Visible(ps)[i], Visible(qs)[i])
  {
    if ps == [] {
    } else {
      assert AlikeProperty(ps[0], qs[0]);
      VisibleAlike(ps[1..], qs[1..]);
    }
  }

  /** What secrets hold has no influence on a snapshot, nor on whether there is one. */
  lemma {:induction false} SecretsDoNotShow(g: Heap, h: Heap, v: Value, u: Value, path: set<Ref>)
    requires Alike(g, h) && AlikeContent(Some(v), Some(u))
    ensures Copy(g, v, path) == Copy(h, u, path)
    decreases g.Keys - path, 0
  {
    if v.Object? && v.ref !in path && v.ref in g {
      var below := path + {v.ref};
      assert v.ref in g.Keys - path && v.ref !in g.Keys - below;
      var a, b := g[v.ref], h[v.ref];
      if a.Plain? { VisibleAlike(a.properties, b.properties); }
      SecretsInAll(g, h, Contents(a), Contents(b), below);
    }
  }

  lemma {:induction false} SecretsInAll(g: Heap, h: Heap, a: seq<Option<Value>>, b: seq<Option<Value>>, path: set<Ref>)
    requires Alike(g, h) && |a| == |b| && forall i | 0 <= i < |a| :: AlikeContent(a[i], b[i])
    ensures CopyAll(g, a, path) == CopyAll(h, b, path)
    decreases g.Keys - path, 1, |a|
  {
    if a == [] {
    } else {
      if a[0].Some? { SecretsDoNotShow(g, h, a[0].value, b[0].value, path); }
      SecretsInAll(g, h, a[1..], b[1..], path);
    }
  }

  // ----- the program: one set of parents, added to and deleted from in place -----

  class Parents {
    var members: set<Ref>

    constructor ()
      ensures members == {}
    {
      members := {};
    }

    /** Computes the copy and leaves the parents as it found them, on success and on failure. */
    method Snapshot(h: Heap, v: Value) returns (copy: Option<Tree>)
      modifies this
      ensures copy == Copy(h, v, old(members))
      ensures members == old(members)
      decreases h.Keys - members, 0
    {
      match v {
        case Null => return Some(NullLeaf);
        case Text(text) => return Some(TextLeaf(text));
        case Flag(flag) => return Some(FlagLeaf(flag));
        case Number(number) => return Some(NumberLeaf(number));
        case Secret(_) => return Some(TextLeaf(REDACTED));
        case Unsupported => return None;
        case Object(r) =>
          if r in members || r !in h { return None; }
          ghost var path := members;
          assert r in h.Keys - path && r !in h.Keys - (path + {r});
          members := members + {r};
          copy := SnapshotObject(h, r);
          members := members - {r};
          assert members == path;
      }
    }

    // The body of the try block; its finally clause is the caller's next statement.
    method SnapshotObject(h: Heap, r: Ref) returns (copy: Option<Tree>)
      requires r in h
      modifies this
      ensures members == old(members)
      ensures copy == if h[r].Foreign? then None
                      else match CopyAll(h, Contents(h[r]), old(members))
                           case None => None
                           case Some(items) =>
                             Some(if h[r].Array? then List(items) else Record(Keys(h[r].properties), items))
      decreases h.Keys - members, 1
    {
      hide Copy, CopyAll, After, Keys, Visible;
      AfterNothing(h, members);
      match h[r] {
        case Foreign => return None;
        case Array(slots) =>
          var items: seq<Tree> := [];
          assert slots[0..] == slots;
          for i := 0 to |slots|
            invariant members == old(members)
            invariant CopyAll(h, slots, members) == After(items, CopyAll(h, slots[i..], members))
          {
            assert slots[i..][1..] == slots[i + 1..];
            AfterNext(h, items, slots[i..], members);
            if slots[i].None? { return None; }
            var item := Snapshot(h, slots[i].value);
            if item.None? { return None; }
            items := items + [item.value];
          }
          return Some(List(items));
        case Plain(properties) =>
          var keys: seq<string>, items: seq<Tree> := [], [];
          assert properties[0..] == properties;
          for i := 0 to |properties|
            invariant members == old(members)
            invariant Keys(properties) == keys + Keys(properties[i..])
            invariant CopyAll(h, Visible(properties), members)
                      == After(items, CopyAll(h, Visible(properties[i..]), members))
          {
            assert properties[i..][1..] == properties[i + 1..];
            FirstProperty(properties[i..]);
            var p := properties[i];
            if p.enumerable {
              AfterNext(h, items, Visible(properties[i..]), members);
              if p.content.None? { return None; }
              var item := Snapshot(h, p.content.value);
              if item.None? { return None; }
              keys, items := keys + [p.key], items + [item.value];
            }
          }
          assert properties[|properties|..] == [] && keys + [] == keys;
          return Some(Record(keys, items));
      }
    }
  }

  function After(done: seq<Tree>, rest: Option<seq<Tree>>): Option<seq<Tree>> {
    if rest.None? then None else Some(done + rest.value)
  }

  lemma AfterNext(h: Heap, done: seq<Tree>, contents: seq<Option<Value>>, path: set<Ref>)
    requires contents != []
    ensures After(done, CopyAll(h, contents, path))
            == if contents[0].None? || Copy(h, contents[0].value, path).None? then None
               else After(done + [Copy(h, contents[0].value, path).value], CopyAll(h, contents[1..], path))
  {
    hide Copy;
    if CopyAll(h, contents, path).Some? {
      var first, rest := Copy(h, contents[0].value, path).value, CopyAll(h, contents[1..], path).value;
      assert done + ([first] + rest) == done + [first] + rest;
    }
  }

  lemma FirstProperty(ps: seq<Property>)
    requires ps != []
    ensures Keys(ps) == (if ps[0].enumerable then [ps[0].key] else []) + Keys(ps[1..])
    ensures Visible(ps) == if ps[0].enumerable then [ps[0].content] + Visible(ps[1..]) else Visible(ps[1..])
  {
  }

  lemma AfterNothing(h: Heap, path: set<Ref>)
    ensures CopyAll(h, [], path) == Some([]) && Keys([]) == [] && Visible([]) == []
    ensures forall rest :: After([], rest) == rest
    ensures forall done :: After(done, Some([])) == Some(done) && After(done, None) == None
  {
    forall rest: Option<seq<Tree>> ensures After([], rest) == rest {
      if rest.Some? { assert [] + rest.value == rest.value; }
    }
    forall done: seq<Tree> ensures After(done, Some([])) == Some(done) {
      assert done + [] == done;
    }
  }
}
