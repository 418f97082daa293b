/**
 * The auto-persisting JSON store of stormbot/storage.py.
 *
 * `Storage` is a dictionary proxy over a JSON document; reading a nested
 * dictionary or list gives another proxy, and every write through any proxy
 * rewrites the whole document to the store's file.
 *
 * The document is a `Json` value. A container carries a `proxied` flag when
 * it is a proxy object stored by `__setitem__` (its identity is then part of
 * the tree); containers that came from the file or from `insert` are raw.
 * A proxy is a `View`: either a path from the root (the proxy wraps a
 * container of the tree, so writes through it reach the file) or a private
 * container of its own (the proxy was built from an empty raw container,
 * which `cache or {}` / `cache or []` replaced by a fresh one).
 */
module Storage {
  import opened Wrappers

  datatype Json =
    | Null
    | Bool(b: bool)
    | Num(n: int)
    | Str(s: string)
    | Arr(items: seq<Json>, proxied: bool)
    | Obj(fields: seq<(string, Json)>, proxied: bool)

  datatype Kind = DictKind | ListKind

  /** One step from a container to an element: a dictionary key or a list position. */
  datatype Step = Key(k: string) | Index(i: nat)

  /** A proxy: attached to the container at `path`, or owning a detached container. */
  datatype View = Attached(kind: Kind, path: seq<Step>) | Detached(local: Json)

  /** What `__getitem__` hands back: a scalar as is, or a proxy. */
  datatype Value = Scalar(json: Json) | Proxy(view: View)

  datatype StoreError = KeyError | IndexError | TypeError

  /** The store itself: the dictionary proxy over the document root. */
  const Root: View := Attached(DictKind, [])

  predicate IsContainer(j: Json)
  {
    j.Arr? || j.Obj?
  }

  predicate Holds(kind: Kind, j: Json)
  {
    (kind == DictKind && j.Obj?) || (kind == ListKind && j.Arr?)
  }

  function KindOf(j: Json): Kind
    requires IsContainer(j)
  {
    if j.Obj? then DictKind else ListKind
  }

  predicate DistinctKeys(fields: seq<(string, Json)>)
  {
    forall i, j :: 0 <= i < j < |fields| ==> fields[i].0 != fields[j].0
  }

  /** A document whose dictionaries have distinct keys at every level. */
  predicate WF(j: Json)
  {
    match j
    case Arr(items, _) => forall i :: 0 <= i < |items| ==> WF(items[i])
    case Obj(fields, _) => DistinctKeys(fields) && forall i :: 0 <= i < |fields| ==> WF(fields[i].1)
    case _ => true
  }

  /** The JSON text `dump` writes: `ProxyEncoder` writes each proxy as its cache. */
  function Plain(j: Json): (p: Json)
    ensures j.Arr? <==> p.Arr?
    ensures j.Obj? <==> p.Obj?
    ensures !IsContainer(j) ==> p == j
    ensures p.Arr? ==> !p.proxied && |p.items| == |j.items|
    ensures p.Obj? ==> (!p.proxied && |p.fields| == |j.fields| &&
      forall i :: 0 <= i < |p.fields| ==> p.fields[i].0 == j.fields[i].0)
  {
    match j
    case Arr(items, _) => Arr(seq(|items|, i requires 0 <= i < |items| => Plain(items[i])), false)
    case Obj(fields, _) => Obj(seq(|fields|, i requires 0 <= i < |fields| => (fields[i].0, Plain(fields[i].1))), false)
    case _ => j
  }

  /** Plain JSON data as Python code hands it to the store: no proxies inside. */
  predicate IsData(j: Json)
  {
    WF(j) && Plain(j) == j
  }

  /** The position of key `k`: its first occurrence. */
  function Find(fields: seq<(string, Json)>, k: string): (r: Option<nat>)
    ensures r.Some? ==> r.value < |fields| && fields[r.value].0 == k
    ensures r.Some? ==> forall i :: 0 <= i < r.value ==> fields[i].0 != k
    ensures r.None? ==> forall i :: 0 <= i < |fields| ==> fields[i].0 != k
  {
    if fields == [] then None
    else if fields[0].0 == k then Some(0)
    else match Find(fields[1..], k)
      case None => None
      case Some(i) => Some(i + 1)
  }

  /** `d.get(k)`. */
  function ValueOf(fields: seq<(string, Json)>, k: string): (r: Option<Json>)
  {
    match Find(fields, k)
    case None => None
    case Some(i) => Some(fields[i].1)
  }

  /** With distinct keys, the value of a key is the one stored beside it. */
  lemma ValueAt(fields: seq<(string, Json)>, i: nat)
    requires DistinctKeys(fields) && i < |fields|
    ensures ValueOf(fields, fields[i].0) == Some(fields[i].1)
  {
    var r := Find(fields, fields[i].0);
    assert r.Some? && r.value <= i;
  }

  /** Two dictionaries with the same keys in the same places find each key at the same place. */
  lemma FindSameKeys(a: seq<(string, Json)>, b: seq<(string, Json)>)
    requires |a| == |b| && forall i :: 0 <= i < |a| ==> a[i].0 == b[i].0
    ensures forall k :: Find(a, k) == Find(b, k)
  {
    forall k ensures Find(a, k) == Find(b, k) {
      var ra, rb := Find(a, k), Find(b, k);
      if ra.Some? && rb.Some? {
        assert !(ra.value < rb.value) && !(rb.value < ra.value);
      }
    }
  }

  /** Appending a new key leaves every other key where it was. */
  lemma {:induction false} FindAppend(fields: seq<(string, Json)>, k: string, v: Json)
    requires Find(fields, k).None?
    ensures Find(fields + [(k, v)], k) == Some(|fields|)
    ensures forall k2 :: k2 != k ==> Find(fields + [(k, v)], k2) == Find(fields, k2)
  {
    if fields != [] {
      assert (fields + [(k, v)])[1..] == fields[1..] + [(k, v)];
      FindAppend(fields[1..], k, v);
    }
  }

  /**
   * Python's `d[k] = v` on an ordered dictionary: an existing key keeps its
   * place and gets the new value, a new key goes last.
   */
  function Assign(fields: seq<(string, Json)>, k: string, v: Json): (r: seq<(string, Json)>)
    ensures ValueOf(r, k) == Some(v)
    ensures forall k2 :: k2 != k ==> ValueOf(r, k2) == ValueOf(fields, k2)
    ensures |r| == |fields| + (if ValueOf(fields, k).Some? then 0 else 1)
    ensures DistinctKeys(fields) ==> DistinctKeys(r)
  {
    match Find(fields, k)
    case Some(i) =>
      FindSameKeys(fields[i := (k, v)], fields);
      fields[i := (k, v)]
    case None =>
      FindAppend(fields, k, v);
      fields + [(k, v)]
  }

  /** Python's `del d[k]` for the key at position `i`. */
  function Remove(fields: seq<(string, Json)>, i: nat): (r: seq<(string, Json)>)
    requires i < |fields|
    ensures |r| == |fields| - 1
    ensures forall j :: 0 <= j < |r| ==> r[j] == (if j < i then fields[j] else fields[j + 1])
  {
    fields[..i] + fields[i + 1..]
  }

  /** Deleting a key drops that key and no other. */
  lemma RemoveKeeps(fields: seq<(string, Json)>, i: nat)
    requires DistinctKeys(fields) && i < |fields|
    ensures DistinctKeys(Remove(fields, i))
    ensures ValueOf(Remove(fields, i), fields[i].0).None?
    ensures forall k2 :: k2 != fields[i].0 ==> ValueOf(Remove(fields, i), k2) == ValueOf(fields, k2)
  {
    var r := Remove(fields, i);
    forall k2 | k2 != fields[i].0 ensures ValueOf(r, k2) == ValueOf(fields, k2) {
      match Find(fields, k2) {
        case None =>
        case Some(j) =>
          var jr := if j < i then j else j - 1;
          assert r[jr] == fields[j];
          ValueAt(r, jr);
          ValueAt(fields, j);
      }
    }
  }

  /** The element one step below a container. */
  function Child(j: Json, s: Step): (r: Option<Json>)
    ensures r.Some? ==> (j.Obj? && s.Key?) || (j.Arr? && s.Index?)
    ensures r.Some? && WF(j) ==> WF(r.value)
  {
    if j.Obj? && s.Key? then
      match Find(j.fields, s.k)
      case None => None
      case Some(i) => Some(j.fields[i].1)
    else if j.Arr? && s.Index? && s.i < |j.items| then Some(j.items[s.i])
    else None
  }

  /** The container with the element at step `s` replaced by `c`. */
  function Replace(j: Json, s: Step, c: Json): (r: Json)
    requires Child(j, s).Some?
    ensures Child(r, s) == Some(c)
    ensures forall s2 :: s2 != s ==> Child(r, s2) == Child(j, s2)
    ensures WF(j) && WF(c) ==> WF(r)
    ensures r.Obj? == j.Obj? && r.Arr? == j.Arr?
  {
    if j.Obj? then
      var i := Find(j.fields, s.k).value;
      var f := j.fields[i := (s.k, c)];
      FindSameKeys(f, j.fields);
      Obj(f, j.proxied)
    else
      Arr(j.items[s.i := c], j.proxied)
  }

  /** The element at the end of `path`, if every step exists. */
  function At(j: Json, path: seq<Step>): Option<Json>
    decreases |path|
  {
    if path == [] then Some(j)
    else match Child(j, path[0])
      case None => None
      case Some(c) => At(c, path[1..])
  }

  /** The document with the element at `path` replaced by `sub`. */
  function Put(j: Json, path: seq<Step>, sub: Json): Json
    requires At(j, path).Some?
    decreases |path|
  {
    if path == [] then sub
    else Replace(j, path[0], Put(Child(j, path[0]).value, path[1..], sub))
  }

  /** One step into the dumped document reads the dump of the same element. */
  lemma ChildPlain(j: Json, s: Step)
    ensures Child(Plain(j), s) == if Child(j, s).Some? then Some(Plain(Child(j, s).value)) else None
  {
    if j.Obj? && s.Key? {
      FindSameKeys(Plain(j).fields, j.fields);
    }
  }

  /**
   * The dump reaches every depth: whatever sits at a path of the cache, its
   * dump sits at the same path of the dumped document, and a path missing
   * from one is missing from the other.
   */
  lemma {:induction false} AtPlain(j: Json, path: seq<Step>)
    ensures At(Plain(j), path) == if At(j, path).Some? then Some(Plain(At(j, path).value)) else None
    decreases |path|
  {
    if path != [] {
      ChildPlain(j, path[0]);
      if Child(j, path[0]).Some? {
        AtPlain(Child(j, path[0]).value, path[1..]);
      }
    }
  }

  lemma {:induction false} AtWF(j: Json, path: seq<Step>)
    requires WF(j) && At(j, path).Some?
    ensures WF(At(j, path).value)
    decreases |path|
  {
    if path != [] {
      AtWF(Child(j, path[0]).value, path[1..]);
    }
  }

  /** Below a replaced element, the container reads as the new element does. */
  lemma AtReplace(j: Json, s: Step, c: Json, q: seq<Step>)
    requires Child(j, s).Some?
    ensures At(Replace(j, s, c), [s] + q) == At(c, q)
  {
    assert ([s] + q)[0] == s && ([s] + q)[1..] == q;
  }

  /** After a replacement at `path`, everything below `path` is the new element. */
  lemma {:induction false} AtPut(j: Json, path: seq<Step>, sub: Json, q: seq<Step>)
    requires At(j, path).Some?
    ensures At(Put(j, path, sub), path + q) == At(sub, q)
    decreases |path|
  {
    if path == [] {
      assert path + q == q;
    } else {
      var c := Child(j, path[0]).value;
      var below := Put(c, path[1..], sub);
      calc {
        At(Put(j, path, sub), path + q);
        { assert path + q == [path[0]] + (path[1..] + q); }
        At(Replace(j, path[0], below), [path[0]] + (path[1..] + q));
        { AtReplace(j, path[0], below, path[1..] + q); }
        At(below, path[1..] + q);
        { AtPut(c, path[1..], sub, q); }
        At(sub, q);
      }
    }
  }

  lemma {:induction false} PutWF(j: Json, path: seq<Step>, sub: Json)
    requires WF(j) && WF(sub) && At(j, path).Some?
    ensures WF(Put(j, path, sub))
    decreases |path|
  {
    if path != [] {
      PutWF(Child(j, path[0]).value, path[1..], sub);
    }
  }

  /** A second replacement at the same path overrides the first. */
  lemma {:induction false} PutPut(j: Json, path: seq<Step>, a: Json, b: Json)
    requires At(j, path).Some?
    ensures At(Put(j, path, a), path).Some?
    ensures Put(Put(j, path, a), path, b) == Put(j, path, b)
    decreases |path|
  {
    AtPut(j, path, a, []);
    assert path + [] == path;
    if path != [] {
      var s, c := path[0], Child(j, path[0]).value;
      PutPut(c, path[1..], a, b);
      var once := Replace(j, s, Put(c, path[1..], a));
      assert Child(once, s) == Some(Put(c, path[1..], a));
      if j.Obj? {
        var i := Find(j.fields, s.k).value;
        FindSameKeys(once.fields, j.fields);
        assert once.fields[i := (s.k, Put(c, path[1..], b))] == j.fields[i := (s.k, Put(c, path[1..], b))];
      } else {
        assert once.items[s.i := Put(c, path[1..], b)] == j.items[s.i := Put(c, path[1..], b)];
      }
    }
  }

  /** The container a view works on, if it is still of the view's kind. */
  function Target(root: Json, v: View): (r: Option<Json>)
    ensures r.Some? && v.Attached? ==> At(root, v.path) == r && Holds(v.kind, r.value)
  {
    match v
    case Detached(local) => Some(local)
    case Attached(kind, path) =>
      match At(root, path)
      case Some(n) => if Holds(kind, n) then Some(n) else None
      case None => None
  }

  /**
   * `Storage.proxy` on write: a container becomes a proxy stored in the
   * tree. (For an empty one the proxy's cache is a fresh empty container,
   * which holds the same content.)
   */
  function Wrap(value: Json): (w: Json)
    ensures Plain(w) == Plain(value)
    ensures WF(value) ==> WF(w)
    ensures IsContainer(value) ==> IsContainer(w) && KindOf(w) == KindOf(value) && w.proxied
    ensures !IsContainer(value) ==> w == value
  {
    match value
    case Arr(items, _) => Arr(items, true)
    case Obj(fields, _) => Obj(fields, true)
    case _ => value
  }

  /** The proxy for the element one step below a view's container. */
  function Under(parent: View, s: Step, child: Json): View
    requires IsContainer(child)
  {
    match parent
    case Attached(_, path) => Attached(KindOf(child), path + [s])
    case Detached(_) => Detached(child)
  }

  /**
   * `Storage.proxy` on read: a stored proxy, or a non-empty raw container,
   * is wrapped in place; an empty raw container gives a proxy over a fresh
   * empty container (`cache or {}`, `cache or []`); a scalar comes back as is.
   */
  function Reading(child: Json, parent: View, s: Step): (r: Value)
    ensures !IsContainer(child) <==> r == Scalar(child)
    ensures IsContainer(child) && (child.proxied || Plain(child) != Plain(Empty(KindOf(child)))) ==>
      r == Proxy(Under(parent, s, child))
    ensures IsContainer(child) && !child.proxied && Plain(child) == Plain(Empty(KindOf(child))) ==>
      r == Proxy(Detached(Empty(KindOf(child))))
  {
    match child
    case Arr(items, proxied) =>
      if proxied || items != [] then Proxy(Under(parent, s, child)) else Proxy(Detached(Arr([], false)))
    case Obj(fields, proxied) =>
      if proxied || fields != [] then Proxy(Under(parent, s, child)) else Proxy(Detached(Obj([], false)))
    case _ => Scalar(child)
  }

  function Empty(kind: Kind): (e: Json)
    ensures IsContainer(e) && KindOf(e) == kind && !e.proxied
    ensures IsData(e)
  {
    match kind
    case DictKind => Obj([], false)
    case ListKind =>
      assert Plain(Arr([], false)).items == [];
      Arr([], false)
  }

  /** Python's index rule for `l[i]`, `l[i] = v` and `del l[i]`: negative counts from the end. */
  function Position(index: int, len: nat): (r: Option<nat>)
    ensures r.Some? ==> r.value < len
    ensures r.Some? <==> -(len as int) <= index < len
    ensures r.Some? && index >= 0 ==> r.value == index
    ensures r.Some? && index < 0 ==> r.value == index + len
  {
    var i := if index < 0 then index + len else index;
    if 0 <= i < len then Some(i) else None
  }

  /** Python's `l.insert(i, v)`: negative counts from the end, out-of-range positions are clamped. */
  function InsertPosition(index: int, len: nat): (r: nat)
    ensures r <= len
    ensures 0 <= index <= len ==> r == index
    ensures -(len as int) <= index < 0 ==> r == index + len
    ensures index > len ==> r == len
    ensures index < -(len as int) ==> r == 0
  {
    var i := if index < 0 then index + len else index;
    if i < 0 then 0 else if i > len then len else i
  }

  /** `DictProxy.__getitem__`. */
  function GetKey(root: Json, v: View, key: string): (r: Result<Value, StoreError>)
    ensures r == Err(TypeError) <==> !(Target(root, v).Some? && Target(root, v).value.Obj?)
    ensures r == Err(KeyError) <==> (Target(root, v).Some? && Target(root, v).value.Obj? &&
      ValueOf(Target(root, v).value.fields, key).None?)
  {
    match Target(root, v)
    case Some(Obj(fields, _)) =>
      (match ValueOf(fields, key)
       case None => Err(KeyError)
       case Some(c) => Ok(Reading(c, v, Key(key))))
    case _ => Err(TypeError)
  }

  /** `ListProxy.__getitem__` for an integer index. */
  function GetIndex(root: Json, v: View, index: int): (r: Result<Value, StoreError>)
    ensures r == Err(TypeError) <==> !(Target(root, v).Some? && Target(root, v).value.Arr?)
    ensures r == Err(IndexError) <==> (Target(root, v).Some? && Target(root, v).value.Arr? &&
      !(-(|Target(root, v).value.items| as int) <= index < |Target(root, v).value.items|))
  {
    match Target(root, v)
    case Some(Arr(items, _)) =>
      (match Position(index, |items|)
       case None => Err(IndexError)
       case Some(i) => Ok(Reading(items[i], v, Index(i))))
    case _ => Err(TypeError)
  }

  /** `__len__` of either proxy. */
  function Len(root: Json, v: View): (r: Result<nat, StoreError>)
    ensures r.Ok? <==> Target(root, v).Some? && IsContainer(Target(root, v).value)
  {
    match Target(root, v)
    case Some(Obj(fields, _)) => Ok(|fields|)
    case Some(Arr(items, _)) => Ok(|items|)
    case _ => Err(TypeError)
  }

  /** The keys of a dictionary, in the order of its entries. */
  function Keys(fields: seq<(string, Json)>): (ks: seq<string>)
    ensures |ks| == |fields|
    ensures forall i :: 0 <= i < |fields| ==> ks[i] == fields[i].0
  {
    seq(|fields|, i requires 0 <= i < |fields| => fields[i].0)
  }

  /**
   * `DictProxy.__iter__`: the keys in the order of the entries, which is
   * insertion order (`IterAfterSet`, `IterAfterDelete`).
   */
  function Iter(root: Json, v: View): (r: Result<seq<string>, StoreError>)
    ensures r.Err? <==> !(Target(root, v).Some? && Target(root, v).value.Obj?)
    ensures r.Ok? ==> Len(root, v) == Ok(|r.value|)
    ensures r.Ok? ==> forall i :: 0 <= i < |r.value| ==> GetKey(root, v, r.value[i]).Ok?
    ensures r.Ok? ==> forall k :: GetKey(root, v, k).Ok? ==> k in r.value
  {
    match Target(root, v)
    case Some(Obj(fields, _)) =>
      var ks := Keys(fields);
      assert forall i :: 0 <= i < |ks| ==> ValueOf(fields, ks[i]).Some? by {
        forall i | 0 <= i < |ks| ensures ValueOf(fields, ks[i]).Some? {
          assert fields[i].0 == ks[i];
        }
      }
      assert forall k :: ValueOf(fields, k).Some? ==> k in ks by {
        forall k | ValueOf(fields, k).Some? ensures k in ks {
          var j := Find(fields, k).value;
          assert ks[j] == k;
        }
      }
      Ok(ks)
    case _ => Err(TypeError)
  }

  /** Where a rewritten container goes: into the document, or into the proxy that owns it. */
  function Commit(root: Json, v: View, node: Json): (Json, View)
    requires v.Attached? ==> At(root, v.path).Some?
  {
    match v
    case Attached(_, path) => (Put(root, path, node), v)
    case Detached(_) => (root, Detached(node))
  }

  /**
   * How a write through a proxy lands: a failed write changes nothing; a
   * write through a detached proxy never reaches the document and leaves a
   * detached proxy; a successful write through an attached proxy keeps the
   * same view.
   */
  predicate Landed(root: Json, v: View, r: (Json, Result<View, StoreError>))
  {
    && (r.1.Err? ==> r.0 == root)
    && (v.Detached? ==> r.0 == root && (r.1.Ok? ==> r.1.value.Detached?))
    && (v.Attached? && r.1.Ok? ==> r.1 == Ok(v))
  }

  /** `DictProxy.__setitem__`: the document afterwards and the proxy. */
  function SetKeyStep(root: Json, v: View, key: string, value: Json): (r: (Json, Result<View, StoreError>))
    ensures r.1.Err? <==> !(Target(root, v).Some? && Target(root, v).value.Obj?)
    ensures r.1.Err? ==> r.1 == Err(TypeError)
    ensures Landed(root, v, r)
  {
    match Target(root, v)
    case Some(Obj(fields, p)) =>
      var (after, w) := Commit(root, v, Obj(Assign(fields, key, Wrap(value)), p));
      (after, Ok(w))
    case _ => (root, Err(TypeError))
  }

  /** `DictProxy.__delitem__`. */
  function DelKeyStep(root: Json, v: View, key: string): (r: (Json, Result<View, StoreError>))
    ensures r.1 == Err(TypeError) <==> !(Target(root, v).Some? && Target(root, v).value.Obj?)
    ensures r.1 == Err(KeyError) <==> (Target(root, v).Some? && Target(root, v).value.Obj? &&
      Find(Target(root, v).value.fields, key).None?)
    ensures Landed(root, v, r)
  {
    match Target(root, v)
    case Some(Obj(fields, p)) =>
      (match Find(fields, key)
       case None => (root, Err(KeyError))
       case Some(i) =>
         var (after, w) := Commit(root, v, Obj(Remove(fields, i), p));
         (after, Ok(w)))
    case _ => (root, Err(TypeError))
  }

  /** `ListProxy.__setitem__` for an integer index. */
  function SetIndexStep(root: Json, v: View, index: int, value: Json): (r: (Json, Result<View, StoreError>))
    ensures r.1 == Err(TypeError) <==> !(Target(root, v).Some? && Target(root, v).value.Arr?)
    ensures r.1 == Err(IndexError) <==> (Target(root, v).Some? && Target(root, v).value.Arr? &&
      !(-(|Target(root, v).value.items| as int) <= index < |Target(root, v).value.items|))
    ensures Landed(root, v, r)
  {
    match Target(root, v)
    case Some(Arr(items, p)) =>
      (match Position(index, |items|)
       case None => (root, Err(IndexError))
       case Some(i) =>
         var (after, w) := Commit(root, v, Arr(items[i := Wrap(value)], p));
         (after, Ok(w)))
    case _ => (root, Err(TypeError))
  }

  /** `ListProxy.__delitem__` for an integer index. */
  function DelIndexStep(root: Json, v: View, index: int): (r: (Json, Result<View, StoreError>))
    ensures r.1 == Err(TypeError) <==> !(Target(root, v).Some? && Target(root, v).value.Arr?)
    ensures r.1 == Err(IndexError) <==> (Target(root, v).Some? && Target(root, v).value.Arr? &&
      !(-(|Target(root, v).value.items| as int) <= index < |Target(root, v).value.items|))
    ensures Landed(root, v, r)
  {
    match Target(root, v)
    case Some(Arr(items, p)) =>
      (match Position(index, |items|)
       case None => (root, Err(IndexError))
       case Some(i) =>
         var (after, w) := Commit(root, v, Arr(items[..i] + items[i + 1..], p));
         (after, Ok(w)))
    case _ => (root, Err(TypeError))
  }

  /** `ListProxy.insert`: the value is stored as given, not wrapped. */
  function InsertStep(root: Json, v: View, index: int, value: Json): (r: (Json, Result<View, StoreError>))
    ensures r.1.Err? <==> !(Target(root, v).Some? && Target(root, v).value.Arr?)
    ensures r.1.Err? ==> r.1 == Err(TypeError)
    ensures Landed(root, v, r)
  {
    match Target(root, v)
    case Some(Arr(items, p)) =>
      var i := InsertPosition(index, |items|);
      var (after, w) := Commit(root, v, Arr(items[..i] + [value] + items[i..], p));
      (after, Ok(w))
    case _ => (root, Err(TypeError))
  }

  /** `d[k] = v` keeps the keys in place and appends a new key at the end. */
  lemma KeysAssign(fields: seq<(string, Json)>, k: string, v: Json)
    ensures Keys(Assign(fields, k, v)) == if Find(fields, k).Some? then Keys(fields) else Keys(fields) + [k]
  {
    if Find(fields, k).None? {
      assert Keys(fields + [(k, v)]) == Keys(fields) + [k];
    } else {
      assert Keys(fields[Find(fields, k).value := (k, v)]) == Keys(fields);
    }
  }

  /** The container a successful write leaves behind is what its view now holds. */
  lemma TargetAfterCommit(root: Json, v: View, node: Json)
    requires Target(root, v).Some? && (v.Attached? ==> Holds(v.kind, node))
    ensures v.Attached? ==> At(root, v.path).Some?
    ensures Target(Commit(root, v, node).0, Commit(root, v, node).1) == Some(node)
  {
    if v.Attached? {
      TargetAfterPut(root, v, node);
    }
  }

  /**
   * Iterating after `d[k] = v` yields the old keys in their old order,
   * followed by `k` when it is new: dictionaries keep insertion order.
   */
  lemma IterAfterSet(root: Json, v: View, key: string, value: Json)
    requires Iter(root, v).Ok?
    ensures var (after, w) := SetKeyStep(root, v, key, value);
      w.Ok? && Iter(after, w.value) ==
        Ok(if GetKey(root, v, key).Ok? then Iter(root, v).value else Iter(root, v).value + [key])
  {
    var n := Target(root, v).value;
    var node := Obj(Assign(n.fields, key, Wrap(value)), n.proxied);
    IterAfterCommit(root, v, node);
    KeysAssign(n.fields, key, Wrap(value));
  }

  /**
   * Iterating after `del d[k]`, where `k` first appears at position `i` of
   * the iteration, yields the old keys in their old order without that one.
   */
  lemma IterAfterDelete(root: Json, v: View, key: string, i: nat)
    requires Iter(root, v).Ok? && i < |Iter(root, v).value|
    requires Iter(root, v).value[i] == key && key !in Iter(root, v).value[..i]
    ensures DelKeyStep(root, v, key).1.Ok?
    ensures Iter(DelKeyStep(root, v, key).0, DelKeyStep(root, v, key).1.value) ==
      Ok(Iter(root, v).value[..i] + Iter(root, v).value[i + 1..])
  {
    var n := Target(root, v).value;
    assert Find(n.fields, key) == Some(i) by {
      var ks := Keys(n.fields);
      assert n.fields[i].0 == key;
      forall j | 0 <= j < i ensures n.fields[j].0 != key {
        assert ks[..i][j] == ks[j];
      }
    }
    var node := Obj(Remove(n.fields, i), n.proxied);
    IterAfterCommit(root, v, node);
    var c := Commit(root, v, node);
    assert DelKeyStep(root, v, key) == (c.0, Ok(c.1));
    KeysRemove(n.fields, i);
  }

  /** Iterating the dict a write left behind yields the keys of its new fields. */
  lemma IterAfterCommit(root: Json, v: View, node: Json)
    requires node.Obj? && Target(root, v).Some? && (v.Attached? ==> v.kind == DictKind)
    ensures v.Attached? ==> At(root, v.path).Some?
    ensures Iter(Commit(root, v, node).0, Commit(root, v, node).1) == Ok(Keys(node.fields))
  {
    TargetAfterCommit(root, v, node);
  }

  /** Removing field `i` removes key `i` from the keys. */
  lemma KeysRemove(fields: seq<(string, Json)>, i: nat)
    requires i < |fields|
    ensures Keys(Remove(fields, i)) == Keys(fields)[..i] + Keys(fields)[i + 1..]
  {
    var a, b := Keys(Remove(fields, i)), Keys(fields)[..i] + Keys(fields)[i + 1..];
    assert |a| == |b|;
    forall j | 0 <= j < |a| ensures a[j] == b[j] {
      if j < i {
        assert b[j] == Keys(fields)[j];
      } else {
        assert b[j] == Keys(fields)[j + 1];
      }
    }
  }

  /** Rewriting the container at an attached view: the view now holds it, and each step below reads its element. */
  lemma AfterPut(root: Json, v: View, node: Json, s: Step)
    requires v.Attached? && At(root, v.path).Some? && Holds(v.kind, node)
    ensures Target(Put(root, v.path, node), v) == Some(node)
    ensures At(Put(root, v.path, node), v.path + [s]) == Child(node, s)
  {
    AtPut(root, v.path, node, []);
    assert v.path + [] == v.path;
    AtPut(root, v.path, node, [s]);
  }

  /** Rewriting the container at an attached view: the view now holds it. */
  lemma TargetAfterPut(root: Json, v: View, node: Json)
    requires v.Attached? && At(root, v.path).Some? && Holds(v.kind, node)
    ensures Target(Put(root, v.path, node), v) == Some(node)
  {
    AtPut(root, v.path, node, []);
    assert v.path + [] == v.path;
  }

  /** `s[k] = v` on an attached view rewrites the dictionary at the view's path. */
  lemma SetKeyAt(root: Json, v: View, n: Json, key: string, value: Json)
    requires v.Attached? && Target(root, v) == Some(n) && n.Obj?
    ensures SetKeyStep(root, v, key, value) == (Put(root, v.path, Obj(Assign(n.fields, key, Wrap(value)), n.proxied)), Ok(v))
  {
  }

  /** `del s[k]` on an attached view: a missing key changes nothing, a present one is dropped at the view's path. */
  lemma DelKeyAt(root: Json, v: View, n: Json, key: string)
    requires v.Attached? && Target(root, v) == Some(n) && n.Obj?
    ensures Find(n.fields, key).None? ==> DelKeyStep(root, v, key) == (root, Err(KeyError))
    ensures Find(n.fields, key).Some? ==>
      DelKeyStep(root, v, key) == (Put(root, v.path, Obj(Remove(n.fields, Find(n.fields, key).value), n.proxied)), Ok(v))
  {
  }

  /** `l[j]` for a position in range reads only the list the view holds. */
  lemma GetIndexOf(root: Json, v: View, n: Json, j: nat)
    requires Target(root, v) == Some(n) && n.Arr? && j < |n.items|
    ensures GetIndex(root, v, j) == Ok(Reading(n.items[j], v, Index(j)))
    ensures Len(root, v) == Ok(|n.items|)
  {
  }

  /** `s[k]` reads only the dictionary the view holds. */
  lemma GetKeyOf(root: Json, v: View, n: Json, key: string)
    requires Target(root, v) == Some(n) && n.Obj?
    ensures ValueOf(n.fields, key).None? ==> GetKey(root, v, key) == Err(KeyError)
    ensures ValueOf(n.fields, key).Some? ==> GetKey(root, v, key) == Ok(Reading(ValueOf(n.fields, key).value, v, Key(key)))
    ensures Len(root, v) == Ok(|n.fields|)
  {
  }

  /** Setting one key twice is setting it once to the second value. */
  lemma AssignTwice(fields: seq<(string, Json)>, k: string, a: Json, b: Json)
    ensures Assign(Assign(fields, k, a), k, b) == Assign(fields, k, b)
  {
    match Find(fields, k) {
      case Some(i) =>
        FindSameKeys(fields[i := (k, a)], fields);
        assert fields[i := (k, a)][i := (k, b)] == fields[i := (k, b)];
      case None =>
        FindAppend(fields, k, a);
        assert (fields + [(k, a)])[|fields| := (k, b)] == fields + [(k, b)];
    }
  }

  /**
   * `s[k] = v` then `s[k]`: a scalar comes back unchanged; a container comes
   * back as a proxy attached one step below `s`, holding `v`, even when `v`
   * is empty.
   */
  lemma SetThenGet(root: Json, v: View, key: string, value: Json)
    requires WF(root) && IsData(value) && v.Attached?
    requires Target(root, v).Some? && Target(root, v).value.Obj?
    ensures SetKeyStep(root, v, key, value).1 == Ok(v)
    ensures !IsContainer(value) ==> GetKey(SetKeyStep(root, v, key, value).0, v, key) == Ok(Scalar(value))
    ensures IsContainer(value) ==>
      var after := SetKeyStep(root, v, key, value).0;
      var inner := Attached(KindOf(value), v.path + [Key(key)]);
      GetKey(after, v, key) == Ok(Proxy(inner)) &&
      Target(after, inner).Some? && Plain(Target(after, inner).value) == value
  {
    var node := Obj(Assign(Target(root, v).value.fields, key, Wrap(value)), Target(root, v).value.proxied);
    AfterPut(root, v, node, Key(key));
  }

  /** `s[k] = v` leaves every other key of `s` as it was, and adds one entry exactly when `k` is new. */
  lemma SetKeepsOthers(root: Json, v: View, key: string, other: string, value: Json)
    requires WF(root) && IsData(value) && v.Attached?
    requires Target(root, v).Some? && Target(root, v).value.Obj?
    requires other != key
    ensures GetKey(SetKeyStep(root, v, key, value).0, v, other) == GetKey(root, v, other)
    ensures Len(SetKeyStep(root, v, key, value).0, v) ==
      Ok(Len(root, v).value + (if GetKey(root, v, key).Ok? then 0 else 1))
  {
    var n := Target(root, v).value;
    var node := Obj(Assign(n.fields, key, Wrap(value)), n.proxied);
    var after := Put(root, v.path, node);
    SetKeyAt(root, v, n, key, value);
    TargetAfterPut(root, v, node);
    GetKeyOf(root, v, n, key);
    GetKeyOf(root, v, n, other);
    GetKeyOf(after, v, node, other);
  }

  /** Writing a key twice leaves the document as if only the last write happened. */
  lemma LastWriteWins(root: Json, v: View, key: string, a: Json, b: Json)
    requires v.Attached? && Target(root, v).Some? && Target(root, v).value.Obj?
    ensures SetKeyStep(SetKeyStep(root, v, key, a).0, v, key, b).0 == SetKeyStep(root, v, key, b).0
  {
    var n := Target(root, v).value;
    var node := Obj(Assign(n.fields, key, Wrap(a)), n.proxied);
    var last := Obj(Assign(n.fields, key, Wrap(b)), n.proxied);
    SetKeyAt(root, v, n, key, a);
    SetKeyAt(root, v, n, key, b);
    TargetAfterPut(root, v, node);
    AssignTwice(n.fields, key, Wrap(a), Wrap(b));
    SetKeyAt(Put(root, v.path, node), v, node, key, b);
    PutPut(root, v.path, node, last);
  }

  /** `DeleteKey` for a key the dictionary `n` holds. */
  lemma DeletePresentKey(root: Json, v: View, n: Json, key: string, other: string)
    requires v.Attached? && Target(root, v) == Some(n) && n.Obj? && DistinctKeys(n.fields)
    requires Find(n.fields, key).Some? && other != key
    ensures var after := DelKeyStep(root, v, key).0;
      && DelKeyStep(root, v, key).1 == Ok(v)
      && GetKey(after, v, key) == Err(KeyError)
      && Len(after, v) == Ok(|n.fields| - 1)
      && GetKey(after, v, other) == GetKey(root, v, other)
  {
    var i := Find(n.fields, key).value;
    RemoveKeeps(n.fields, i);
    var node := Obj(Remove(n.fields, i), n.proxied);
    assert ValueOf(node.fields, key).None?;
    assert ValueOf(node.fields, other) == ValueOf(n.fields, other);
    DelKeyAt(root, v, n, key);
    TargetAfterPut(root, v, node);
    var after := Put(root, v.path, node);
    GetKeyOf(root, v, n, other);
    GetKeyOf(after, v, node, key);
    GetKeyOf(after, v, node, other);
  }

  /**
   * `del s[k]`: a present key disappears, the length drops by one and the
   * other keys are kept; a missing key raises KeyError and changes nothing.
   */
  lemma DeleteKey(root: Json, v: View, key: string, other: string)
    requires WF(root) && v.Attached?
    requires Target(root, v).Some? && Target(root, v).value.Obj?
    requires other != key
    ensures GetKey(root, v, key).Err? ==> DelKeyStep(root, v, key) == (root, Err(KeyError))
    ensures GetKey(root, v, key).Ok? ==>
      var after := DelKeyStep(root, v, key).0;
      && DelKeyStep(root, v, key).1 == Ok(v)
      && GetKey(after, v, key) == Err(KeyError)
      && Len(after, v) == Ok(Len(root, v).value - 1)
      && GetKey(after, v, other) == GetKey(root, v, other)
  {
    var n := Target(root, v).value;
    GetKeyOf(root, v, n, key);
    if Find(n.fields, key).Some? {
      TargetDistinct(root, v);
      DeletePresentKey(root, v, n, key, other);
    } else {
      DelKeyAt(root, v, n, key);
    }
  }

  /** In a well-formed document, the dictionary a view holds has distinct keys. */
  lemma TargetDistinct(root: Json, v: View)
    requires WF(root) && v.Attached? && Target(root, v).Some? && Target(root, v).value.Obj?
    ensures DistinctKeys(Target(root, v).value.fields)
  {
    AtWF(root, v.path);
  }

  /** `l[i] = v` then `l[i]`, for an index in range: the stored value comes back as `s[k]` does. */
  lemma SetIndexThenGet(root: Json, v: View, index: int, value: Json)
    requires WF(root) && IsData(value) && v.Attached?
    requires Target(root, v).Some? && Target(root, v).value.Arr?
    requires -(|Target(root, v).value.items| as int) <= index < |Target(root, v).value.items|
    ensures SetIndexStep(root, v, index, value).1 == Ok(v)
    ensures Len(SetIndexStep(root, v, index, value).0, v) == Len(root, v)
    ensures var n := Target(root, v).value;
      var i := Position(index, |n.items|).value;
      Target(SetIndexStep(root, v, index, value).0, v) == Some(Arr(n.items[i := Wrap(value)], n.proxied))
    ensures !IsContainer(value) ==> GetIndex(SetIndexStep(root, v, index, value).0, v, index) == Ok(Scalar(value))
    ensures IsContainer(value) ==>
      var after := SetIndexStep(root, v, index, value).0;
      var inner := Attached(KindOf(value), v.path + [Index(Position(index, |Target(root, v).value.items|).value)]);
      GetIndex(after, v, index) == Ok(Proxy(inner)) &&
      Target(after, inner).Some? && Plain(Target(after, inner).value) == value
  {
    var n := Target(root, v).value;
    var i := Position(index, |n.items|).value;
    var node := Arr(n.items[i := Wrap(value)], n.proxied);
    var after := Put(root, v.path, node);
    assert SetIndexStep(root, v, index, value) == (after, Ok(v));
    AfterPut(root, v, node, Index(i));
    assert Target(after, v) == Some(node);
    assert GetIndex(after, v, index) == Ok(Reading(Wrap(value), v, Index(i)));
    if IsContainer(value) {
      var inner := Attached(KindOf(value), v.path + [Index(i)]);
      assert At(after, inner.path) == Some(Wrap(value));
      assert Target(after, inner) == Some(Wrap(value));
    }
  }

  /**
   * `l.insert(i, v)`: one more element, `v` stored unwrapped at the clamped
   * position, so reading it back follows the rule for raw containers.
   */
  lemma InsertThenGet(root: Json, v: View, index: int, value: Json)
    requires v.Attached? && Target(root, v).Some? && Target(root, v).value.Arr?
    ensures var n := |Target(root, v).value.items|;
      var at := InsertPosition(index, n);
      var after := InsertStep(root, v, index, value).0;
      && InsertStep(root, v, index, value).1 == Ok(v)
      && Len(after, v) == Ok(n + 1)
      && GetIndex(after, v, at) == Ok(Reading(value, v, Index(at)))
      && Target(after, v).value.items == Target(root, v).value.items[..at] + [value] + Target(root, v).value.items[at..]
  {
    var items := Target(root, v).value.items;
    var at := InsertPosition(index, |items|);
    var node := Arr(items[..at] + [value] + items[at..], Target(root, v).value.proxied);
    assert node.items[at] == value;
    AfterPut(root, v, node, Index(at));
  }

  /** `l.insert(i, v)` keeps the elements before the clamped position and moves each later one up by one. */
  lemma InsertShifts(root: Json, v: View, index: int, value: Json, j: nat)
    requires v.Attached? && Target(root, v).Some? && Target(root, v).value.Arr?
    requires j < |Target(root, v).value.items|
    ensures var n := Target(root, v).value;
      var moved := if j < InsertPosition(index, |n.items|) then j else j + 1;
      GetIndex(InsertStep(root, v, index, value).0, v, moved) == Ok(Reading(n.items[j], v, Index(moved)))
  {
    var n := Target(root, v).value;
    var at := InsertPosition(index, |n.items|);
    var node := Arr(n.items[..at] + [value] + n.items[at..], n.proxied);
    var moved := if j < at then j else j + 1;
    assert node.items[moved] == n.items[j];
    assert InsertStep(root, v, index, value).0 == Put(root, v.path, node);
    TargetAfterPut(root, v, node);
    GetIndexOf(Put(root, v.path, node), v, node, moved);
  }

  /** `del l[i]` for an index in range: that element is dropped and the others keep their order. */
  lemma DeleteIndex(root: Json, v: View, index: int)
    requires v.Attached? && Target(root, v).Some? && Target(root, v).value.Arr?
    ensures var n := Target(root, v).value;
      if -(|n.items| as int) <= index < |n.items| then
        var i := Position(index, |n.items|).value;
        && DelIndexStep(root, v, index).1 == Ok(v)
        && Len(DelIndexStep(root, v, index).0, v) == Ok(|n.items| - 1)
        && Target(DelIndexStep(root, v, index).0, v) == Some(Arr(n.items[..i] + n.items[i + 1..], n.proxied))
      else
        DelIndexStep(root, v, index) == (root, Err(IndexError))
  {
    var n := Target(root, v).value;
    match Position(index, |n.items|) {
      case None =>
      case Some(i) =>
        var node := Arr(n.items[..i] + n.items[i + 1..], n.proxied);
        assert DelIndexStep(root, v, index) == (Put(root, v.path, node), Ok(v));
        TargetAfterPut(root, v, node);
    }
  }
  /** After `del l[i]`, position `j` reads the element that was at `j` before `i` and at `j + 1` from `i` on. */
  lemma DeleteShifts(root: Json, v: View, index: int, j: nat)
    requires v.Attached? && Target(root, v).Some? && Target(root, v).value.Arr?
    requires -(|Target(root, v).value.items| as int) <= index < |Target(root, v).value.items|
    requires j + 1 < |Target(root, v).value.items|
    ensures var n := Target(root, v).value;
      var i := Position(index, |n.items|).value;
      GetIndex(DelIndexStep(root, v, index).0, v, j) == Ok(Reading(n.items[if j < i then j else j + 1], v, Index(j)))
  {
    var n := Target(root, v).value;
    var i := Position(index, |n.items|).value;
    var node := Arr(n.items[..i] + n.items[i + 1..], n.proxied);
    assert node.items[j] == n.items[if j < i then j else j + 1];
    assert DelIndexStep(root, v, index).0 == Put(root, v.path, node);
    TargetAfterPut(root, v, node);
    GetIndexOf(Put(root, v.path, node), v, node, j);
  }

  /** `l[i] = v` leaves every other position reading as before. */
  lemma SetIndexKeepsOthers(root: Json, v: View, index: int, value: Json, j: nat)
    requires v.Attached? && Target(root, v).Some? && Target(root, v).value.Arr?
    requires -(|Target(root, v).value.items| as int) <= index < |Target(root, v).value.items|
    requires j < |Target(root, v).value.items| && j != Position(index, |Target(root, v).value.items|).value
    ensures GetIndex(SetIndexStep(root, v, index, value).0, v, j) == GetIndex(root, v, j)
  {
    var n := Target(root, v).value;
    var i := Position(index, |n.items|).value;
    var node := Arr(n.items[i := Wrap(value)], n.proxied);
    assert SetIndexStep(root, v, index, value).0 == Put(root, v.path, node);
    TargetAfterPut(root, v, node);
    GetIndexOf(Put(root, v.path, node), v, node, j);
    GetIndexOf(root, v, n, j);
  }


  /**
   * The `cache or {}` rule on a raw empty dictionary (one loaded from the
   * file, for instance): reading it gives a proxy over a fresh empty
   * dictionary, and a write through that proxy never reaches the document.
   */
  lemma EmptyRawDetached(root: Json, v: View, key: string, sub: string, value: Json)
    requires v.Attached? && Target(root, v).Some? && Target(root, v).value.Obj?
    requires ValueOf(Target(root, v).value.fields, key) == Some(Obj([], false))
    ensures GetKey(root, v, key) == Ok(Proxy(Detached(Obj([], false))))
    ensures SetKeyStep(root, Detached(Obj([], false)), sub, value).0 == root
    ensures SetKeyStep(root, Detached(Obj([], false)), sub, value).1 == Ok(Detached(Obj([(sub, Wrap(value))], false)))
  {
    var n := Target(root, v).value;
    assert GetKey(root, v, key) == Ok(Reading(Obj([], false), v, Key(key)));
    DetachedWrite(root, sub, value);
  }

  /** A write through a detached dictionary changes only that dictionary. */
  lemma DetachedWrite(root: Json, sub: string, value: Json)
    ensures SetKeyStep(root, Detached(Obj([], false)), sub, value) == (root, Ok(Detached(Obj([(sub, Wrap(value))], false))))
  {
    assert Assign([], sub, Wrap(value)) == [] + [(sub, Wrap(value))] == [(sub, Wrap(value))];
    assert Target(root, Detached(Obj([], false))) == Some(Obj([], false));
  }

  /** Deleting a list element keeps the list well formed. */
  lemma DropWF(items: seq<Json>, i: nat, p: bool)
    requires i < |items| && WF(Arr(items, p))
    ensures WF(Arr(items[..i] + items[i + 1..], p))
  {
    var rest := items[..i] + items[i + 1..];
    forall j | 0 <= j < |rest|
      ensures WF(rest[j])
    {
      if j < i {
        assert rest[j] == items[j];
      } else {
        assert rest[j] == items[j + 1];
      }
    }
  }

  /** A non-empty raw dictionary is read in place, so writes through it reach the document. */
  lemma NonEmptyRawAttached(root: Json, v: View, key: string)
    requires v.Attached? && Target(root, v).Some? && Target(root, v).value.Obj?
    requires ValueOf(Target(root, v).value.fields, key).Some?
    requires ValueOf(Target(root, v).value.fields, key).value.Obj?
    requires ValueOf(Target(root, v).value.fields, key).value.fields != []
    ensures GetKey(root, v, key) == Ok(Proxy(Attached(DictKind, v.path + [Key(key)])))
    ensures Target(root, Attached(DictKind, v.path + [Key(key)])) == ValueOf(Target(root, v).value.fields, key)
  {
    AtAppendStep(root, v.path, Key(key));
  }

  /** One step below a path. */
  lemma {:induction false} AtAppendStep(j: Json, path: seq<Step>, s: Step)
    requires At(j, path).Some?
    ensures At(j, path + [s]) == Child(At(j, path).value, s)
    decreases |path|
  {
    if path == [] {
      assert path + [s] == [s];
    } else {
      assert (path + [s])[1..] == path[1..] + [s];
      AtAppendStep(Child(j, path[0]).value, path[1..], s);
    }
  }

  /** Storing `{}` under "key" in a new store writes `{"key": {}}`. */
  lemma StoreEmptyDict()
    ensures Plain(SetKeyStep(Obj([], false), Root, "key", Obj([], false)).0) == Obj([("key", Obj([], false))], false)
  {
    var after := SetKeyStep(Obj([], false), Root, "key", Obj([], false)).0;
    assert after == Obj([("key", Obj([], true))], false);
    assert Plain(Obj([], true)) == Obj([], false);
  }

  /** Storing "a" then "b" under "key" in a new store writes `{"key": "b"}`. */
  lemma StoreTwice()
    ensures var once := SetKeyStep(Obj([], false), Root, "key", Str("a")).0;
      Plain(SetKeyStep(once, Root, "key", Str("b")).0) == Obj([("key", Str("b"))], false)
  {
    LastWriteWins(Obj([], false), Root, "key", Str("a"), Str("b"));
    var after := SetKeyStep(Obj([], false), Root, "key", Str("b")).0;
    assert after == Obj([("key", Str("b"))], false);
  }

  /** The document after `s["key"] = {}` in a new store. */
  lemma StoreKeyDoc()
    ensures SetKeyStep(Obj([], false), Root, "key", Obj([], false)).0 == Obj([("key", Obj([], true))], false)
  {
    assert Assign([], "key", Obj([], true)) == [] + [("key", Obj([], true))] == [("key", Obj([], true))];
  }

  /** The document after `s["key"]["subkey"] = "abc"` through the proxy read back from it. */
  lemma StoreSubkeyDoc()
    ensures var once := Obj([("key", Obj([], true))], false);
      SetKeyStep(once, Attached(DictKind, [Key("key")]), "subkey", Str("abc")).0 ==
      Obj([("key", Obj([("subkey", Str("abc"))], true))], false)
  {
    var once := Obj([("key", Obj([], true))], false);
    var inner := Attached(DictKind, [Key("key")]);
    var node := Obj([("subkey", Str("abc"))], true);
    assert Find(once.fields, "key") == Some(0);
    assert Child(once, Key("key")) == Some(Obj([], true));
    assert [Key("key")][1..] == [];
    assert At(once, [Key("key")]) == Some(Obj([], true));
    assert Target(once, inner) == Some(Obj([], true));
    assert Assign([], "subkey", Str("abc")) == [] + [("subkey", Str("abc"))] == [("subkey", Str("abc"))];
    assert SetKeyStep(once, inner, "subkey", Str("abc")).0 == Put(once, [Key("key")], node);
    assert Put(once, [Key("key")], node) == Replace(once, Key("key"), node);
    assert once.fields[0 := ("key", node)] == [("key", node)];
  }

  lemma PlainSubkeyDoc()
    ensures Plain(Obj([("key", Obj([("subkey", Str("abc"))], true))], false)) ==
      Obj([("key", Obj([("subkey", Str("abc"))], false))], false)
  {
    var plainInner := Plain(Obj([("subkey", Str("abc"))], true));
    assert plainInner.fields[0] == ("subkey", Str("abc"));
    assert plainInner == Obj([("subkey", Str("abc"))], false);
    assert Plain(Obj([("key", Obj([("subkey", Str("abc"))], true))], false)).fields[0] == ("key", plainInner);
  }

  /**
   * Storing `{}` under "key", reading it back and setting "subkey" to "abc"
   * through it writes `{"key": {"subkey": "abc"}}`.
   */
  lemma StoreSubkey()
    ensures var once := SetKeyStep(Obj([], false), Root, "key", Obj([], false)).0;
      var inner := Attached(DictKind, [Key("key")]);
      && GetKey(once, Root, "key") == Ok(Proxy(inner))
      && Plain(SetKeyStep(once, inner, "subkey", Str("abc")).0) ==
         Obj([("key", Obj([("subkey", Str("abc"))], false))], false)
  {
    var empty := Obj([], false);
    assert IsData(empty) by {
      assert Plain(empty).fields == [];
    }
    SetThenGet(empty, Root, "key", empty);
    assert Root.path + [Key("key")] == [Key("key")];
    StoreKeyDoc();
    StoreSubkeyDoc();
    PlainSubkeyDoc();
  }

  /** Loading `{"key": {}}`: `s["key"]` reads as an empty dictionary, detached from the document. */
  lemma LoadEmptyKey()
    ensures GetKey(Obj([("key", Obj([], false))], false), Root, "key") == Ok(Proxy(Detached(Obj([], false))))
  {
    EmptyRawDetached(Obj([("key", Obj([], false))], false), Root, "key", "", Null);
  }

  /** Loading `{"key": {"subkey": "abc"}}`: `s["key"]["subkey"]` reads "abc". */
  lemma LoadSubkey()
    ensures var doc := Obj([("key", Obj([("subkey", Str("abc"))], false))], false);
      var inner := Attached(DictKind, [Key("key")]);
      GetKey(doc, Root, "key") == Ok(Proxy(inner)) && GetKey(doc, inner, "subkey") == Ok(Scalar(Str("abc")))
  {
    var doc := Obj([("key", Obj([("subkey", Str("abc"))], false))], false);
    var sub := Obj([("subkey", Str("abc"))], false);
    assert Find(doc.fields, "key") == Some(0);
    assert ValueOf(doc.fields, "key") == Some(sub);
    NonEmptyRawAttached(doc, Root, "key");
    assert Root.path + [Key("key")] == [Key("key")];
    assert GetKey(doc, Root, "key") == Ok(Proxy(Attached(DictKind, [Key("key")])));
    assert Find(sub.fields, "subkey") == Some(0);
    assert Target(doc, Attached(DictKind, [Key("key")])) == Some(sub);
  }

  class Store {
    /** The in-memory document (`Storage._cache`). */
    var cache: Json
    /** The document the file holds. */
    var persisted: Json

    /** The file always holds the current document. */
    ghost predicate Valid()
      reads this
    {
      WF(cache) && persisted == Plain(cache)
    }

    /** `Storage.__init__` and `_load`: an existing file's document, or `{}` written at once. */
    constructor Load(file: Option<Json>)
      requires file.Some? ==> IsData(file.value)
      ensures Valid()
      ensures file.Some? ==> cache == file.value
      ensures file.None? ==> cache == Obj([], false)
    {
      match file {
        case Some(doc) =>
          cache := doc;
          persisted := doc;
        case None =>
          cache := Obj([], false);
          persisted := Plain(Obj([], false));
      }
    }

    /** `Storage.dump`: rewrites the file with the whole document. */
    method Dump()
      modifies this`persisted
      ensures persisted == Plain(cache)
    {
      persisted := Plain(cache);
    }

    /** Puts a rewritten container in place and dumps. */
    method Place(v: View, node: Json) returns (r: Result<View, StoreError>)
      requires Valid() && Target(cache, v).Some? && (v.Attached? ==> WF(node))
      modifies this
      ensures Valid()
      ensures cache == Commit(old(cache), v, node).0 && r == Ok(Commit(old(cache), v, node).1)
    {
      match v {
        case Attached(_, path) =>
          PutWF(cache, path, node);
          cache := Put(cache, path, node);
          r := Ok(v);
        case Detached(_) =>
          r := Ok(Detached(node));
      }
      Dump();
    }

    /** `DictProxy.__setitem__` through view `v`. */
    method SetKey(v: View, key: string, value: Json) returns (r: Result<View, StoreError>)
      requires Valid() && IsData(value)
      modifies this
      ensures Valid()
      ensures (cache, r) == SetKeyStep(old(cache), v, key, value)
    {
      match Target(cache, v) {
        case Some(Obj(fields, p)) =>
          if v.Attached? {
            AtWF(cache, v.path);
          }
          r := Place(v, Obj(Assign(fields, key, Wrap(value)), p));
        case _ =>
          r := Err(TypeError);
      }
    }

    /** `DictProxy.__delitem__` through view `v`. */
    method DelKey(v: View, key: string) returns (r: Result<View, StoreError>)
      requires Valid()
      modifies this
      ensures Valid()
      ensures (cache, r) == DelKeyStep(old(cache), v, key)
    {
      match Target(cache, v) {
        case Some(Obj(fields, p)) =>
          match Find(fields, key) {
            case None =>
              r := Err(KeyError);
            case Some(i) =>
              if v.Attached? {
                AtWF(cache, v.path);
                RemoveKeeps(fields, i);
              }
              r := Place(v, Obj(Remove(fields, i), p));
          }
        case _ =>
          r := Err(TypeError);
      }
    }

    /** `ListProxy.__setitem__` through view `v`. */
    method SetIndex(v: View, index: int, value: Json) returns (r: Result<View, StoreError>)
      requires Valid() && IsData(value)
      modifies this
      ensures Valid()
      ensures (cache, r) == SetIndexStep(old(cache), v, index, value)
    {
      match Target(cache, v) {
        case Some(Arr(items, p)) =>
          match Position(index, |items|) {
            case None =>
              r := Err(IndexError);
            case Some(i) =>
              if v.Attached? {
                AtWF(cache, v.path);
              }
              r := Place(v, Arr(items[i := Wrap(value)], p));
          }
        case _ =>
          r := Err(TypeError);
      }
    }

    /** `ListProxy.__delitem__` through view `v`. */
    method DelIndex(v: View, index: int) returns (r: Result<View, StoreError>)
      requires Valid()
      modifies this
      ensures Valid()
      ensures (cache, r) == DelIndexStep(old(cache), v, index)
    {
      match Target(cache, v) {
        case Some(Arr(items, p)) =>
          match Position(index, |items|) {
            case None =>
              r := Err(IndexError);
            case Some(i) =>
              if v.Attached? {
                AtWF(cache, v.path);
                DropWF(items, i, p);
              }
              r := Place(v, Arr(items[..i] + items[i + 1..], p));
          }
        case _ =>
          r := Err(TypeError);
      }
    }

    /** `ListProxy.insert` through view `v`. */
    method Insert(v: View, index: int, value: Json) returns (r: Result<View, StoreError>)
      requires Valid() && IsData(value)
      modifies this
      ensures Valid()
      ensures (cache, r) == InsertStep(old(cache), v, index, value)
    {
      match Target(cache, v) {
        case Some(Arr(items, p)) =>
          var i := InsertPosition(index, |items|);
          if v.Attached? {
            AtWF(cache, v.path);
            assert forall j :: 0 <= j < |items| + 1 ==>
              (items[..i] + [value] + items[i..])[j] == (if j < i then items[j] else if j == i then value else items[j - 1]);
          }
          r := Place(v, Arr(items[..i] + [value] + items[i..], p));
        case _ =>
          r := Err(TypeError);
      }
    }
  }
}
