/**
 * Key resolution. The newer script walks a dotted path one own property at a
 * time (`getTranslationValue`); the older script reads the annotation as a
 * single property name of the bundle and keeps only a truthy result.
 */
module Resolver {
  import opened Wrappers
  import opened Values
  import opened KeyPath

  /** One step of the `reduce`: continue only from a truthy object that owns `segment`. */
  function Step(obj: Option<Value>, segment: string): Option<Value>
  {
    if obj.Some? && Truthy(obj.value) && HasOwn(obj.value, segment)
    then Some(obj.value.children[segment])
    else None
  }

  /** `segments.reduce(step, obj)`. */
  function Walk(obj: Option<Value>, segments: seq<string>): Option<Value>
    decreases |segments|
  {
    if segments == [] then obj else Walk(Step(obj, segments[0]), segments[1..])
  }

  /** `getTranslationValue(root, keyPath)`: no walk at all for a falsy root or an empty path. */
  function GetTranslationValue(root: Option<Value>, keyPath: string): (r: Option<Value>)
    ensures root.None? || !Truthy(root.value) || keyPath == "" ==> r.None?
  {
    if root.None? || !Truthy(root.value) || keyPath == "" then None
    else Walk(root, Split(keyPath))
  }

  /** The older lookup `langData[key]`, kept only when truthy. */
  function FlatLookup(bundle: Value, key: string): (r: Option<Value>)
    ensures r.Some? <==> HasOwn(bundle, key) && Truthy(bundle.children[key])
    ensures r.Some? ==> r.value == bundle.children[key]
  {
    if HasOwn(bundle, key) && Truthy(bundle.children[key]) then Some(bundle.children[key]) else None
  }

  /** Which resolver a binding pass uses, with the bundle it reads. */
  datatype Lookup = Nested(bundle: Value) | Flat(bundle: Value)

  function Resolve(l: Lookup, key: string): Option<Value>
  {
    match l
    case Nested(b) => GetTranslationValue(Some(b), key)
    case Flat(b) => FlatLookup(b, key)
  }

  /** Once a segment has missed, the rest of the walk stays at null. */
  lemma {:induction false} WalkFromNothing(segments: seq<string>)
    ensures Walk(None, segments) == None
  {
    if segments != [] {
      WalkFromNothing(segments[1..]);
    }
  }

  /** A string leaf owns no keys, so walking any further from it gives null. */
  lemma WalkFromLeaf(s: string, segments: seq<string>)
    requires |segments| >= 1
    ensures Walk(Some(Str(s)), segments) == None
  {
    WalkFromNothing(segments[1..]);
  }

  /** Walking `a + b` is walking `a` and then walking `b` from where `a` ended. */
  lemma {:induction false} WalkAppend(obj: Option<Value>, a: seq<string>, b: seq<string>)
    ensures Walk(obj, a + b) == Walk(Walk(obj, a), b)
    decreases |a|
  {
    if a == [] {
      assert a + b == b;
    } else {
      assert (a + b)[0] == a[0];
      assert (a + b)[1..] == a[1..] + b;
      WalkAppend(Step(obj, a[0]), a[1..], b);
    }
  }

  /** A path without dots is one own-property lookup; a nested mapping is returned as it is. */
  lemma ResolveSegment(m: map<string, Value>, key: string)
    requires key != "" && '.' !in key
    ensures GetTranslationValue(Some(Node(m)), key) == if key in m then Some(m[key]) else None
  {
    SplitJoin([key]);
    assert Split(key) == [key];
    assert Walk(Some(Node(m)), [key]) == Walk(Step(Some(Node(m)), key), []);
  }

  /** A path of several dot-free segments does exactly one lookup per segment. */
  lemma ResolveSegments(root: Value, segments: seq<string>)
    requires Truthy(root) && |segments| >= 1 && DotFree(segments) && segments != [""]
    ensures GetTranslationValue(Some(root), Join(segments)) == Walk(Some(root), segments)
  {
    SplitJoin(segments);
  }

  /** Resolving `p.q` is resolving `q` against the value `p` resolved to. */
  lemma ResolveDotted(root: Option<Value>, p: string, q: string)
    requires p != "" && q != ""
    ensures GetTranslationValue(root, p + "." + q)
         == GetTranslationValue(GetTranslationValue(root, p), q)
  {
    if root.Some? && Truthy(root.value) {
      SplitConcat(p, q);
      WalkAppend(root, Split(p), Split(q));
      var mid := GetTranslationValue(root, p);
      if mid.None? {
        WalkFromNothing(Split(q));
      } else if !Truthy(mid.value) {
        WalkFromLeaf(mid.value.s, Split(q));
      }
    } else {
      assert p + "." + q != "";
    }
  }

  /**
   * On a dot-free key the two resolvers read the same property; the older one
   * drops a falsy (empty string) result that the newer one keeps.
   */
  lemma FlatAgreesOnSegments(bundle: Value, key: string)
    requires key != "" && '.' !in key
    ensures FlatLookup(bundle, key)
         == var r := GetTranslationValue(Some(bundle), key); if Present(r) then r else None
  {
    if bundle.Node? {
      ResolveSegment(bundle.children, key);
    } else {
      WalkFromLeaf(bundle.s, Split(key));
    }
  }
}
