/** `L.cwis.merge`, the option-merging utility: later arguments override
    earlier ones key by key, and a key whose new value is a plain object is
    merged recursively instead of being replaced. A leading boolean argument
    selects deep (true) or shallow (false) merging. */
module DeepMerge {
  import opened JsValues

  /** A fresh copy of a plain object's properties, nested plain objects
      copied recursively: what the merge builds when the target has nothing
      under a key yet (`merge(undefined, obj)`). */
  function Copy(m: map<string, JsValue>): map<string, JsValue>
    decreases Obj(m)
  {
    map k | k in m :: if m[k].Obj? then Obj(Copy(m[k].fields)) else m[k]
  }

  /** The value `target[prop]` holds after a deep merge visits `prop`:
      `next` is the incoming value and `prev` what the target held. A plain
      object is merged into `prev`, anything else replaces it. */
  function MergeValue(prev: JsValue, next: JsValue): JsValue
    decreases next, 2
  {
    if next.Obj? then Obj(MergeInto(prev, next.fields)) else next
  }

  /** One run of the inner `mergeObj(obj)`: every own property of `src` is
      written into `target`. */
  function MergeProps(deep: bool, target: map<string, JsValue>, src: map<string, JsValue>): (r: map<string, JsValue>)
    ensures r.Keys == target.Keys + src.Keys
    ensures forall k :: k in target && k !in src ==> r[k] == target[k]
    ensures forall k :: k in src && !src[k].Obj? ==> r[k] == src[k]
    decreases Obj(src), 0
  {
    map k | k in target.Keys + src.Keys ::
      if k !in src then target[k]
      else if deep then MergeValue(Get(target, k), src[k])
      else src[k]
  }

  /** The recursive call `merge(target[prop], obj[prop])`. Its first
      argument is taken as the deep flag when it is a boolean, exactly as at
      the top level; otherwise its own properties are copied first. */
  function MergeInto(t: JsValue, src: map<string, JsValue>): (r: map<string, JsValue>)
    ensures r.Keys == (if t.Bool? then src.Keys else OwnProps(t).Keys + src.Keys)
    ensures forall k :: k in src && !src[k].Obj? ==> r[k] == src[k]
    decreases Obj(src), 1
  {
    if t.Bool? then MergeProps(t.b, map[], src)
    else MergeProps(true, Copy(OwnProps(t)), src)
  }

  /** The own keys of all the arguments. */
  function ArgKeys(args: seq<JsValue>): (r: set<string>)
    ensures args != [] ==> OwnProps(args[|args| - 1]).Keys <= r
  {
    if args == [] then {} else OwnProps(args[0]).Keys + ArgKeys(args[1..])
  }

  /** The outer loop `for(; i < args.length; i++) mergeObj(args[i])`. */
  function MergeAll(deep: bool, args: seq<JsValue>, target: map<string, JsValue>): (r: map<string, JsValue>)
    ensures r.Keys == target.Keys + ArgKeys(args)
    ensures forall k :: k in target && k !in ArgKeys(args) ==> r[k] == target[k]
    ensures args != [] ==>
      var last := OwnProps(args[|args| - 1]);
      forall k :: k in last && !last[k].Obj? ==> r[k] == last[k]
    decreases |args|
  {
    if args == [] then target
    else MergeAll(deep, args[1..], MergeProps(deep, target, OwnProps(args[0])))
  }

  /** `L.cwis.merge(...args)`: the properties of the new object it returns.
      The keys are those of the object arguments, and a non-object value of
      the last argument wins. */
  function Merge(args: seq<JsValue>): (r: map<string, JsValue>)
    ensures var objs := if |args| > 0 && args[0].Bool? then args[1..] else args;
      && r.Keys == ArgKeys(objs)
      && (objs != [] ==>
            var last := OwnProps(objs[|objs| - 1]);
            forall k :: k in last && !last[k].Obj? ==> r[k] == last[k])
  {
    if |args| > 0 && args[0].Bool? then MergeAll(args[0].b, args[1..], map[])
    else MergeAll(true, args, map[])
  }

  /** Copying is what merging into an empty target does. */
  lemma {:induction false} CopyIsMergeIntoEmpty(m: map<string, JsValue>)
    ensures Copy(m) == MergeProps(true, map[], m)
    decreases Obj(m)
  {
    var c, r := Copy(m), MergeProps(true, map[], m);
    forall k | k in m
      ensures c[k] == r[k]
    {
      if m[k].Obj? {
        var f := m[k].fields;
        assert OwnProps(Undefined) == map[];
        assert Copy(map[]) == map[];
        calc {
          r[k];
          MergeValue(Get(map[], k), m[k]);
          Obj(MergeInto(Undefined, f));
          Obj(MergeProps(true, map[], f));
          { CopyIsMergeIntoEmpty(f); }
          Obj(Copy(f));
          c[k];
        }
      }
    }
    assert c.Keys == r.Keys;
  }

  /** A copy equals the original. */
  lemma {:induction false} CopyIsIdentity(m: map<string, JsValue>)
    ensures Copy(m) == m
    decreases Obj(m)
  {
    forall k | k in m
      ensures Copy(m)[k] == m[k]
    {
      if m[k].Obj? {
        CopyIsIdentity(m[k].fields);
      }
    }
  }

  /** `MergeInto` is the two-argument merge the recursion performs. */
  lemma MergeIntoIsMerge(t: JsValue, src: map<string, JsValue>)
    ensures MergeInto(t, src) == Merge([t, Obj(src)])
  {
    var args := [t, Obj(src)];
    if t.Bool? {
      assert args[1..] == [Obj(src)];
      assert Merge(args) == MergeAll(t.b, [Obj(src)], map[]);
      assert [Obj(src)][1..] == [];
    } else {
      CopyIsMergeIntoEmpty(OwnProps(t));
      assert args[1..] == [Obj(src)];
      assert [Obj(src)][1..] == [];
      calc {
        Merge(args);
        MergeAll(true, args, map[]);
        MergeAll(true, [Obj(src)], MergeProps(true, map[], OwnProps(t)));
        MergeAll(true, [Obj(src)], Copy(OwnProps(t)));
        MergeProps(true, Copy(OwnProps(t)), src);
      }
    }
  }

  /** `merge(obj, v)` for a plain object `obj`: the own properties of `v`
      merged deeply into a copy of `obj`. */
  lemma MergeOntoObject(a: map<string, JsValue>, v: JsValue)
    ensures Merge([Obj(a), v]) == MergeProps(true, a, OwnProps(v))
  {
    var args := [Obj(a), v];
    assert args[1..] == [v];
    assert [v][1..] == [];
    CopyIsMergeIntoEmpty(a);
    CopyIsIdentity(a);
    calc {
      Merge(args);
      MergeAll(true, args, map[]);
      MergeAll(true, [v], MergeProps(true, map[], a));
      MergeAll(true, [v], a);
      MergeProps(true, a, OwnProps(v));
    }
  }

  /** Merging a plain object into itself changes nothing. */
  lemma {:induction false} MergeSelfIsIdentity(m: map<string, JsValue>)
    ensures MergeProps(true, m, m) == m
    decreases Obj(m)
  {
    var r := MergeProps(true, m, m);
    forall k | k in m
      ensures r[k] == m[k]
    {
      if m[k].Obj? {
        var f := m[k].fields;
        CopyIsIdentity(f);
        MergeSelfIsIdentity(f);
        calc {
          r[k];
          MergeValue(m[k], m[k]);
          Obj(MergeInto(m[k], f));
          Obj(MergeProps(true, Copy(f), f));
          Obj(MergeProps(true, f, f));
          Obj(f);
        }
      }
    }
  }

  /** `merge(a, b)` for two plain objects: every key of either survives; a
      key only `a` has keeps its value, a key whose new value is not a plain
      object takes that value, and a key holding plain objects on both sides
      is merged recursively. */
  lemma MergeTwoObjects(a: map<string, JsValue>, b: map<string, JsValue>)
    ensures Merge([Obj(a), Obj(b)]).Keys == a.Keys + b.Keys
    ensures forall k :: k in a && k !in b ==> Merge([Obj(a), Obj(b)])[k] == a[k]
    ensures forall k :: k in b && !b[k].Obj? ==> Merge([Obj(a), Obj(b)])[k] == b[k]
    ensures forall k :: k !in a && k in b ==> Merge([Obj(a), Obj(b)])[k] == b[k]
    ensures forall k :: k in a && k in b && a[k].Obj? && b[k].Obj? ==>
      Merge([Obj(a), Obj(b)])[k] == Obj(MergeProps(true, a[k].fields, b[k].fields))
  {
    MergeTwoIsProps(a, b);
    var r := MergeProps(true, a, b);
    forall k | k !in a && k in b && b[k].Obj?
      ensures r[k] == b[k]
    {
      assert r[k] == MergeValue(Undefined, b[k]);
      NewObjectCopied(b[k].fields);
    }
    forall k | k in a && k in b && a[k].Obj? && b[k].Obj?
      ensures r[k] == Obj(MergeProps(true, a[k].fields, b[k].fields))
    {
      CopyIsIdentity(a[k].fields);
      assert r[k] == Obj(MergeInto(a[k], b[k].fields));
    }
  }

  /** Two plain objects merge as one run of `mergeObj` into a copy of the
      first. */
  lemma MergeTwoIsProps(a: map<string, JsValue>, b: map<string, JsValue>)
    ensures Merge([Obj(a), Obj(b)]) == MergeProps(true, a, b)
  {
    MergeAllTwo(true, Obj(a), Obj(b), map[]);
    CopyIsMergeIntoEmpty(a);
    CopyIsIdentity(a);
  }

  /** An object under a new key is copied unchanged. */
  lemma NewObjectCopied(f: map<string, JsValue>)
    ensures MergeValue(Undefined, Obj(f)) == Obj(f)
  {
    CopyIsIdentity(f);
    assert OwnProps(Undefined) == map[];
    CopyIsMergeIntoEmpty(f);
  }

  /** With a leading `false` the merge is shallow: later values replace
      earlier ones wholesale. */
  lemma ShallowMergeIsUnion(a: map<string, JsValue>, b: map<string, JsValue>)
    ensures Merge([Bool(false), Obj(a), Obj(b)]) == a + b
  {
    var args := [Bool(false), Obj(a), Obj(b)];
    assert args[1..] == [Obj(a), Obj(b)];
    MergeAllTwo(false, Obj(a), Obj(b), map[]);
    ShallowPropsIsUnion(map[], a);
    ShallowPropsIsUnion(a, b);
  }

  lemma ShallowPropsIsUnion(a: map<string, JsValue>, b: map<string, JsValue>)
    ensures MergeProps(false, a, b) == a + b
  {}

  /** The outer loop over two arguments. */
  lemma MergeAllTwo(deep: bool, x: JsValue, y: JsValue, t: map<string, JsValue>)
    ensures MergeAll(deep, [x, y], t) == MergeProps(deep, MergeProps(deep, t, OwnProps(x)), OwnProps(y))
  {
    assert [x, y][1..] == [y];
    assert [y][1..] == [];
  }
}
