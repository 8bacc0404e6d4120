/**
  The PFObject grouping helpers: reshaping an array of PFObjects into a
  dictionary keyed by class name (dictify) and back (undictify), into a
  dictionary keyed by objectId (dictifyByPID), and from the class-keyed
  form straight into the objectId-keyed form (redictifyByPID).

  A PFObject is seen only through its class name and its objectId.
*/
module PFObjectPromise {

  datatype PFObject = PFObject(className: string, objectId: string)

  // Grouping by class name

  function ClassNames(xs: seq<PFObject>): set<string>
  {
    set o | o in xs :: o.className
  }

  /** The objects of `xs` whose class is `c`, in their order in `xs`. */
  function OfClass(xs: seq<PFObject>, c: string): seq<PFObject>
    decreases |xs|
  {
    if xs == [] then []
    else
      var last := xs[|xs| - 1];
      OfClass(xs[..|xs| - 1], c) + (if last.className == c then [last] else [])
  }

  /** The dictionary dictify builds: one entry per class name occurring in
      `xs`, holding the objects of that class. */
  function ByClass(xs: seq<PFObject>): map<string, seq<PFObject>>
  {
    map c | c in ClassNames(xs) :: OfClass(xs, c)
  }

  /** `OfClass(xs, c)` holds exactly the objects of `xs` of class `c`, each
      as often as it occurs in `xs`. */
  lemma {:induction false} OfClassCount(xs: seq<PFObject>, c: string, o: PFObject)
    ensures multiset(OfClass(xs, c))[o] == if o.className == c then multiset(xs)[o] else 0
    decreases |xs|
  {
    if xs != [] {
      var init := xs[..|xs| - 1];
      OfClassCount(init, c, o);
      assert xs == init + [xs[|xs| - 1]];
    }
  }

  /** dictify has exactly the class names of `xs` as keys; the array under
      each key holds objects of that class only; every object of `xs`
      appears under its own class name, as often as in `xs`. */
  lemma ByClassGroups(xs: seq<PFObject>)
    ensures ByClass(xs).Keys == ClassNames(xs)
    ensures forall c, o :: c in ByClass(xs) && o in ByClass(xs)[c] ==> o.className == c && o in xs
    ensures forall o :: o in xs ==>
      o.className in ByClass(xs) && multiset(ByClass(xs)[o.className])[o] == multiset(xs)[o]
  {
    forall c, o | c in ByClass(xs) && o in ByClass(xs)[c]
      ensures o.className == c && o in xs
    {
      OfClassCount(xs, c, o);
    }
    forall o | o in xs
      ensures o.className in ByClass(xs) && multiset(ByClass(xs)[o.className])[o] == multiset(xs)[o]
    {
      OfClassCount(xs, o.className, o);
    }
  }

  /** Adding one object to the array adds it at the end of its class's entry. */
  lemma ByClassSnoc(xs: seq<PFObject>, o: PFObject)
    ensures ByClass(xs + [o]) ==
      ByClass(xs)[o.className := (if o.className in ByClass(xs) then ByClass(xs)[o.className] else []) + [o]]
  {
    var ys := xs + [o];
    assert ys[..|ys| - 1] == xs;
    assert ClassNames(ys) == ClassNames(xs) + {o.className};
    if o.className !in ClassNames(xs) {
      OfClassAbsent(xs, o.className);
    }
    var grown := ByClass(xs)[o.className := (if o.className in ByClass(xs) then ByClass(xs)[o.className] else []) + [o]];
    assert ByClass(ys).Keys == grown.Keys;
    forall c | c in grown
      ensures ByClass(ys)[c] == grown[c]
    {
      assert OfClass(ys, c) == OfClass(xs, c) + (if o.className == c then [o] else []);
    }
  }

  lemma {:induction false} OfClassAbsent(xs: seq<PFObject>, c: string)
    requires c !in ClassNames(xs)
    ensures OfClass(xs, c) == []
    decreases |xs|
  {
    if xs != [] {
      OfClassAbsent(xs[..|xs| - 1], c);
    }
  }

  /** All the objects held in the arrays of `d`, in no particular order. */
  ghost function AllValues(d: map<string, seq<PFObject>>): multiset<PFObject>
    decreases d.Keys
  {
    if d == map[] then multiset{}
    else
      var k :| k in d;
      multiset(d[k]) + AllValues(d - {k})
  }

  /** `AllValues` does not depend on which key is taken first. */
  lemma {:induction false} AllValuesWithout(d: map<string, seq<PFObject>>, k: string)
    requires k in d
    ensures AllValues(d) == multiset(d[k]) + AllValues(d - {k})
    decreases d.Keys
  {
    var j :| j in d && AllValues(d) == multiset(d[j]) + AllValues(d - {j});
    if j != k {
      AllValuesWithout(d - {j}, k);
      AllValuesWithout(d - {k}, j);
      assert d - {j} - {k} == d - {k} - {j};
    }
  }

  /** dictify: walks the array, appending each object to the entry of its
      class, creating the entry the first time the class is seen. */
  method Dictify(objects: seq<PFObject>) returns (d: map<string, seq<PFObject>>)
    ensures d == ByClass(objects)
  {
    d := map[];
    var i := 0;
    while i < |objects|
      invariant 0 <= i <= |objects|
      invariant d == ByClass(objects[..i])
    {
      var o := objects[i];
      ByClassSnoc(objects[..i], o);
      assert objects[..i + 1] == objects[..i] + [o];
      if o.className in d {
        d := d[o.className := d[o.className] + [o]];
      } else {
        assert [] + [o] == [o];
        d := d[o.className := [o]];
      }
      assert d == ByClass(objects[..i + 1]);
      i := i + 1;
    }
    assert objects[..i] == objects;
  }

  /** `ks` lists every key of `d` exactly once. */
  ghost predicate KeyOrder(d: map<string, seq<PFObject>>, ks: seq<string>)
  {
    (forall i, j :: 0 <= i < j < |ks| ==> ks[i] != ks[j]) &&
    (forall k :: k in ks ==> k in d) &&
    (forall k :: k in d ==> k in ks)
  }

  /** The arrays of `d` under the keys `ks`, concatenated in that order. */
  function Concat(d: map<string, seq<PFObject>>, ks: seq<string>): seq<PFObject>
    requires forall k :: k in ks ==> k in d
    decreases |ks|
  {
    if ks == [] then [] else Concat(d, ks[..|ks| - 1]) + d[ks[|ks| - 1]]
  }

  /** Concatenating one more key appends that key's array. */
  lemma ConcatSnoc(d: map<string, seq<PFObject>>, ks: seq<string>, k: string)
    requires forall j :: j in ks ==> j in d
    requires k in d
    ensures Concat(d, ks + [k]) == Concat(d, ks) + d[k]
  {
    assert (ks + [k])[..|ks|] == ks;
  }

  /** undictify: concatenates the arrays of the dictionary, taking the keys
      in whatever order the dictionary enumerates them. */
  method Undictify(dict: map<string, seq<PFObject>>) returns (objects: seq<PFObject>)
    ensures exists ks :: KeyOrder(dict, ks) && objects == Concat(dict, ks)
    ensures multiset(objects) == AllValues(dict)
  {
    objects := [];
    var rest := dict;
    ghost var ks: seq<string> := [];
    while rest != map[]
      invariant multiset(objects) + AllValues(rest) == AllValues(dict)
      invariant Flattening(dict, rest, ks, objects)
      decreases rest.Keys
    {
      var k :| k in rest;
      TakeOne(dict, rest, objects, k);
      FlattenOne(dict, rest, ks, objects, k);
      objects := objects + rest[k];
      rest := rest - {k};
      ks := ks + [k];
    }
    FlattenDone(dict, ks, objects);
  }

  /** Midway through undictify: `objects` concatenates the arrays of the
      keys `ks` already taken, and `rest` holds the entries not taken yet. */
  ghost predicate Flattening(dict: map<string, seq<PFObject>>, rest: map<string, seq<PFObject>>,
                             ks: seq<string>, objects: seq<PFObject>)
  {
    (forall k :: k in rest <==> k in dict && k !in ks) &&
    (forall k :: k in rest ==> rest[k] == dict[k]) &&
    (forall k :: k in ks ==> k in dict) &&
    (forall i, j :: 0 <= i < j < |ks| ==> ks[i] != ks[j]) &&
    objects == Concat(dict, ks)
  }

  /** Taking the entry of `k` moves its objects from `rest` to `objects`. */
  lemma TakeOne(dict: map<string, seq<PFObject>>, rest: map<string, seq<PFObject>>,
                objects: seq<PFObject>, k: string)
    requires multiset(objects) + AllValues(rest) == AllValues(dict) && k in rest
    ensures multiset(objects + rest[k]) + AllValues(rest - {k}) == AllValues(dict)
  {
    AllValuesWithout(rest, k);
  }

  /** Taking one more key keeps undictify's loop invariant. */
  lemma FlattenOne(dict: map<string, seq<PFObject>>, rest: map<string, seq<PFObject>>,
                   ks: seq<string>, objects: seq<PFObject>, k: string)
    requires Flattening(dict, rest, ks, objects) && k in rest
    ensures Flattening(dict, rest - {k}, ks + [k], objects + rest[k])
  {
    ConcatSnoc(dict, ks, k);
  }

  /** Once every key is taken, the keys taken are a key order. */
  lemma FlattenDone(dict: map<string, seq<PFObject>>, ks: seq<string>, objects: seq<PFObject>)
    requires Flattening(dict, map[], ks, objects)
    ensures KeyOrder(dict, ks) && objects == Concat(dict, ks)
  {
  }

  /** Every array of `d` is non-empty and holds objects of its key's class
      only: the dictionaries dictify produces. */
  ghost predicate WellGrouped(d: map<string, seq<PFObject>>)
  {
    (forall c :: c in d ==> d[c] != []) &&
    (forall c, o :: c in d && o in d[c] ==> o.className == c)
  }

  /** Appending a non-empty group of a class not yet present adds exactly
      that group under its class name. */
  lemma {:induction false} ByClassAppendGroup(xs: seq<PFObject>, c: string, ys: seq<PFObject>)
    requires c !in ByClass(xs) && ys != []
    requires forall o :: o in ys ==> o.className == c
    ensures ByClass(xs + ys) == ByClass(xs)[c := ys]
    decreases |ys|
  {
    var init := ys[..|ys| - 1];
    var o := ys[|ys| - 1];
    assert ys == init + [o];
    if init == [] {
      FirstOfGroup(xs, o);
    } else {
      ByClassAppendGroup(xs, c, init);
      NextOfGroup(xs, init, o);
    }
  }

  /** The first object of a new class opens that class's entry. */
  lemma FirstOfGroup(xs: seq<PFObject>, o: PFObject)
    requires o.className !in ByClass(xs)
    ensures ByClass(xs + [o]) == ByClass(xs)[o.className := [o]]
  {
    ByClassSnoc(xs, o);
    assert [] + [o] == [o];
  }

  /** A further object of the class appends to its entry. */
  lemma NextOfGroup(xs: seq<PFObject>, init: seq<PFObject>, o: PFObject)
    requires ByClass(xs + init) == ByClass(xs)[o.className := init]
    ensures ByClass(xs + (init + [o])) == ByClass(xs)[o.className := init + [o]]
  {
    assert xs + (init + [o]) == (xs + init) + [o];
    ByClassSnoc(xs + init, o);
  }

  /** `Concat` only reads the entries of the keys it is given. */
  lemma {:induction false} ConcatFrame(d: map<string, seq<PFObject>>, e: map<string, seq<PFObject>>, ks: seq<string>)
    requires forall k :: k in ks ==> k in d && k in e && d[k] == e[k]
    ensures Concat(d, ks) == Concat(e, ks)
    decreases |ks|
  {
    if ks != [] {
      ConcatFrame(d, e, ks[..|ks| - 1]);
    }
  }

  /** dictify inverts undictify on the dictionaries dictify produces:
      flattening them in any key order and grouping again gives the very
      same dictionary. */
  lemma {:induction false} DictifyUndictify(d: map<string, seq<PFObject>>, ks: seq<string>)
    requires WellGrouped(d) && KeyOrder(d, ks)
    ensures ByClass(Concat(d, ks)) == d
    decreases |ks|
  {
    if ks == [] {
      assert d == map[];
    } else {
      var init := ks[..|ks| - 1];
      var last := ks[|ks| - 1];
      DropLastKey(d, ks);
      DictifyUndictify(d - {last}, init);
      ByClassAppendGroup(Concat(d, init), last, d[last]);
      Restore(d, last);
    }
  }

  /** Putting back a removed entry restores the dictionary. */
  lemma Restore(d: map<string, seq<PFObject>>, k: string)
    requires k in d
    ensures (d - {k})[k := d[k]] == d
  {
  }

  /** Removing the last key of a key order from a well-grouped dictionary
      leaves a well-grouped dictionary with the remaining keys in order. */
  lemma DropLastKey(d: map<string, seq<PFObject>>, ks: seq<string>)
    requires WellGrouped(d) && KeyOrder(d, ks) && ks != []
    ensures ks[|ks| - 1] in d
    ensures WellGrouped(d - {ks[|ks| - 1]})
    ensures KeyOrder(d - {ks[|ks| - 1]}, ks[..|ks| - 1])
    ensures Concat(d - {ks[|ks| - 1]}, ks[..|ks| - 1]) == Concat(d, ks[..|ks| - 1])
    ensures forall o :: o in d[ks[|ks| - 1]] ==> o.className == ks[|ks| - 1]
    ensures d[ks[|ks| - 1]] != []
  {
    var init := ks[..|ks| - 1];
    var last := ks[|ks| - 1];
    assert forall k :: k in init ==> k != last;
    assert forall k :: k in ks ==> k in init || k == last;
    ConcatFrame(d, d - {last}, init);
  }

  /** Replacing the entry of key `c` replaces its objects among the values. */
  lemma AllValuesReplace(d: map<string, seq<PFObject>>, c: string, entry: seq<PFObject>)
    ensures AllValues(d[c := entry]) == multiset(entry) + AllValues(d - {c})
  {
    var grown := d[c := entry];
    AllValuesWithout(grown, c);
    assert grown - {c} == d - {c};
  }

  /** Appending one object to the entry of key `c` adds that object to
      the values of the dictionary. */
  lemma AllValuesAppend(d: map<string, seq<PFObject>>, c: string, o: PFObject)
    ensures AllValues(d[c := (if c in d then d[c] else []) + [o]]) == AllValues(d) + multiset{o}
  {
    var entry := if c in d then d[c] else [];
    AllValuesReplace(d, c, entry + [o]);
    assert multiset(entry + [o]) == multiset(entry) + multiset{o};
    if c in d {
      AllValuesWithout(d, c);
    } else {
      assert d - {c} == d;
    }
  }

  /** undictify inverts dictify: the same objects come back, each as often
      as it was in the array. */
  lemma {:induction false} UndictifyDictify(xs: seq<PFObject>)
    ensures AllValues(ByClass(xs)) == multiset(xs)
    decreases |xs|
  {
    if xs == [] {
      assert ByClass(xs) == map[];
    } else {
      var init := xs[..|xs| - 1];
      var o := xs[|xs| - 1];
      assert xs == init + [o];
      UndictifyDictify(init);
      ByClassSnoc(init, o);
      AllValuesAppend(ByClass(init), o.className, o);
    }
  }

  // Keying by objectId (PID)

  function ObjectIds(xs: seq<PFObject>): set<string>
  {
    set o | o in xs :: o.objectId
  }

  /** The dictionary dictifyByPID builds: each object stored under its
      objectId, a later object replacing an earlier one with the same id. */
  function ByPid(xs: seq<PFObject>): map<string, PFObject>
    decreases |xs|
  {
    if xs == [] then map[]
    else
      var last := xs[|xs| - 1];
      ByPid(xs[..|xs| - 1])[last.objectId := last]
  }

  /** Every key of dictifyByPID is the objectId of an object of `xs`, every
      objectId of `xs` is a key, and the key's entry is an object of `xs`
      carrying that objectId. */
  lemma {:induction false} ByPidSound(xs: seq<PFObject>)
    ensures ByPid(xs).Keys == ObjectIds(xs)
    ensures forall k :: k in ByPid(xs) ==> ByPid(xs)[k].objectId == k && ByPid(xs)[k] in xs
    decreases |xs|
  {
    if xs != [] {
      var init := xs[..|xs| - 1];
      ByPidSound(init);
      assert xs == init + [xs[|xs| - 1]];
      assert ObjectIds(xs) == ObjectIds(init) + {xs[|xs| - 1].objectId};
    }
  }

  /** No two different objects of `xs` share an objectId. */
  ghost predicate UniqueIds(xs: seq<PFObject>)
  {
    forall a, b :: a in xs && b in xs && a.objectId == b.objectId ==> a == b
  }

  /** With distinct objectIds, the inverse of dictifyByPID is "all values":
      each object is found under its own objectId, and the values are
      exactly the objects of `xs`. */
  lemma ByPidAllValues(xs: seq<PFObject>)
    requires UniqueIds(xs)
    ensures forall o :: o in xs ==> o.objectId in ByPid(xs) && ByPid(xs)[o.objectId] == o
    ensures ByPid(xs).Values == set o | o in xs
  {
    ByPidSound(xs);
    forall o | o in xs
      ensures o.objectId in ByPid(xs) && ByPid(xs)[o.objectId] == o
    {
      assert o.objectId in ObjectIds(xs);
    }
    forall v | v in ByPid(xs).Values
      ensures v in xs
    {
      var k :| k in ByPid(xs) && ByPid(xs)[k] == v;
    }
  }

  /** dictifyByPID: walks the array, storing each object under its objectId. */
  method DictifyByPID(objects: seq<PFObject>) returns (d: map<string, PFObject>)
    ensures d == ByPid(objects)
  {
    d := map[];
    var i := 0;
    while i < |objects|
      invariant 0 <= i <= |objects|
      invariant d == ByPid(objects[..i])
    {
      assert objects[..i + 1][..i] == objects[..i];
      d := d[objects[i].objectId := objects[i]];
      i := i + 1;
    }
    assert objects[..i] == objects;
  }

  /** redictifyByPID: turns a class-keyed dictionary into the objectId-keyed
      dictionary of all the objects it holds; it is dictifyByPID applied to
      undictify of the dictionary. */
  method RedictifyByPID(dict: map<string, seq<PFObject>>) returns (d: map<string, PFObject>)
    ensures exists flat :: multiset(flat) == AllValues(dict) && d == ByPid(flat)
    ensures exists ks :: KeyOrder(dict, ks) && d == ByPid(Concat(dict, ks))
    ensures d.Keys == set o | o in AllValues(dict) :: o.objectId
    ensures forall k :: k in d ==> d[k].objectId == k && d[k] in AllValues(dict)
  {
    var flat := Undictify(dict);
    d := DictifyByPID(flat);
    ByPidSound(flat);
    assert forall o :: o in flat <==> o in AllValues(dict);
  }
}
