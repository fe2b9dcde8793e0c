/** A flat model of the key-value tree (boost::property_tree::ptree) that the
    linear-solver setup fills in. A tree is a finite map from the full dotted
    path of a key ("preconditioner.coarsesolver.maxiter") to the value stored
    there; splitting the path into nested nodes is not modelled. */
module PropertyTree {

  /** The kinds of value the setup code stores: text, an integer, or a
      floating-point constant (kept as the exact decimal written in the code). */
  datatype Value = Str(text: string) | Int(number: int) | Real(decimal: real)

  /** A tree. `tree.put(path, v)` is the update `tree[path := v]`: the value
      at `path` becomes `v` whether or not the path was there before, and
      every other path keeps its value. */
  type Tree = map<string, Value>

  /** No path occurs twice in `paths`. */
  predicate NoDuplicates(paths: seq<string>) {
    forall i, j :: 0 <= i < j < |paths| ==> paths[i] != paths[j]
  }

  /** Two lists without repeats, with no path in common, concatenate to a
      list without repeats. */
  lemma NoDuplicatesAppend(a: seq<string>, b: seq<string>)
    requires NoDuplicates(a) && NoDuplicates(b)
    requires forall k :: k in a ==> k !in b
    ensures NoDuplicates(a + b)
  {
    forall i, j | 0 <= i < j < |a + b|
      ensures (a + b)[i] != (a + b)[j]
    {
      if j < |a| {
        assert (a + b)[i] == a[i] && (a + b)[j] == a[j];
      } else if i < |a| {
        assert (a + b)[i] == a[i] && (a + b)[j] == b[j - |a|];
        assert a[i] in a && b[j - |a|] in b;
      } else {
        assert (a + b)[i] == b[i - |a|] && (a + b)[j] == b[j - |a|];
      }
    }
  }

  /** The set of paths listed in `paths`. */
  function PathSet(paths: seq<string>): set<string> {
    set k | k in paths
  }

  /** One `put`: the path written and the value written there. */
  datatype Entry = Entry(path: string, value: Value)

  /** The paths of a sequence of puts, in order. */
  function Paths(entries: seq<Entry>): seq<string> {
    seq(|entries|, i requires 0 <= i < |entries| => entries[i].path)
  }

  /** The paths of `a + b` are those of `a` followed by those of `b`. */
  lemma PathsAppend(a: seq<Entry>, b: seq<Entry>)
    ensures Paths(a + b) == Paths(a) + Paths(b)
  {
  }

  /** The tree after putting each entry into `t`, first to last. */
  function PutAll(t: Tree, entries: seq<Entry>): Tree
    decreases |entries|
  {
    if entries == [] then t
    else
      var last := entries[|entries| - 1];
      PutAll(t, entries[..|entries| - 1])[last.path := last.value]
  }

  /** Putting `e + [x]` is putting `e` and then `x`. */
  lemma PutAllSnoc(t: Tree, e: seq<Entry>, x: Entry)
    ensures PutAll(t, e + [x]) == PutAll(t, e)[x.path := x.value]
  {
    assert (e + [x])[..|e|] == e;
  }

  /** Putting `a + b` is putting `a` and then, into the result, `b`. */
  lemma {:induction false} PutAllAppend(t: Tree, a: seq<Entry>, b: seq<Entry>)
    ensures PutAll(t, a + b) == PutAll(PutAll(t, a), b)
    decreases |b|
  {
    if b == [] {
      assert a + b == a;
    } else {
      var init, last := b[..|b| - 1], b[|b| - 1];
      assert b == init + [last];
      assert a + b == (a + init) + [last];
      PutAllAppend(t, a, init);
      PutAllSnoc(t, a + init, last);
      PutAllSnoc(PutAll(t, a), init, last);
    }
  }

  /** A put adds its path and removes none: the keys after a sequence of
      puts are the keys before it plus every path written. */
  lemma {:induction false} PutAllKeys(t: Tree, entries: seq<Entry>)
    ensures PutAll(t, entries).Keys == t.Keys + PathSet(Paths(entries))
    decreases |entries|
  {
    if entries != [] {
      var init := entries[..|entries| - 1];
      PutAllKeys(t, init);
      assert Paths(entries) == Paths(init) + [entries[|entries| - 1].path];
    }
  }

  /** When no path is written twice, no put overwrites another: every
      entry's value is the one found at its path afterwards. */
  lemma {:induction false} PutAllDistinctValues(t: Tree, entries: seq<Entry>)
    requires NoDuplicates(Paths(entries))
    ensures forall i :: 0 <= i < |entries| ==>
      entries[i].path in PutAll(t, entries) && PutAll(t, entries)[entries[i].path] == entries[i].value
    decreases |entries|
  {
    if entries != [] {
      var init := entries[..|entries| - 1];
      assert Paths(init) == Paths(entries)[..|entries| - 1];
      PutAllDistinctValues(t, init);
      forall i | 0 <= i < |entries| - 1
        ensures entries[i].path != entries[|entries| - 1].path
      {
        assert Paths(entries)[i] == entries[i].path;
        assert Paths(entries)[|entries| - 1] == entries[|entries| - 1].path;
      }
    }
  }

  /** A path no entry writes keeps its value. */
  lemma {:induction false} PutAllKeepsOthers(t: Tree, entries: seq<Entry>, k: string)
    requires k in t && k !in Paths(entries)
    ensures k in PutAll(t, entries) && PutAll(t, entries)[k] == t[k]
    decreases |entries|
  {
    if entries != [] {
      var init := entries[..|entries| - 1];
      assert Paths(entries) == Paths(init) + [entries[|entries| - 1].path];
      PutAllKeepsOthers(t, init, k);
    }
  }

  /** Starting from an empty tree, puts to distinct paths give a tree with
      one key per put. */
  lemma PutAllSize(entries: seq<Entry>)
    requires NoDuplicates(Paths(entries))
    ensures |PutAll(map[], entries)| == |entries|
  {
    PutAllKeys(map[], entries);
    DistinctPathCount(Paths(entries));
  }

  /** A list of paths in which none repeats names exactly as many distinct
      keys as it has entries. */
  lemma {:induction false} DistinctPathCount(paths: seq<string>)
    requires NoDuplicates(paths)
    ensures |PathSet(paths)| == |paths|
  {
    if paths != [] {
      var init, last := paths[..|paths| - 1], paths[|paths| - 1];
      assert paths == init + [last];
      assert NoDuplicates(init);
      DistinctPathCount(init);
      assert PathSet(paths) == PathSet(init) + {last};
      assert last !in init by {
        assert forall i :: 0 <= i < |init| ==> init[i] == paths[i];
      }
    }
  }
}
