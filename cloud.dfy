/**
 * The point cloud that the pipeline reads its coordinates from and writes
 * its descriptors into (libpointmatcher's DataPoints, reduced to what the
 * pipeline touches): the feature matrix, and named descriptor matrices
 * together with the order in which their names were first added.
 */
module CloudModel {
  import opened LinAlg

  /** No name occurs twice. */
  predicate Distinct(ls: seq<string>) {
    forall i, j :: 0 <= i < j < |ls| ==> ls[i] != ls[j]
  }

  /** The label list after adding a descriptor: a new name goes last, a known one stays put. */
  function AddLabel(ls: seq<string>, name: string): seq<string> {
    if name in ls then ls else ls + [name]
  }

  /** The label list after adding the descriptors names, in that order. */
  function AddLabels(ls: seq<string>, names: seq<string>): seq<string>
    decreases names
  {
    if names == [] then ls else AddLabels(AddLabel(ls, names[0]), names[1..])
  }

  lemma AddLabelKeepsDistinct(ls: seq<string>, name: string)
    requires Distinct(ls)
    ensures Distinct(AddLabel(ls, name))
    ensures forall l :: l in AddLabel(ls, name) <==> l in ls || l == name
  {
  }

  /**
   * Adding names the list does not hold yet, each once, appends them in the
   * order they were added.
   */
  lemma {:induction false} AddLabelsAppends(ls: seq<string>, names: seq<string>)
    requires Distinct(names)
    requires forall l :: l in names ==> l !in ls
    ensures AddLabels(ls, names) == ls + names
    decreases names
  {
    if names != [] {
      var ls' := ls + [names[0]];
      assert AddLabel(ls, names[0]) == ls';
      forall l | l in names[1..]
        ensures l !in ls'
      {
        var k :| 1 <= k < |names| && names[k] == l;
        assert names[0] != names[k];
      }
      AddLabelsAppends(ls', names[1..]);
      assert ls' + names[1..] == ls + names;
    }
  }

  /**
   * Whatever the list held before, adding names keeps the old labels as a
   * prefix, keeps the list free of repeats and makes every added name present.
   */
  lemma {:induction false} AddLabelsKeeps(ls: seq<string>, names: seq<string>)
    requires Distinct(ls)
    ensures |ls| <= |AddLabels(ls, names)| && AddLabels(ls, names)[..|ls|] == ls
    ensures Distinct(AddLabels(ls, names))
    ensures forall l :: l in AddLabels(ls, names) <==> l in ls || l in names
    decreases names
  {
    if names != [] {
      var ls' := AddLabel(ls, names[0]);
      AddLabelKeepsDistinct(ls, names[0]);
      AddLabelsKeeps(ls', names[1..]);
      assert ls'[..|ls|] == ls;
      assert AddLabels(ls, names)[..|ls|] == AddLabels(ls, names)[..|ls'|][..|ls|];
      assert forall l :: l in names <==> l == names[0] || l in names[1..];
    }
  }

  class DataPoints<T> {
    /** The homogeneous feature matrix, one column per point. */
    var features: Matrix<T>
    /** Each descriptor's matrix, by name. */
    var descriptors: map<string, Matrix<T>>
    /** The descriptor names in the order they were first added. */
    var labels: seq<string>

    ghost predicate Valid()
      reads this
    {
      features.Valid() && Distinct(labels) && (forall l :: l in labels <==> l in descriptors)
    }

    constructor (features: Matrix<T>)
      requires features.Valid()
      ensures Valid()
      ensures this.features == features && descriptors == map[] && labels == []
    {
      this.features := features;
      descriptors := map[];
      labels := [];
    }

    /** Stores m under name, replacing any descriptor of that name. */
    method AddDescriptor(name: string, m: Matrix<T>)
      requires Valid()
      modifies this
      ensures Valid()
      ensures features == old(features)
      ensures descriptors == old(descriptors)[name := m]
      ensures labels == AddLabel(old(labels), name)
    {
      AddLabelKeepsDistinct(labels, name);
      descriptors := descriptors[name := m];
      labels := AddLabel(labels, name);
    }
  }
}
