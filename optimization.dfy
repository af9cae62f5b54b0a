/** The parameter grouping of `MyModel.setup_optimizer`
    (models/bert_model.py): named parameters are split, by substring match on
    the parameter's name, into a group that carries `weight_decay_rate` 0.01
    and a group that carries `weight_decay_rate` 0.0. The AdamW algorithm,
    and which group keys it reads, are not modelled. */
module Optimization {
  import opened Seqs

  /** `no_decay`: a name containing any of these is not decayed. */
  const NoDecayPatterns: seq<string> := ["bias", "LayerNorm.weight"]

  const DecayRate: real := 0.01
  const NoDecayRate: real := 0.0

  /** `any(nd in name for nd in patterns)` */
  predicate AnyContained(name: string, patterns: seq<string>)
  {
    patterns != [] && (Contains(name, patterns[0]) || AnyContained(name, patterns[1..]))
  }

  predicate NoDecay(name: string)
  {
    AnyContained(name, NoDecayPatterns)
  }

  /** A parameter escapes weight decay exactly when its name contains
      "bias" or "LayerNorm.weight" at some position. */
  lemma NoDecayIff(name: string)
    ensures NoDecay(name) <==>
      (exists i: nat :: OccursAt(name, "bias", i)) || (exists i: nat :: OccursAt(name, "LayerNorm.weight", i))
  {
    var rest := NoDecayPatterns[1..];
    assert NoDecayPatterns[0] == "bias" && rest[0] == "LayerNorm.weight" && rest[1..] == [];
    assert !AnyContained(name, rest[1..]);
    assert AnyContained(name, rest) <==> Contains(name, "LayerNorm.weight");
    assert NoDecay(name) <==> Contains(name, "bias") || AnyContained(name, rest);
    assert NoDecay(name) <==> Contains(name, "bias") || Contains(name, "LayerNorm.weight");
    ContainsIffOccurs(name, "bias");
    ContainsIffOccurs(name, "LayerNorm.weight");
  }

  /** One entry of `optimizer_grouped_parameters`. */
  datatype ParamGroup<P> = ParamGroup(params: seq<P>, weightDecayRate: real)

  /** The parameters of `named_parameters()`, without their names. */
  function Params<P>(named: seq<(string, P)>): (ps: seq<P>)
    ensures |ps| == |named| && forall i :: 0 <= i < |named| ==> ps[i] == named[i].1
  {
    seq(|named|, i requires 0 <= i < |named| => named[i].1)
  }

  /** `[p for n, p in named if any(...) == noDecay]` */
  function Select<P>(named: seq<(string, P)>, noDecay: bool): (ps: seq<P>)
    ensures |ps| <= |named|
  {
    if named == [] then []
    else if NoDecay(named[0].0) == noDecay then [named[0].1] + Select(named[1..], noDecay)
    else Select(named[1..], noDecay)
  }

  /** `optimizer_grouped_parameters`: the decayed group first, then the
      group without decay. */
  function GroupParameters<P>(named: seq<(string, P)>): (groups: seq<ParamGroup<P>>)
    ensures |groups| == 2
    ensures groups[0].weightDecayRate == DecayRate && groups[1].weightDecayRate == NoDecayRate
    ensures |groups[0].params| + |groups[1].params| == |named|
  {
    SelectSplits(named);
    [ParamGroup(Select(named, false), DecayRate), ParamGroup(Select(named, true), NoDecayRate)]
  }

  /** Every named parameter lands in exactly one of the two groups: the two
      selections together are the parameters, counted with multiplicity. */
  lemma {:induction false} SelectSplits<P>(named: seq<(string, P)>)
    ensures |Select(named, false)| + |Select(named, true)| == |named|
  {
    if named != [] {
      SelectSplits(named[1..]);
    }
  }

  lemma {:induction false} SelectPartition<P>(named: seq<(string, P)>)
    ensures multiset(Select(named, false)) + multiset(Select(named, true)) == multiset(Params(named))
  {
    if named != [] {
      SelectPartition(named[1..]);
      assert Params(named) == [named[0].1] + Params(named[1..]);
    }
  }

  /** A parameter is in the group for `noDecay` exactly when some entry of
      `named_parameters` carries it under a name whose no-decay test gives
      `noDecay`. */
  lemma {:induction false} SelectMember<P>(named: seq<(string, P)>, noDecay: bool, p: P)
    ensures p in Select(named, noDecay) <==>
      exists i :: 0 <= i < |named| && named[i].1 == p && NoDecay(named[i].0) == noDecay
  {
    if named != [] {
      SelectMember(named[1..], noDecay, p);
      if exists i :: 0 <= i < |named| && named[i].1 == p && NoDecay(named[i].0) == noDecay {
        var i :| 0 <= i < |named| && named[i].1 == p && NoDecay(named[i].0) == noDecay;
        if i > 0 {
          assert named[1..][i - 1] == named[i];
        }
      }
      if p in Select(named[1..], noDecay) {
        var i :| 0 <= i < |named| - 1 && named[1..][i].1 == p && NoDecay(named[1..][i].0) == noDecay;
        assert named[i + 1] == named[1..][i];
      }
    }
  }

  /** Each group keeps the order of `named_parameters`. */
  lemma {:induction false} SelectKeepsOrder<P>(named: seq<(string, P)>, noDecay: bool)
    ensures IsSubsequence(Select(named, noDecay), Params(named))
  {
    if named != [] {
      SelectKeepsOrder(named[1..], noDecay);
      var ps := Params(named);
      assert ps[1..] == Params(named[1..]);
      var sel := Select(named, noDecay);
      if NoDecay(named[0].0) == noDecay {
        assert sel[0] == ps[0] && sel[1..] == Select(named[1..], noDecay);
      }
    }
  }
}
