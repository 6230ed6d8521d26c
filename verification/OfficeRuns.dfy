/** Taking runs of the office protocol apart and putting them together. */
module OfficeRuns {
  import opened Common
  import opened OfficeProtocol

  lemma RunCons(w: World, l: Label, rest: seq<Label>)
    requires Step(w, l).Some?
    ensures Run(w, [l] + rest) == Run(Step(w, l).value, rest)
  {
    assert ([l] + rest)[1..] == rest;
  }

  lemma {:induction false} RunAppend(w: World, before: seq<Label>, after: seq<Label>)
    requires Run(w, before).Some?
    ensures Run(w, before + after) == Run(Run(w, before).value, after)
    decreases |before|
  {
    hide Step;
    if before == [] {
      assert before + after == after;
    } else {
      assert (before + after)[1..] == before[1..] + after;
      RunAppend(Step(w, before[0]).value, before[1..], after);
    }
  }

  lemma RunNothing(w: World)
    ensures Run(w, []) == Some(w)
  {
  }

  lemma EveryCons(rule: (World, Label) -> bool, w: World, l: Label, rest: seq<Label>)
    requires rule(w, l) && Step(w, l).Some? && Every(rule, Step(w, l).value, rest)
    ensures Every(rule, w, [l] + rest)
  {
    hide Step;
    assert ([l] + rest)[1..] == rest;
  }

  lemma {:induction false} EveryAppend(rule: (World, Label) -> bool, w: World, before: seq<Label>, after: seq<Label>)
    requires Every(rule, w, before) && Run(w, before).Some? && Every(rule, Run(w, before).value, after)
    ensures Every(rule, w, before + after)
    decreases |before|
  {
    hide Step;
    if before == [] {
      assert before + after == after;
    } else {
      assert (before + after)[1..] == before[1..] + after;
      EveryAppend(rule, Step(w, before[0]).value, before[1..], after);
    }
  }

  /** Neither lists nor recovers. */
  predicate Quiet(labels: seq<Label>) {
    forall l | l in labels :: !l.List? && !l.Recover?
  }

  /** The timing rules speak of listing and recovering alone. */
  lemma {:induction false} QuietKeepsRules(rule: (World, Label) -> bool, w: World, labels: seq<Label>)
    requires Quiet(labels) && forall v: World, l: Label | !l.List? && !l.Recover? :: rule(v, l)
    ensures Every(rule, w, labels)
    decreases |labels|
  {
    hide Step;
    if labels != [] && Step(w, labels[0]).Some? {
      QuietKeepsRules(rule, Step(w, labels[0]).value, labels[1..]);
    }
  }

  /** What begins a run is a run. */
  lemma {:induction false} RunSplit(w: World, before: seq<Label>, after: seq<Label>)
    requires Run(w, before + after).Some?
    ensures Run(w, before).Some? && Run(w, before + after) == Run(Run(w, before).value, after)
    decreases |before|
  {
    hide Step;
    if before == [] {
      assert before + after == after;
    } else {
      assert (before + after)[1..] == before[1..] + after;
      RunSplit(Step(w, before[0]).value, before[1..], after);
    }
  }

  /** The steps of a run lead from each of its worlds to the next. */
  lemma RunStep(w: World, labels: seq<Label>, i: nat)
    requires Run(w, labels).Some? && i < |labels|
    ensures Run(w, labels[..i]).Some? && Run(w, labels[..i + 1]).Some?
    ensures Run(w, labels[..i + 1]) == Step(Run(w, labels[..i]).value, labels[i])
  {
    hide Step;
    assert labels[..i + 1] + labels[i + 1..] == labels;
    RunSplit(w, labels[..i + 1], labels[i + 1..]);
    assert labels[..i] + [labels[i]] == labels[..i + 1];
    RunSplit(w, labels[..i], [labels[i]]);
    assert [labels[i]][1..] == [];
  }

  /** A rule is kept by a run if and only if each step keeps it in the world it is taken in. */
  lemma {:induction false} EveryStepwise(rule: (World, Label) -> bool, w: World, labels: seq<Label>)
    requires Run(w, labels).Some?
    ensures Every(rule, w, labels) <==>
      forall i: nat | i < |labels| :: Run(w, labels[..i]).Some? && rule(Run(w, labels[..i]).value, labels[i])
    decreases |labels|
  {
    hide Step;
    if labels != [] {
      var next, rest := Step(w, labels[0]).value, labels[1..];
      EveryStepwise(rule, next, rest);
      assert labels[..0] == [];
      forall i: nat | i < |rest| ensures Run(w, labels[..i + 1]) == Run(next, rest[..i]) {
        assert labels[..i + 1][1..] == rest[..i];
      }
      assert forall i: nat | i < |rest| :: rest[i] == labels[i + 1] && Run(w, labels[..i + 1]) == Run(next, rest[..i]);
      if forall i: nat | i < |labels| :: Run(w, labels[..i]).Some? && rule(Run(w, labels[..i]).value, labels[i]) {
        forall i: nat | i < |rest| ensures Run(next, rest[..i]).Some? && rule(Run(next, rest[..i]).value, rest[i]) {
          assert Run(w, labels[..i + 1]).Some? && rule(Run(w, labels[..i + 1]).value, labels[i + 1]);
        }
      } else if Every(rule, w, labels) {
        forall i: nat | i < |labels| ensures Run(w, labels[..i]).Some? && rule(Run(w, labels[..i]).value, labels[i]) {
          if i > 0 { assert Run(next, rest[..i - 1]).Some? && rule(Run(next, rest[..i - 1]).value, rest[i - 1]); }
        }
      }
    }
  }
}
