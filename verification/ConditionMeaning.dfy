/** What evaluating a condition operand by operand means. */
module ConditionMeaning {
  import opened Wrappers
  import opened Scenario
  import opened PhaseSemantics
  import opened PhaseTree
  import opened PhaseCompletion

  /** Evaluating the condition, and everything in it, throws nothing. */
  ghost predicate Sound(d: Diagram, e: Env, m: Machine, c: Condition)
    decreases c, 0
  {
    match c
    case Leaf(id) => e.leaf(id, m.effects) != Raises
    case PhaseStateIs(q, _) => q < |m.phases|
    case ActionsComplete(q) => q < |m.phases|
    case Or(ops) => forall i :: 0 <= i < |ops| ==> Sound(d, e, m, ops[i])
    case And(ops) => forall i :: 0 <= i < |ops| ==> Sound(d, e, m, ops[i])
  }

  /** The truth of a condition: of some operand, or of all. */
  ghost predicate Holds(d: Diagram, e: Env, m: Machine, c: Condition)
    requires |m.phases| == |d.phases| && |m.status| == |d.actions|
    decreases c, 0
  {
    match c
    case Leaf(id) => e.leaf(id, m.effects) == Satisfied
    case PhaseStateIs(q, s) => q < |m.phases| && m.phases[q].state == s
    case ActionsComplete(q) => q < |m.phases| && HasCompleted(d, m, q)
    case Or(ops) => exists i :: 0 <= i < |ops| && Holds(d, e, m, ops[i])
    case And(ops) => forall i :: 0 <= i < |ops| ==> Holds(d, e, m, ops[i])
  }

  /** Operands are looked at until one decides or throws. */
  lemma {:induction false} UntilMeaning(d: Diagram, e: Env, m: Machine, ops: seq<Condition>, stop: Verdict)
    requires |m.phases| == |d.phases| && |m.status| == |d.actions| && stop != Raises
    ensures var v := CheckUntil(d, e, m, ops, stop);
            if forall i :: 0 <= i < |ops| ==> Check(d, e, m, ops[i]) != stop && Check(d, e, m, ops[i]) != Raises then v != stop && v != Raises
            else exists i :: 0 <= i < |ops| && Check(d, e, m, ops[i]) == v && (v == stop || v == Raises)
                             && forall j :: 0 <= j < i ==> Check(d, e, m, ops[j]) != stop && Check(d, e, m, ops[j]) != Raises
    decreases |ops|
  {
    if ops != [] {
      var v := Check(d, e, m, ops[0]);
      if v != stop && v != Raises {
        var rest := ops[1..];
        UntilMeaning(d, e, m, rest, stop);
        assert forall i :: 0 <= i < |rest| ==> rest[i] == ops[i + 1];
        if !(forall i :: 0 <= i < |rest| ==> Check(d, e, m, rest[i]) != stop && Check(d, e, m, rest[i]) != Raises) {
          var w := CheckUntil(d, e, m, rest, stop);
          var i :| 0 <= i < |rest| && Check(d, e, m, rest[i]) == w && (w == stop || w == Raises)
                   && forall j :: 0 <= j < i ==> Check(d, e, m, rest[j]) != stop && Check(d, e, m, rest[j]) != Raises;
          assert Check(d, e, m, ops[i + 1]) == w;
          forall j | 0 <= j < i + 1 ensures Check(d, e, m, ops[j]) != stop && Check(d, e, m, ops[j]) != Raises {
            assert j > 0 ==> ops[j] == rest[j - 1];
          }
        }
      }
    }
  }

  /** Main result: if nothing in a condition throws, its evaluation with short cuts yields its truth. */
  lemma {:induction false} CheckIsTruth(d: Diagram, e: Env, m: Machine, c: Condition)
    requires |m.phases| == |d.phases| && |m.status| == |d.actions| && Sound(d, e, m, c)
    ensures Check(d, e, m, c) == if Holds(d, e, m, c) then Satisfied else Unsatisfied
    decreases c, 0
  {
    match c {
      case Leaf(_) =>
      case PhaseStateIs(_, _) =>
      case ActionsComplete(_) =>
      case Or(ops) =>
        UntilMeaning(d, e, m, ops, Satisfied);
        forall i | 0 <= i < |ops| ensures Check(d, e, m, ops[i]) == if Holds(d, e, m, ops[i]) then Satisfied else Unsatisfied {
          CheckIsTruth(d, e, m, ops[i]);
        }
      case And(ops) =>
        UntilMeaning(d, e, m, ops, Unsatisfied);
        forall i | 0 <= i < |ops| ensures Check(d, e, m, ops[i]) == if Holds(d, e, m, ops[i]) then Satisfied else Unsatisfied {
          CheckIsTruth(d, e, m, ops[i]);
        }
    }
  }

  /** An operand that throws is reached exactly if no operand before it decides. */
  lemma OperandThrows(d: Diagram, e: Env, m: Machine, ops: seq<Condition>)
    requires |m.phases| == |d.phases| && |m.status| == |d.actions|
    ensures Check(d, e, m, Or(ops)) == Raises <==>
              exists i :: 0 <= i < |ops| && Check(d, e, m, ops[i]) == Raises && forall j :: 0 <= j < i ==> Check(d, e, m, ops[j]) == Unsatisfied
    ensures Check(d, e, m, And(ops)) == Raises <==>
              exists i :: 0 <= i < |ops| && Check(d, e, m, ops[i]) == Raises && forall j :: 0 <= j < i ==> Check(d, e, m, ops[j]) == Satisfied
  {
    UntilMeaning(d, e, m, ops, Satisfied);
    UntilMeaning(d, e, m, ops, Unsatisfied);
  }

  /** For a running phase, a condition on its completion asks whether its content is done. */
  lemma CompletionIsRead(d: Diagram, e: Env, m: Machine, q: nat)
    requires Fits(d, m) && q < |d.phases| && m.phases[q].state == Run && NodeOK(d, m.phases, q)
    ensures Check(d, e, m, ActionsComplete(q)) == if ContentDone(d, m, q) then Satisfied else Unsatisfied
  {
    CompletionMeaning(d, m, q);
  }
}
