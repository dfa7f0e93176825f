/**
 The meaning both repairs share.

 A ledger records which command occurrences were accepted with which payload, and which (event,
 logical key) pairs are settled. It has no identifiers, clocks, intents or delivery loop: accepting
 and delivering are single closed-form steps. `RepairRefinement` proves that the logical-identity and
 the intent-outbox flows both implement exactly these steps under every fault schedule.
 */
module Ledger {
  import opened Settlement

  datatype Accepted = Accepted(pair: (string, string), payload: PayloadHash)

  datatype Ledger = Ledger(
    accepted: seq<Accepted>,
    settled: set<(nat, string)>,
    registered: set<(string, string)>,
    attempts: seq<nat>,
    cursor: int,
    faults: Faults)

  datatype Reply = Done | Rejected | Interrupted | Deferred | Broken

  datatype Step = Step(ledger: Ledger, reply: Reply)

  function ReplyOf<T>(o: Outcome<T>): Reply {
    match o
    case Returned(_) => Done
    case Refused => Rejected
    case CutAt(_) => Interrupted
    case TransientFault => Deferred
    case IntegrityError => Broken
  }

  function Zeros(n: nat): seq<nat> { seq(n, _ => 0) }

  ghost predicate WellFormed(l: Ledger) { |l.attempts| == |l.accepted| }

  function IndexOf(accepted: seq<Accepted>, pair: (string, string)): (i: nat)
    ensures i <= |accepted|
    ensures i < |accepted| ==> accepted[i].pair == pair
    ensures forall k :: 0 <= k < i ==> accepted[k].pair != pair
  {
    if accepted == [] then 0
    else
      var i := IndexOf(accepted[..|accepted| - 1], pair);
      if i < |accepted| - 1 || accepted[|accepted| - 1].pair == pair then i else |accepted|
  }

  // Accepting an occurrence again returns the first acceptance; a different payload is refused.
  function AcceptStep(l: Ledger, c: Command, retry: bool): Step {
    var i := IndexOf(l.accepted, c.Pair());
    if i < |l.accepted| then
      if l.accepted[i].payload != PayloadHash(c) then Step(l, Rejected)
      else Step(l.(registered := l.registered + {c.Pair()}), Done)
    else
      var l1 := l.(accepted := l.accepted + [Accepted(c.Pair(), PayloadHash(c))],
                   attempts := l.attempts + [0], faults := l.faults.(s2Cutpoint := false));
      if l.faults.s2Cutpoint && !retry then Step(l1, Done)
      else Step(l1.(registered := l1.registered + {c.Pair()}), Done)
  }

  // The transient fault hits the first attempt at an event that is not settled yet.
  predicate TransientFires(l: Ledger, i: nat, key: string)
    requires WellFormed(l) && i < |l.accepted|
  {
    l.faults.transient && l.attempts[i] == 0 && (i, key) !in l.settled
  }

  function AfterTransient(l: Ledger, i: nat): Ledger
    requires WellFormed(l) && i < |l.accepted|
  {
    l.(attempts := l.attempts[i := l.attempts[i] + 1], faults := l.faults.(transient := false))
  }

  function AfterSettling(l: Ledger, i: nat, key: string): Ledger
    requires WellFormed(l) && i < |l.accepted|
  {
    l.(attempts := l.attempts[i := l.attempts[i] + 1], settled := l.settled + {(i, key)},
       faults := l.faults.(s5Cutpoint := false))
  }

  // One s5 call under a logical key.
  function EmitStep(l: Ledger, i: nat, key: string): Step
    requires WellFormed(l) && i < |l.accepted|
  {
    if (i, key) in l.settled then Step(l, Done)
    else if TransientFires(l, i, key) then Step(AfterTransient(l, i), Deferred)
    else Step(AfterSettling(l, i, key), if l.faults.s5Cutpoint then Interrupted else Done)
  }

  function RestartStep(l: Ledger): Ledger { l.(attempts := Zeros(|l.accepted|)) }

  /** When a delivery of an accepted event returns normally. */
  predicate Delivers(l: Ledger, i: nat, budget: int, retry: bool)
    requires WellFormed(l) && i < |l.accepted|
  {
    1 <= budget && (TransientFires(l, i, SETTLEMENT) ==> retry && 2 <= budget)
  }

  // A whole delivery, retries and restart included, in one step.
  function DeliverStep(l: Ledger, i: nat, sequence: int, budget: int, retry: bool): Step
    requires WellFormed(l) && i < |l.accepted|
  {
    if !Delivers(l, i, budget, retry) then
      Step(if budget <= 0 then l else AfterTransient(l, i), Rejected)
    else if (i, SETTLEMENT) in l.settled then Step(l.(cursor := sequence), Done)
    else
      var l1 := if TransientFires(l, i, SETTLEMENT) then AfterTransient(l, i) else l;
      var l2 := AfterSettling(l1, i, SETTLEMENT);
      var l3 := if l.faults.s5Cutpoint then RestartStep(l2) else l2;
      Step(l3.(cursor := sequence), Done)
  }
}
