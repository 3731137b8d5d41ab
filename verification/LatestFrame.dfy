/** The single-slot mailbox between a source thread and the context pool:
    a put replaces an untaken frame and counts it as dropped. */
module LatestFrames {
  import opened Wrappers

  datatype Mailbox<F> = Mailbox(slot: Option<F>, dropped: nat)

  function Empty<F>(): Mailbox<F> {
    Mailbox(None, 0)
  }

  function AfterPut<F>(m: Mailbox<F>, f: F): Mailbox<F> {
    Mailbox(Some(f), if m.slot.Some? then m.dropped + 1 else m.dropped)
  }

  function AfterTake<F>(m: Mailbox<F>): Mailbox<F> {
    Mailbox(None, m.dropped)
  }

  /** `LatestFrame` itself; every method body is one critical section of `mu_`. */
  class LatestFrame<F> {
    var slot: Option<F>
    var dropped: nat

    ghost function View(): Mailbox<F>
      reads this
    {
      Mailbox(slot, dropped)
    }

    constructor ()
      ensures View() == Empty()
    {
      slot := None;
      dropped := 0;
    }

    method Put(f: F)
      modifies this
      ensures View() == AfterPut(old(View()), f)
    {
      if slot.Some? {
        dropped := dropped + 1;
      }
      slot := Some(f);
    }

    method Take() returns (f: Option<F>)
      modifies this
      ensures f == old(View()).slot
      ensures View() == AfterTake(old(View()))
    {
      f := slot;
      if slot.Some? {
        slot := None;
      }
    }
  }

  datatype Op<F> = PutOp(frame: F) | TakeOp

  function Run<F>(ops: seq<Op<F>>): Mailbox<F> {
    if ops == [] then Empty()
    else
      var m := Run(ops[..|ops| - 1]);
      match ops[|ops| - 1]
      case PutOp(f) => AfterPut(m, f)
      case TakeOp => AfterTake(m)
  }

  /** The frames the successful takes of a history returned, in order. */
  function Taken<F>(ops: seq<Op<F>>): seq<F> {
    if ops == [] then []
    else
      var before := ops[..|ops| - 1];
      match ops[|ops| - 1]
      case PutOp(_) => Taken(before)
      case TakeOp => if Run(before).slot.Some? then Taken(before) + [Run(before).slot.value] else Taken(before)
  }

  function Puts<F>(ops: seq<Op<F>>): seq<F> {
    if ops == [] then []
    else
      var before := ops[..|ops| - 1];
      match ops[|ops| - 1]
      case PutOp(f) => Puts(before) + [f]
      case TakeOp => Puts(before)
  }

  /** For each frame taken, how many puts came before its own. */
  function TakenAt<F>(ops: seq<Op<F>>): (at: seq<nat>)
    ensures |at| == |Taken(ops)|
  {
    if ops == [] then []
    else
      var before := ops[..|ops| - 1];
      if ops[|ops| - 1].TakeOp? && Run(before).slot.Some? then
        MailboxConserves(before);
        TakenAt(before) + [|Puts(before)| - 1]
      else TakenAt(before)
  }

  /** What is taken is a subsequence of what was put, in put order. */
  lemma {:induction false} TakenInOrder<F>(ops: seq<Op<F>>)
    ensures forall i | 0 <= i < |TakenAt(ops)| ::
              TakenAt(ops)[i] < |Puts(ops)| && Taken(ops)[i] == Puts(ops)[TakenAt(ops)[i]]
    ensures forall i, j | 0 <= i < j < |TakenAt(ops)| :: TakenAt(ops)[i] < TakenAt(ops)[j]
    ensures Run(ops).slot.Some? ==> forall i | 0 <= i < |TakenAt(ops)| :: TakenAt(ops)[i] < |Puts(ops)| - 1
  {
    if ops != [] {
      TakenInOrder(ops[..|ops| - 1]);
      MailboxConserves(ops[..|ops| - 1]);
    }
  }

  /** No put is lost without being counted, and a full slot always holds the
      newest frame. */
  lemma {:induction false} MailboxConserves<F>(ops: seq<Op<F>>)
    ensures |Puts(ops)| == Run(ops).dropped + |Taken(ops)| + (if Run(ops).slot.Some? then 1 else 0)
    ensures Run(ops).slot.Some? ==> Puts(ops) != [] && Run(ops).slot.value == Puts(ops)[|Puts(ops)| - 1]
  {
    if ops != [] {
      MailboxConserves(ops[..|ops| - 1]);
    }
  }
}
