/** The pending-message queues of packages/agent/src/agent.ts. */
module MessageQueue {
  import opened Std

  datatype QueueMode = All | OneAtATime

  function Flatten<T>(batches: seq<seq<T>>): seq<T> {
    if batches == [] then [] else batches[0] + Flatten(batches[1..])
  }

  predicate AnyMatch<T>(batch: seq<T>, matches: T -> bool) {
    exists i :: 0 <= i < |batch| && matches(batch[i])
  }

  ghost predicate Increasing(s: seq<nat>) {
    forall i, j :: 0 <= i < j < |s| ==> s[i] < s[j]
  }

  /** Every ticket of `a` is older than every ticket of `b`. */
  ghost predicate Older(a: seq<nat>, b: seq<nat>) {
    forall i, j :: 0 <= i < |a| && 0 <= j < |b| ==> a[i] < b[j]
  }

  ghost predicate Below(tickets: seq<nat>, n: nat) {
    forall i :: 0 <= i < |tickets| ==> tickets[i] < n
  }

  /** Each of the first `n` tickets is delivered, discarded or waiting, and no ticket is two of these. */
  ghost predicate Partition(n: nat, delivered: seq<nat>, discarded: set<nat>, waiting: seq<nat>) {
    && (forall t :: t in delivered || t in waiting ==> t !in discarded)
    && (forall t: nat :: t < n <==> t in delivered || t in discarded || t in waiting)
  }

  /** `batches` are those the tickets stand for. */
  ghost predicate Carry<T>(arrived: seq<seq<T>>, tickets: seq<nat>, batches: seq<seq<T>>) {
    |batches| == |tickets|
    && forall i :: 0 <= i < |tickets| ==> tickets[i] < |arrived| && batches[i] == arrived[tickets[i]]
  }

  /** What the tickets stand for, in their order. */
  ghost function Contents<T>(arrived: seq<seq<T>>, tickets: seq<nat>): seq<T>
    requires Below(tickets, |arrived|)
  {
    if tickets == [] then []
    else Contents(arrived, tickets[..|tickets| - 1]) + arrived[tickets[|tickets| - 1]]
  }

  lemma {:induction false} ContentsAppend<T>(arrived: seq<seq<T>>, a: seq<nat>, b: seq<nat>)
    requires Below(a, |arrived|) && Below(b, |arrived|)
    ensures Below(a + b, |arrived|) && Contents(arrived, a + b) == Contents(arrived, a) + Contents(arrived, b)
    decreases |b|
  {
    if b == [] {
      assert a + b == a && Contents(arrived, a) + [] == Contents(arrived, a);
    } else {
      var n := |b| - 1;
      ContentsAppend(arrived, a, b[..n]);
      assert (a + b)[..|a + b| - 1] == a + b[..n];
      ConcatAssociative(Contents(arrived, a), Contents(arrived, b[..n]), arrived[b[n]]);
    }
  }

  lemma {:induction false} ContentsOfCarried<T>(arrived: seq<seq<T>>, tickets: seq<nat>, batches: seq<seq<T>>)
    requires Carry(arrived, tickets, batches)
    ensures Contents(arrived, tickets) == Flatten(batches)
    decreases |batches|
  {
    if batches != [] {
      var n := |batches| - 1;
      ContentsOfCarried(arrived, tickets[..n], batches[..n]);
      FlattenSnoc(batches[..n], batches[n]);
      assert batches[..n] + [batches[n]] == batches;
    }
  }

  /** Handing out the first `n` waiting batches. */
  lemma ContentsHanded<T>(arrived: seq<seq<T>>, delivered: seq<nat>, waiting: seq<nat>, batches: seq<seq<T>>, n: nat)
    requires Below(delivered, |arrived|) && Carry(arrived, waiting, batches) && n <= |batches|
    ensures Below(delivered + waiting[..n], |arrived|)
    ensures Contents(arrived, delivered + waiting[..n]) == Contents(arrived, delivered) + Flatten(batches[..n])
  {
    ContentsOfCarried(arrived, waiting[..n], batches[..n]);
    ContentsAppend(arrived, delivered, waiting[..n]);
  }

  lemma {:induction false} ContentsStay<T>(arrived: seq<seq<T>>, more: seq<seq<T>>, tickets: seq<nat>)
    requires Below(tickets, |arrived|)
    ensures Contents(arrived + more, tickets) == Contents(arrived, tickets)
    decreases |tickets|
  {
    if tickets != [] {
      ContentsStay(arrived, more, tickets[..|tickets| - 1]);
    }
  }

  /** The books of a queue: the waiting batches are those of the waiting tickets, and every ticket is accounted for. */
  ghost predicate Ledger<T>(arrived: seq<seq<T>>, delivered: seq<nat>, discarded: set<nat>, waiting: seq<nat>,
                            batches: seq<seq<T>>)
  {
    && Increasing(delivered) && Increasing(waiting) && Older(delivered, waiting)
    && Below(delivered, |arrived|) && Carry(arrived, waiting, batches)
    && Partition(|arrived|, delivered, discarded, waiting)
    && (forall i :: 0 <= i < |batches| ==> batches[i] != [])
  }

  /**
   * Every batch gets a ticket when it arrives. Whatever operations follow, each ticket is delivered, discarded
   * or waiting, never two of these, and delivered and waiting tickets stand in order of arrival.
   */
  class PendingMessageQueue<T> {
    var mode: QueueMode
    var batches: seq<seq<T>>
    ghost var arrived: seq<seq<T>>
    ghost var delivered: seq<nat>
    ghost var discarded: set<nat>
    ghost var waiting: seq<nat>

    constructor (mode: QueueMode)
      ensures Valid() && this.mode == mode && arrived == [] && delivered == [] && discarded == {} && waiting == []
    {
      this.mode, batches := mode, [];
      arrived, delivered, discarded, waiting := [], [], {}, [];
    }

    ghost predicate Valid()
      reads this
    {
      Ledger(arrived, delivered, discarded, waiting, batches)
    }

    /** All that was ever handed out, in order. */
    ghost function Handed(): seq<T>
      requires Valid()
      reads this
    {
      Contents(arrived, delivered)
    }

    method Enqueue(batch: seq<T>)
      requires Valid()
      modifies this
      ensures Valid() && mode == old(mode) && delivered == old(delivered) && discarded == old(discarded)
      ensures Handed() == old(Handed())
      ensures arrived == old(arrived) + (if batch == [] then [] else [batch])
      ensures waiting == old(waiting) + (if batch == [] then [] else [|old(arrived)|])
    {
      if |batch| > 0 {
        ghost var ticket := |arrived|;
        ContentsStay(arrived, [batch], delivered);
        batches := batches + [batch];
        waiting := waiting + [ticket];
        arrived := arrived + [batch];
        assert forall t :: t in waiting <==> t in old(waiting) || t == ticket;
      }
    }

    /** Something is there exactly while a ticket waits. */
    predicate HasItems()
      requires Valid()
      reads this
      ensures HasItems() <==> waiting != []
    {
      |batches| > 0
    }

    ghost method Deliver(n: nat)
      requires Valid() && n <= |waiting|
      modifies this`delivered, this`waiting
      ensures delivered == old(delivered) + old(waiting)[..n] && waiting == old(waiting)[n..]
      ensures Ledger(arrived, delivered, discarded, waiting, batches[n..])
      ensures Contents(arrived, delivered) == old(Handed()) + Flatten(batches[..n])
    {
      ContentsHanded(arrived, delivered, waiting, batches, n);
      LedgerAfterDelivery(arrived, delivered, discarded, waiting, batches, n);
      delivered, waiting := delivered + waiting[..n], waiting[n..];
    }

    /** How many batches one drain takes. */
    function Portion(): (n: nat)
      reads this
      ensures n <= |batches|
    {
      if mode == All then |batches| else Min(1, |batches|)
    }

    /** Takes the first batch, or all of them, whole and in order. */
    method Drain() returns (drained: seq<T>)
      requires Valid()
      modifies this
      ensures Valid() && mode == old(mode) && arrived == old(arrived) && discarded == old(discarded)
      ensures waiting == old(waiting[Portion()..]) && delivered == old(delivered + waiting[..Portion()])
      ensures drained == Flatten(old(batches[..Portion()]))
      ensures drained == [] <==> old(waiting) == []
      ensures Handed() == old(Handed()) + drained
      ensures mode == All ==> drained == Flatten(old(batches)) && batches == [] && waiting == []
      ensures mode == OneAtATime && old(batches) != [] ==>
                drained == old(batches[0]) && batches == old(batches[1..]) && waiting == old(waiting[1..])
    {
      FlattenEmpty(batches);
      hide Contents, Flatten, Ledger;
      assert batches[..|batches|] == batches && batches[|batches|..] == [];
      if mode == All {
        drained := Flatten(batches);
        Deliver(|batches|);
        batches := [];
        return;
      }
      if |batches| == 0 {
        Deliver(0);
        assert batches[..0] == batches;
        return [];
      }
      drained := batches[0];
      assert batches[..1] == [batches[0]];
      FlattenOne(batches[0]);
      Deliver(1);
      batches := batches[1..];
    }

    method Clear()
      requires Valid()
      modifies this
      ensures Valid() && mode == old(mode) && arrived == old(arrived) && delivered == old(delivered)
      ensures waiting == [] && discarded == old(discarded) + (set t | t in old(waiting)) && Handed() == old(Handed())
    {
      batches := [];
      discarded, waiting := discarded + (set t | t in waiting), [];
    }

    /** Takes out every batch with a matching message, whole; the others keep their order. */
    method RemoveWhere(matches: T -> bool) returns (removed: seq<T>)
      requires Valid()
      modifies this
      ensures Valid() && mode == old(mode) && arrived == old(arrived) && delivered == old(delivered)
      ensures batches == Select(old(batches), matches, false)
      ensures removed == Flatten(Select(old(batches), matches, true))
      ensures discarded >= old(discarded) && Handed() == old(Handed())
      ensures forall t: nat :: t in discarded - old(discarded) <==>
                t in old(waiting) && t < |arrived| && exists m <- arrived[t] :: matches(m)
      ensures forall batch <- batches, m <- batch :: !matches(m)
    {
      var retained;
      retained, removed := SplitBatches(batches, matches);
      ghost var gone := set t | t in Tickets(waiting, batches, matches, true);
      LedgerAfterRemoval(arrived, delivered, discarded, waiting, batches, matches, gone);
      discarded, waiting := discarded + gone, Tickets(waiting, batches, matches, false);
      batches := retained;
    }
  }

  method SplitBatches<T>(batches: seq<seq<T>>, matches: T -> bool) returns (retained: seq<seq<T>>, removed: seq<T>)
    ensures retained == Select(batches, matches, false) && removed == Flatten(Select(batches, matches, true))
  {
    removed, retained := [], [];
    for i := 0 to |batches|
      invariant retained == Select(batches[..i], matches, false)
      invariant removed == Flatten(Select(batches[..i], matches, true))
    {
      SelectNext(batches, i, matches);
      if AnyMatch(batches[i], matches) {
        FlattenSnoc(Select(batches[..i], matches, true), batches[i]);
        removed := removed + batches[i];
      } else {
        retained := retained + [batches[i]];
      }
    }
    assert batches[..|batches|] == batches;
  }

  /** The tickets of the batches `Select` takes. */
  ghost function Tickets<T>(waiting: seq<nat>, batches: seq<seq<T>>, matches: T -> bool, hit: bool): seq<nat>
    requires |waiting| == |batches|
  {
    if batches == [] then []
    else
      var n := |batches| - 1;
      Tickets(waiting[..n], batches[..n], matches, hit)
      + (if AnyMatch(batches[n], matches) == hit then [waiting[n]] else [])
  }

  lemma CarrySnoc<T>(arrived: seq<seq<T>>, tickets: seq<nat>, batches: seq<seq<T>>, t: nat)
    requires Carry(arrived, tickets, batches) && t < |arrived|
    ensures Carry(arrived, tickets + [t], batches + [arrived[t]])
  {
  }

  lemma {:induction false} TicketsCarry<T>(arrived: seq<seq<T>>, waiting: seq<nat>, batches: seq<seq<T>>,
                                           matches: T -> bool, hit: bool)
    requires Carry(arrived, waiting, batches)
    ensures Carry(arrived, Tickets(waiting, batches, matches, hit), Select(batches, matches, hit))
    decreases |batches|
  {
    if batches != [] {
      var n := |batches| - 1;
      assert batches[n] == arrived[waiting[n]];
      TicketsCarry(arrived, waiting[..n], batches[..n], matches, hit);
      var tickets, selected := Tickets(waiting[..n], batches[..n], matches, hit), Select(batches[..n], matches, hit);
      CarrySnoc(arrived, tickets, selected, waiting[n]);
    }
  }

  lemma {:induction false} SelectedMatch<T>(batches: seq<seq<T>>, matches: T -> bool, hit: bool)
    ensures forall batch <- Select(batches, matches, hit) :: batch in batches && AnyMatch(batch, matches) == hit
    decreases |batches|
  {
    if batches != [] {
      SelectedMatch(batches[..|batches| - 1], matches, hit);
    }
  }

  lemma {:induction false} TicketsIncrease<T>(waiting: seq<nat>, batches: seq<seq<T>>, matches: T -> bool, hit: bool,
                                              top: nat)
    requires |waiting| == |batches| && Increasing(waiting) && Below(waiting, top)
    ensures Increasing(Tickets(waiting, batches, matches, hit)) && Below(Tickets(waiting, batches, matches, hit), top)
    decreases |batches|
  {
    if batches != [] {
      var n := |batches| - 1;
      TicketsIncrease(waiting[..n], batches[..n], matches, hit, waiting[n]);
    }
  }

  /** Selecting keeps the order of arrival, and a ticket is selected by what its batch holds. */
  lemma TicketsOfSelection<T>(arrived: seq<seq<T>>, waiting: seq<nat>, batches: seq<seq<T>>, matches: T -> bool,
                              hit: bool)
    requires Carry(arrived, waiting, batches) && Increasing(waiting)
    ensures var tickets := Tickets(waiting, batches, matches, hit);
            && Carry(arrived, tickets, Select(batches, matches, hit)) && Increasing(tickets)
            && forall t :: t in tickets ==> t < |arrived| && AnyMatch(arrived[t], matches) == hit
  {
    TicketsCarry(arrived, waiting, batches, matches, hit);
    SelectedMatch(batches, matches, hit);
    TicketsIncrease(waiting, batches, matches, hit, |arrived|);
  }

  lemma {:induction false} TicketsCover<T>(waiting: seq<nat>, batches: seq<seq<T>>, matches: T -> bool, t: nat)
    requires |waiting| == |batches|
    ensures t in waiting
       <==> t in Tickets(waiting, batches, matches, true) || t in Tickets(waiting, batches, matches, false)
    decreases |batches|
  {
    if batches != [] {
      var n := |batches| - 1;
      TicketsCover(waiting[..n], batches[..n], matches, t);
      assert waiting == waiting[..n] + [waiting[n]];
    }
  }

  /** The waiting tickets are split in two by what their batches hold, each part in order of arrival. */
  lemma SelectionSplitsTickets<T>(arrived: seq<seq<T>>, waiting: seq<nat>, batches: seq<seq<T>>, matches: T -> bool)
    requires Carry(arrived, waiting, batches) && Increasing(waiting)
    ensures var kept, gone := Tickets(waiting, batches, matches, false), Tickets(waiting, batches, matches, true);
            && Carry(arrived, kept, Select(batches, matches, false)) && Increasing(kept)
            && (forall t: nat :: t in kept <==> t in waiting && t < |arrived| && !AnyMatch(arrived[t], matches))
            && (forall t: nat :: t in gone <==> t in waiting && t < |arrived| && AnyMatch(arrived[t], matches))
  {
    TicketsOfSelection(arrived, waiting, batches, matches, true);
    TicketsOfSelection(arrived, waiting, batches, matches, false);
    forall t: nat
      ensures t in waiting
         <==> t in Tickets(waiting, batches, matches, true) || t in Tickets(waiting, batches, matches, false)
    {
      TicketsCover(waiting, batches, matches, t);
    }
  }

  /** No ticket is both delivered and waiting. */
  lemma DeliveredNotWaiting(delivered: seq<nat>, waiting: seq<nat>, t: nat)
    requires Older(delivered, waiting) && t in delivered
    ensures t !in waiting
  {
  }

  /** Handing out the first `n` batches delivers exactly their tickets. */
  lemma LedgerAfterDelivery<T>(arrived: seq<seq<T>>, delivered: seq<nat>, discarded: set<nat>, waiting: seq<nat>,
                               batches: seq<seq<T>>, n: nat)
    requires Ledger(arrived, delivered, discarded, waiting, batches) && n <= |batches|
    ensures Ledger(arrived, delivered + waiting[..n], discarded, waiting[n..], batches[n..])
  {
    assert waiting == waiting[..n] + waiting[n..];
  }

  /** Taking out the batches that match discards exactly their tickets. */
  lemma LedgerAfterRemoval<T>(arrived: seq<seq<T>>, delivered: seq<nat>, discarded: set<nat>, waiting: seq<nat>,
                              batches: seq<seq<T>>, matches: T -> bool, gone: set<nat>)
    requires Ledger(arrived, delivered, discarded, waiting, batches)
    requires gone == set t | t in Tickets(waiting, batches, matches, true)
    ensures Ledger(arrived, delivered, discarded + gone, Tickets(waiting, batches, matches, false),
                   Select(batches, matches, false))
    ensures forall t: nat :: t in (discarded + gone) - discarded
                        <==> t in waiting && t < |arrived| && AnyMatch(arrived[t], matches)
  {
    SelectionSplitsTickets(arrived, waiting, batches, matches);
    var kept := Tickets(waiting, batches, matches, false);
    OlderThanSome(delivered, waiting, kept);
    forall t | t in delivered ensures t !in gone {
      DeliveredNotWaiting(delivered, waiting, t);
    }
    SelectedMatch(batches, matches, false);
  }

  lemma OlderThanSome(delivered: seq<nat>, waiting: seq<nat>, kept: seq<nat>)
    requires Older(delivered, waiting) && forall t :: t in kept ==> t in waiting
    ensures Older(delivered, kept)
  {
    forall i, j | 0 <= i < |delivered| && 0 <= j < |kept| ensures delivered[i] < kept[j] {
      assert kept[j] in waiting;
    }
  }

  lemma SelectNext<T>(batches: seq<seq<T>>, i: nat, matches: T -> bool)
    requires i < |batches|
    ensures Select(batches[..i + 1], matches, AnyMatch(batches[i], matches))
         == Select(batches[..i], matches, AnyMatch(batches[i], matches)) + [batches[i]]
    ensures Select(batches[..i + 1], matches, !AnyMatch(batches[i], matches))
         == Select(batches[..i], matches, !AnyMatch(batches[i], matches))
  {
    assert batches[..i + 1][..i] == batches[..i];
  }

  /** The batches that do (`hit`) or do not hold a matching message, in order. */
  function Select<T>(batches: seq<seq<T>>, matches: T -> bool, hit: bool): seq<seq<T>> {
    if batches == [] then []
    else
      var init, last := batches[..|batches| - 1], batches[|batches| - 1];
      Select(init, matches, hit) + (if AnyMatch(last, matches) == hit then [last] else [])
  }

  lemma {:induction false} FlattenSnoc<T>(batches: seq<seq<T>>, batch: seq<T>)
    ensures Flatten(batches + [batch]) == Flatten(batches) + batch
  {
    if batches == [] {
      assert [] + [batch] == [batch] && [batch][1..] == [];
    } else {
      assert (batches + [batch])[1..] == batches[1..] + [batch];
      FlattenSnoc(batches[1..], batch);
    }
  }

  lemma FlattenOne<T>(batch: seq<T>)
    ensures Flatten([batch]) == batch
  {
    assert [batch][1..] == [] && batch + [] == batch;
  }

  lemma FlattenEmpty<T>(batches: seq<seq<T>>)
    requires forall i :: 0 <= i < |batches| ==> batches[i] != []
    ensures Flatten(batches) == [] <==> batches == []
  {
    if batches != [] {
      assert batches[0] != [];
    }
  }

  /** What `continue` decides: which queue opens the run, or that the transcript itself is continued. */
  datatype Choice<T> = PromptRun(messages: seq<T>, skipInitialSteeringPoll: bool) | ContinueRun | Refuse

  datatype LastRole = NoMessage | Assistant | Custom | Other

  /**
   * `Agent.continue` once no run is active: steering goes first, then follow-ups. After a user or tool-result
   * message the transcript is continued at once and the queues are left alone.
   */
  method ChooseContinuation<T>(last: LastRole, steering: PendingMessageQueue<T>, followUp: PendingMessageQueue<T>)
    returns (choice: Choice<T>)
    requires steering.Valid() && followUp.Valid() && steering != followUp
    modifies steering, followUp
    ensures steering.Valid() && followUp.Valid()
    ensures last == Other ==> choice == ContinueRun && unchanged(steering) && unchanged(followUp)
    ensures last != Other && old(steering.waiting) != []
            ==> choice == PromptRun(Flatten(old(steering.batches[..steering.Portion()])), true)
                && steering.delivered == old(steering.delivered + steering.waiting[..steering.Portion()])
                && steering.waiting == old(steering.waiting[steering.Portion()..]) && unchanged(followUp)
    ensures last != Other && old(steering.waiting) == [] && old(followUp.waiting) != []
            ==> choice == PromptRun(Flatten(old(followUp.batches[..followUp.Portion()])), false)
                && followUp.delivered == old(followUp.delivered + followUp.waiting[..followUp.Portion()])
                && followUp.waiting == old(followUp.waiting[followUp.Portion()..]) && steering.waiting == []
    ensures last != Other && old(steering.waiting) == old(followUp.waiting) == []
            ==> choice == (if last == Custom then ContinueRun else Refuse)
                && steering.waiting == followUp.waiting == []
    ensures choice.PromptRun? ==> choice.messages != []
  {
    if last == Other {
      return ContinueRun;
    }
    var queuedSteering := steering.Drain();
    if |queuedSteering| > 0 {
      return PromptRun(queuedSteering, true);
    }
    var queuedFollowUps := followUp.Drain();
    if |queuedFollowUps| > 0 {
      return PromptRun(queuedFollowUps, false);
    }
    return if last == Custom then ContinueRun else Refuse;
  }
}
