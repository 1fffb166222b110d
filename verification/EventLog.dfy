/** The append-only event rows of one service request. */
module EventLog {

  datatype Status = PendingDispatch | Assigned | OnTheWay | InProgress | Completed | Cancelled

  datatype EventKind =
    | RequestCreated
    | ProviderAssigned
    | StatusUpdated
    | QuoteProposed
    | QuoteApproved
    | QuoteRejected
    | OpportunityInvited
    | OpportunityClosed
    | ProviderQuoteSubmitted
    | ProviderQuoteWithdrawn

  datatype Event = Event(kind: EventKind, status: Status)

  /** The kinds whose status column is the request's new status. */
  predicate Moves(kind: EventKind) {
    kind.RequestCreated? || kind.ProviderAssigned? || kind.StatusUpdated?
  }

  function Replay(events: seq<Event>): Status {
    if events == [] then PendingDispatch
    else
      var last := events[|events| - 1];
      if Moves(last.kind) then last.status else Replay(events[..|events| - 1])
  }

  function Count(events: seq<Event>, kind: EventKind): nat {
    if events == [] then 0
    else Count(events[..|events| - 1], kind) + if events[|events| - 1].kind == kind then 1 else 0
  }

  function Repeat(e: Event, n: nat): seq<Event> {
    seq(n, _ => e)
  }

  lemma RepeatOneMore(events: seq<Event>, e: Event, n: nat)
    ensures events + Repeat(e, n) + [e] == events + Repeat(e, n + 1)
  {
  }

  lemma AppendOne(events: seq<Event>, e: Event)
    ensures forall kind :: Count(events + [e], kind) == Count(events, kind) + if e.kind == kind then 1 else 0
    ensures Replay(events + [e]) == if Moves(e.kind) then e.status else Replay(events)
  {
    assert (events + [e])[..|events|] == events;
  }

  lemma {:induction false} AppendRepeated(events: seq<Event>, e: Event, n: nat)
    requires !Moves(e.kind)
    ensures forall kind :: Count(events + Repeat(e, n), kind) == Count(events, kind) + if e.kind == kind then n else 0
    ensures Replay(events + Repeat(e, n)) == Replay(events)
  {
    if n == 0 {
      assert events + Repeat(e, n) == events;
    } else {
      AppendRepeated(events, e, n - 1);
      AppendOne(events + Repeat(e, n - 1), e);
      RepeatOneMore(events, e, n - 1);
    }
  }
}
