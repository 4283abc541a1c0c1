/**
  components/invoice-details.tsx: the invoice page. While the invoice's status
  is one that may still change, a recurring interval re-fetches it; a final
  status stops the interval and, when the invoice is paid, shows a notice.
 */
module InvoiceDetails {
  import opened Values
  import opened Text
  import opened Types

  /** Lower-cased statuses that start the polling interval. */
  const PollableStatuses: set<string> := {"new", "processing", "unconfirmed"}
  /** Lower-cased statuses that stop it. */
  const StopStatuses: set<string> := {"settled", "complete", "paid", "expired", "invalid"}
  /** Lower-cased statuses of a paid invoice. */
  const PaidStatuses: set<string> := {"settled", "complete", "paid"}
  /** Lower-cased statuses of an invoice that will not be paid. */
  const FailedStatuses: set<string> := {"expired", "invalid"}

  predicate IsPollable(status: string) { Lower(status) in PollableStatuses }
  predicate IsStop(status: string) { Lower(status) in StopStatuses }
  predicate IsPaid(status: string) { Lower(status) in PaidStatuses }
  predicate IsFailed(status: string) { Lower(status) in FailedStatuses }

  /**
    How the status groups relate: the stop set is the paid group plus the
    failed group, and no pollable status is in it.
   */
  lemma StatusGroups(status: string)
    ensures IsStop(status) <==> IsPaid(status) || IsFailed(status)
    ensures !(IsPaid(status) && IsFailed(status))
    ensures !(IsPollable(status) && IsStop(status))
  {
  }

  /** The colour class of the status badge. */
  datatype Colour = Green | Destructive | Amber

  /** `getStatusColor()`: green when paid, destructive when failed, amber for every other string. */
  function StatusColor(status: string): (c: Colour)
    ensures c == Green <==> IsPaid(status)
    ensures c == Destructive <==> IsFailed(status)
    ensures c == Amber <==> !IsStop(status)
  {
    var s := Lower(status);
    if s in PaidStatuses then Green
    else if s in FailedStatuses then Destructive
    else Amber
  }

  /** The icon beside the status. */
  datatype Icon = CheckCircle | ExternalLinkIcon | ClockIcon

  /** `getStatusIcon()`: the icon, in the colour `getStatusColor()` picks for the same status. */
  function StatusIcon(status: string): (i: Icon)
    ensures i == CheckCircle <==> StatusColor(status) == Green
    ensures i == ExternalLinkIcon <==> StatusColor(status) == Destructive
    ensures i == ClockIcon <==> StatusColor(status) == Amber
  {
    var s := Lower(status);
    if s in PaidStatuses then CheckCircle
    else if s in FailedStatuses then ExternalLinkIcon
    else ClockIcon
  }

  /** The notice shown once the invoice is paid. */
  const PaymentReceived := Toast("Payment received!", "Your Bitcoin payment has been successfully received.", Some("success"))

  /**
    The page's polling state: the invoice shown, the `isPolling` flag, whether
    a polling interval currently exists, and the toasts shown so far.
   */
  datatype PollState = PollState(invoice: Invoice, isPolling: bool, intervalActive: bool, toasts: seq<Toast>)

  /** The effect body for the current invoice: a pollable status sets `isPolling` and starts an interval. */
  function Effect(s: PollState): (r: PollState)
    ensures r.invoice == s.invoice && r.toasts == s.toasts
    ensures r.isPolling == (s.isPolling || IsPollable(s.invoice.status))
    ensures r.intervalActive == (s.intervalActive || IsPollable(s.invoice.status))
    ensures Consistent(s) ==> Live(r)
  {
    if IsPollable(s.invoice.status) then s.(isPolling := true, intervalActive := true) else s
  }

  /** The first render: the given invoice, `isPolling` false, then the effect. */
  function Mount(initial: Invoice): (s: PollState)
    ensures s.invoice == initial && s.toasts == []
    ensures s.isPolling == IsPollable(initial.status) && s.intervalActive == IsPollable(initial.status)
  {
    Effect(PollState(initial, false, false, []))
  }

  /** The invoice's id or status changed: the cleanup clears the interval, then the effect runs again. */
  function StatusChangedSpec(s: PollState): (r: PollState)
    ensures r.invoice == s.invoice && r.toasts == s.toasts
    ensures r.intervalActive == IsPollable(s.invoice.status)
    ensures Live(r)
  {
    Effect(s.(intervalActive := false))
  }

  /** Teardown: the cleanup clears the interval. */
  function Unmounted(s: PollState): (r: PollState)
    ensures r.invoice == s.invoice && r.isPolling == s.isPolling && r.toasts == s.toasts
    ensures !r.intervalActive && Consistent(r)
  {
    s.(intervalActive := false)
  }

  /**
    One firing of the interval with what `checkInvoiceStatus` settled with. A
    failure is only logged. A fetched invoice replaces the shown one; a stop
    status clears `isPolling` and the interval, with the notice when paid; and
    when the id or status differs from before, the effect is cleaned up and rerun.
   */
  function TickSpec(s: PollState, fetched: Result<Invoice, Thrown>): (r: PollState)
    ensures fetched.Failure? ==> r == s
    ensures fetched.Success? ==> r.invoice == fetched.value
    ensures fetched.Success? ==>
      r.toasts == s.toasts + (if IsPaid(fetched.value.status) then [PaymentReceived] else [])
    ensures fetched.Success? && IsStop(fetched.value.status) ==> !r.isPolling && !r.intervalActive
  {
    match fetched
    case Failure(_) => s
    case Success(updated) =>
      StatusGroups(updated.status);
      var stop := IsStop(updated.status);
      var notice := if stop && IsPaid(updated.status) then [PaymentReceived] else [];
      var after := PollState(updated, if stop then false else s.isPolling,
        if stop then false else s.intervalActive, s.toasts + notice);
      if updated.id != s.invoice.id || updated.status != s.invoice.status then StatusChangedSpec(after) else after
  }

  /** An interval exists only while `isPolling` holds and the shown status is pollable. */
  ghost predicate Consistent(s: PollState) {
    s.intervalActive ==> s.isPolling && IsPollable(s.invoice.status)
  }

  /** While the page is mounted, moreover, a pollable status always has its interval. */
  ghost predicate Live(s: PollState) {
    Consistent(s) && (IsPollable(s.invoice.status) ==> s.intervalActive)
  }

  /** Mounting gives a live state. */
  lemma MountLive(initial: Invoice)
    ensures Live(Mount(initial))
  {
  }

  /**
    What a successful tick leaves: the fetched invoice; an interval exactly
    when its status is pollable; `isPolling` cleared exactly by a stop status;
    and one more notice exactly when it is paid.
   */
  lemma TickOutcome(s: PollState, updated: Invoice)
    requires Live(s) && s.intervalActive
    ensures var t := TickSpec(s, Success(updated));
      t.invoice == updated && t.intervalActive == IsPollable(updated.status) &&
      t.isPolling == !IsStop(updated.status) &&
      t.toasts == s.toasts + (if IsPaid(updated.status) then [PaymentReceived] else [])
  {
    StatusGroups(s.invoice.status);
    StatusGroups(updated.status);
  }

  /** A tick that fails changes nothing, and the interval keeps running. */
  lemma FailedTickChangesNothing(s: PollState, e: Thrown)
    ensures TickSpec(s, Failure(e)) == s
  {
  }

  /** Ticks keep the state live. */
  lemma TickLive(s: PollState, fetched: Result<Invoice, Thrown>)
    requires Live(s) && s.intervalActive
    ensures Live(TickSpec(s, fetched))
  {
    if fetched.Success? {
      TickOutcome(s, fetched.value);
      StatusGroups(fetched.value.status);
    }
  }

  /**
    A fetched status in neither set clears the interval through the cleanup,
    but nothing resets `isPolling`: the page keeps saying it is waiting.
   */
  lemma UnknownStatusLeavesPollingFlag(s: PollState, updated: Invoice)
    requires Live(s) && s.intervalActive
    requires !IsPollable(updated.status) && !IsStop(updated.status)
    ensures TickSpec(s, Success(updated)).isPolling && !TickSpec(s, Success(updated)).intervalActive
  {
    TickOutcome(s, updated);
  }

  /** Clearing the interval a second time has no further effect. */
  lemma ClearIdempotent(s: PollState)
    ensures Unmounted(Unmounted(s)) == Unmounted(s)
    ensures Unmounted(StatusChangedSpec(s)) == Unmounted(StatusChangedSpec(Unmounted(s)))
  {
  }

  /** The interval's firings with successive fetch results; once no interval exists, nothing fires. */
  function Run(s: PollState, fetches: seq<Result<Invoice, Thrown>>): (r: PollState)
    ensures !s.intervalActive ==> r == s
    ensures s.toasts <= r.toasts
    decreases |fetches|
  {
    if fetches == [] || !s.intervalActive then s else Run(TickSpec(s, fetches[0]), fetches[1..])
  }

  /** After a stop status nothing is fetched again, whatever results would have followed. */
  lemma NoTickAfterStop(s: PollState, updated: Invoice, later: seq<Result<Invoice, Thrown>>)
    requires Live(s) && s.intervalActive && IsStop(updated.status)
    ensures Run(TickSpec(s, Success(updated)), later) == TickSpec(s, Success(updated))
  {
    TickOutcome(s, updated);
    StatusGroups(updated.status);
  }

  /** However many times the interval fires, the payment notice is shown at most once. */
  lemma {:induction false} PaymentNoticeAtMostOnce(s: PollState, fetches: seq<Result<Invoice, Thrown>>)
    requires Live(s)
    ensures Run(s, fetches).toasts == s.toasts || Run(s, fetches).toasts == s.toasts + [PaymentReceived]
    decreases |fetches|
  {
    if fetches != [] && s.intervalActive {
      var t := TickSpec(s, fetches[0]);
      TickLive(s, fetches[0]);
      if fetches[0].Success? {
        TickOutcome(s, fetches[0].value);
      }
      if t.toasts == s.toasts {
        PaymentNoticeAtMostOnce(t, fetches[1..]);
        assert Run(s, fetches) == Run(t, fetches[1..]);
      } else {
        StatusGroups(fetches[0].value.status);
        assert Run(t, fetches[1..]) == t;
      }
    }
  }

  /** Every state a run reaches from a live state is live. */
  lemma {:induction false} RunLive(s: PollState, fetches: seq<Result<Invoice, Thrown>>)
    requires Live(s)
    ensures Live(Run(s, fetches))
    decreases |fetches|
  {
    if fetches != [] && s.intervalActive {
      TickLive(s, fetches[0]);
      RunLive(TickSpec(s, fetches[0]), fetches[1..]);
    }
  }

  /** How the three statuses of the usual payment sequence classify. */
  lemma UsualStatuses(created: string, processing: string, settled: string)
    requires created == "New" && processing == "Processing" && settled == "Settled"
    ensures IsPollable(created) && IsPollable(processing)
    ensures IsStop(settled) && IsPaid(settled)
  {
    assert Lower(created) == "new" by {
      LowerInitialCapital(created, "new");
    }
    assert Lower(processing) == "processing" by {
      LowerInitialCapital(processing, "processing");
    }
    assert Lower(settled) == "settled" by {
      LowerInitialCapital(settled, "settled");
    }
  }

  /** One fetch of a pollable status from a live, polling state: polling goes on. */
  lemma PollableFetchKeepsPolling(s: PollState, updated: Invoice)
    requires Live(s) && s.intervalActive && IsPollable(updated.status)
    ensures var t := Run(s, [Success(updated)]);
      t.isPolling && t.intervalActive && t.invoice == updated && t.toasts == s.toasts
  {
    TickOutcome(s, updated);
    StatusGroups(updated.status);
    assert Run(s, [Success(updated)]) == Run(TickSpec(s, Success(updated)), []);
  }

  /**
    A page opened on a "New" invoice that fetches "Processing" keeps polling
    and shows the fetched invoice.
   */
  lemma NewThenProcessing(initial: Invoice, processing: Invoice)
    requires initial.status == "New" && processing.status == "Processing"
    ensures var s1 := Run(Mount(initial), [Success(processing)]);
      s1.isPolling && s1.intervalActive && s1.invoice == processing && s1.toasts == []
  {
    UsualStatuses(initial.status, processing.status, "Settled");
    MountLive(initial);
    PollableFetchKeepsPolling(Mount(initial), processing);
  }

  /**
    Polling a "Processing" invoice through a failed fetch and then a
    "Settled" one stops polling, with the payment notice shown once.
   */
  lemma ProcessingThenSettled(s1: PollState, settled: Invoice, e: Thrown)
    requires Live(s1) && s1.intervalActive && s1.toasts == []
    requires settled.status == "Settled"
    ensures var s2 := Run(s1, [Failure(e), Success(settled)]);
      !s2.isPolling && !s2.intervalActive && s2.invoice == settled && s2.toasts == [PaymentReceived]
  {
    UsualStatuses("New", "Processing", settled.status);
    assert [Failure(e), Success(settled)][1..] == [Success(settled)];
    assert Run(s1, [Failure(e), Success(settled)]) == Run(s1, [Success(settled)]);
    TickOutcome(s1, settled);
    assert Run(s1, [Success(settled)]) == Run(TickSpec(s1, Success(settled)), []);
  }

  /**
    The page's state. Each method is one thing React or the interval does to
    it, and leaves the state its specification function describes.
   */
  class InvoicePoller {
    var invoice: Invoice
    var isPolling: bool
    var intervalActive: bool
    var toasts: seq<Toast>

    /** The state as a value. */
    function State(): PollState
      reads this
    {
      PollState(invoice, isPolling, intervalActive, toasts)
    }

    /** First render and the effect's first run. */
    constructor (initial: Invoice)
      ensures State() == Mount(initial)
      ensures Live(State())
    {
      invoice := initial;
      isPolling := false;
      intervalActive := false;
      toasts := [];
      new;
      RunEffect();
    }

    /** The effect body. */
    method RunEffect()
      modifies this
      ensures State() == Effect(old(State()))
    {
      if IsPollable(invoice.status) {
        isPolling := true;
        intervalActive := true;
      }
    }

    /** The effect's dependencies changed: cleanup, then the effect again. */
    method StatusChanged()
      modifies this
      ensures State() == StatusChangedSpec(old(State()))
      ensures Live(State())
    {
      intervalActive := false;
      RunEffect();
    }

    /** The interval fires; `fetched` is what `checkInvoiceStatus(invoice.id)` settled with. */
    method Tick(fetched: Result<Invoice, Thrown>)
      requires intervalActive
      modifies this
      ensures State() == TickSpec(old(State()), fetched)
      ensures old(Live(State())) ==> Live(State())
    {
      match fetched {
        case Failure(_) =>
        case Success(updated) =>
          var previousId, previousStatus := invoice.id, invoice.status;
          invoice := updated;
          if IsStop(updated.status) {
            isPolling := false;
            intervalActive := false;
            if IsPaid(updated.status) {
              toasts := toasts + [PaymentReceived];
            }
          }
          if updated.id != previousId || updated.status != previousStatus {
            StatusChanged();
          }
      }
      if old(Live(State())) {
        TickLive(old(State()), fetched);
      }
    }

    /** The page is torn down. */
    method Unmount()
      modifies this
      ensures State() == Unmounted(old(State()))
      ensures !intervalActive
    {
      intervalActive := false;
    }
  }
}
