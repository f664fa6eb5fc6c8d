/** The payout page (public/js/payout.js): the amount checks and the order in
    which the request form is checked, the status mappers, the history filter,
    the rendering of the history list, and the pending-request and last-payout
    selections. Amounts are whole pesos; `None` is an amount field that does
    not parse (`parseFloat` gives NaN). */
module PayoutPage {
  import opened Common
  import opened Ledger
  import opened Validation

  const MinAmount: int := 50
  const MaxAmount: int := 10000

  /** The amount bound checks, in the order both the live hint and the form
      check make them: the message, or `None` for an amount in bounds. */
  function AmountError(amount: int): (r: Option<string>)
    ensures r.None? <==> MinAmount <= amount <= MaxAmount
    ensures r == Some("Minimum payout amount is \U{20B1}50") <==> amount < MinAmount
    ensures r == Some("Maximum payout amount is \U{20B1}10,000") <==> amount > MaxAmount
  {
    if amount < MinAmount then Some("Minimum payout amount is \U{20B1}50")
    else if amount > MaxAmount then Some("Maximum payout amount is \U{20B1}10,000")
    else None
  }

  lemma AmountBoundaries()
    ensures AmountError(49).Some? && AmountError(50).None?
    ensures AmountError(10000).None? && AmountError(10001).Some?
  {
  }

  /** What `updatePointsRequired` shows while an amount is typed: the points it
      costs and the field's validity message ("" when valid). */
  datatype Hint = Hint(points: int, validity: string)

  /** An unparsable amount counts as 0. */
  function UpdatePointsRequired(amount: Option<int>): (h: Hint)
    ensures var a := if amount.Some? then amount.value else 0;
            && h.points == a * PointsPerPeso
            && (h.validity == "" <==> MinAmount <= a <= MaxAmount)
            && h.validity == (if AmountError(a).Some? then AmountError(a).value else "")
  {
    var a := if amount.Some? then amount.value else 0;
    var e := AmountError(a);
    Hint(a * PointsPerPeso, if e.Some? then e.value else "")
  }

  /** The outcome of submitting the request form: an error notification, or
      the confirmation dialog with the number, the amount and its points. */
  datatype FormOutcome = Refuse(message: string) | Confirm(gcashNumber: string, amount: int, points: int)

  /** `handlePayoutRequest`: the GCash number is trimmed; the checks run in a
      fixed order and the first that fails decides the message. */
  function CheckPayoutForm(gcashField: string, amount: Option<int>, confirmed: bool): (r: FormOutcome)
    ensures var g := Trim(gcashField);
            var filled := g != "" && amount.Some? && amount.value != 0;
            && (r == Refuse("Please fill in all fields") <==> !filled)
            && (r == Refuse("Please enter a valid GCash number (09XXXXXXXXX)") <==>
                  filled && !IsValidGCashNumber(g))
            && (r == Refuse("Minimum payout amount is \U{20B1}50") <==>
                  filled && IsValidGCashNumber(g) && amount.value < MinAmount)
            && (r == Refuse("Maximum payout amount is \U{20B1}10,000") <==>
                  filled && IsValidGCashNumber(g) && amount.value > MaxAmount)
            && (r == Refuse("Please confirm that the GCash number is correct") <==>
                  filled && IsValidGCashNumber(g) && MinAmount <= amount.value <= MaxAmount && !confirmed)
            && (r.Confirm? <==>
                  filled && IsValidGCashNumber(g) && MinAmount <= amount.value <= MaxAmount && confirmed)
    ensures r.Confirm? ==> r == Confirm(Trim(gcashField), amount.value, amount.value * PointsPerPeso)
  {
    var g := Trim(gcashField);
    if g == "" || amount.None? || amount.value == 0 then Refuse("Please fill in all fields")
    else if !IsValidGCashNumber(g) then Refuse("Please enter a valid GCash number (09XXXXXXXXX)")
    else if AmountError(amount.value).Some? then Refuse(AmountError(amount.value).value)
    else if !confirmed then Refuse("Please confirm that the GCash number is correct")
    else Confirm(g, amount.value, amount.value * PointsPerPeso)
  }

  /** A confirmed request costs exactly what the live hint showed for the same
      amount, and the hint showed it as valid. */
  lemma ConfirmedMatchesHint(gcashField: string, amount: Option<int>, confirmed: bool)
    requires CheckPayoutForm(gcashField, amount, confirmed).Confirm?
    ensures CheckPayoutForm(gcashField, amount, confirmed).points == UpdatePointsRequired(amount).points
    ensures UpdatePointsRequired(amount).validity == ""
  {
  }

  // ---------------------------------------------------------------------------
  // Status mappers

  function StatusClass(status: string): (c: string)
    ensures c == "" <==> status != "completed" && status != "pending" && status != "rejected"
  {
    match status
    case "completed" => "success"
    case "pending" => "warning"
    case "rejected" => "error"
    case _ => ""
  }

  function StatusIcon(status: string): (i: string)
    ensures i == "fas fa-question-circle" <==> status != "completed" && status != "pending" && status != "rejected"
  {
    match status
    case "completed" => "fas fa-check-circle"
    case "pending" => "fas fa-clock"
    case "rejected" => "fas fa-times-circle"
    case _ => "fas fa-question-circle"
  }

  /** Every status a payout can have gets its own class and its own icon, and
      neither mapper falls back to its default for it. */
  lemma MappersSeparateStatuses(s: PayoutStatus, t: PayoutStatus)
    ensures StatusClass(StatusName(s)) != "" && StatusIcon(StatusName(s)) != "fas fa-question-circle"
    ensures s != t ==> StatusClass(StatusName(s)) != StatusClass(StatusName(t))
    ensures s != t ==> StatusIcon(StatusName(s)) != StatusIcon(StatusName(t))
  {
  }

  // ---------------------------------------------------------------------------
  // History

  /** A history entry as the page receives it; `status` is whatever string the
      server sent. */
  datatype Entry = Entry(
    id: Id,
    amount: int,
    gcashNumber: string,
    pointsUsed: int,
    status: string,
    notes: Option<string>,
    processedAt: Option<Time>)

  /** The entries with status `status`, in their original order. */
  function WithStatus(h: seq<Entry>, status: string): (r: seq<Entry>)
    ensures |r| <= |h|
    ensures forall e :: e in r <==> e in h && e.status == status
  {
    if h == [] then []
    else (if h[0].status == status then [h[0]] else []) + WithStatus(h[1..], status)
  }

  /** Filtering keeps the order: filtering a history split in two is filtering
      each part and putting them back together. */
  lemma {:induction false} WithStatusAppend(a: seq<Entry>, b: seq<Entry>, status: string)
    ensures WithStatus(a + b, status) == WithStatus(a, status) + WithStatus(b, status)
  {
    if a != [] {
      assert (a + b)[1..] == a[1..] + b;
      WithStatusAppend(a[1..], b, status);
    } else {
      assert a + b == b;
    }
  }

  /** `filterPayoutHistory`'s selection: "all" keeps the history as it is. */
  function FilterHistory(h: seq<Entry>, filter: string): (r: seq<Entry>)
    ensures filter == "all" ==> r == h
    ensures filter != "all" ==> forall e :: e in r <==> e in h && e.status == filter
  {
    if filter == "all" then h else WithStatus(h, filter)
  }

  /** Applying the same filter again changes nothing. */
  lemma {:induction false} FilterIdempotent(h: seq<Entry>, filter: string)
    ensures FilterHistory(FilterHistory(h, filter), filter) == FilterHistory(h, filter)
  {
    if filter != "all" {
      WithStatusTwice(h, filter);
    }
  }

  lemma {:induction false} WithStatusTwice(h: seq<Entry>, status: string)
    ensures WithStatus(WithStatus(h, status), status) == WithStatus(h, status)
  {
    if h != [] {
      WithStatusTwice(h[1..], status);
      var head := if h[0].status == status then [h[0]] else [];
      WithStatusAppend(head, WithStatus(h[1..], status), status);
    }
  }

  /** One rendered history item. */
  datatype Card = Card(
    heading: (int, string),
    statusClass: string,
    statusIcon: string,
    status: string,
    pointsUsed: int,
    notes: Option<string>,
    cancelFor: Option<Id>)

  /** The list as rendered: a placeholder text, or one card per entry. */
  datatype Listing = Placeholder(text: string) | Cards(cards: seq<Card>)

  /** The item of one entry: the notes block only for truthy notes, and a
      cancel button, bound to the entry's id, only for a pending entry. */
  function CardOf(e: Entry): (c: Card)
    ensures c.cancelFor.Some? <==> e.status == "pending"
    ensures c.cancelFor.Some? ==> c.cancelFor.value == e.id
    ensures c.notes.Some? <==> e.notes.Some? && e.notes.value != ""
    ensures c.statusClass == StatusClass(e.status) && c.statusIcon == StatusIcon(e.status)
    ensures c.heading == (e.amount, e.gcashNumber) && c.status == e.status && c.pointsUsed == e.pointsUsed
    ensures c.notes.Some? ==> c.notes == e.notes
  {
    Card((e.amount, e.gcashNumber), StatusClass(e.status), StatusIcon(e.status), e.status, e.pointsUsed,
         if e.notes.Some? && e.notes.value != "" then e.notes else None,
         if e.status == "pending" then Some(e.id) else None)
  }

  /** Whether `l` is what the page shows for `entries`, with `emptyText` for an
      empty list. */
  predicate Shows(l: Listing, entries: seq<Entry>, emptyText: string) {
    if entries == [] then l == Placeholder(emptyText)
    else l.Cards? && |l.cards| == |entries| && forall i :: 0 <= i < |entries| ==> l.cards[i] == CardOf(entries[i])
  }

  /** The `forEach` that appends one item per entry. */
  method Render(entries: seq<Entry>, emptyText: string) returns (l: Listing)
    ensures Shows(l, entries, emptyText)
  {
    if entries == [] {
      return Placeholder(emptyText);
    }
    var cards: seq<Card> := [];
    var i := 0;
    while i < |entries|
      invariant 0 <= i <= |entries|
      invariant |cards| == i
      invariant forall j :: 0 <= j < i ==> cards[j] == CardOf(entries[j])
    {
      cards := cards + [CardOf(entries[i])];
      i := i + 1;
    }
    l := Cards(cards);
  }

  /** A rendered list offers a cancel button exactly on its pending entries. */
  lemma CancelOnlyWhenPending(l: Listing, entries: seq<Entry>, emptyText: string, i: int)
    requires Shows(l, entries, emptyText) && 0 <= i < |entries|
    ensures l.Cards? && (l.cards[i].cancelFor.Some? <==> entries[i].status == "pending")
  {
  }

  /** The first entry with status `status`, as `history.find` returns it. */
  function FindStatus(h: seq<Entry>, status: string): (r: Option<nat>)
    ensures r.None? <==> forall i :: 0 <= i < |h| ==> h[i].status != status
    ensures r.Some? ==> r.value < |h| && h[r.value].status == status
    ensures r.Some? ==> forall i :: 0 <= i < r.value ==> h[i].status != status
  {
    if h == [] then None
    else if h[0].status == status then Some(0)
    else match FindStatus(h[1..], status)
      case None => None
      case Some(i) => Some(i + 1)
  }

  /** What the "last payout" card shows: the processing time of the first
      completed entry of the history, newest first, or "No payouts yet". */
  datatype LastPayout = NoPayoutsYet | PaidAt(processedAt: Option<Time>)

  function LastPayoutOf(h: seq<Entry>): (r: LastPayout)
    ensures r.NoPayoutsYet? <==> forall e :: e in h ==> e.status != "completed"
    ensures r.PaidAt? ==> exists i :: 0 <= i < |h| && h[i].status == "completed" && h[i].processedAt == r.processedAt
                                      && forall j :: 0 <= j < i ==> h[j].status != "completed"
  {
    match FindStatus(h, "completed")
    case None => NoPayoutsYet
    case Some(i) => PaidAt(h[i].processedAt)
  }

  /** `checkPendingPayouts`: the warning, exactly when some entry is pending. */
  function PendingWarning(h: seq<Entry>): (r: Option<string>)
    ensures r.Some? <==> exists e :: e in h && e.status == "pending"
  {
    if FindStatus(h, "pending").Some? then Some("You have a pending payout request. Please wait for processing.")
    else None
  }

  /** One `{ _id, count }` row of the statistics' `byStatus`. */
  datatype StatusCount = StatusCount(status: string, count: int)

  /** `byStatus?.find(s => s._id === status)?.count || 0`: the count of the
      first row for `status`, and 0 without one (a missing `byStatus` reads as
      no rows). */
  function CountIn(rows: seq<StatusCount>, status: string): (r: int)
    ensures (forall i :: 0 <= i < |rows| ==> rows[i].status != status) ==> r == 0
    ensures forall i :: 0 <= i < |rows| && rows[i].status == status ==>
              (forall j :: 0 <= j < i ==> rows[j].status != status) ==> r == rows[i].count
  {
    if rows == [] then 0
    else if rows[0].status == status then rows[0].count
    else CountIn(rows[1..], status)
  }

  /** The page's state: the history last fetched (`payoutHistory`) and what the
      history list currently shows. */
  class Page {
    var history: seq<Entry>
    var listing: Listing

    constructor ()
      ensures history == [] && listing == Placeholder("No payout history")
    {
      history := [];
      listing := Placeholder("No payout history");
    }

    /** A refresh: the fetched history replaces the old one and is rendered
        whole. */
    method Load(fetched: seq<Entry>)
      modifies this
      ensures history == fetched && Shows(listing, fetched, "No payout history")
    {
      history := fetched;
      listing := Render(fetched, "No payout history");
    }

    /** A change of the filter: the history stays, the list shows its
        selection. */
    method ApplyFilter(filter: string)
      modifies this
      ensures history == old(history) && Shows(listing, FilterHistory(history, filter), "No payouts found")
    {
      listing := Render(FilterHistory(history, filter), "No payouts found");
    }
  }
}
