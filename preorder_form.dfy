/** The pre-order form, rendered on the landing page and on the products page
    by two identical copies of the same component: five input cells, three
    status cells (`loading`, `error`, `submitted`) and the submit handler that
    inserts one `pending` row into the `preorders` table. The datastore insert
    is a parameter: `outcome` is what the one insert would report. */
module PreorderForm {
  import opened JsValues

  /** Which page renders the form. */
  datatype Page = Landing | ProductsPage

  datatype Size = XS | S | M | L | XL

  datatype Device = AppleWatch | SamsungWatch | Whoop | Fitbit

  /** The `value` an option of the size select carries. */
  function SizeValue(size: Size): string
  {
    match size
    case XS => "XS"
    case S => "S"
    case M => "M"
    case L => "L"
    case XL => "XL"
  }

  /** The size whose option carries `v`, if any. */
  function ParseSize(v: string): (r: Option<Size>)
    ensures r.Some? ==> SizeValue(r.value) == v
  {
    match v
    case "XS" => Some(XS)
    case "S" => Some(S)
    case "M" => Some(M)
    case "L" => Some(L)
    case "XL" => Some(XL)
    case _ => None
  }

  function DeviceValue(device: Device): string
  {
    match device
    case AppleWatch => "apple_watch"
    case SamsungWatch => "samsung_watch"
    case Whoop => "whoop"
    case Fitbit => "fitbit"
  }

  function ParseDevice(v: string): (r: Option<Device>)
    ensures r.Some? ==> DeviceValue(r.value) == v
  {
    match v
    case "apple_watch" => Some(AppleWatch)
    case "samsung_watch" => Some(SamsungWatch)
    case "whoop" => Some(Whoop)
    case "fitbit" => Some(Fitbit)
    case _ => None
  }

  /** Option values and the closed sets of sizes and devices are in one-to-one correspondence. */
  lemma OptionValuesRoundTrip(size: Size, device: Device)
    ensures ParseSize(SizeValue(size)) == Some(size)
    ensures ParseDevice(DeviceValue(device)) == Some(device)
  {
  }

  /** The size options in the order the select lists them. */
  function SizeOptions(page: Page): (opts: seq<Size>)
    ensures multiset(opts) == multiset{XS, S, M, L, XL}
  {
    match page
    case Landing => [XS, S, M, L, XL]
    case ProductsPage => [XS, S, M, L, XL]
  }

  function DeviceOptions(page: Page): (opts: seq<Device>)
    ensures multiset(opts) == multiset{AppleWatch, SamsungWatch, Whoop, Fitbit}
  {
    match page
    case Landing => [AppleWatch, SamsungWatch, Whoop, Fitbit]
    case ProductsPage => [AppleWatch, SamsungWatch, Whoop, Fitbit]
  }

  /** Every size and every device is offered, once. */
  lemma {:induction false} EveryChoiceOfferedOnce(page: Page, size: Size, device: Device)
    ensures multiset(SizeOptions(page))[size] == 1
    ensures multiset(DeviceOptions(page))[device] == 1
  {
    match size
    case XS => case S => case M => case L => case XL =>
  }

  /** Both pages offer the same options. */
  lemma PagesOfferSameOptions(p: Page, q: Page)
    ensures SizeOptions(p) == SizeOptions(q)
    ensures DeviceOptions(p) == DeviceOptions(q)
  {
  }

  /** What the customer has typed and chosen. */
  datatype Entry = Entry(email: string, firstName: string, lastName: string, size: Size, device: Device)

  /** The cells' initial values: empty text, size `M`, device Apple Watch. */
  function DefaultEntry(): (e: Entry)
    ensures SizeValue(e.size) == "M" && DeviceValue(e.device) == "apple_watch"
    ensures e.email == e.firstName == e.lastName == ""
    ensures e.size in SizeOptions(Landing) && e.device in DeviceOptions(Landing)
  {
    Entry("", "", "", M, AppleWatch)
  }

  type Row = map<string, string>

  const Columns := {"email", "first_name", "last_name", "size", "device_type", "status"}

  /** The one row the handler inserts. */
  function RowFor(e: Entry): (row: Row)
    ensures row.Keys == Columns
    ensures row["status"] == "pending"
  {
    map["email" := e.email, "first_name" := e.firstName, "last_name" := e.lastName,
        "size" := SizeValue(e.size), "device_type" := DeviceValue(e.device), "status" := "pending"]
  }

  /** Reads an entry back out of a row. */
  function EntryOf(row: Row): Option<Entry>
  {
    if Columns <= row.Keys then
      match (ParseSize(row["size"]), ParseDevice(row["device_type"]))
      case (Some(size), Some(device)) =>
        Some(Entry(row["email"], row["first_name"], row["last_name"], size, device))
      case _ => None
    else None
  }

  /** The inserted row records the whole entry: nothing is lost or altered. */
  lemma RowRecordsEntry(e: Entry)
    ensures EntryOf(RowFor(e)) == Some(e)
  {
  }

  /** What the datastore reports for the insert; a thrown error is reported the same way. */
  datatype InsertOutcome = Inserted | InsertFailed(cause: string)

  const SubmitError := "Failed to submit pre-order. Please try again."

  datatype UiState = UiState(loading: bool, error: string, submitted: bool)

  function InitialUi(): UiState { UiState(false, "", false) }

  /** The form is rendered while nothing has been submitted. */
  predicate FormShown(u: UiState) { !u.submitted }

  /** `disabled={loading}` on the submit button. */
  predicate ButtonEnabled(u: UiState) { !u.loading }

  /** `{error && …}`: the error banner. */
  predicate ErrorShown(u: UiState) { u.error != "" }

  /** A submit gesture reaches the handler only through a rendered form with an enabled button. */
  predicate CanSubmit(u: UiState) { FormShown(u) && ButtonEnabled(u) }

  /** The handler up to the insert: raise `loading`, clear `error`. */
  function BeginUi(u: UiState): UiState
  {
    u.(loading := true, error := "")
  }

  /** The handler after the insert: the `try`, `catch` and `finally` blocks. */
  function FinishUi(u: UiState, outcome: InsertOutcome): UiState
  {
    match outcome
    case Inserted => u.(submitted := true, loading := false)
    case InsertFailed(_) => u.(error := SubmitError, loading := false)
  }

  /** One whole run of the handler, from any state. */
  function SubmitUi(u: UiState, outcome: InsertOutcome): (r: UiState)
    ensures !r.loading
    ensures r.submitted == (u.submitted || outcome.Inserted?)
    ensures outcome.InsertFailed? ==> r.submitted == u.submitted
    ensures ErrorShown(r) <==> outcome.InsertFailed?
    ensures ErrorShown(r) ==> r.error == SubmitError
  {
    FinishUi(BeginUi(u), outcome)
  }

  /** Things that happen to a rendered form: the customer presses the submit
      button, or the insert in flight settles. */
  datatype Event = Press | Settle(outcome: InsertOutcome)

  datatype Effect = NoEffect | InsertIssued | InsertSettled(accepted: bool)

  /** The state after an event and what the event did. */
  datatype Transition = Transition(next: UiState, effect: Effect)

  function Step(u: UiState, e: Event): (r: Transition)
    ensures r.effect == InsertIssued <==> e.Press? && CanSubmit(u)
    ensures r.effect.InsertSettled? <==> e.Settle? && u.loading
    ensures r.effect.InsertSettled? ==> r.effect.accepted == e.outcome.Inserted?
    ensures r.effect == NoEffect ==> r.next == u
    ensures r.effect == InsertIssued ==> r.next == BeginUi(u)
    ensures r.effect.InsertSettled? ==> r.next == FinishUi(u, e.outcome)
  {
    match e
    case Press =>
      if CanSubmit(u) then Transition(BeginUi(u), InsertIssued) else Transition(u, NoEffect)
    case Settle(outcome) =>
      if u.loading then Transition(FinishUi(u, outcome), InsertSettled(outcome.Inserted?))
      else Transition(u, NoEffect)
  }

  /** Counts of what a sequence of events did. */
  datatype RunStats = RunStats(final: UiState, issued: nat, settled: nat, accepted: nat)

  function Run(u: UiState, es: seq<Event>): RunStats
    decreases |es|
  {
    if es == [] then RunStats(u, 0, 0, 0)
    else
      var Transition(v, effect) := Step(u, es[0]);
      var rest := Run(v, es[1..]);
      RunStats(rest.final,
               rest.issued + (if effect == InsertIssued then 1 else 0),
               rest.settled + (if effect.InsertSettled? then 1 else 0),
               rest.accepted + (if effect.InsertSettled? && effect.accepted then 1 else 0))
  }

  /** `loading` is raised exactly while an insert is in flight, so a second
      insert never starts before the first has settled. */
  lemma {:induction false} InFlightWhileLoading(u: UiState, es: seq<Event>)
    ensures Run(u, es).issued + (if u.loading then 1 else 0)
         == Run(u, es).settled + (if Run(u, es).final.loading then 1 else 0)
    decreases |es|
  {
    if es != [] {
      var Transition(v, effect) := Step(u, es[0]);
      InFlightWhileLoading(v, es[1..]);
    }
  }

  /** A rendered form places at most one order: once an insert has succeeded
      the form is gone and no further insert is issued. */
  lemma {:induction false} AtMostOneOrder(u: UiState, es: seq<Event>)
    requires u.submitted ==> !u.loading
    ensures Run(u, es).accepted <= (if u.submitted then 0 else 1)
    ensures u.submitted ==> Run(u, es).issued == 0
    ensures u.submitted ==> Run(u, es).final.submitted
    decreases |es|
  {
    if es != [] {
      var Transition(v, effect) := Step(u, es[0]);
      AtMostOneOrder(v, es[1..]);
    }
  }

  /** From a fresh form the counts balance and at most one order is placed. */
  lemma FreshFormSummary(es: seq<Event>)
    ensures Run(InitialUi(), es).issued == Run(InitialUi(), es).settled + (if Run(InitialUi(), es).final.loading then 1 else 0)
    ensures Run(InitialUi(), es).accepted <= 1
  {
    InFlightWhileLoading(InitialUi(), es);
    AtMostOneOrder(InitialUi(), es);
  }

  /** One rendered pre-order form and its state cells. */
  class Form {
    const page: Page
    var email: string
    var firstName: string
    var lastName: string
    var size: Size
    var deviceType: Device
    var submitted: bool
    var loading: bool
    var error: string

    function Input(): Entry
      reads this
    {
      Entry(email, firstName, lastName, size, deviceType)
    }

    function Ui(): UiState
      reads this
    {
      UiState(loading, error, submitted)
    }

    constructor (page: Page)
      ensures this.page == page
      ensures Input() == DefaultEntry() && Ui() == InitialUi()
      ensures Input().size in SizeOptions(page) && Input().device in DeviceOptions(page)
    {
      this.page := page;
      email, firstName, lastName := "", "", "";
      size, deviceType := M, AppleWatch;
      submitted, loading, error := false, false, "";
    }

    method SetEmail(v: string)
      modifies this
      ensures Input() == old(Input()).(email := v) && Ui() == old(Ui())
    {
      email := v;
    }

    method SetFirstName(v: string)
      modifies this
      ensures Input() == old(Input()).(firstName := v) && Ui() == old(Ui())
    {
      firstName := v;
    }

    method SetLastName(v: string)
      modifies this
      ensures Input() == old(Input()).(lastName := v) && Ui() == old(Ui())
    {
      lastName := v;
    }

    method SetSize(v: Size)
      modifies this
      ensures Input() == old(Input()).(size := v) && Ui() == old(Ui())
    {
      size := v;
    }

    method SetDeviceType(v: Device)
      modifies this
      ensures Input() == old(Input()).(device := v) && Ui() == old(Ui())
    {
      deviceType := v;
    }

    /** The handler up to the insert: returns the row it asks the datastore to insert. */
    method Begin() returns (row: Row)
      modifies this
      ensures Ui() == BeginUi(old(Ui())) && Input() == old(Input())
      ensures loading && error == ""
      ensures row == RowFor(Input())
    {
      loading := true;
      error := "";
      row := RowFor(Input());
    }

    /** The handler once the insert has settled; it only runs after `Begin`, with `loading` raised. */
    method Finish(outcome: InsertOutcome)
      requires loading
      modifies this
      ensures Ui() == FinishUi(old(Ui()), outcome) && Input() == old(Input())
    {
      if outcome.Inserted? {
        submitted := true;
      } else {
        error := SubmitError;
      }
      loading := false;
    }

    /** `handleSubmit` as a whole. */
    method HandleSubmit(outcome: InsertOutcome) returns (row: Row)
      modifies this
      ensures Ui() == SubmitUi(old(Ui()), outcome) && Input() == old(Input())
      ensures row == RowFor(Input())
    {
      row := Begin();
      Finish(outcome);
    }

    /** A press of the submit button: it starts the handler only when the form
        is rendered and the button enabled. */
    method Press() returns (row: Option<Row>)
      modifies this
      ensures Step(old(Ui()), Event.Press) == Transition(Ui(), if row.Some? then InsertIssued else NoEffect)
      ensures Input() == old(Input())
      ensures row.Some? ==> row.value == RowFor(Input())
    {
      if !submitted && !loading {
        var r := Begin();
        row := Some(r);
      } else {
        row := None;
      }
    }
  }
}
