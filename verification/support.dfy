/**
 * Ticket creation on `src/pages/dashboard/Support.jsx`. The random draw and
 * the locale timestamp the page reads are inputs; the success toast the
 * handler raises is returned as the options of its one `showToast` call.
 */
module Support {
  import opened Optional
  import opened Text
  import opened Palette
  import Toast

  datatype Ticket = Ticket(id: string, subject: string, department: string, priority: string,
                           status: string, createdAt: string, lastUpdate: string)

  /** The new-ticket form. */
  datatype Form = Form(subject: string, department: string, priority: string, message: string)

  const BlankForm := Form("", "Technical", "Medium", "")

  datatype Page = Page(tickets: seq<Ticket>, form: Form)

  const InitialTickets: seq<Ticket> := [
    Ticket("TCK-1001", "Website downtime issue", "Technical", "High", "Open", "2025-08-10 09:30", "2025-08-10 10:15"),
    Ticket("TCK-1002", "Invoice clarification", "Billing", "Medium", "Answered", "2025-08-11 14:05", "2025-08-11 15:20"),
    Ticket("TCK-1003", "Upgrade plan inquiry", "Sales", "Low", "Closed", "2025-08-09 11:00", "2025-08-09 12:10")
  ]

  const InitialPage := Page(InitialTickets, BlankForm)

  const CreatedNotice := Toast.Options(Some("Ticket created"), Some("Your support ticket has been created."), Some("success"), None)

  /** `Math.floor(1000 + random * 9000)` for a draw of `Math.random()`. */
  function TicketNumber(random: real): (n: int)
    requires 0.0 <= random < 1.0
    ensures 1000 <= n <= 9999
    ensures n as real <= 1000.0 + random * 9000.0 < n as real + 1.0
  {
    (1000.0 + random * 9000.0).Floor
  }

  /** "TCK-" followed by the ticket number in decimal. */
  function TicketId(random: real): string
    requires 0.0 <= random < 1.0
  {
    "TCK-" + Decimal(TicketNumber(random))
  }

  /** A ticket id is "TCK-" and four digits denoting a number from 1000 to 9999. */
  lemma TicketIdShape(random: real)
    requires 0.0 <= random < 1.0
    ensures var id := TicketId(random);
      && |id| == 8 && id[..4] == "TCK-" && IsDigits(id[4..])
      && DecimalValue(id[4..]) == TicketNumber(random)
      && 1000 <= DecimalValue(id[4..]) <= 9999
  {
    var n := TicketNumber(random);
    DecimalFourDigits(n);
    assert TicketId(random)[4..] == Decimal(n);
  }

  /** The outcome of a submit: the page afterwards and the toast it raised. */
  datatype Created = Created(page: Page, notice: Toast.Options)

  /**
   * The subject input and the message textarea carry `required`: the browser
   * submits the form, and so calls the handler, only when both hold text.
   */
  predicate FormFilled(f: Form)
  {
    f.subject != "" && f.message != ""
  }

  /**
   * `handleCreateTicket`, for a `Math.random()` draw and the two locale
   * timestamps it reads, one for `createdAt` and one for `lastUpdate`.
   */
  function CreateTicket(p: Page, random: real, createdAt: string, lastUpdate: string): (r: Created)
    requires 0.0 <= random < 1.0
    requires FormFilled(p.form)
    ensures |r.page.tickets| == |p.tickets| + 1
    ensures r.page.tickets[1..] == p.tickets
    ensures var t := r.page.tickets[0];
      && t.id == TicketId(random)
      && t.subject == p.form.subject && t.department == p.form.department && t.priority == p.form.priority
      && t.status == "Open" && t.createdAt == createdAt && t.lastUpdate == lastUpdate
    ensures r.page.form == BlankForm
    ensures r.notice.kind == Some("success")
  {
    var ticket := Ticket(TicketId(random), p.form.subject, p.form.department, p.form.priority, "Open", createdAt, lastUpdate);
    Created(Page([ticket] + p.tickets, BlankForm), CreatedNotice)
  }

  /** The form is cleared after a ticket is created, so it cannot be sent again as it stands. */
  lemma CreatedFormCannotResubmit(p: Page, random: real, createdAt: string, lastUpdate: string)
    requires 0.0 <= random < 1.0 && FormFilled(p.form)
    ensures !FormFilled(CreateTicket(p, random, createdAt, lastUpdate).page.form)
  {
  }

  /**
   * The id is drawn at random and never compared with the list, so a new
   * ticket can share its id with an existing one: a draw of 1/9000 on the
   * first page gives a second "TCK-1001", whatever was typed.
   */
  lemma NewIdCanRepeat(f: Form, createdAt: string, lastUpdate: string)
    requires FormFilled(f)
    ensures var r := CreateTicket(Page(InitialTickets, f), 1.0 / 9000.0, createdAt, lastUpdate);
      r.page.tickets[0].id == r.page.tickets[1].id
  {
    FirstDrawId();
  }

  /** A draw of 1/9000 gives the number 1001 and the id "TCK-1001". */
  lemma FirstDrawId()
    ensures TicketId(1.0 / 9000.0) == "TCK-1001"
  {
    assert TicketNumber(1.0 / 9000.0) == 1001;
    DecimalAppend(1, 0);
    DecimalAppend(10, 0);
    DecimalAppend(100, 1);
  }

  /** `statusBadge`: the colour of a ticket's status, grey for any status it does not list. */
  function TicketTone(status: string): (t: Tone)
    ensures t == Yellow <==> status == "Open"
    ensures t == Blue <==> status == "Answered"
    ensures t == Green <==> status == "Closed"
    ensures t == Gray <==> status !in {"Open", "Answered", "Closed"}
  {
    match status
    case "Open" => Yellow
    case "Answered" => Blue
    case "Closed" => Green
    case _ => Gray
  }

  /** A ticket just created wears the "Open" colour. */
  lemma NewTicketIsYellow(p: Page, random: real, createdAt: string, lastUpdate: string)
    requires 0.0 <= random < 1.0 && FormFilled(p.form)
    ensures TicketTone(CreateTicket(p, random, createdAt, lastUpdate).page.tickets[0].status) == Yellow
  {
  }
}
