/**
 * The inbox screen: a list of emails, the one selected for reading, whether
 * the composer is open, and the draft being written. Its handlers replace
 * this state; the right-hand pane shows the composer, the selected email or
 * a placeholder.
 */
module Inbox {
  import opened Wrappers

  datatype Email = Email(id: string, sender: string, subject: string, body: string, date: string, read: bool)

  datatype Draft = Draft(to: string, subject: string, body: string)

  const EmptyDraft := Draft("", "", "")

  datatype InboxState = InboxState(emails: seq<Email>, selected: Option<Email>, composing: bool, draft: Draft)

  /** The three inputs of the composer. */
  datatype DraftField = To | Subject | Body

  /** Everything the user can do on this screen. */
  datatype Event = Click(email: Email) | Compose | Send | Edit(field: DraftField, text: string)

  datatype Pane = Composer(draft: Draft) | Reader(email: Email) | Placeholder

  /** The emails the screen starts with. */
  const MockEmails: seq<Email> := [
    Email("1", "john@example.com", "Project Update",
          "Here's the latest update on our project...", "2023-05-10T10:30:00Z", false),
    Email("2", "sarah@example.com", "Meeting Reminder",
          "Don't forget about our team meeting tomorrow at 2 PM.", "2023-05-09T15:45:00Z", true),
    Email("3", "client@example.com", "New Feature Request",
          "We'd like to discuss adding a new feature to the platform...", "2023-05-08T09:15:00Z", false)]

  function Initial(): (s: InboxState)
    ensures s.emails == MockEmails && s.selected == None && !s.composing && s.draft == EmptyDraft
  {
    InboxState(MockEmails, None, false, EmptyDraft)
  }

  /** `emails.map(...)` in `handleEmailClick`: every email with the clicked id becomes read. */
  function MarkRead(emails: seq<Email>, id: string): (r: seq<Email>)
    ensures |r| == |emails|
    ensures forall i :: 0 <= i < |emails| && emails[i].id == id ==> r[i] == emails[i].(read := true)
    ensures forall i :: 0 <= i < |emails| && emails[i].id != id ==> r[i] == emails[i]
  {
    seq(|emails|, i requires 0 <= i < |emails| => if emails[i].id == id then emails[i].(read := true) else emails[i])
  }

  /** `handleEmailClick(email)`: selects the email and marks it read; composing and the draft stay. */
  function HandleEmailClick(s: InboxState, email: Email): (r: InboxState)
    ensures r.selected == Some(email)
    ensures r.emails == MarkRead(s.emails, email.id)
    ensures r.composing == s.composing && r.draft == s.draft
  {
    s.(selected := Some(email), emails := MarkRead(s.emails, email.id))
  }

  /** `handleCompose()`: drops the selection and opens the composer. */
  function HandleCompose(s: InboxState): (r: InboxState)
    ensures r.selected == None && r.composing
    ensures r.emails == s.emails && r.draft == s.draft
  {
    s.(selected := None, composing := true)
  }

  /** `handleSend()`: closes the composer and empties the draft. */
  function HandleSend(s: InboxState): (r: InboxState)
    ensures !r.composing && r.draft == EmptyDraft
    ensures r.emails == s.emails && r.selected == s.selected
  {
    s.(composing := false, draft := EmptyDraft)
  }

  /** The composer's `onChange` handlers: `{ ...newEmail, field: text }`. */
  function HandleEdit(s: InboxState, field: DraftField, text: string): (r: InboxState)
    ensures field == To ==> r.draft == s.draft.(to := text)
    ensures field == Subject ==> r.draft == s.draft.(subject := text)
    ensures field == Body ==> r.draft == s.draft.(body := text)
    ensures r.emails == s.emails && r.selected == s.selected && r.composing == s.composing
  {
    var d := match field
      case To => s.draft.(to := text)
      case Subject => s.draft.(subject := text)
      case Body => s.draft.(body := text);
    s.(draft := d)
  }

  function Handle(s: InboxState, e: Event): InboxState
  {
    match e
    case Click(email) => HandleEmailClick(s, email)
    case Compose => HandleCompose(s)
    case Send => HandleSend(s)
    case Edit(field, text) => HandleEdit(s, field, text)
  }

  /** The state after a sequence of events. */
  function HandleAll(s: InboxState, events: seq<Event>): InboxState
    decreases |events|
  {
    if events == [] then s else HandleAll(Handle(s, events[0]), events[1..])
  }

  /** The right-hand pane: the composer if open, else the selected email, else the placeholder. */
  function ShownPane(s: InboxState): (p: Pane)
    ensures p.Composer? <==> s.composing
    ensures p.Reader? <==> !s.composing && s.selected.Some?
    ensures p.Composer? ==> p.draft == s.draft
    ensures p.Reader? ==> p.email == s.selected.value
  {
    if s.composing then Composer(s.draft)
    else if s.selected.Some? then Reader(s.selected.value)
    else Placeholder
  }

  // ---- Properties ----

  /** Clicking an email that is already read (and the only one with its id) leaves the list as it was. */
  lemma ClickReadEmailKeepsList(s: InboxState, k: nat)
    requires k < |s.emails| && s.emails[k].read
    requires forall i :: 0 <= i < |s.emails| && i != k ==> s.emails[i].id != s.emails[k].id
    ensures HandleEmailClick(s, s.emails[k]).emails == s.emails
  {
    var r := HandleEmailClick(s, s.emails[k]).emails;
    forall i | 0 <= i < |s.emails| ensures r[i] == s.emails[i] {
      if i == k {
        assert s.emails[k].(read := true) == s.emails[k];
      }
    }
  }

  /** One event never makes a read email unread, and never changes the list's length or ids. */
  lemma HandleKeepsRead(s: InboxState, e: Event)
    ensures |Handle(s, e).emails| == |s.emails|
    ensures forall i :: 0 <= i < |s.emails| ==> Handle(s, e).emails[i].id == s.emails[i].id
    ensures forall i :: 0 <= i < |s.emails| && s.emails[i].read ==> Handle(s, e).emails[i].read
  {
  }

  /** Over any sequence of events a read email stays read. */
  lemma {:induction false} ReadStaysRead(s: InboxState, events: seq<Event>)
    ensures |HandleAll(s, events).emails| == |s.emails|
    ensures forall i :: 0 <= i < |s.emails| ==> HandleAll(s, events).emails[i].id == s.emails[i].id
    ensures forall i :: 0 <= i < |s.emails| && s.emails[i].read ==> HandleAll(s, events).emails[i].read
    decreases |events|
  {
    if events != [] {
      HandleKeepsRead(s, events[0]);
      ReadStaysRead(Handle(s, events[0]), events[1..]);
    }
  }

  /** After composing the composer is shown; after sending, the pane no longer shows the composer. */
  lemma ComposeThenSend(s: InboxState)
    ensures ShownPane(HandleCompose(s)) == Composer(s.draft)
    ensures ShownPane(HandleSend(HandleCompose(s))) == Placeholder
  {
  }

  /** Clicking while composing marks the email read but the composer stays in front of it. */
  lemma ClickWhileComposing(s: InboxState, email: Email)
    requires s.composing
    ensures ShownPane(HandleEmailClick(s, email)) == Composer(s.draft)
    ensures ShownPane(HandleEmailClick(HandleSend(s), email)) == Reader(email)
  {
  }
}
