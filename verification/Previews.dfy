/** Submitting a prepared ticket to the broker for a preview. */
module Previews {
  import opened Tickets
  import opened TicketSteps
  import opened Stores

  /** The broker either fails, perhaps because its service is busy, or answers. An
      answer that cannot be read counts as a failure. */
  datatype Outcome = Fails(busy: bool) | Answers(response: Response)

  function Finished(pending: Ticket, out: Outcome, now: real): Ticket {
    match out
    case Fails(busy) => MarkFailed(pending, now, busy)
    case Answers(response) => MarkPreviewed(pending, response, now)
  }

  /** The ticket is saved as pending, submitted, and saved with the outcome. */
  function Previewing(w: World, t: Ticket, out: Outcome, now: real): World {
    var pending := MarkPending(t, now);
    var asked := Noted(Noted(Saved(w, pending), Pending(t.id)), Asked(t.id, t.account, t.request));
    var final := Finished(pending, out, now);
    var saved := Saved(asked, final);
    if out.Answers? then Noted(saved, Answered(t.id, final.previewId)) else saved
  }
}
