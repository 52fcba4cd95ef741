/** What the log says about one ticket and one position, and what that means. */
module History {
  import opened Basics
  import opened Tickets
  import opened Stores

  // ----- one ticket -----

  /** Since the ticket was created or last previewed with success: was it prepared, was
      it enriched, and which request was confirmed and not prepared over. Counted since
      creation: attempts, submissions to the broker, and attempts lost before it. Of the
      requests: the one last submitted, and the one last answered with success. */
  datatype Track = Track(prepared: bool, enriched: bool, confirmed: Option<Option<Request>>,
                         previewId: Option<string>, pendings: nat, asks: nat, lost: nat,
                         asked: Option<Request>, previewed: Option<Request>)

  const UNTRACKED := Track(false, false, None, None, 0, 0, 0, None, None)

  /** The ticket whose record a note changes. */
  function Subject(n: Note): Option<string> {
    match n
    case Placed(_, _, _) => None
    case Accepted(_, _) => None
    case StatesCleared => None
    case _ => Some(n.id)
  }

  function TrackStep(k: Track, n: Note, id: string): Track {
    if Subject(n) != Some(id) then k
    else match n
         case Created(_) => UNTRACKED
         case Prepared(_) => k.(prepared := true, confirmed := None)
         case Enriched(_) => k.(enriched := true)
         case Pending(_) => k.(pendings := k.pendings + 1)
         case Asked(_, _, r) => k.(asks := k.asks + 1, asked := r)
         case ClientLost(_) => k.(lost := k.lost + 1)
         case Answered(_, p) => Track(false, false, None, p, k.pendings, k.asks, k.lost, k.asked, k.asked)
         case Confirmed(_, on, r) => k.(confirmed := if on then Some(r) else None)
         case _ => k
  }

  function TrackOf(log: seq<Note>, id: string): Track {
    if log == [] then UNTRACKED else TrackStep(TrackOf(log[..|log| - 1], id), log[|log| - 1], id)
  }

  lemma TrackNoted(log: seq<Note>, n: Note, id: string)
    ensures TrackOf(log + [n], id) == TrackStep(TrackOf(log, id), n, id)
  {
    assert (log + [n])[..|log|] == log;
  }

  predicate IsNew(n: Note, id: string) { n == Created(id) }
  predicate IsAnswer(n: Note, id: string) { n.Answered? && n.id == id }
  predicate Resets(n: Note, id: string) { IsNew(n, id) || IsAnswer(n, id) }
  predicate Unconfirms(n: Note, id: string) { Resets(n, id) || n == Prepared(id) || (n.Confirmed? && n.id == id) }

  /** Position c holds the confirmation of req that still stands at the end of the log. */
  ghost predicate StandsConfirmed(log: seq<Note>, id: string, c: int, req: Option<Request>) {
    0 <= c < |log| && log[c] == Confirmed(id, true, req) && forall j | c < j < |log| :: !Unconfirms(log[j], id)
  }

  /** Position p holds note n, and the ticket was not reset since. */
  ghost predicate StandsSince(log: seq<Note>, id: string, p: int, n: Note) {
    0 <= p < |log| && log[p] == n && forall j | p < j < |log| :: !Resets(log[j], id)
  }

  lemma {:induction false} ConfirmedMeaning(log: seq<Note>, id: string) returns (c: int)
    requires TrackOf(log, id).confirmed.Some?
    ensures StandsConfirmed(log, id, c, TrackOf(log, id).confirmed.value)
    ensures TrackOf(log[..c], id).prepared == TrackOf(log, id).prepared
    ensures TrackOf(log[..c], id).previewId == TrackOf(log, id).previewId
  {
    var n := |log| - 1;
    c := n;
    if !Unconfirms(log[n], id) {
      c := ConfirmedMeaning(log[..n], id);
      assert log[..n][..c] == log[..c];
      assert forall j | 0 <= j < n :: log[j] == log[..n][j];
    }
  }

  lemma {:induction false} PreparedMeaning(log: seq<Note>, id: string) returns (p: int)
    requires TrackOf(log, id).prepared
    ensures StandsSince(log, id, p, Prepared(id))
    ensures TrackOf(log[..p], id).previewId == TrackOf(log, id).previewId
  {
    var n := |log| - 1;
    p := n;
    if log[n] != Prepared(id) {
      p := PreparedMeaning(log[..n], id);
      assert log[..n][..p] == log[..p];
      assert forall j | 0 <= j < n :: log[j] == log[..n][j];
    }
  }

  lemma {:induction false} EnrichedMeaning(log: seq<Note>, id: string) returns (p: int)
    requires TrackOf(log, id).enriched
    ensures StandsSince(log, id, p, Enriched(id))
  {
    var n := |log| - 1;
    p := n;
    if log[n] != Enriched(id) {
      p := EnrichedMeaning(log[..n], id);
      assert forall j | 0 <= j < n :: log[j] == log[..n][j];
    }
  }

  lemma {:induction false} PreviewIdMeaning(log: seq<Note>, id: string) returns (a: int)
    requires TrackOf(log, id).previewId.Some?
    ensures StandsSince(log, id, a, Answered(id, TrackOf(log, id).previewId))
  {
    var n := |log| - 1;
    a := n;
    if !Resets(log[n], id) {
      a := PreviewIdMeaning(log[..n], id);
      assert forall j | 0 <= j < n :: log[j] == log[..n][j];
    }
  }

  // ----- one position -----

  /** The alerts accepted for a position, oldest first. */
  function AcceptedIds(log: seq<Note>, sid: string): seq<string> {
    if log == [] then []
    else
      var before, n := AcceptedIds(log[..|log| - 1], sid), log[|log| - 1];
      if n == StatesCleared then []
      else if n.Accepted? && n.state == sid then before + [n.event] else before
  }

  lemma AcceptedNoted(log: seq<Note>, n: Note, sid: string)
    ensures AcceptedIds(log + [n], sid) ==
      if n == StatesCleared then []
      else if n.Accepted? && n.state == sid then AcceptedIds(log, sid) + [n.event]
      else AcceptedIds(log, sid)
  {
    assert (log + [n])[..|log|] == log;
  }
}
