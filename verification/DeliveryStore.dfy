/** One durable delivery row, and the operations the three delivery stores offer on it. */
module DeliveryStore {
  import opened Basics
  import opened Replacement

  /** The three stores: record emails, quote deliveries and thread replies. */
  datatype Kind = RecordEmail | DealQuote | ThreadReply

  datatype Status = Prepared | Sending | Accepted | Failed | Uncertain

  datatype Purpose = Customer | Test

  datatype Envelope = Envelope(
    sender: string, recipient: string, subject: string, textBody: string, htmlBody: string,
    messageId: string, unsubscribeUrl: string, inReplyTo: string, references: seq<string>)

  /** `request` stands for the stored hash of the request that prepared the row. */
  datatype Row = Row(
    kind: Kind, status: Status, purpose: Purpose, actor: nat, request: nat, envelope: Envelope, claimedAt: Option<int>)

  /** A user's standing in the organization; `Admin` stands for owners too. */
  datatype Standing = Inactive | Reader | Member | Admin

  predicate Writes(standing: Standing) {
    standing.Member? || standing.Admin?
  }

  /** What a store call can do besides succeed: fail and roll back, or commit and still report an error. */
  datatype Fault = Clean | ErrorBefore | ErrorAfter

  datatype Answer = Refused | Got(row: Row, shouldSend: bool)

  /** What a claim finds out: all well; the record, recipient or quote no longer fits; or a quote awaits approval. */
  datatype Verdict = Valid | Changed | Held

  datatype Resolution = ConfirmedSent | Retry | NotSent

  /** A claim older than this many seconds is stale. */
  const STALE := 300

  const UNSUBSCRIBE := "\n\nUnsubscribe: "

  function Faulted(fault: Fault, before: Row, after: (Row, Answer)): (Row, Answer) {
    match fault
    case Clean => after
    case ErrorBefore => (before, Refused)
    case ErrorAfter => (after.0, Refused)
  }

  predicate Final(status: Status) {
    status.Accepted? || status.Failed?
  }

  /** What a record email keeps of its text once it is over; quotes and replies keep everything. */
  function Scrubbed(kind: Kind, e: Envelope): Envelope {
    if !kind.RecordEmail? then e
    else
      e.(textBody := if e.unsubscribeUrl == "" then e.textBody
                     else ReplaceAll(e.textBody, UNSUBSCRIBE + e.unsubscribeUrl, ""),
         htmlBody := "", unsubscribeUrl := "")
  }

  function Finalized(row: Row, status: Status): Row {
    row.(status := status, envelope := Scrubbed(row.kind, row.envelope))
  }

  predicate IsStale(row: Row, limit: int) {
    row.status.Sending? && row.claimedAt.Some? && row.claimedAt.value < limit
  }

  /** What each store asks before it hands out a prepared row. */
  function ClaimPrepared(row: Row, standing: Standing, verdict: Verdict, now: int): (Row, Answer) {
    var taken := row.(status := Sending, claimedAt := Some(now));
    match row.kind
    case ThreadReply => (taken, Got(taken, true))
    case RecordEmail =>
      if !Writes(standing) then (row, Refused)
      else if verdict.Changed? then
        var r := Finalized(taken, Failed); (r, Got(r, false))
      else (taken, Got(taken, true))
    case DealQuote =>
      if verdict.Held? then (row, Refused)
      else if verdict.Changed? then (Finalized(row, Failed), Refused)
      else (taken, Got(taken, true))
  }

  /** The part of a claim the three stores share: the sender, stale claims and finished rows. */
  function ClaimSpec(row: Row, actor: nat, standing: Standing, verdict: Verdict, now: int): (Row, Answer) {
    if row.actor != actor || (row.kind.DealQuote? && !Writes(standing)) then (row, Refused)
    else if IsStale(row, now - STALE) then
      var r := row.(status := Uncertain); (r, Got(r, false))
    else if !row.status.Prepared? then (row, Got(row, false))
    else ClaimPrepared(row, standing, verdict, now)
  }

  function CompleteSpec(row: Row): (Row, Answer) {
    if row.status.Accepted? then (row, Got(row, false))
    else if row.status.Sending? || row.status.Uncertain? then
      var r := Finalized(row, Accepted); (r, Got(r, false))
    else (row, Refused)
  }

  function FailSpec(row: Row, uncertain: bool): (Row, Answer) {
    if !row.status.Sending? then (row, Refused)
    else
      var r := if uncertain then row.(status := Uncertain) else Finalized(row, Failed); (r, Got(r, false))
  }

  /** Who may resolve an uncertain row, and how, by the standing read for them. */
  predicate MayResolve(row: Row, user: nat, standing: Standing, resolution: Resolution) {
    && (if row.kind.DealQuote? then !standing.Inactive? else Writes(standing))
    && (row.actor == user || standing.Admin?)
    && (resolution.Retry? ==> row.actor == user)
  }

  function ResolveSpec(row: Row, user: nat, standing: Standing, resolution: Resolution): (Row, Answer) {
    if !row.status.Uncertain? || !MayResolve(row, user, standing, resolution) then (row, Refused)
    else match resolution
      case ConfirmedSent => var r := Finalized(row, Accepted); (r, Got(r, false))
      case Retry => var r := row.(status := Prepared, claimedAt := None); (r, Got(r, true))
      case NotSent => var r := Finalized(row, Failed); (r, Got(r, false))
  }

  /** The scheduled pass on one stale row; unlike a claim it also takes one exactly `STALE` old. */
  function RecoverSpec(row: Row, now: int): Row {
    if IsStale(row, now - STALE + 1) then row.(status := Uncertain) else row
  }

  /** Disabling the sender's account; quotes keep their claim time as it is. */
  function QuiesceSpec(row: Row, now: int): Row {
    var claimedAt := if row.kind.DealQuote? || row.claimedAt.Some? then row.claimedAt else Some(now);
    match row.status
    case Prepared => Finalized(row, Failed).(claimedAt := claimedAt)
    case Sending => row.(status := Uncertain, claimedAt := claimedAt)
    case _ => row
  }

  /** Every change any store operation can make to an existing row. */
  datatype Change =
    | Claim(actor: nat, standing: Standing, verdict: Verdict, now: int)
    | Complete
    | Fail(uncertain: bool)
    | Resolve(user: nat, standing: Standing, resolution: Resolution)
    | Recover(now: int)
    | Quiesce(now: int)

  function Apply(row: Row, c: Change): Row {
    match c
    case Claim(actor, standing, verdict, now) => ClaimSpec(row, actor, standing, verdict, now).0
    case Complete => CompleteSpec(row).0
    case Fail(uncertain) => FailSpec(row, uncertain).0
    case Resolve(user, standing, resolution) => ResolveSpec(row, user, standing, resolution).0
    case Recover(now) => RecoverSpec(row, now)
    case Quiesce(now) => QuiesceSpec(row, now)
  }

  function ApplyAll(row: Row, changes: seq<Change>): Row {
    if changes == [] then row else Apply(ApplyAll(row, changes[..|changes| - 1]), changes[|changes| - 1])
  }

  /** What one change can do to a row. */
  lemma ChangeKeeps(row: Row, c: Change)
    ensures var r := Apply(row, c);
            && r.kind == row.kind && r.actor == row.actor && r.request == row.request && r.purpose == row.purpose
            && (Final(row.status) ==> r == row)
            && (r.envelope == row.envelope
                || (Final(r.status) && r.envelope == Scrubbed(row.kind, row.envelope)))
            && (r.status.Prepared? && !row.status.Prepared? ==>
                  c.Resolve? && c.user == row.actor && c.resolution.Retry? && !c.standing.Inactive?)
  {
  }

  /** Somewhere among the changes the row's own sender, read as an active member, chose to retry. */
  ghost predicate RetriedBySender(row: Row, changes: seq<Change>) {
    exists i :: 0 <= i < |changes| && changes[i].Resolve? && changes[i].user == row.actor
                && changes[i].resolution.Retry? && !changes[i].standing.Inactive?
  }

  /**
   * Over every sequence of operations a row keeps its identity; its envelope stays as it was first stored until
   * the row is over and is at most scrubbed then; `Accepted` and `Failed` are final; and a row that has left
   * `Prepared` is back there only if its own sender, read as an active member, chose to retry.
   */
  lemma {:induction false} RowLifetime(row: Row, changes: seq<Change>)
    ensures var r := ApplyAll(row, changes);
            && r.kind == row.kind && r.actor == row.actor && r.request == row.request && r.purpose == row.purpose
            && (r.envelope == row.envelope
                || (Final(r.status) && r.envelope == Scrubbed(row.kind, row.envelope)))
    ensures Final(row.status) ==> ApplyAll(row, changes) == row
    ensures !row.status.Prepared? && ApplyAll(row, changes).status.Prepared? ==> RetriedBySender(row, changes)
  {
    if changes != [] {
      var n := |changes| - 1;
      RowLifetime(row, changes[..n]);
      var mid := ApplyAll(row, changes[..n]);
      ChangeKeeps(mid, changes[n]);
      if !row.status.Prepared? && Apply(mid, changes[n]).status.Prepared? {
        if mid.status.Prepared? {
          var i :| 0 <= i < n && changes[..n][i].Resolve? && changes[..n][i].user == row.actor
                   && changes[..n][i].resolution.Retry? && !changes[..n][i].standing.Inactive?;
          assert changes[i] == changes[..n][i];
        } else {
          assert changes[n].Resolve?;
        }
      }
    }
  }

  // ---- The life of a row, arrow by arrow ----

  /** A claimable row is taken by a claim its store lets through, failed by a claim or a disabling, or left alone. */
  lemma FromPrepared(row: Row, c: Change)
    requires row.status.Prepared?
    ensures var r := Apply(row, c);
            var own := c.Claim? && c.actor == row.actor;
            var writes := c.Claim? && (c.standing.Member? || c.standing.Admin?);
            && (r.status.Sending? <==>
                  own && match row.kind
                         case RecordEmail => writes && !c.verdict.Changed?
                         case DealQuote => writes && c.verdict.Valid?
                         case ThreadReply => true)
            && (r.status.Failed? <==> c.Quiesce? || (own && writes && c.verdict.Changed? && !row.kind.ThreadReply?))
            && (r.status.Sending? ==> r == row.(status := Sending, claimedAt := Some(c.now)))
            && (r.status.Sending? || r.status.Failed? || r == row)
  {
  }

  /** A row being sent ends with its report; what interrupts it leaves it uncertain. */
  lemma FromSending(row: Row, c: Change)
    requires row.status.Sending?
    ensures var r := Apply(row, c);
            && (r.status.Accepted? <==> c.Complete?)
            && (r.status.Failed? <==> c == Fail(false))
            && (r.status.Uncertain? <==>
                  || c == Fail(true) || c.Quiesce?
                  || (c.Recover? && row.claimedAt.Some? && c.now - row.claimedAt.value >= 300)
                  || (c.Claim? && c.actor == row.actor && row.claimedAt.Some? && c.now - row.claimedAt.value > 300
                      && (row.kind.DealQuote? ==> c.standing.Member? || c.standing.Admin?)))
            && (r.status.Uncertain? && !c.Quiesce? ==> r == row.(status := Uncertain))
            && (r.status.Accepted? || r.status.Failed? || r.status.Uncertain? || r == row)
  {
  }

  /** An uncertain row waits for a late acceptance, or for somebody entitled to decide. */
  lemma FromUncertain(row: Row, c: Change)
    requires row.status.Uncertain?
    ensures var r := Apply(row, c);
            var entitled :=
              && c.Resolve? && (c.user == row.actor || c.standing.Admin?)
              && (c.standing.Member? || c.standing.Admin? || (row.kind.DealQuote? && c.standing.Reader?));
            && (r.status.Accepted? <==> c.Complete? || (entitled && c.resolution.ConfirmedSent?))
            && (r.status.Failed? <==> entitled && c.resolution.NotSent?)
            && (r.status.Prepared? <==> entitled && c.resolution.Retry? && c.user == row.actor)
            && (r.status.Prepared? ==> r == row.(status := Prepared, claimedAt := None))
            && (r.status.Accepted? || r.status.Failed? || r.status.Prepared? || r == row)
  {
  }

  /** A claim is answered unless it is another's, or its store refuses it; it hands out the row it takes. */
  lemma ClaimAnswers(row: Row, actor: nat, standing: Standing, verdict: Verdict, now: int)
    ensures var (r, a) := ClaimSpec(row, actor, standing, verdict, now);
            var writes := standing.Member? || standing.Admin?;
            && (a.Got? <==>
                  && actor == row.actor
                  && match row.kind
                     case RecordEmail => row.status.Prepared? ==> writes
                     case DealQuote => writes && (row.status.Prepared? ==> verdict.Valid?)
                     case ThreadReply => true)
            && (a.Got? ==> a.row == r && (a.shouldSend <==> row.status.Prepared? && r.status.Sending?))
            && (a.Refused? ==> r == row || (row.kind.DealQuote? && verdict.Changed? && r.status.Failed?))
  {
  }

  /** A report or a resolution is answered if and only if it has its effect; only a retry hands the row out again. */
  lemma ReportAnswers(row: Row, uncertain: bool, user: nat, standing: Standing, resolution: Resolution)
    ensures var (r, a) := CompleteSpec(row);
            (a.Got? <==> r.status.Accepted?) && (a.Got? ==> a.row == r && !a.shouldSend)
    ensures var (r, a) := FailSpec(row, uncertain);
            (a.Got? <==> row.status.Sending?) && (a.Got? ==> a.row == r && !a.shouldSend)
    ensures var (r, a) := ResolveSpec(row, user, standing, resolution);
            (a.Got? <==> r.status != row.status) && (a.Got? ==> a.row == r && (a.shouldSend <==> r.status.Prepared?))
  {
  }

  // ---- What is left of a finished email ----

  /** `piece` stands at position `i`. */
  predicate StandsAt(s: string, piece: string, i: nat) {
    i + |piece| <= |s| && s[i..i + |piece|] == piece
  }

  predicate Occurs(s: string, piece: string) {
    exists i :: 0 <= i <= |s| && StandsAt(s, piece, i)
  }

  lemma StandsLater(s: string, piece: string, i: nat)
    requires s != ""
    ensures StandsAt(s[1..], piece, i) ==> StandsAt(s, piece, i + 1)
  {
    if StandsAt(s[1..], piece, i) {
      assert s[i + 1..i + 1 + |piece|] == s[1..][i..i + |piece|];
    }
  }

  /** A notice begins with the only two line breaks in it, so it never overlaps itself. */
  lemma NoOverlap(body: string, notice: string)
    requires |notice| > 2 && notice[0] == notice[1] == '\n' && forall k :: 2 <= k < |notice| ==> notice[k] != '\n'
    requires 0 < |body| < |notice|
    ensures (body + notice)[..|notice|] != notice
  {
    var k := if |body| == 1 then 2 else |body|;
    assert (body + notice)[..|notice|][k] == '\n';
  }

  lemma {:induction false} NoticeIsRemoved(body: string, notice: string)
    requires |notice| > 2 && notice[0] == notice[1] == '\n' && forall k :: 2 <= k < |notice| ==> notice[k] != '\n'
    requires !Occurs(body, notice)
    ensures ReplaceAll(body + notice, notice, "") == body
  {
    var s := body + notice;
    if body == "" {
      assert s[|notice|..] == "";
    } else {
      if |body| < |notice| {
        NoOverlap(body, notice);
      } else {
        assert s[..|notice|] == body[0..0 + |notice|];
        assert !StandsAt(body, notice, 0);
      }
      forall i | 0 <= i <= |body[1..]| ensures !StandsAt(body[1..], notice, i) {
        StandsLater(body, notice, i);
        assert !StandsAt(body, notice, i + 1);
      }
      NoticeIsRemoved(body[1..], notice);
      assert s[1..] == body[1..] + notice;
      assert [body[0]] + body[1..] == body;
    }
  }

  /**
   * A record email that comes to its end keeps neither its HTML nor its unsubscribe address, and of its text all but a
   * notice of the form "Unsubscribe: address"; quotes and replies keep everything.
   */
  lemma FinishedEmailsAreScrubbed(row: Row, c: Change, body: string, url: string)
    requires !Final(row.status) && Final(Apply(row, c).status)
    ensures var e := Apply(row, c).envelope;
            if !row.kind.RecordEmail? then e == row.envelope
            else
              && e.htmlBody == "" && e.unsubscribeUrl == "" && e.subject == row.envelope.subject
              && e.sender == row.envelope.sender && e.recipient == row.envelope.recipient
              && e.messageId == row.envelope.messageId
              && (row.envelope.unsubscribeUrl == "" ==> e.textBody == row.envelope.textBody)
              && (row.envelope.unsubscribeUrl == url && url != "" && '\n' !in url
                  && row.envelope.textBody == body + "\n\nUnsubscribe: " + url
                  && !Occurs(body, "\n\nUnsubscribe: " + url)
                  ==> e.textBody == body)
  {
    if '\n' !in url && !Occurs(body, UNSUBSCRIBE + url) {
      NoticeIsRemoved(body, UNSUBSCRIBE + url);
      assert body + (UNSUBSCRIBE + url) == body + UNSUBSCRIBE + url;
    }
  }

  lemma {:induction false} NothingToReplace(s: string, piece: string)
    requires piece != "" && !Occurs(s, piece)
    ensures ReplaceAll(s, piece, "") == s
  {
    if |s| >= |piece| {
      assert !StandsAt(s, piece, 0);
      assert s[..|piece|] == s[0..0 + |piece|];
      forall i | 0 <= i <= |s[1..]| ensures !StandsAt(s[1..], piece, i) {
        StandsLater(s, piece, i);
        assert !StandsAt(s, piece, i + 1);
      }
      NothingToReplace(s[1..], piece);
      assert [s[0]] + s[1..] == s;
    }
  }

  /** What the program writes under a customer email, before the address. */
  const WRITTEN_NOTICE := "\n\n" + ("To stop receiving emails from us, " + "unsubscribe here: ")

  /** Two line breaks, then none, then the letter `c`. */
  predicate IsNotice(s: string, c: char) {
    |s| > 2 && s[0] == s[1] == '\n' && s[2] == c && forall k :: 2 <= k < |s| ==> s[k] != '\n'
  }

  lemma NoticesDiffer(body: string, tail: string, notice: string, i: nat)
    requires IsNotice(notice, 'U') && IsNotice(tail, 'T') && |body| < i + |notice| <= |body + tail|
    ensures (body + tail)[i..i + |notice|] != notice
  {
    var s := body + tail;
    var n := |body|;
    assert s[n] == s[n + 1] == '\n' && s[n + 2] == 'T';
    var k: nat := if i >= n + 2 then 0 else if i == n + 1 then 1 else if i >= n - 1 then 2 else n - i;
    assert s[i..i + |notice|][k] == s[i + k];
    assert s[i + k] != notice[k] by {
      if i >= n + 2 {
        assert s[i] == tail[i - n];
      }
    }
  }

  lemma NoticeStaysAbove(body: string, tail: string, notice: string)
    requires IsNotice(notice, 'U') && IsNotice(tail, 'T') && !Occurs(body, notice)
    ensures !Occurs(body + tail, notice)
  {
    forall i | 0 <= i <= |body + tail| ensures !StandsAt(body + tail, notice, i) {
      if i + |notice| <= |body| {
        assert (body + tail)[i..i + |notice|] == body[i..i + |notice|];
        assert !StandsAt(body, notice, i);
      } else if i + |notice| <= |body + tail| {
        NoticesDiffer(body, tail, notice, i);
      }
    }
  }

  lemma WordsAreOneLine()
    ensures '\n' !in "To stop receiving emails from us, " && '\n' !in "unsubscribe here: "
  {
  }

  lemma NoticeShapes(url: string)
    requires '\n' !in url
    ensures IsNotice(UNSUBSCRIBE + url, 'U') && IsNotice(WRITTEN_NOTICE + url, 'T')
  {
    WordsAreOneLine();
    var words := "To stop receiving emails from us, " + "unsubscribe here: ";
    assert words[0] == 'T' && '\n' !in words;
    var tail := WRITTEN_NOTICE + url;
    assert tail == "\n\n" + (words + url);
    assert forall k :: 2 <= k < |tail| ==> tail[k] == (words + url)[k - 2];
    assert forall k :: 0 <= k < |words + url| ==> (words + url)[k] in words || (words + url)[k] in url;
  }

  /**
   * The notice the program writes now is not of that form: a finished email keeps it, and the address in it, unless
   * the text above it happens to hold the other form.
   */
  lemma WrittenNoticeStays(e: Envelope, body: string)
    requires e.textBody == body + (WRITTEN_NOTICE + e.unsubscribeUrl) && '\n' !in e.unsubscribeUrl
    requires !Occurs(body, UNSUBSCRIBE + e.unsubscribeUrl)
    ensures Scrubbed(RecordEmail, e).textBody == e.textBody
  {
    NoticeShapes(e.unsubscribeUrl);
    NoticeStaysAbove(body, WRITTEN_NOTICE + e.unsubscribeUrl, UNSUBSCRIBE + e.unsubscribeUrl);
    NothingToReplace(e.textBody, UNSUBSCRIBE + e.unsubscribeUrl);
  }

  /** A stored row that requests update in place. */
  class RowStore {
    var row: Row

    constructor (initial: Row)
      ensures row == initial
    {
      row := initial;
    }

    method Commit(fault: Fault, updated: Row, answer: Answer) returns (reported: Answer)
      modifies this
      ensures row == (if fault.ErrorBefore? then old(row) else updated)
      ensures reported == (if fault.Clean? then answer else Refused)
    {
      if fault.ErrorBefore? {
        return Refused;
      }
      row := updated;
      reported := if fault.ErrorAfter? then Refused else answer;
    }

    method ClaimRecordDelivery(actor: nat, standing: Standing, verdict: Verdict, now: int, fault: Fault)
      returns (answer: Answer)
      requires row.kind.RecordEmail?
      modifies this
      ensures (row, answer) == Faulted(fault, old(row), ClaimSpec(old(row), actor, standing, verdict, now))
    {
      if row.actor != actor {
        return Refused;
      }
      var delivery := row;
      if delivery.status.Sending? && delivery.claimedAt.Some? && delivery.claimedAt.value < now - STALE {
        delivery := delivery.(status := Uncertain);
      }
      if !delivery.status.Prepared? {
        answer := Commit(fault, delivery, Got(delivery, false));
        return;
      }
      if !Writes(standing) {
        return Refused;
      }
      if verdict.Changed? {
        delivery := delivery.(status := Sending, claimedAt := Some(now));
        delivery := Finalized(delivery, Failed);
        answer := Commit(fault, delivery, Got(delivery, false));
        return;
      }
      delivery := delivery.(status := Sending, claimedAt := Some(now));
      answer := Commit(fault, delivery, Got(delivery, true));
    }

    method ClaimQuoteDelivery(actor: nat, standing: Standing, verdict: Verdict, now: int, fault: Fault)
      returns (answer: Answer)
      requires row.kind.DealQuote?
      modifies this
      ensures (row, answer) == Faulted(fault, old(row), ClaimSpec(old(row), actor, standing, verdict, now))
    {
      if !Writes(standing) {
        return Refused;
      }
      if row.actor != actor {
        return Refused;
      }
      var delivery := row;
      if delivery.status.Sending? && delivery.claimedAt.Some? && delivery.claimedAt.value < now - STALE {
        delivery := delivery.(status := Uncertain);
      }
      if !delivery.status.Prepared? {
        answer := Commit(fault, delivery, Got(delivery, false));
        return;
      }
      if verdict.Held? {
        return Refused;
      }
      if verdict.Changed? {
        delivery := delivery.(status := Failed);
        answer := Commit(fault, delivery, Refused);
        return;
      }
      delivery := delivery.(status := Sending, claimedAt := Some(now));
      answer := Commit(fault, delivery, Got(delivery, true));
    }

    method ClaimReply(actor: nat, now: int, fault: Fault) returns (answer: Answer)
      requires row.kind.ThreadReply?
      modifies this
      ensures forall standing, verdict ::
                (row, answer) == Faulted(fault, old(row), ClaimSpec(old(row), actor, standing, verdict, now))
    {
      if row.actor != actor {
        return Refused;
      }
      var request := row;
      if request.status.Sending? && request.claimedAt.Some? && request.claimedAt.value < now - STALE {
        request := request.(status := Uncertain);
      }
      if !request.status.Prepared? {
        answer := Commit(fault, request, Got(request, false));
        return;
      }
      request := request.(status := Sending, claimedAt := Some(now));
      answer := Commit(fault, request, Got(request, true));
    }

    method Complete(fault: Fault) returns (answer: Answer)
      modifies this
      ensures (row, answer) == Faulted(fault, old(row), CompleteSpec(old(row)))
    {
      var delivery := row;
      if !delivery.status.Accepted? {
        if !delivery.status.Sending? && !delivery.status.Uncertain? {
          return Refused;
        }
        delivery := Finalized(delivery, Accepted);
      }
      answer := Commit(fault, delivery, Got(delivery, false));
    }

    method Fail(uncertain: bool, fault: Fault) returns (answer: Answer)
      modifies this
      ensures (row, answer) == Faulted(fault, old(row), FailSpec(old(row), uncertain))
    {
      if !row.status.Sending? {
        return Refused;
      }
      var delivery := row;
      if uncertain {
        delivery := delivery.(status := Uncertain);
      } else {
        delivery := Finalized(delivery, Failed);
      }
      answer := Commit(fault, delivery, Got(delivery, false));
    }

    method Resolve(user: nat, standing: Standing, resolution: Resolution, fault: Fault) returns (answer: Answer)
      modifies this
      ensures (row, answer) == Faulted(fault, old(row), ResolveSpec(old(row), user, standing, resolution))
    {
      if standing.Inactive? {
        return Refused;
      }
      if !row.kind.DealQuote? && !Writes(standing) {
        return Refused;
      }
      if !row.status.Uncertain? {
        return Refused;
      }
      if row.actor != user && !standing.Admin? {
        return Refused;
      }
      if resolution.Retry? && row.actor != user {
        return Refused;
      }
      var delivery := row;
      match resolution {
        case ConfirmedSent => delivery := Finalized(delivery, Accepted);
        case Retry => delivery := delivery.(status := Prepared, claimedAt := None);
        case NotSent => delivery := Finalized(delivery, Failed);
      }
      answer := Commit(fault, delivery, Got(delivery, resolution.Retry?));
    }

    /** Whatever other requests, the recovery pass or an administrator write meanwhile. */
    method Elsewhere(changes: seq<Change>)
      modifies this
      ensures row == ApplyAll(old(row), changes)
    {
      for i := 0 to |changes|
        invariant row == ApplyAll(old(row), changes[..i])
      {
        assert changes[..i + 1][..i] == changes[..i];
        row := Apply(row, changes[i]);
      }
      assert changes[..|changes|] == changes;
    }
  }
}
