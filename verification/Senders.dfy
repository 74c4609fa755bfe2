/**
 * The three request handlers that turn a claimed row into at most one provider call:
 * record emails, quote deliveries and thread replies.
 */
module Senders {
  import opened Basics
  import opened Text
  import opened DeliveryStore

  datatype Message = Message(
    to: string, subject: string, text: string, html: string,
    messageId: string, unsubscribe: string, inReplyTo: string, references: seq<string>)

  /** The provider's word on one call. */
  datatype Outcome = SendAccepted | SendRejected | SendAmbiguous

  /**
   * Everything one run of a sender meets outside itself: its user's standing, the answers of the services it asks,
   * the faults of its store calls, and what others write to the row between its claim, its report and its
   * fallback report.
   */
  datatype Env = Env(
    now: int, standing: Standing, verdict: Verdict, claimFault: Fault,
    account: Option<string>, suppressed: Option<bool>, outcome: Outcome,
    meanwhile: seq<Change>, reportFault: Fault,
    afterwards: seq<Change>, fallbackFault: Fault)

  predicate SameMailbox(fromEmail: string, sender: string) {
    EqualFold(TrimSpace(fromEmail), sender)
  }

  function Compose(kind: Kind, e: Envelope): Message {
    match kind
    case RecordEmail => Message(e.recipient, e.subject, e.textBody, e.htmlBody, e.messageId, e.unsubscribeUrl, "", [])
    case DealQuote => Message(e.recipient, e.subject, e.textBody, "", e.messageId, "", "", [])
    case ThreadReply => Message(e.recipient, e.subject, e.textBody, "", e.messageId, "", e.inReplyTo, e.references)
  }

  class Mailbox {
    var calls: seq<Message>

    constructor ()
      ensures calls == []
    {
      calls := [];
    }

    method SendMessageAs(message: Message, outcome: Outcome) returns (o: Outcome)
      modifies this
      ensures calls == old(calls) + [message] && o == outcome
    {
      calls := calls + [message];
      o := outcome;
    }
  }

  /** The rule all three senders follow, whatever order they ask their questions in. */
  predicate MayCall(e: Envelope, suppressions: bool, env: Env) {
    && env.account.Some? && SameMailbox(env.account.value, e.sender)
    && (suppressions ==> env.suppressed == Some(false))
  }

  function Reported(row: Row, env: Env): Row {
    match env.outcome
    case SendRejected => Faulted(env.reportFault, row, FailSpec(row, false)).0
    case SendAmbiguous => Faulted(env.reportFault, row, FailSpec(row, true)).0
    case SendAccepted =>
      var (done, answer) := Faulted(env.reportFault, row, CompleteSpec(row));
      if answer.Got? then done
      else
        var later := ApplyAll(done, env.afterwards);
        Faulted(env.fallbackFault, later, FailSpec(later, true)).0
  }

  /** One abstract delivery attempt: the row it leaves and the provider calls it makes. */
  function Deliver(row: Row, actor: nat, suppressions: bool, env: Env): (Row, seq<Message>) {
    var (claimed, answer) :=
      Faulted(env.claimFault, row, ClaimSpec(row, actor, env.standing, env.verdict, env.now));
    if answer.Refused? || !answer.shouldSend then (claimed, [])
    else
      var row' := ApplyAll(claimed, env.meanwhile);
      var envelope := answer.row.envelope;
      if MayCall(envelope, suppressions, env) then (Reported(row', env), [Compose(row.kind, envelope)])
      else (Faulted(env.reportFault, row', FailSpec(row', false)).0, [])
  }

  // ---- What an attempt comes to ----

  /** The message is the stored delivery, field by field: only record emails have HTML and a way to unsubscribe,
      only replies belong to a thread. */
  predicate Carries(m: Message, kind: Kind, e: Envelope) {
    && m.to == e.recipient && m.subject == e.subject && m.text == e.textBody && m.messageId == e.messageId
    && (if kind.RecordEmail? then m.html == e.htmlBody && m.unsubscribe == e.unsubscribeUrl
        else m.html == "" && m.unsubscribe == "")
    && (if kind.ThreadReply? then m.inReplyTo == e.inReplyTo && m.references == e.references
        else m.inReplyTo == "" && m.references == [])
  }

  lemma ComposeCarries(kind: Kind, e: Envelope)
    ensures Carries(Compose(kind, e), kind, e)
  {
  }

  /** The provider is called once or not at all: exactly when the claim takes the row and every answer is favourable;
      and what it is given is the delivery as it was stored. */
  lemma AttemptCallsExactly(row: Row, actor: nat, suppressions: bool, env: Env)
    ensures var calls := Deliver(row, actor, suppressions, env).1;
            var writes := env.standing.Member? || env.standing.Admin?;
            && |calls| <= 1
            && (calls != [] ==> Carries(calls[0], row.kind, row.envelope))
            && (calls != [] <==>
                  && row.status.Prepared? && row.actor == actor && env.claimFault.Clean?
                  && (match row.kind
                      case RecordEmail => writes && !env.verdict.Changed?
                      case DealQuote => writes && env.verdict.Valid?
                      case ThreadReply => true)
                  && env.account.Some? && ToLower(TrimSpace(env.account.value)) == ToLower(row.envelope.sender)
                  && (suppressions ==> env.suppressed == Some(false)))
  {
  }

  /** An attempt that takes the row, undisturbed: accepted, failed or uncertain as the provider said, failed without
      a call on an unfavourable answer, and uncertain when an acceptance could not be recorded. */
  lemma AttemptEndsAs(row: Row, actor: nat, suppressions: bool, env: Env)
    requires row.status.Prepared? && row.actor == actor && (env.standing.Member? || env.standing.Admin?)
    requires env.verdict.Valid? && env.claimFault.Clean? && env.meanwhile == [] && env.afterwards == []
    ensures var (r, calls) := Deliver(row, actor, suppressions, env);
            && (env.reportFault.Clean? ==>
                  r.status == if calls == [] || env.outcome.SendRejected? then Failed
                              else if env.outcome.SendAccepted? then Accepted else Uncertain)
            && (calls != [] && env.outcome.SendAccepted? ==>
                  r.status == if !env.reportFault.ErrorBefore? then Accepted
                              else if !env.fallbackFault.ErrorBefore? then Uncertain else Sending)
  {
  }

  /** The common tail: record the provider's word, and fall back to "uncertain" when completion is not recorded. */
  method FinishDelivery(store: RowStore, outcome: Outcome, env: Env)
    requires outcome == env.outcome
    modifies store
    ensures store.row == Reported(old(store.row), env)
  {
    if !outcome.SendAccepted? {
      var _ := store.Fail(outcome.SendAmbiguous?, env.reportFault);
      return;
    }
    var completed := store.Complete(env.reportFault);
    if completed.Refused? {
      store.Elsewhere(env.afterwards);
      var _ := store.Fail(true, env.fallbackFault);
    }
  }

  /** Account, then sender, then suppression; a test email skips the suppression list. */
  method SendRecordEmailDelivery(store: RowStore, mailbox: Mailbox, suppressions: bool, actor: nat, env: Env)
    requires store.row.kind.RecordEmail?
    modifies store, mailbox
    ensures var (row, calls) :=
              Deliver(old(store.row), actor, suppressions && old(store.row).purpose.Customer?, env);
            store.row == row && mailbox.calls == old(mailbox.calls) + calls
  {
    var answer := store.ClaimRecordDelivery(actor, env.standing, env.verdict, env.now, env.claimFault);
    if answer.Refused? || !answer.shouldSend {
      return;
    }
    var claimed := answer.row;
    store.Elsewhere(env.meanwhile);
    if env.account.None? {
      var _ := store.Fail(false, env.reportFault);
      return;
    }
    if !EqualFold(TrimSpace(env.account.value), claimed.envelope.sender) {
      var _ := store.Fail(false, env.reportFault);
      return;
    }
    if claimed.purpose.Customer? && suppressions {
      if env.suppressed.None? {
        var _ := store.Fail(false, env.reportFault);
        return;
      }
      if env.suppressed.value {
        var _ := store.Fail(false, env.reportFault);
        return;
      }
    }
    var e := claimed.envelope;
    var outcome := mailbox.SendMessageAs(
      Message(e.recipient, e.subject, e.textBody, e.htmlBody, e.messageId, e.unsubscribeUrl, "", []), env.outcome);
    FinishDelivery(store, outcome, env);
  }

  /** Suppression, then account, then sender. */
  method SendDealQuoteIntent(store: RowStore, mailbox: Mailbox, suppressions: bool, actor: nat, env: Env)
    requires store.row.kind.DealQuote?
    modifies store, mailbox
    ensures var (row, calls) := Deliver(old(store.row), actor, suppressions, env);
            store.row == row && mailbox.calls == old(mailbox.calls) + calls
  {
    var answer := store.ClaimQuoteDelivery(actor, env.standing, env.verdict, env.now, env.claimFault);
    if answer.Refused? || !answer.shouldSend {
      return;
    }
    var claimed := answer.row;
    store.Elsewhere(env.meanwhile);
    if suppressions {
      if env.suppressed.None? {
        var _ := store.Fail(false, env.reportFault);
        return;
      }
      if env.suppressed.value {
        var _ := store.Fail(false, env.reportFault);
        return;
      }
    }
    if env.account.None? {
      var _ := store.Fail(false, env.reportFault);
      return;
    }
    if !EqualFold(TrimSpace(env.account.value), claimed.envelope.sender) {
      var _ := store.Fail(false, env.reportFault);
      return;
    }
    var e := claimed.envelope;
    var outcome := mailbox.SendMessageAs(
      Message(e.recipient, e.subject, e.textBody, "", e.messageId, "", "", []), env.outcome);
    FinishDelivery(store, outcome, env);
  }

  /** Account, then suppression, then sender. */
  method SendEmailReply(store: RowStore, mailbox: Mailbox, suppressions: bool, actor: nat, env: Env)
    requires store.row.kind.ThreadReply?
    modifies store, mailbox
    ensures var (row, calls) := Deliver(old(store.row), actor, suppressions, env);
            store.row == row && mailbox.calls == old(mailbox.calls) + calls
  {
    var answer := store.ClaimReply(actor, env.now, env.claimFault);
    if answer.Refused? || !answer.shouldSend {
      return;
    }
    var claimed := answer.row;
    store.Elsewhere(env.meanwhile);
    if env.account.None? {
      var _ := store.Fail(false, env.reportFault);
      return;
    }
    if suppressions {
      if env.suppressed.None? {
        var _ := store.Fail(false, env.reportFault);
        return;
      }
      if env.suppressed.value {
        var _ := store.Fail(false, env.reportFault);
        return;
      }
    }
    if !EqualFold(TrimSpace(env.account.value), claimed.envelope.sender) {
      var _ := store.Fail(false, env.reportFault);
      return;
    }
    var e := claimed.envelope;
    var outcome := mailbox.SendMessageAs(
      Message(e.recipient, e.subject, e.textBody, "", e.messageId, "", e.inReplyTo, e.references), env.outcome);
    FinishDelivery(store, outcome, env);
  }
}
