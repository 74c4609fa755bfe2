/** What the list of deliveries offers a user to do about each of them. */
module DeliveryView {
  import opened DeliveryStore
  import opened WritePolicy

  datatype View = View(status: Status, sent: bool, ownedByCurrentUser: bool, canRetry: bool, canResolve: bool)

  function ToRecordEmailDeliveryView(row: Row, user: nat, role: string): View {
    var owned := row.actor == user;
    View(row.status, row.status.Accepted?, owned, row.status.Uncertain? && owned,
         row.status.Uncertain? && (owned || IsOrgAdminRole(role)))
  }

  /** The standing of an active member with a role. */
  function StandingOfRole(role: string): Standing {
    if IsOrgAdminRole(role) then Admin else if IsOrgWriterRole(role) then Member else Reader
  }

  predicate Accepts(row: Row, user: nat, role: string, resolution: Resolution) {
    ResolveSpec(row, user, StandingOfRole(role), resolution).1.Got?
  }

  /**
   * For a user with a writing role the view offers exactly what the store accepts. To one without, it still offers
   * the user's own uncertain deliveries, and the store refuses everything.
   */
  lemma ViewOffersWhatIsAccepted(row: Row, user: nat, role: string)
    requires row.kind.RecordEmail?
    ensures var v := ToRecordEmailDeliveryView(row, user, role);
            && v.status == row.status && (v.sent <==> row.status.Accepted?)
            && (v.ownedByCurrentUser <==> row.actor == user)
            && (Accepts(row, user, role, Retry) <==> v.canRetry && IsOrgWriterRole(role))
            && (Accepts(row, user, role, ConfirmedSent) <==> v.canResolve && IsOrgWriterRole(role))
            && (Accepts(row, user, role, NotSent) <==> v.canResolve && IsOrgWriterRole(role))
    ensures var v := ToRecordEmailDeliveryView(row, user, role);
            !IsOrgWriterRole(role) ==>
              (v.canRetry <==> v.canResolve) && (v.canRetry <==> row.status.Uncertain? && row.actor == user)
  {
  }

  /** Taking an offer ends the uncertainty: a retry makes the delivery claimable, the others are final. */
  lemma OffersSettle(row: Row, user: nat, role: string, resolution: Resolution, changes: seq<Change>)
    requires Accepts(row, user, role, resolution)
    ensures var row' := ResolveSpec(row, user, StandingOfRole(role), resolution).0;
            if resolution.Retry? then row'.status.Prepared?
            else
              && ApplyAll(row', changes) == row'
              && ToRecordEmailDeliveryView(row', user, role).sent == resolution.ConfirmedSent?
  {
    RowLifetime(ResolveSpec(row, user, StandingOfRole(role), resolution).0, changes);
  }
}
