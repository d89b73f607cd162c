/** The admin role changes hands only by proposal and acceptance. */
module Custody {
  import opened Types
  import opened Accounts
  import opened Handlers
  import opened Steps
  import opened History
  import opened Preservation
  import opened Policy
  import opened Settings

  // ---- the admin role ----

  predicate MovesRole(step: Step) { step.ProposeAdminIx? || step.AcceptAdminIx? || step.CancelAdminTransferIx? }

  /** Entry i is a successful proposal of key, signed by the admin of its time, and the latest move on the role. */
  predicate ProposedBy(log: seq<Entry>, i: nat, key: Address) {
    && i < |log| && log[i].ok && log[i].step == ProposeAdminIx(log[i].before.config.admin, key)
    && CanSign(log[i].before.config.admin)
    && (forall k :: i < k < |log| ==> !(log[k].ok && MovesRole(log[k].step)))
  }

  /** The role was taken at entry j by the key that holds it, whose proposal at i was signed by its
      predecessor and was neither replaced, withdrawn nor used between; nobody has taken the role since. */
  predicate HandedOver(log: seq<Entry>, i: nat, j: nat, admin: Address) {
    && j < |log| && ProposedBy(log[..j], i, admin)
    && log[j].ok && log[j].step == AcceptAdminIx(admin) && CanSign(admin)
    && (forall k :: j < k < |log| ==> !(log[k].ok && log[k].step.AcceptAdminIx?))
  }

  /** What one step does to the role and to the pending proposal. */
  lemma RoleStep(s: State, step: Step)
    ensures var s' := Next(s, step);
            if MovesRole(step) && Apply(s, step).Ok? then
              match step
              case ProposeAdminIx(admin, newAdmin) =>
                s'.config.admin == s.config.admin == admin && CanSign(admin) && s'.pending == Some(newAdmin)
              case AcceptAdminIx(newAdmin) =>
                s.pending == Some(newAdmin) && CanSign(newAdmin) && s'.config.admin == newAdmin && s'.pending == None
              case CancelAdminTransferIx(admin) =>
                s'.config.admin == s.config.admin == admin && CanSign(admin) && s.pending.Some? && s'.pending == None
            else s'.config.admin == s.config.admin && s'.pending == s.pending
  {
    match step
    case UpdateConfigIx(admin, updates) => UpdatesExactly(s, admin, updates);
    case ProposeAdminIx(admin, newAdmin) => ProposesExactly(s, admin, newAdmin);
    case AcceptAdminIx(newAdmin) => AcceptsExactly(s, newAdmin);
    case CancelAdminTransferIx(admin) => WithdrawsExactly(s, admin);
    case _ => OthersKeepPolicy(s, step);
  }

  lemma RoleEntry(e: Entry)
    requires Faithful(e)
    ensures if MovesRole(e.step) && e.ok then
              match e.step
              case ProposeAdminIx(admin, newAdmin) =>
                e.after.config.admin == e.before.config.admin == admin && CanSign(admin)
                  && e.after.pending == Some(newAdmin)
              case AcceptAdminIx(newAdmin) =>
                e.before.pending == Some(newAdmin) && CanSign(newAdmin) && e.after.config.admin == newAdmin
                  && e.after.pending == None
              case CancelAdminTransferIx(admin) =>
                e.after.config.admin == e.before.config.admin == admin && CanSign(admin)
                  && e.before.pending.Some? && e.after.pending == None
            else e.after.config.admin == e.before.config.admin && e.after.pending == e.before.pending
  {
    RoleStep(e.before, e.step);
  }

  /** The proposal of key ends here: key takes the role, or the admin of the moment withdraws the proposal or
      proposes somebody else. */
  predicate EndsProposal(e: Entry, key: Address) {
    && e.ok && e.before.pending == Some(key)
    && match e.step
       case AcceptAdminIx(newAdmin) => newAdmin == key && CanSign(key)
       case CancelAdminTransferIx(admin) => admin == e.before.config.admin && CanSign(admin)
       case ProposeAdminIx(admin, newAdmin) => admin == e.before.config.admin && CanSign(admin) && newAdmin != key
       case _ => false
  }

  /** A proposal disappears in no other way. Over any run, until it ends in one of the three, the admin who made it
      is still the admin and the proposed key can take the role whenever it signs. */
  lemma {:induction false} ProposalStands(start: State, log: seq<Entry>, key: Address)
    requires IsLog(start, log) && start.pending == Some(key)
    ensures (exists e <- log :: EndsProposal(e, key))
            || (&& Last(start, log).pending == Some(key) && Last(start, log).config.admin == start.config.admin
                && (CanSign(key) ==> Apply(Last(start, log), AcceptAdminIx(key)).Ok?
                                     && Next(Last(start, log), AcceptAdminIx(key)).config.admin == key))
    decreases |log|
  {
    if log != [] {
      var n := |log| - 1;
      LogOfFront(start, log);
      ProposalStands(start, log[..n], key);
      assert forall e <- log[..n] :: e in log;
      assert log[n] in log;
      RoleEntry(log[n]);
    }
    AcceptsExactly(Last(start, log), key);
  }

  /** A pending proposal was signed by the admin of its time and has been the latest move on the role. */
  lemma {:induction false} PendingWasProposed(start: State, log: seq<Entry>) returns (i: nat)
    requires IsLog(start, log) && start.pending == None && Last(start, log).pending.Some?
    ensures ProposedBy(log, i, Last(start, log).pending.value)
    decreases |log|
  {
    var n := |log| - 1;
    LogOfFront(start, log);
    RoleEntry(log[n]);
    if MovesRole(log[n].step) && log[n].ok { i := n; }
    else { i := PendingWasProposed(start, log[..n]); }
  }

  /** Chain of custody: the admin is the initializer, or took the role as HandedOver says. */
  lemma {:induction false} AdminCameByHandover(start: State, authority: Address, args: InitializeConfigArgs,
                                               log: seq<Entry>)
    requires IsGenesis(start, authority, args) && IsLog(start, log)
    ensures var admin := Last(start, log).config.admin;
            admin == authority || exists i: nat, j: nat :: HandedOver(log, i, j, admin)
    decreases |log|
  {
    if log != [] {
      var n := |log| - 1;
      LogOfFront(start, log);
      RoleEntry(log[n]);
      if log[n].step.AcceptAdminIx? && log[n].ok {
        var i := PendingWasProposed(start, log[..n]);
        assert HandedOver(log, i, n, log[n].step.newAdmin);
      } else {
        AdminCameByHandover(start, authority, args, log[..n]);
        var admin := Last(start, log[..n]).config.admin;
        if admin != authority {
          var i: nat, j: nat :| HandedOver(log[..n], i, j, admin);
          assert log[..n][..j] == log[..j];
          assert HandedOver(log, i, j, admin);
        }
      }
    }
  }

  /** A pending proposal never names nobody, and never the admin itself. */
  lemma PendingIsAnotherKey(s: State)
    requires Reachable(s) && s.pending.Some?
    ensures s.pending.value != DEFAULT && s.pending.value != s.config.admin
  {
    ReachableSound(s);
  }
}
