/** The admin's and the customers' handlers that change orders, subscriptions and jobs. */
module Handlers {
  import opened Wrappers
  import opened Store
  import opened Sessions
  import opened Repositories

  /** The retry loop's decision about a job: why running it again now would be wrong. */
  datatype Blocker = AlreadyQueued | NoSubscription | NotWaiting | NotActive

  class AdminHandlers {
    const session: Session
    const orderRepo: OrderRepository
    const subRepo: SubscriptionRepository
    const jobRepo: JobRepository

    constructor (session: Session)
      ensures Valid() && this.session == session
    {
      this.session := session;
      orderRepo := new OrderRepository(session);
      subRepo := new SubscriptionRepository(session);
      jobRepo := new JobRepository(session);
    }

    predicate Valid() {
      orderRepo.session == session && subRepo.session == session && jobRepo.session == session
    }

    /** The approve button. */
    method ApproveOrder(o: Id, days: int) returns (approved: bool)
      requires Valid()
      modifies session
      ensures session.State() == PressApprove(old(session.State()), o, days)
      ensures approved ==> session.committed == session.State()
      ensures !approved ==> session.State() == old(session.State())
    {
      if o !in session.orders || session.orders[o].status !in {ReceiptSubmitted, AwaitingReceipt} {
        return false;
      }
      var ok, sub, job := orderRepo.ApproveOrderAtomic(o, days);
      session.Commit();
      return ok;
    }

    /** `/extend`, for a subscription found by its label. */
    method Extend(s: Id, days: int) returns (extended: bool)
      requires Valid()
      modifies session
      ensures session.State() == Store.Extend(old(session.State()), s, days)
      ensures extended ==> session.committed == session.State()
      ensures extended <==> days != 0 && s in old(session.subs) && old(session.subs[s]).removedAt.None?
                            && old(session.subs[s]).hasPeer
    {
      if days == 0 || s !in session.subs || session.subs[s].removedAt.Some? || !session.subs[s].hasPeer {
        return false;
      }
      var sub := session.subs[s];
      var wasActive := sub.status == Active;
      session.grants := session.grants + [Grant(s, None, days, if days > 0 then Lapsed(sub, session.now) else 0)];
      subRepo.ExtendSubscription(s, days);
      if !wasActive && session.subs[s].status == Active {
        var job := jobRepo.EnqueueJob(EnablePeer, s, AdminExtend);
      }
      session.Commit();
      return true;
    }

    /** `/extend` with the label an admin types: labels are looked up in a column of the subscriptions. */
    method ExtendByLabel(name: string, labels: map<Id, string>, days: int) returns (extended: bool)
      requires Valid() && forall s, t :: s in labels && t in labels && labels[s] == labels[t] ==> s == t
      modifies session
      ensures forall s :: s in old(session.subs) && s in labels && labels[s] == name ==>
                            session.State() == Store.Extend(old(session.State()), s, days)
      ensures (forall s :: s in old(session.subs) && s in labels ==> labels[s] != name) ==>
                !extended && session.State() == old(session.State())
    {
      if days == 0 {
        return false;
      }
      if exists s :: s in session.subs && s in labels && labels[s] == name {
        var s :| s in session.subs && s in labels && labels[s] == name;
        extended := Extend(s, days);
      } else {
        return false;
      }
    }

    /** `retry_blocker`. */
    method RetryBlocker(job: Job) returns (blocker: Option<Blocker>)
      ensures blocker.None? <==> MayRetry(session.State(), job)
    {
      if HasOpenJob(session.jobs, job.kind, job.sub) {
        return Some(AlreadyQueued);
      }
      if job.sub !in session.subs {
        return Some(NoSubscription);
      }
      var sub := session.subs[job.sub];
      if job.kind == CreatePeer && sub.status != Provisioning {
        return Some(NotWaiting);
      }
      if job.kind == EnablePeer && (sub.status != Active || sub.expiresAt <= session.now) {
        return Some(NotActive);
      }
      return None;
    }

    /** The loop of the retry button, over the jobs it loaded. */
    method RetryJobs(js: seq<Id>) returns (queued: nat, skipped: seq<Id>)
      requires Valid() && Distinct(js) && forall j :: j in js ==> j in session.jobs
      modifies session
      ensures session.State() == RetryAll(old(session.State()), js) == session.committed
      ensures queued + |skipped| == |js|
      ensures forall j :: j in js ==>
                j in session.jobs
                && (if j in skipped then session.jobs[j] == old(session.jobs[j])
                    else old(session.jobs[j]).status == PermanentFailure && session.jobs[j].status == Pending)
    {
      hide MayRetry;
      ghost var before := session.State();
      queued, skipped := 0, [];
      for i := 0 to |js|
        invariant session.State() == RetryAll(before, js[..i])
        invariant session.jobs.Keys == before.jobs.Keys
        invariant queued + |skipped| == i
        invariant forall j :: j in skipped ==> j in js[..i]
        invariant forall k :: i <= k < |js| ==> session.jobs[js[k]] == before.jobs[js[k]]
        invariant forall k :: 0 <= k < i ==> Settled(before.jobs, session.jobs, js[k], js[k] in skipped)
      {
        assert js[..i + 1][..i] == js[..i];
        var j := js[i];
        if session.jobs[j].status != PermanentFailure {
          skipped := skipped + [j];
        } else {
          var blocker := RetryBlocker(session.jobs[j]);
          if blocker.Some? {
            skipped := skipped + [j];
          } else {
            jobRepo.Requeue(j);
            queued := queued + 1;
          }
        }
      }
      assert js[..|js|] == js;
      session.Commit();
    }
  }

  /** A job the loop has dealt with. */
  predicate Settled(before: map<Id, Job>, after: map<Id, Job>, j: Id, skipped: bool) {
    j in before && j in after
    && (if skipped then after[j] == before[j] else before[j].status == PermanentFailure && after[j].status == Pending)
  }
}
